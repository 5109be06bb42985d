/**
 Docker's multiplexed log stream: `strip_docker_log_frames` walks 8-byte frame headers
 and keeps the payloads of the wanted streams.
 */
module LogFrames {
  import opened Bytes

  const HEADER := 8

  /** Bytes 4..7 of a header, big-endian. */
  function SizeField(h: ByteString): nat
    requires |h| >= HEADER
  {
    BigEndian(h[4], h[5], h[6], h[7])
  }

  function BigEndian(b0: nat, b1: nat, b2: nat, b3: nat): nat {
    ((b0 * 256 + b1) * 256 + b2) * 256 + b3
  }

  predicate Wanted(stream: Byte, wantStdout: bool, wantStderr: bool) {
    (stream == 1 && wantStdout) || (stream == 2 && wantStderr) || stream == 0
  }

  /** What the walk returns from a frame boundary on. */
  function Walk(rest: ByteString, out: bool, err: bool): ByteString
    decreases |rest|
  {
    if |rest| < HEADER then []
    else
      var size := SizeField(rest);
      if HEADER + size > |rest| then rest
      else
        var payload := if Wanted(rest[0], out, err) then rest[HEADER..HEADER + size] else [];
        payload + Walk(rest[HEADER + size..], out, err)
  }

  /** A body too short for a header, or not starting with a stream number, is returned as it is. */
  predicate LooksFramed(body: ByteString) {
    |body| >= HEADER && body[0] <= 2
  }

  function Stripped(body: ByteString, out: bool, err: bool): ByteString {
    if LooksFramed(body) then Walk(body, out, err) else body
  }

  lemma Assoc(a: ByteString, b: ByteString, c: ByteString)
    ensures a + (b + c) == (a + b) + c
  {
  }

  /** Where a frame at `pos` ends, whether or not the body reaches that far. */
  function FrameEnd(body: ByteString, pos: nat): nat
    requires pos + HEADER <= |body|
  {
    pos + HEADER + BigEndian(body[pos + 4], body[pos + 5], body[pos + 6], body[pos + 7])
  }

  lemma WalkCut(body: ByteString, pos: nat, out: bool, err: bool)
    requires pos + HEADER <= |body| && FrameEnd(body, pos) > |body|
    ensures Walk(body[pos..], out, err) == body[pos..] + Walk(body[|body|..], out, err)
  {
    assert body[|body|..] == [];
    assert SizeField(body[pos..]) == FrameEnd(body, pos) - pos - HEADER;
  }

  lemma WalkWhole(body: ByteString, pos: nat, next: nat, out: bool, err: bool)
    requires pos + HEADER <= |body| && next == FrameEnd(body, pos) <= |body|
    ensures Walk(body[pos..], out, err) ==
            (if Wanted(body[pos], out, err) then body[pos + HEADER..next] else []) + Walk(body[next..], out, err)
  {
    var rest, size := body[pos..], next - pos - HEADER;
    assert SizeField(rest) == size;
    assert rest[HEADER..HEADER + size] == body[pos + HEADER..next];
    assert rest[HEADER + size..] == body[next..];
  }

  /** One turn of the walk: the bytes to append, and where the walk stands afterwards (the end, for a cut frame). */
  method ReadFrame(body: ByteString, pos: nat, wantStdout: bool, wantStderr: bool) returns (part: ByteString, next: nat)
    requires pos + HEADER <= |body|
    ensures pos < next <= |body|
    ensures Walk(body[pos..], wantStdout, wantStderr) == part + Walk(body[next..], wantStdout, wantStderr)
    ensures var b: seq<int> := body[pos + 4..pos + 8];
            var size := 0x100_0000 * b[0] + 0x1_0000 * b[1] + 0x100 * b[2] + b[3];
            if pos + 8 + size > |body| then part == body[pos..] && next == |body|
            else
              && next == pos + 8 + size
              && part == if body[pos] == 0 || (body[pos] == 1 && wantStdout) || (body[pos] == 2 && wantStderr)
                         then body[pos + 8..next] else []
  {
    var stream := body[pos];
    next := pos + HEADER + BigEndian(body[pos + 4], body[pos + 5], body[pos + 6], body[pos + 7]);
    if next > |body| {
      WalkCut(body, pos, wantStdout, wantStderr);
      return body[pos..], |body|;
    }
    WalkWhole(body, pos, next, wantStdout, wantStderr);
    if (stream == 1 && wantStdout) || (stream == 2 && wantStderr) || stream == 0 {
      part := body[pos + HEADER..next];
    } else {
      part := [];
    }
  }

  method StripDockerLogFrames(body: ByteString, wantStdout: bool, wantStderr: bool) returns (out: ByteString)
    ensures out == Stripped(body, wantStdout, wantStderr)
    ensures |body| < 8 || body[0] > 2 ==> out == body
  {
    if |body| < HEADER {
      return body;
    }
    if body[0] > 2 {
      return body;
    }
    out := [];
    var pos := 0;
    assert body[0..] == body;
    while pos + HEADER <= |body|
      invariant 0 <= pos <= |body|
      invariant Stripped(body, wantStdout, wantStderr) == out + Walk(body[pos..], wantStdout, wantStderr)
      decreases |body| - pos
    {
      var part, next := ReadFrame(body, pos, wantStdout, wantStderr);
      Assoc(out, part, Walk(body[next..], wantStdout, wantStderr));
      out, pos := out + part, next;
    }
  }

  // ---- what Docker sends ----------------------------------------------------------

  /** One frame; the three reserved bytes are not looked at. */
  datatype Frame = Frame(stream: Byte, reserved: ByteString, payload: ByteString)

  predicate WellFormed(f: Frame) {
    |f.reserved| == 3 && |f.payload| < 0x1_0000_0000
  }

  function SizeBytes(n: nat): (b: ByteString)
    requires n < 0x1_0000_0000
    ensures |b| == 4
  {
    [n / 0x100_0000, n / 0x1_0000 % 256, n / 256 % 256, n % 256]
  }

  function Encode(f: Frame): ByteString
    requires WellFormed(f)
  {
    [f.stream] + f.reserved + SizeBytes(|f.payload|) + f.payload
  }

  ghost predicate AllWellFormed(fs: seq<Frame>) {
    forall k | 0 <= k < |fs| :: WellFormed(fs[k])
  }

  function EncodeAll(fs: seq<Frame>): ByteString
    requires AllWellFormed(fs)
  {
    if fs == [] then [] else Encode(fs[0]) + EncodeAll(fs[1..])
  }

  /** The payloads of the wanted streams, in order. */
  function Payloads(fs: seq<Frame>, out: bool, err: bool): ByteString {
    if fs == [] then []
    else
      var kept := match fs[0].stream case 0 => true case 1 => out case 2 => err case _ => false;
      (if kept then fs[0].payload else []) + Payloads(fs[1..], out, err)
  }

  lemma EncodeHeader(f: Frame, tail: ByteString)
    requires WellFormed(f)
    ensures var e := Encode(f);
            && |e| == HEADER + |f.payload|
            && e[0] == f.stream
            && SizeField(e + tail) == |f.payload|
            && (e + tail)[HEADER..HEADER + |f.payload|] == f.payload
            && (e + tail)[HEADER + |f.payload|..] == tail
  {
    var n, b := |f.payload|, SizeBytes(|f.payload|);
    var e := Encode(f);
    assert e[4] == b[0] && e[5] == b[1] && e[6] == b[2] && e[7] == b[3];
    assert n / 0x100_0000 == n / 0x1_0000 / 256;
    assert n / 0x1_0000 == n / 256 / 256;
  }

  lemma WalkFrame(f: Frame, tail: ByteString, out: bool, err: bool)
    requires WellFormed(f)
    ensures Walk(Encode(f) + tail, out, err) ==
            (if Wanted(f.stream, out, err) then f.payload else []) + Walk(tail, out, err)
  {
    EncodeHeader(f, tail);
    var body := Encode(f) + tail;
    assert body[0] == f.stream;
    assert HEADER + SizeField(body) <= |body|;
  }

  /** Whole frames are consumed one by one, whatever follows them. */
  lemma {:induction false} WalkFrames(fs: seq<Frame>, tail: ByteString, out: bool, err: bool)
    requires AllWellFormed(fs)
    ensures Walk(EncodeAll(fs) + tail, out, err) == Payloads(fs, out, err) + Walk(tail, out, err)
  {
    if fs == [] {
      assert EncodeAll(fs) + tail == tail;
    } else {
      var rest := EncodeAll(fs[1..]) + tail;
      Assoc(Encode(fs[0]), EncodeAll(fs[1..]), tail);
      WalkFrame(fs[0], rest, out, err);
      WalkFrames(fs[1..], tail, out, err);
      var first := if Wanted(fs[0].stream, out, err) then fs[0].payload else [];
      Assoc(first, Payloads(fs[1..], out, err), Walk(tail, out, err));
    }
  }

  lemma FramedStart(fs: seq<Frame>, tail: ByteString)
    requires AllWellFormed(fs) && fs != [] && fs[0].stream <= 2
    ensures LooksFramed(EncodeAll(fs) + tail)
  {
    EncodeHeader(fs[0], EncodeAll(fs[1..]) + tail);
  }

  /** A stream Docker may send: it starts with one of the three stream numbers. */
  ghost predicate Sendable(fs: seq<Frame>) {
    AllWellFormed(fs) && (fs != [] ==> fs[0].stream <= 2)
  }

  /** Stripping a framed body gives exactly the wanted payloads, however they were cut into frames. */
  lemma StripRecoversPayloads(fs: seq<Frame>, out: bool, err: bool)
    requires Sendable(fs)
    ensures Stripped(EncodeAll(fs), out, err) == Payloads(fs, out, err)
  {
    WalkFrames(fs, [], out, err);
    assert EncodeAll(fs) + [] == EncodeAll(fs);
    if fs != [] {
      FramedStart(fs, []);
    }
  }

  /** The bytes written to stdout, when every frame is a stdout or stderr frame. */
  function StdoutBytes(fs: seq<Frame>): ByteString {
    if fs == [] then [] else (if fs[0].stream == 1 then fs[0].payload else []) + StdoutBytes(fs[1..])
  }

  lemma {:induction false} StdoutOnly(fs: seq<Frame>)
    requires AllWellFormed(fs) && forall k | 0 <= k < |fs| :: fs[k].stream == 1 || fs[k].stream == 2
    ensures Stripped(EncodeAll(fs), true, false) == StdoutBytes(fs)
  {
    StripRecoversPayloads(fs, true, false);
    StdoutPayloads(fs);
  }

  lemma {:induction false} StdoutPayloads(fs: seq<Frame>)
    requires forall k | 0 <= k < |fs| :: fs[k].stream == 1 || fs[k].stream == 2
    ensures Payloads(fs, true, false) == StdoutBytes(fs)
  {
    if fs != [] {
      StdoutPayloads(fs[1..]);
    }
  }

  /** Stripping distributes over concatenation of whole-frame streams. */
  lemma StripDistributes(a: seq<Frame>, b: seq<Frame>, out: bool, err: bool)
    requires Sendable(a) && Sendable(b)
    ensures Stripped(EncodeAll(a) + EncodeAll(b), out, err) ==
            Stripped(EncodeAll(a), out, err) + Stripped(EncodeAll(b), out, err)
  {
    StripRecoversPayloads(a, out, err);
    StripRecoversPayloads(b, out, err);
    if a == [] {
      assert EncodeAll(a) + EncodeAll(b) == EncodeAll(b);
    } else {
      FramedStart(a, EncodeAll(b));
      WalkFrames(a, EncodeAll(b), out, err);
      WalkFrames(b, [], out, err);
      assert EncodeAll(b) + [] == EncodeAll(b);
    }
  }

  // ---- truncation --------------------------------------------------------------------

  /** How many frames lie entirely within the first `k` bytes. */
  function Complete(fs: seq<Frame>, k: nat): (n: nat)
    requires AllWellFormed(fs)
    ensures n <= |fs|
  {
    if fs == [] || k < |Encode(fs[0])| then 0 else 1 + Complete(fs[1..], k - |Encode(fs[0])|)
  }

  /** `all` cut at `k` is `done` followed by `cut`. */
  ghost predicate CutsInto(all: ByteString, k: nat, done: ByteString, cut: ByteString) {
    k <= |all| && all[..k] == done + cut
  }

  /** The first `k` bytes are the complete frames followed by a proper prefix of the next one. */
  lemma {:induction false} CutPoint(fs: seq<Frame>, k: nat) returns (cut: ByteString)
    requires AllWellFormed(fs) && k <= |EncodeAll(fs)|
    ensures var n := Complete(fs, k);
            && CutsInto(EncodeAll(fs), k, EncodeAll(fs[..n]), cut)
            && (n == |fs| ==> cut == [])
            && (n < |fs| ==> |cut| < |Encode(fs[n])| && cut == Encode(fs[n])[..|cut|])
  {
    if fs == [] {
      cut := [];
    } else if k < |Encode(fs[0])| {
      cut := Encode(fs[0])[..k];
      CutEarly(Encode(fs[0]), EncodeAll(fs[1..]), k);
    } else {
      var size, n := |Encode(fs[0])|, Complete(fs, k);
      cut := CutPoint(fs[1..], k - size);
      assert n == 1 + Complete(fs[1..], k - size);
      assert n < |fs| ==> fs[1..][n - 1] == fs[n];
      EncodeTaken(fs, n);
      CutLater(Encode(fs[0]), EncodeAll(fs[1..]), k - size, EncodeAll(fs[1..][..n - 1]), cut,
               EncodeAll(fs), k, EncodeAll(fs[..n]));
    }
  }

  lemma CutEarly(first: ByteString, rest: ByteString, k: nat)
    requires k <= |first|
    ensures CutsInto(first + rest, k, [], first[..k])
  {
  }

  lemma EncodeTaken(fs: seq<Frame>, n: nat)
    requires AllWellFormed(fs) && 0 < n <= |fs|
    ensures EncodeAll(fs[..n]) == Encode(fs[0]) + EncodeAll(fs[1..][..n - 1])
  {
    assert fs[..n][1..] == fs[1..][..n - 1];
  }

  lemma CutLater(first: ByteString, rest: ByteString, k: nat, done: ByteString, cut: ByteString,
                 all: ByteString, k': nat, done': ByteString)
    requires CutsInto(rest, k, done, cut)
    requires all == first + rest && k' == |first| + k && done' == first + done
    ensures CutsInto(all, k', done', cut)
  {
    assert all[..k'] == first + rest[..k];
  }

  /** A frame cut short is returned raw if its header is whole, and dropped otherwise. */
  lemma WalkCutFrame(f: Frame, cut: ByteString, out: bool, err: bool)
    requires WellFormed(f) && |cut| < |Encode(f)| && cut == Encode(f)[..|cut|]
    ensures Walk(cut, out, err) == if |cut| >= HEADER then cut else []
  {
    if |cut| >= HEADER {
      EncodeHeader(f, []);
      assert Encode(f) + [] == Encode(f);
      assert forall k | 0 <= k < HEADER :: cut[k] == Encode(f)[k];
      assert SizeField(cut) == SizeField(Encode(f));
    }
  }

  /**
   For every truncation of a framed log that leaves at least one header: the wanted payloads of
   the complete frames, then the raw cut frame if at least 8 of its bytes are there.
   */
  lemma StripTruncated(fs: seq<Frame>, k: nat, out: bool, err: bool) returns (cut: ByteString)
    requires Sendable(fs) && HEADER <= k <= |EncodeAll(fs)|
    ensures EncodeAll(fs)[..k] == EncodeAll(fs[..Complete(fs, k)]) + cut
    ensures Stripped(EncodeAll(fs)[..k], out, err) ==
            Payloads(fs[..Complete(fs, k)], out, err) + if |cut| >= HEADER then cut else []
  {
    cut := CutPoint(fs, k);
    var n := Complete(fs, k);
    FramedStart(fs, []);
    assert EncodeAll(fs) + [] == EncodeAll(fs);
    WalkFrames(fs[..n], cut, out, err);
    if n < |fs| {
      WalkCutFrame(fs[n], cut, out, err);
    }
  }
}
