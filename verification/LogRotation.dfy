/**
 The logger's file sink: `log` appends a line and `rotate_if_needed` shifts `file`,
 `file.1`, ... up by one name, dropping the oldest.  File operations succeed in this model.
 */
module LogRotation {
  import opened Bytes
  import opened Sequences

  /** The log directory: index 0 is the open file, index `i` is `file.i`. */
  type Directory = map<nat, ByteString>

  /** The files oldest first, the open one last. */
  type Chain = seq<ByteString>

  /** The directory holds exactly the files of a chain. */
  ghost predicate Holds(dir: Directory, chain: Chain) {
    && |chain| > 0
    && (forall i: nat :: i in dir <==> i < |chain|)
    && forall i: nat | i < |chain| :: dir[i] == chain[|chain| - 1 - i]
  }

  /** `rename(from, to)`: a missing source is an error that is ignored. */
  function Renamed(dir: Directory, from: nat, to: nat): Directory {
    if from in dir then (dir - {from})[to := dir[from]] else dir
  }

  /**
   Halfway through a shift: the names up to `i` are untouched, the name after `i` is vacated, and
   the names beyond hold what was one name below them.
   */
  ghost predicate Shifting(dir: Directory, chain: Chain, i: nat, maxFiles: nat) {
    && (forall k: nat :: k in dir <==> (k <= i && k < |chain|) || (i + 2 <= k < maxFiles && k <= |chain|))
    && (forall k: nat | k in dir :: dir[k] == if k <= i then chain[|chain| - 1 - k] else chain[|chain| - k])
  }

  lemma ShiftOne(dir: Directory, chain: Chain, i: nat, maxFiles: nat)
    requires Shifting(dir, chain, i, maxFiles) && 1 <= i && i + 2 <= maxFiles
    ensures Shifting(Renamed(dir, i, i + 1), chain, i - 1, maxFiles)
  {
  }

  lemma ShiftLast(dir: Directory, chain: Chain, maxFiles: nat)
    requires Shifting(dir, chain, 0, maxFiles) && 2 <= maxFiles && 0 < |chain| <= maxFiles
    ensures Holds(Renamed(dir, 0, 1)[0 := []], (if |chain| >= maxFiles then chain[1..] else chain) + [[]])
  {
  }

  predicate Overflows(maxFileSize: nat, open: ByteString, line: ByteString) {
    |open| + |line| > maxFileSize
  }

  /** The chain after the rotation that makes room for a line, if one is needed. */
  function Rotated(maxFileSize: nat, maxFiles: nat, chain: Chain, line: ByteString): Chain
    requires |chain| > 0
  {
    if !Overflows(maxFileSize, chain[|chain| - 1], line) then chain
    else if maxFiles <= 1 then chain[..|chain| - 1] + [[]]
    else if |chain| >= maxFiles then chain[1..] + [[]]
    else chain + [[]]
  }

  function Appended(chain: Chain, line: ByteString): Chain
    requires |chain| > 0
  {
    chain[|chain| - 1 := chain[|chain| - 1] + line]
  }

  function Logged(maxFileSize: nat, maxFiles: nat, chain: Chain, line: ByteString): (r: Chain)
    requires |chain| > 0
    ensures |r| > 0
  {
    Appended(Rotated(maxFileSize, maxFiles, chain, line), line)
  }

  /** Every file has the next number, those beyond `maxFiles` are gone, and a new empty file is open. */
  ghost predicate MovedUp(dir: Directory, dir': Directory, maxFiles: nat) {
    && 0 in dir' && dir'[0] == []
    && (forall i: nat | i > 0 :: i in dir' <==> i < maxFiles && i - 1 in dir)
    && forall i: nat | i > 0 && i in dir' :: dir'[i] == dir[i - 1]
  }

  lemma RotationMovesUp(chain: Chain, dir: Directory, maxFileSize: nat, maxFiles: nat, line: ByteString)
    requires Holds(dir, chain) && 1 <= |chain| <= maxFiles && Overflows(maxFileSize, chain[|chain| - 1], line)
    ensures forall dir' | Holds(dir', Rotated(maxFileSize, maxFiles, chain, line)) :: MovedUp(dir, dir', maxFiles)
  {
  }

  class Logger {
    const maxFileSize: nat
    const maxFiles: nat
    var dir: Directory
    var currentFileSize: nat

    /** The size counter is the open file's size, and no more files exist than are kept. */
    ghost predicate Valid(chain: Chain)
      reads this
    {
      && Holds(dir, chain)
      && currentFileSize == |chain[|chain| - 1]|
      && |chain| <= maxFiles
    }

    /** Opening over what an earlier process left behind; `rotationMaxFiles` below one counts as one. */
    constructor (maxFileSize: nat, rotationMaxFiles: int, existing: Directory, ghost chain: Chain)
      requires Holds(existing, chain) && |chain| <= if rotationMaxFiles > 0 then rotationMaxFiles else 1
      ensures this.maxFileSize == maxFileSize && this.maxFiles == if rotationMaxFiles > 0 then rotationMaxFiles else 1
      ensures Valid(chain)
    {
      this.maxFileSize := maxFileSize;
      this.maxFiles := if rotationMaxFiles > 0 then rotationMaxFiles else 1;
      dir := existing;
      currentFileSize := |existing[0]|;
    }

    method RotateIfNeeded(incoming: nat, ghost chain: Chain, ghost line: ByteString)
      requires Valid(chain) && |line| == incoming
      modifies this
      ensures Valid(Rotated(maxFileSize, maxFiles, chain, line))
      ensures old(currentFileSize) + incoming <= maxFileSize ==> dir == old(dir)
      ensures old(currentFileSize) + incoming > maxFileSize ==> MovedUp(old(dir), dir, maxFiles)
    {
      if currentFileSize + incoming <= maxFileSize {
        return;
      }
      RotationMovesUp(chain, dir, maxFileSize, maxFiles, line);
      if maxFiles <= 1 {
        dir := dir[0 := []];
        currentFileSize := 0;
        return;
      }
      dir := dir - {maxFiles - 1};
      var i := maxFiles - 2;
      while i >= 1
        invariant 0 <= i <= maxFiles - 2
        invariant Shifting(dir, chain, i, maxFiles)
      {
        ShiftOne(dir, chain, i, maxFiles);
        dir := Renamed(dir, i, i + 1);
        i := i - 1;
      }
      ShiftLast(dir, chain, maxFiles);
      dir := Renamed(dir, 0, 1);
      dir := dir[0 := []];
      currentFileSize := 0;
    }

    /** One line, its newline included. */
    method Log(line: ByteString, ghost chain: Chain)
      requires Valid(chain)
      modifies this
      ensures Valid(Logged(maxFileSize, maxFiles, chain, line))
      ensures var full := old(currentFileSize) + |line| > maxFileSize;
              0 in dir && 0 in old(dir) && dir[0] == (if full then [] else old(dir)[0]) + line
    {
      RotateIfNeeded(|line|, chain, line);
      dir := dir[0 := dir[0] + line];
      currentFileSize := currentFileSize + |line|;
    }
  }

  // ---- sequences of writes ---------------------------------------------------------

  function LogAll(maxFileSize: nat, maxFiles: nat, chain: Chain, lines: seq<ByteString>): (r: Chain)
    requires |chain| > 0
    ensures |r| > 0
  {
    if lines == [] then chain
    else Logged(maxFileSize, maxFiles, LogAll(maxFileSize, maxFiles, chain, lines[..|lines| - 1]), lines[|lines| - 1])
  }

  /**
   The files are consecutive groups of whole entries of `history`, up to its end: file `i` holds
   the entries from `cuts[i]` up to the next cut.
   */
  ghost predicate Groups(chain: Chain, history: seq<ByteString>, cuts: seq<nat>) {
    && |cuts| == |chain| > 0
    && (forall i, j | 0 <= i <= j < |cuts| :: cuts[i] <= cuts[j] <= |history|)
    && (forall i | 0 <= i < |chain| :: chain[i] == Concat(history[cuts[i]..Next(cuts, i, |history|)]))
  }

  function Next(cuts: seq<nat>, i: nat, end: nat): nat
    requires i < |cuts|
  {
    if i + 1 < |cuts| then cuts[i + 1] else end
  }

  lemma GroupsGrow(chain: Chain, history: seq<ByteString>, cuts: seq<nat>)
    requires Groups(chain, history, cuts)
    ensures Groups(chain + [[]], history, cuts + [|history|])
  {
    var h := |history|;
    assert history[h..h] == [];
    var chain', cuts' := chain + [[]], cuts + [h];
    forall i | 0 <= i < |chain'|
      ensures chain'[i] == Concat(history[cuts'[i]..Next(cuts', i, h)])
    {
      assert i < |chain| ==> Next(cuts', i, h) == Next(cuts, i, h);
    }
  }

  lemma GroupsDropOldest(chain: Chain, history: seq<ByteString>, cuts: seq<nat>)
    requires Groups(chain, history, cuts) && |chain| > 1
    ensures Groups(chain[1..], history, cuts[1..])
  {
    var h := |history|;
    forall i | 0 <= i < |chain| - 1
      ensures chain[1..][i] == Concat(history[cuts[1..][i]..Next(cuts[1..], i, h)])
    {
      assert Next(cuts[1..], i, h) == Next(cuts, i + 1, h);
    }
  }

  lemma RotationGroups(maxFileSize: nat, maxFiles: nat, chain: Chain, line: ByteString, history: seq<ByteString>,
                       cuts: seq<nat>)
    returns (cuts': seq<nat>)
    requires Groups(chain, history, cuts) && (maxFiles <= 1 ==> |chain| == 1)
    ensures Groups(Rotated(maxFileSize, maxFiles, chain, line), history, cuts')
    ensures |Rotated(maxFileSize, maxFiles, chain, line)| < maxFiles ==> |chain| < maxFiles && cuts'[0] == cuts[0]
  {
    cuts' := cuts;
    if Overflows(maxFileSize, chain[|chain| - 1], line) {
      GroupsGrow(chain, history, cuts);
      cuts' := cuts + [|history|];
      if |chain| >= maxFiles {
        GroupsDropOldest(chain + [[]], history, cuts');
        cuts' := cuts'[1..];
        assert (chain + [[]])[1..] == chain[1..] + [[]];
        assert |chain| == 1 ==> chain[1..] == chain[..0];
      }
    }
  }

  lemma AppendGroups(chain: Chain, line: ByteString, history: seq<ByteString>, cuts: seq<nat>)
    requires Groups(chain, history, cuts)
    ensures Groups(Appended(chain, line), history + [line], cuts)
  {
    var chain', history', last := Appended(chain, line), history + [line], |chain| - 1;
    forall i | 0 <= i < |chain'|
      ensures chain'[i] == Concat(history'[cuts[i]..Next(cuts, i, |history'|)])
    {
      if i < last {
        assert history'[cuts[i]..cuts[i + 1]] == history[cuts[i]..cuts[i + 1]];
      } else {
        var old_, new_ := history[cuts[i]..], history'[cuts[i]..];
        assert history[cuts[i]..|history|] == old_ && history'[cuts[i]..|history'|] == new_;
        assert new_[..|new_| - 1] == old_;
      }
    }
  }

  /** What earlier processes left and what was logged since, in order. */
  function History(chain: Chain, lines: seq<ByteString>): seq<ByteString> {
    chain + lines
  }

  /** The files are groups of the latest lines; with fewer files than are kept, of all lines. */
  ghost predicate LatestLines(chain: Chain, maxFiles: nat, history: seq<ByteString>, cuts: seq<nat>) {
    Groups(chain, history, cuts) && |chain| <= maxFiles && (|chain| < maxFiles ==> cuts[0] == 0)
  }

  lemma LoggedGroups(maxFileSize: nat, maxFiles: nat, chain: Chain, line: ByteString, history: seq<ByteString>,
                     cuts: seq<nat>)
    returns (cuts': seq<nat>)
    requires LatestLines(chain, maxFiles, history, cuts)
    ensures LatestLines(Logged(maxFileSize, maxFiles, chain, line), maxFiles, history + [line], cuts')
  {
    cuts' := RotationGroups(maxFileSize, maxFiles, chain, line, history, cuts);
    AppendGroups(Rotated(maxFileSize, maxFiles, chain, line), line, history, cuts');
  }

  lemma OneEach(chain: Chain) returns (cuts: seq<nat>)
    requires 1 <= |chain|
    ensures Groups(chain, chain, cuts) && cuts[0] == 0
  {
    cuts := seq(|chain|, i => i);
    forall i | 0 <= i < |chain|
      ensures chain[i] == Concat(chain[cuts[i]..Next(cuts, i, |chain|)])
    {
      var one := chain[i..i + 1];
      assert one == [chain[i]] && one[..0] == [];
    }
  }

  /**
   After any sequence of writes the files, oldest to newest, are a contiguous suffix of everything
   written, cut only between lines, and there are at most `max_files` of them; with fewer nothing has been dropped.
   */
  lemma {:induction false} FilesAreASuffix(maxFileSize: nat, maxFiles: nat, chain: Chain, lines: seq<ByteString>)
    returns (cuts: seq<nat>)
    requires 1 <= |chain| <= maxFiles
    ensures LatestLines(LogAll(maxFileSize, maxFiles, chain, lines), maxFiles, History(chain, lines), cuts)
  {
    if lines == [] {
      cuts := OneEach(chain);
      assert History(chain, lines) == chain;
    } else {
      var last := |lines| - 1;
      var before := LogAll(maxFileSize, maxFiles, chain, lines[..last]);
      cuts := FilesAreASuffix(maxFileSize, maxFiles, chain, lines[..last]);
      var history := History(chain, lines[..last]);
      assert history + [lines[last]] == History(chain, lines);
      cuts := LoggedGroups(maxFileSize, maxFiles, before, lines[last], history, cuts);
    }
  }

  lemma GroupsButNewest(chain: Chain, history: seq<ByteString>, cuts: seq<nat>)
    requires Groups(chain, history, cuts) && |chain| > 1
    ensures var last := |chain| - 1; Groups(chain[..last], history[..cuts[last]], cuts[..last])
  {
    var last := |chain| - 1;
    var h := cuts[last];
    var chain', history', cuts' := chain[..last], history[..h], cuts[..last];
    forall i | 0 <= i < last
      ensures chain'[i] == Concat(history'[cuts'[i]..Next(cuts', i, h)])
    {
      assert Next(cuts', i, h) == cuts[i + 1];
      assert history'[cuts[i]..cuts[i + 1]] == history[cuts[i]..cuts[i + 1]];
    }
  }

  lemma ConcatMiddle(history: seq<ByteString>, from: nat, h: nat)
    requires from <= h <= |history|
    ensures Concat(history[..h][from..]) + Concat(history[h..|history|]) == Concat(history[from..])
  {
    var a, b := history[..h][from..], history[h..|history|];
    ConcatSplit(a, b);
    assert a + b == history[from..];
  }

  /** The same as bytes: the concatenated files end everything written. */
  lemma {:induction false} GroupsConcat(chain: Chain, history: seq<ByteString>, cuts: seq<nat>)
    requires Groups(chain, history, cuts)
    ensures Concat(chain) == Concat(history[cuts[0]..])
  {
    var last := |chain| - 1;
    if last == 0 {
      assert chain[..0] == [];
      assert history[cuts[0]..|history|] == history[cuts[0]..];
    } else {
      GroupsButNewest(chain, history, cuts);
      GroupsConcat(chain[..last], history[..cuts[last]], cuts[..last]);
      ConcatMiddle(history, cuts[0], cuts[last]);
    }
  }

  lemma {:induction false} ConcatSplit(a: seq<ByteString>, b: seq<ByteString>)
    ensures Concat(a + b) == Concat(a) + Concat(b)
  {
    if b == [] {
      assert a + b == a;
    } else {
      var front, last, all := b[..|b| - 1], b[|b| - 1], a + b;
      ConcatSplit(a, front);
      assert all[..|all| - 1] == a + front && all[|all| - 1] == last;
      assert Concat(a) + (Concat(front) + last) == (Concat(a) + Concat(front)) + last;
    }
  }

  ghost predicate FilesAtMost(chain: Chain, bound: nat) {
    forall i | 0 <= i < |chain| :: |chain[i]| <= bound
  }

  /** No file outgrows the limit, except to hold one line that is longer than it. */
  lemma {:induction false} FilesBounded(maxFileSize: nat, maxFiles: nat, chain: Chain, lines: seq<ByteString>,
                                        bound: nat)
    requires |chain| > 0 && maxFileSize <= bound && FilesAtMost(chain, bound)
    requires forall k | 0 <= k < |lines| :: |lines[k]| <= bound
    ensures FilesAtMost(LogAll(maxFileSize, maxFiles, chain, lines), bound)
  {
    if lines != [] {
      FilesBounded(maxFileSize, maxFiles, chain, lines[..|lines| - 1], bound);
    }
  }

  /** Every file but the open one is larger than the limit less one line. */
  ghost predicate ClosedFilesFull(chain: Chain, maxFileSize: nat, longest: nat) {
    forall i | 0 <= i < |chain| - 1 :: |chain[i]| + longest > maxFileSize
  }

  lemma {:induction false} RotatedFilesFull(maxFileSize: nat, maxFiles: nat, chain: Chain, lines: seq<ByteString>,
                                            longest: nat)
    requires |chain| > 0 && ClosedFilesFull(chain, maxFileSize, longest)
    requires forall k | 0 <= k < |lines| :: |lines[k]| <= longest
    ensures ClosedFilesFull(LogAll(maxFileSize, maxFiles, chain, lines), maxFileSize, longest)
  {
    if lines != [] {
      RotatedFilesFull(maxFileSize, maxFiles, chain, lines[..|lines| - 1], longest);
    }
  }
}
