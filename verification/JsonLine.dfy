/**
 The logger's JSON line printer, against a scanner for one-line JSON objects of strings
 written from section 7 of RFC 8259.
 */
module JsonLine {
  import opened Options
  import opened Bytes

  const QUOTE: Byte := 34
  const BACKSLASH: Byte := 92
  const COMMA: Byte := 44
  const COLON: Byte := 58
  const OPEN: Byte := 123
  const CLOSE: Byte := 125

  // ---- the printer --------------------------------------------------------------

  function HexDigit(n: nat): Byte
    requires n < 16
  {
    if n < 10 then 48 + n else 97 + (n - 10)
  }

  function EscapeByte(c: Byte): ByteString {
    if c == QUOTE then [BACKSLASH, QUOTE]
    else if c == BACKSLASH then [BACKSLASH, BACKSLASH]
    else if c == 8 then [BACKSLASH, 98]
    else if c == 12 then [BACKSLASH, 102]
    else if c == 10 then [BACKSLASH, 110]
    else if c == 13 then [BACKSLASH, 114]
    else if c == 9 then [BACKSLASH, 116]
    else if c < 0x20 then [BACKSLASH, 117, 48, 48, HexDigit(c / 16), HexDigit(c % 16)]
    else [c]
  }

  /** Bytes from the space on stand for themselves, but for the quote and the backslash; below it, escapes. */
  lemma EscapedForms(c: Byte)
    ensures c >= 32 && c != 34 && c != 92 ==> EscapeByte(c) == [c]
    ensures EscapeByte(34) == [92, 34] && EscapeByte(92) == [92, 92] && EscapeByte(8) == [92, 98]
    ensures EscapeByte(9) == [92, 116] && EscapeByte(10) == [92, 110] && EscapeByte(12) == [92, 102]
    ensures EscapeByte(13) == [92, 114]
    ensures c < 32 && c !in {8, 9, 10, 12, 13} ==>
              var low := c % 16;
              EscapeByte(c) == [92, 117, 48, 48, 48 + c / 16, if low <= 9 then 48 + low else 87 + low]
  {
  }

  function Escape(s: ByteString): ByteString {
    if s == [] then [] else EscapeByte(s[0]) + Escape(s[1..])
  }

  datatype Field = Field(key: ByteString, value: ByteString)

  function RenderField(f: Field): ByteString {
    [QUOTE] + Escape(f.key) + [QUOTE, COLON, QUOTE] + Escape(f.value) + [QUOTE]
  }

  /** Each field after the first is preceded by a comma. */
  function RenderFields(fs: seq<Field>, needsComma: bool): ByteString {
    if fs == [] then []
    else (if needsComma then [COMMA] else []) + RenderField(fs[0]) + RenderFields(fs[1..], true)
  }

  function Render(fs: seq<Field>): ByteString {
    [OPEN] + RenderFields(fs, false) + [CLOSE]
  }

  lemma Regroup(start: ByteString, a: ByteString, b: ByteString, c: ByteString, d: ByteString, e: ByteString)
    ensures start + (a + b + c + d + e) == start + a + b + c + d + e
  {
  }

  method AppendJsonEscaped(out: ByteString, text: ByteString) returns (r: ByteString)
    ensures r == out + Escape(text)
  {
    r := out;
    assert text[0..] == text;
    for i := 0 to |text|
      invariant r + Escape(text[i..]) == out + Escape(text)
    {
      var c := text[i];
      assert text[i..][0] == c && text[i..][1..] == text[i + 1..];
      assert r + (EscapeByte(c) + Escape(text[i + 1..])) == r + EscapeByte(c) + Escape(text[i + 1..]);
      r := r + EscapeByte(c);
    }
  }

  method AppendKvJson(out: ByteString, f: Field, needsComma: bool) returns (r: ByteString)
    ensures r == out + (if needsComma then [COMMA] else []) + RenderField(f)
  {
    r := out;
    if needsComma {
      r := r + [COMMA];
    }
    Regroup(r, [QUOTE], Escape(f.key), [QUOTE, COLON, QUOTE], Escape(f.value), [QUOTE]);
    r := r + [QUOTE];
    r := AppendJsonEscaped(r, f.key);
    r := r + [QUOTE, COLON, QUOTE];
    r := AppendJsonEscaped(r, f.value);
    r := r + [QUOTE];
  }

  function Ascii(s: string): ByteString {
    seq(|s|, k requires 0 <= k < |s| => s[k] as int % 256)
  }

  // The constant names.
  const TS: ByteString := Ascii("ts")
  const LEVEL: ByteString := Ascii("level")
  const LOGGER: ByteString := Ascii("logger")
  const LITECODE: ByteString := Ascii("litecode")
  const MSG: ByteString := Ascii("msg")
  const REQUEST_ID: ByteString := Ascii("request_id")

  /** The fields of a line in the order they are printed. */
  function LineFields(ts: ByteString, level: ByteString, msg: ByteString, requestId: Option<ByteString>,
                      fields: seq<Field>): seq<Field> {
    [Field(TS, ts), Field(LEVEL, level), Field(LOGGER, LITECODE), Field(MSG, msg)] +
    (if requestId.Some? then [Field(REQUEST_ID, requestId.value)] else []) + fields
  }

  /** Which value stands under which name. */
  ghost predicate Says(fs: seq<Field>, ts: ByteString, level: ByteString, msg: ByteString,
                       requestId: Option<ByteString>,
                       fields: seq<Field>) {
    var own := if requestId.Some? then 5 else 4;
    && |fs| == own + |fields| && fs[own..] == fields
    && fs[0] == Field(Ascii("ts"), ts) && fs[1] == Field(Ascii("level"), level)
    && fs[2] == Field(Ascii("logger"), Ascii("litecode")) && fs[3] == Field(Ascii("msg"), msg)
    && (requestId.Some? ==> fs[4] == Field(Ascii("request_id"), requestId.value))
  }

  /** A partly printed line. */
  ghost predicate Printed(line: ByteString, fs: seq<Field>) {
    fs != [] && line == [OPEN] + RenderFields(fs, false)
  }

  /** One more field on a partly printed line. */
  method PrintField(line: ByteString, f: Field, ghost fs: seq<Field>) returns (r: ByteString)
    requires Printed(line, fs)
    ensures Printed(r, fs + [f])
  {
    r := AppendKvJson(line, f, true);
    RenderAppend(fs, f, false);
    Regroup3([OPEN], RenderFields(fs, false), [COMMA], RenderField(f));
  }

  lemma Regroup3(start: ByteString, a: ByteString, b: ByteString, c: ByteString)
    ensures start + (a + b + c) == start + a + b + c
  {
  }

  /** The JSON branch of `format_line`. */
  method FormatLine(ts: ByteString, level: ByteString, msg: ByteString, requestId: Option<ByteString>,
                    fields: seq<Field>)
    returns (line: ByteString)
    ensures line == Render(LineFields(ts, level, msg, requestId, fields))
    ensures ScanObject(line).Some? && Says(ScanObject(line).value, ts, level, msg, requestId, fields)
  {
    line := AppendKvJson([OPEN], Field(TS, ts), false);
    ghost var done := [Field(TS, ts)];
    assert RenderFields(done, false) == [] + RenderField(done[0]) + RenderFields([], true);
    line := PrintField(line, Field(LEVEL, level), done);
    done := done + [Field(LEVEL, level)];
    line := PrintField(line, Field(LOGGER, LITECODE), done);
    done := done + [Field(LOGGER, LITECODE)];
    line := PrintField(line, Field(MSG, msg), done);
    done := done + [Field(MSG, msg)];
    if requestId.Some? {
      line := PrintField(line, Field(REQUEST_ID, requestId.value), done);
      done := done + [Field(REQUEST_ID, requestId.value)];
    }
    ghost var head := done;
    assert head + fields == LineFields(ts, level, msg, requestId, fields);
    line := PrintAll(line, fields, head);
    line := line + [CLOSE];
    LineSays(ts, level, msg, requestId, fields);
  }

  lemma LineSays(ts: ByteString, level: ByteString, msg: ByteString, requestId: Option<ByteString>, fields: seq<Field>)
    ensures var read := ScanObject(Render(LineFields(ts, level, msg, requestId, fields)));
            read.Some? && Says(read.value, ts, level, msg, requestId, fields)
  {
    RenderScans(LineFields(ts, level, msg, requestId, fields));
    if requestId.Some? {
      assert LineFields(ts, level, msg, requestId, fields)[5..] == fields;
    } else {
      assert LineFields(ts, level, msg, requestId, fields)[4..] == fields;
    }
  }

  method PrintAll(line: ByteString, fields: seq<Field>, ghost head: seq<Field>) returns (r: ByteString)
    requires Printed(line, head)
    ensures Printed(r, head + fields)
  {
    r := line;
    assert head + fields[..0] == head;
    for i := 0 to |fields|
      invariant Printed(r, head + fields[..i])
    {
      r := PrintField(r, fields[i], head + fields[..i]);
      assert head + fields[..i] + [fields[i]] == head + fields[..i + 1];
    }
    assert fields[..|fields|] == fields;
  }

  lemma {:induction false} RenderAppend(fs: seq<Field>, f: Field, needsComma: bool)
    requires fs != [] || needsComma
    ensures RenderFields(fs + [f], needsComma) == RenderFields(fs, needsComma) + [COMMA] + RenderField(f)
  {
    if fs == [] {
      assert fs + [f] == [f];
    } else {
      assert (fs + [f])[1..] == fs[1..] + [f];
      RenderAppend(fs[1..], f, true);
    }
  }

  // ---- the scanner -----------------------------------------------------------------

  datatype Scan<T> = Stuck | Read(value: T, rest: ByteString)

  function HexValue(c: Byte): Option<nat> {
    if 48 <= c <= 57 then Some(c - 48)
    else if 97 <= c <= 102 then Some(c - 87)
    else if 65 <= c <= 70 then Some(c - 55)
    else None
  }

  /** An escape sequence after its backslash; `\u` sequences denote ASCII here. */
  function ScanEscape(s: ByteString): (r: Scan<Byte>)
    ensures r.Read? ==> |r.rest| < |s|
  {
    if s == [] then Stuck
    else match s[0]
      case 34 => Read(34, s[1..])
      case 92 => Read(92, s[1..])
      case 47 => Read(47, s[1..])
      case 98 => Read(8, s[1..])
      case 102 => Read(12, s[1..])
      case 110 => Read(10, s[1..])
      case 114 => Read(13, s[1..])
      case 116 => Read(9, s[1..])
      case 117 =>
        if |s| < 5 || s[1] != 48 || s[2] != 48 || HexValue(s[3]).None? || HexValue(s[4]).None? then Stuck
        else
          var code := HexValue(s[3]).value * 16 + HexValue(s[4]).value;
          if code < 128 then Read(code, s[5..]) else Stuck
      case _ => Stuck
  }

  /** A string after its opening quote; raw control bytes are not allowed in it. */
  function ScanString(s: ByteString): (r: Scan<ByteString>)
    ensures r.Read? ==> |r.rest| < |s|
    decreases |s|
  {
    if s == [] || s[0] < 0x20 then Stuck
    else if s[0] == QUOTE then Read([], s[1..])
    else if s[0] == BACKSLASH then
      match ScanEscape(s[1..])
      case Stuck => Stuck
      case Read(c, rest) =>
        (match ScanString(rest)
         case Stuck => Stuck
         case Read(more, tail) => Read([c] + more, tail))
    else
      match ScanString(s[1..])
      case Stuck => Stuck
      case Read(more, tail) => Read([s[0]] + more, tail)
  }

  function Expect(s: ByteString, c: Byte): (r: Scan<()>)
    ensures r.Read? ==> |r.rest| < |s|
  {
    if s != [] && s[0] == c then Read((), s[1..]) else Stuck
  }

  function ScanField(s: ByteString): (r: Scan<Field>)
    ensures r.Read? ==> |r.rest| < |s|
  {
    var a := Expect(s, QUOTE);
    if a.Stuck? then Stuck else
    var key := ScanString(a.rest);
    if key.Stuck? then Stuck else
    var b := Expect(key.rest, COLON);
    if b.Stuck? then Stuck else
    var c := Expect(b.rest, QUOTE);
    if c.Stuck? then Stuck else
    var value := ScanString(c.rest);
    if value.Stuck? then Stuck else Read(Field(key.value, value.value), value.rest)
  }

  /** Fields up to the closing brace. */
  function ScanFields(s: ByteString, first: bool): Scan<seq<Field>>
    decreases |s|
  {
    if s != [] && s[0] == CLOSE then Read([], s[1..])
    else
      var start := if first then s else if s != [] && s[0] == COMMA then s[1..] else [];
      match ScanField(start)
      case Stuck => Stuck
      case Read(f, rest) =>
        match ScanFields(rest, false)
        case Stuck => Stuck
        case Read(more, tail) => Read([f] + more, tail)
  }

  function ScanObject(s: ByteString): Option<seq<Field>> {
    if s == [] || s[0] != OPEN then None
    else
      var r := ScanFields(s[1..], true);
      if r.Read? && r.rest == [] then Some(r.value) else None
  }

  // ---- printing and scanning ----------------------------------------------------------

  lemma EscapeByteScans(c: Byte, tail: ByteString)
    ensures var e := EscapeByte(c) + tail;
            && e != [] && e[0] >= 0x20 && e[0] != QUOTE
            && (if e[0] == BACKSLASH then ScanEscape(e[1..]) == Read(c, tail) else e[0] == c && e[1..] == tail)
  {
    var e := EscapeByte(c) + tail;
    if c < 0x20 && |EscapeByte(c)| == 6 {
      assert e[1..] == [117, 48, 48, HexDigit(c / 16), HexDigit(c % 16)] + tail;
      assert e[1..][5..] == tail;
      assert HexValue(HexDigit(c / 16)) == Some(c / 16) && HexValue(HexDigit(c % 16)) == Some(c % 16);
    } else if |EscapeByte(c)| == 2 {
      assert e[1..][1..] == tail;
    }
  }

  lemma {:induction false} EscapedScans(s: ByteString, tail: ByteString)
    ensures ScanString(Escape(s) + [QUOTE] + tail) == Read(s, tail)
    decreases |s|
  {
    var all := Escape(s) + [QUOTE] + tail;
    if s == [] {
      assert all[1..] == tail;
    } else {
      var rest := Escape(s[1..]) + [QUOTE] + tail;
      assert all == EscapeByte(s[0]) + rest;
      EscapeByteScans(s[0], rest);
      EscapedScans(s[1..], tail);
      assert [s[0]] + s[1..] == s;
    }
  }

  /** The five parts of a field, scanned one after another. */
  lemma FieldParts(s: ByteString, atKey: ByteString, key: ByteString, atValue: ByteString, value: ByteString,
                   rest: ByteString)
    requires s == [QUOTE] + atKey && ScanString(atKey) == Read(key, [COLON] + ([QUOTE] + atValue))
    requires ScanString(atValue) == Read(value, rest)
    ensures ScanField(s) == Read(Field(key, value), rest) && s[0] == QUOTE
  {
    assert s[1..] == atKey;
    assert ([COLON] + ([QUOTE] + atValue))[1..] == [QUOTE] + atValue;
    assert ([QUOTE] + atValue)[1..] == atValue;
  }

  /** The printed field, regrouped the way it is scanned. */
  lemma FieldRegrouped(f: Field, tail: ByteString)
    ensures var atValue := Escape(f.value) + [QUOTE] + tail;
            RenderField(f) + tail == [QUOTE] + (Escape(f.key) + [QUOTE] + ([COLON] + ([QUOTE] + atValue)))
  {
    RegroupField([QUOTE], Escape(f.key), [QUOTE], [COLON], [QUOTE], Escape(f.value), [QUOTE], tail);
    assert [QUOTE, COLON, QUOTE] == [QUOTE] + [COLON] + [QUOTE];
  }

  lemma RegroupField(a: ByteString, b: ByteString, c1: ByteString, c2: ByteString, c3: ByteString, d: ByteString,
                     e: ByteString,
                     tail: ByteString)
    ensures (a + b + (c1 + c2 + c3) + d + e) + tail == a + (b + c1 + (c2 + (c3 + (d + e + tail))))
  {
  }

  lemma FieldScans(f: Field, tail: ByteString)
    ensures ScanField(RenderField(f) + tail) == Read(f, tail)
    ensures (RenderField(f) + tail)[0] == QUOTE
  {
    var atValue := Escape(f.value) + [QUOTE] + tail;
    var afterKey := [COLON] + ([QUOTE] + atValue);
    FieldRegrouped(f, tail);
    EscapedScans(f.key, afterKey);
    EscapedScans(f.value, tail);
    FieldParts(RenderField(f) + tail, Escape(f.key) + [QUOTE] + afterKey, f.key, atValue, f.value, tail);
  }

  /** One field at the head of a list. */
  lemma FieldsStep(s: ByteString, first: bool, f: Field, rest: ByteString, more: seq<Field>)
    requires s == (if first then [] else [COMMA]) + (RenderField(f) + rest)
    requires ScanFields(rest, false) == Read(more, [])
    ensures ScanFields(s, first) == Read([f] + more, [])
  {
    FieldScans(f, rest);
    var start := RenderField(f) + rest;
    if first {
      assert s == start;
    } else {
      assert s[1..] == start;
    }
  }

  lemma RenderHead(fs: seq<Field>, first: bool)
    requires fs != []
    ensures RenderFields(fs, !first) + [CLOSE] ==
            (if first then [] else [COMMA]) + (RenderField(fs[0]) + (RenderFields(fs[1..], true) + [CLOSE]))
  {
  }

  lemma {:induction false} FieldsScan(fs: seq<Field>, first: bool)
    ensures ScanFields(RenderFields(fs, !first) + [CLOSE], first) == Read(fs, [])
    decreases |fs|
  {
    if fs == [] {
      assert RenderFields(fs, !first) + [CLOSE] == [CLOSE];
    } else {
      FieldsScan(fs[1..], false);
      RenderHead(fs, first);
      FieldsStep(RenderFields(fs, !first) + [CLOSE], first, fs[0], RenderFields(fs[1..], true) + [CLOSE], fs[1..]);
      assert [fs[0]] + fs[1..] == fs;
    }
  }

  /** Scanning a printed line recovers exactly the fields that were printed, for all byte strings. */
  lemma RenderScans(fs: seq<Field>)
    ensures ScanObject(Render(fs)) == Some(fs)
  {
    FieldsScan(fs, true);
    assert Render(fs)[1..] == RenderFields(fs, false) + [CLOSE];
  }

  // ---- one line per record ------------------------------------------------------------

  ghost predicate Printable(s: ByteString) {
    forall k | 0 <= k < |s| :: s[k] >= 0x20
  }

  lemma {:induction false} EscapePrintable(s: ByteString)
    ensures Printable(Escape(s))
  {
    if s != [] {
      EscapePrintable(s[1..]);
    }
  }

  lemma FieldPrintable(f: Field)
    ensures Printable(RenderField(f))
  {
    EscapePrintable(f.key);
    EscapePrintable(f.value);
  }

  lemma {:induction false} FieldsPrintable(fs: seq<Field>, needsComma: bool)
    ensures Printable(RenderFields(fs, needsComma))
  {
    if fs != [] {
      FieldPrintable(fs[0]);
      FieldsPrintable(fs[1..], true);
    }
  }

  /** A printed line holds no raw control byte, whatever was logged. */
  lemma RenderPrintable(fs: seq<Field>)
    ensures Printable(Render(fs))
  {
    FieldsPrintable(fs, false);
  }

  /** The log file: every record's line, each ended by a newline. */
  function File(records: seq<seq<Field>>): ByteString {
    if records == [] then [] else Render(records[0]) + [NEWLINE] + File(records[1..])
  }

  lemma FirstNewline(line: ByteString, rest: ByteString, k: nat)
    requires Printable(line)
    requires k < |line + [NEWLINE] + rest| && (line + [NEWLINE] + rest)[k] == NEWLINE
    ensures |line| <= k
  {
    assert forall j | 0 <= j < |line| :: (line + [NEWLINE] + rest)[j] == line[j];
  }

  lemma SameFirstLine(a: ByteString, b: ByteString, restA: ByteString, restB: ByteString)
    requires Printable(a) && Printable(b) && a + [NEWLINE] + restA == b + [NEWLINE] + restB
    ensures a == b && restA == restB
  {
    var fa, fb := a + [NEWLINE] + restA, b + [NEWLINE] + restB;
    assert fa[|a|] == NEWLINE && fb[|b|] == NEWLINE;
    FirstNewline(b, restB, |a|);
    FirstNewline(a, restA, |b|);
    assert a == fa[..|a|] && b == fb[..|b|];
    assert restA == fa[|a| + 1..] && restB == fb[|b| + 1..];
  }

  /** A log file determines the records written to it: newlines split it back uniquely. */
  lemma {:induction false} FileDeterminesRecords(a: seq<seq<Field>>, b: seq<seq<Field>>)
    requires File(a) == File(b)
    ensures a == b
    decreases |a|
  {
    if a != [] && b != [] {
      RenderPrintable(a[0]);
      RenderPrintable(b[0]);
      SameFirstLine(Render(a[0]), Render(b[0]), File(a[1..]), File(b[1..]));
      RenderScans(a[0]);
      RenderScans(b[0]);
      FileDeterminesRecords(a[1..], b[1..]);
      assert a == [a[0]] + a[1..] && b == [b[0]] + b[1..];
    }
  }
}
