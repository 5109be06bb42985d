/**
 `parse_judge_result_json`: the last line of stdout that starts, after blanks, with `{` and
 parses as a JSON object decides the result.  The JSON library is a parameter.
 */
module ResultParser {
  import opened Options
  import opened Bytes
  import opened LogFrames
  import opened Submissions

  /** As much of a JSON value as the parser looks at; a number carries what `get<int>` gives. */
  datatype Json = Null | Bool(b: bool) | Number(asInt: int) | Text(s: string) | Array(items: seq<Json>)
                | Object(fields: map<string, Json>)

  /** The JSON library: the value a line denotes, or nothing if it throws. */
  type Library = ByteString -> Option<Json>

  datatype CaseResult = CaseResult(index: int, status: string, timeMs: int, memKb: int, info: string,
                                   input: string, expectedOutput: string, actualOutput: string, caseStderr: string)

  datatype JudgeResult = JudgeResult(status: string, timeUsedMs: int, memoryUsedKb: int, errorMessage: string,
                                     failedCaseIndex: int, parsed: bool, caseResults: seq<CaseResult>)

  // ---- reading one object -----------------------------------------------------

  function TextField(o: map<string, Json>, key: string, default: string): string {
    if key in o && o[key].Text? then o[key].s else default
  }

  function IntField(o: map<string, Json>, key: string, default: int): int {
    if key in o && o[key].Number? then o[key].asInt else default
  }

  function CaseOf(o: map<string, Json>): CaseResult {
    CaseResult(IntField(o, "index", 0), TextField(o, "status", ""), IntField(o, "time_ms", 0), IntField(o, "mem_kb", 0),
               TextField(o, "info", ""), TextField(o, "input", ""), TextField(o, "expected_output", ""),
               TextField(o, "actual_output", ""), TextField(o, "stderr", ""))
  }

  /** Elements that are not objects are skipped. */
  function CasesOf(items: seq<Json>): seq<CaseResult> {
    if items == [] then []
    else
      var last := items[|items| - 1];
      CasesOf(items[..|items| - 1]) + if last.Object? then [CaseOf(last.fields)] else []
  }

  function FromObject(o: map<string, Json>): JudgeResult {
    JudgeResult(TextField(o, "status", "se"), IntField(o, "time_used_ms", 0), IntField(o, "memory_used_kb", 0),
                TextField(o, "error_message", ""), IntField(o, "failed_case_index", -1), true,
                if "case_results" in o && o["case_results"].Array? then CasesOf(o["case_results"].items) else [])
  }

  /** What an object's members become, wherever one is missing or of another kind. */
  lemma ObjectReads(o: map<string, Json>)
    ensures var r := FromObject(o);
            && r.parsed
            && r.status == (if "status" in o && o["status"].Text? then o["status"].s else "se")
            && r.timeUsedMs == (if "time_used_ms" in o && o["time_used_ms"].Number? then o["time_used_ms"].asInt else 0)
            && r.memoryUsedKb ==
                 (if "memory_used_kb" in o && o["memory_used_kb"].Number? then o["memory_used_kb"].asInt else 0)
            && r.errorMessage == (if "error_message" in o && o["error_message"].Text? then o["error_message"].s else "")
            && r.failedCaseIndex ==
                 (if "failed_case_index" in o && o["failed_case_index"].Number? then o["failed_case_index"].asInt
                   else -1)
            && ("case_results" !in o || !o["case_results"].Array? ==> r.caseResults == [])
  {
  }

  /** A case result with nothing usable in it, and the members of one whose kinds are right. */
  lemma CaseDefaults(o: map<string, Json>)
    ensures CaseOf(map[]) == CaseResult(0, "", 0, 0, "", "", "", "", "")
    ensures "status" in o && o["status"].Text? ==> CaseOf(o).status == o["status"].s
    ensures "status" in o && !o["status"].Text? ==> CaseOf(o).status == ""
    ensures "index" in o && !o["index"].Number? ==> CaseOf(o).index == 0
  {
  }

  lemma OneCase(x: Json)
    ensures CasesOf([x]) == if x.Object? then [CaseOf(x.fields)] else []
  {
    assert [x][..0] == [];
  }

  /**
   The cases of two stretches of an array follow each other: with `OneCase`, they are those of its objects in order.
   */
  lemma {:induction false} CasesInOrder(a: seq<Json>, b: seq<Json>)
    ensures CasesOf(a + b) == CasesOf(a) + CasesOf(b)
    decreases |b|
  {
    if b == [] {
      assert a + b == a;
    } else {
      var rest, last := b[..|b| - 1], b[|b| - 1];
      assert (a + b)[..|a + b| - 1] == a + rest;
      CasesInOrder(a, rest);
    }
  }

  function Digits(n: nat): string {
    if n < 10 then ["0123456789"[n]] else Digits(n / 10) + ["0123456789"[n % 10]]
  }

  function Decimal(n: int): string {
    if n < 0 then "-" + Digits(-n) else Digits(n)
  }

  // A reader of decimal numerals, independent of the printer.

  predicate IsDigit(c: char) {
    '0' <= c <= '9'
  }

  function ValueOf(digits: string): int {
    if digits == "" then 0 else 10 * ValueOf(digits[..|digits| - 1]) + (digits[|digits| - 1] as int - '0' as int)
  }

  /** Digits only, at least one, and no leading zero. */
  ghost predicate IsNatural(s: string) {
    s != "" && (forall k | 0 <= k < |s| :: IsDigit(s[k])) && (|s| > 1 ==> s[0] != '0')
  }

  ghost predicate IsNumeral(s: string, n: int) {
    if n < 0 then s != "" && s[0] == '-' && IsNatural(s[1..]) && ValueOf(s[1..]) == -n
    else IsNatural(s) && ValueOf(s) == n
  }

  lemma {:induction false} DigitsRead(n: nat)
    ensures IsNatural(Digits(n)) && ValueOf(Digits(n)) == n && (n > 0 ==> Digits(n)[0] != '0')
  {
    if n >= 10 {
      DigitsRead(n / 10);
      var init, last := Digits(n / 10), "0123456789"[n % 10];
      assert Digits(n) == init + [last] && (init + [last])[..|init|] == init;
      assert last as int == '0' as int + n % 10;
    } else {
      assert ["0123456789"[n]][..0] == "";
      assert "0123456789"[n] as int == '0' as int + n;
    }
  }

  lemma DecimalReads(n: int)
    ensures IsNumeral(Decimal(n), n)
  {
    if n < 0 {
      DigitsRead(-n);
      assert ("-" + Digits(-n))[1..] == Digits(-n);
    } else {
      DigitsRead(n);
    }
  }

  lemma {:induction false} ValuePositive(s: string)
    requires IsNatural(s) && s[0] != '0'
    ensures ValueOf(s) >= 1
    decreases |s|
  {
    if |s| > 1 {
      ValuePositive(s[..|s| - 1]);
    } else {
      assert ValueOf(s[..0]) == 0;
    }
  }

  /** A number has one numeral. */
  lemma {:induction false} OneNatural(a: string, b: string)
    requires IsNatural(a) && IsNatural(b) && ValueOf(a) == ValueOf(b)
    ensures a == b
    decreases |a|
  {
    var x, y := a[..|a| - 1], b[..|b| - 1];
    if x != "" {
      ValuePositive(x);
    }
    if y != "" {
      ValuePositive(y);
    }
    assert ValueOf(x) == ValueOf(y) && a[|a| - 1] == b[|b| - 1];
    if x != "" && y != "" {
      OneNatural(x, y);
    }
    assert a == x + [a[|a| - 1]] && b == y + [b[|b| - 1]];
  }

  lemma OneNumeral(a: string, b: string, n: int)
    requires IsNumeral(a, n) && IsNumeral(b, n)
    ensures a == b
  {
    if n < 0 {
      OneNatural(a[1..], b[1..]);
      assert a == ['-'] + a[1..] && b == ['-'] + b[1..];
    } else {
      OneNatural(a, b);
    }
  }

  /** A message with the container's exit code, unless that was zero. */
  ghost predicate WithExitCode(message: string, reason: string, exitCode: int) {
    if exitCode == 0 then message == reason
    else exists n :: IsNumeral(n, exitCode) && message == reason + " (wait exit=" + n + ")"
  }

  /** The answer when there is no result to read: a system error. */
  ghost predicate IsNoResult(r: JudgeResult, logs: ByteString, exitCode: int) {
    && !r.parsed && r.status == "se" && r.timeUsedMs == 0 && r.memoryUsedKb == 0
    && r.failedCaseIndex == -1 && r.caseResults == []
    && WithExitCode(r.errorMessage, if logs == [] then "judge produced no stdout"
         else "judge produced no parseable result JSON", exitCode)
  }

  function NoResult(reason: string, exitCode: int): JudgeResult {
    JudgeResult("se", 0, 0, if exitCode != 0 then reason + " (wait exit=" + Decimal(exitCode) + ")"
      else reason, -1, false, [])
  }

  function Reason(logs: ByteString): string {
    if logs == [] then "judge produced no stdout" else "judge produced no parseable result JSON"
  }

  lemma NoResultFits(logs: ByteString, exitCode: int)
    ensures IsNoResult(NoResult(Reason(logs), exitCode), logs, exitCode)
  {
    DecimalReads(exitCode);
  }

  // ---- lines -------------------------------------------------------------------

  /** The lines of `rest` when `cur` has been read of the first one; carriage returns vanish. */
  function LinesFrom(cur: ByteString, rest: ByteString): seq<ByteString>
    decreases |rest|
  {
    if rest == [] then (if cur == [] then [] else [cur])
    else if rest[0] == NEWLINE then [cur] + LinesFrom([], rest[1..])
    else if rest[0] == CARRIAGE_RETURN then LinesFrom(cur, rest[1..])
    else LinesFrom(cur + [rest[0]], rest[1..])
  }

  function Lines(logs: ByteString): seq<ByteString> {
    LinesFrom([], logs)
  }

  method SplitLines(logs: ByteString) returns (lines: seq<ByteString>)
    ensures lines == Lines(logs)
  {
    lines := [];
    var cur: ByteString := [];
    assert logs[0..] == logs;
    for i := 0 to |logs|
      invariant Lines(logs) == lines + LinesFrom(cur, logs[i..])
    {
      var c := logs[i];
      assert logs[i..][0] == c && logs[i..][1..] == logs[i + 1..];
      if c == NEWLINE {
        assert lines + ([cur] + LinesFrom([], logs[i + 1..])) == lines + [cur] + LinesFrom([], logs[i + 1..]);
        lines := lines + [cur];
        cur := [];
      } else if c != CARRIAGE_RETURN {
        cur := cur + [c];
      }
    }
    if cur != [] {
      lines := lines + [cur];
    }
  }

  // ---- which line decides ----------------------------------------------------------

  const SPACE: Byte := 32
  const TAB: Byte := 9
  const BRACE: Byte := 123

  function Unindented(line: ByteString): ByteString {
    if line != [] && (line[0] == SPACE || line[0] == TAB) then Unindented(line[1..]) else line
  }

  predicate StartsWithBrace(line: ByteString) {
    var u := Unindented(line); u != [] && u[0] == BRACE
  }

  predicate Qualifies(lib: Library, line: ByteString) {
    StartsWithBrace(line) && lib(line).Some? && lib(line).value.Object?
  }

  method LooksLikeObject(line: ByteString) returns (yes: bool)
    ensures yes <==> StartsWithBrace(line)
    ensures yes <==> exists k | 0 <= k < |line| :: line[k] == 123 && forall j | 0 <= j < k :: line[j] in {32, 9}
  {
    var a := 0;
    assert line[0..] == line;
    while a < |line| && (line[a] == SPACE || line[a] == TAB)
      invariant 0 <= a <= |line|
      invariant Unindented(line[a..]) == Unindented(line) && forall j | 0 <= j < a :: line[j] in {SPACE, TAB}
    {
      assert line[a..][1..] == line[a + 1..];
      a := a + 1;
    }
    yes := a < |line| && line[a] == BRACE;
  }

  /** `k` is the last qualifying line. */
  ghost predicate IsLast(lib: Library, lines: seq<ByteString>, k: int) {
    && 0 <= k < |lines| && Qualifies(lib, lines[k])
    && forall j | k < j < |lines| :: !Qualifies(lib, lines[j])
  }

  ghost predicate NoneQualifies(lib: Library, lines: seq<ByteString>) {
    forall j | 0 <= j < |lines| :: !Qualifies(lib, lines[j])
  }

  /** The result as the caller is promised it. */
  ghost predicate IsResult(lib: Library, logs: ByteString, exitCode: int, r: JudgeResult) {
    var lines := Lines(logs);
    && (forall k | IsLast(lib, lines, k) :: r == FromObject(lib(lines[k]).value.fields))
    && (NoneQualifies(lib, lines) ==> IsNoResult(r, logs, exitCode))
  }

  lemma NoneDecides(lib: Library, logs: ByteString, exitCode: int)
    requires NoneQualifies(lib, Lines(logs))
    ensures IsResult(lib, logs, exitCode, NoResult(Reason(logs), exitCode))
  {
    NoResultFits(logs, exitCode);
  }

  lemma OneLast(lib: Library, lines: seq<ByteString>, j: int, k: int)
    requires IsLast(lib, lines, j) && IsLast(lib, lines, k)
    ensures j == k
  {
  }

  lemma LastDecides(lib: Library, logs: ByteString, k: int, exitCode: int)
    requires IsLast(lib, Lines(logs), k)
    ensures !NoneQualifies(lib, Lines(logs))
    ensures IsResult(lib, logs, exitCode, FromObject(lib(Lines(logs)[k]).value.fields))
  {
    var lines := Lines(logs);
    var r := FromObject(lib(lines[k]).value.fields);
    forall j | IsLast(lib, lines, j)
      ensures r == FromObject(lib(lines[j]).value.fields)
    {
      OneLast(lib, lines, j, k);
    }
  }

  method ParseJudgeResult(lib: Library, logs: ByteString, waitExitCode: int) returns (r: JudgeResult)
    ensures IsResult(lib, logs, waitExitCode, r)
    ensures NoneQualifies(lib, Lines(logs)) ==>
              && !r.parsed && r.status == "se" && r.timeUsedMs == 0 && r.memoryUsedKb == 0
              && r.failedCaseIndex == -1 && r.caseResults == []
  {
    if logs == [] {
      NoneDecides(lib, logs, waitExitCode);
      return NoResult(Reason(logs), waitExitCode);
    }
    var lines := SplitLines(logs);
    var i := |lines|;
    while i > 0
      invariant 0 <= i <= |lines|
      invariant forall j | i <= j < |lines| :: !Qualifies(lib, lines[j])
    {
      i := i - 1;
      var candidate := LooksLikeObject(lines[i]);
      if candidate {
        var value := lib(lines[i]);
        if value.Some? && value.value.Object? {
          LastDecides(lib, logs, i, waitExitCode);
          return FromObject(value.value.fields);
        }
      }
    }
    NoneDecides(lib, logs, waitExitCode);
    r := NoResult(Reason(logs), waitExitCode);
  }

  /** Exactly one result meets the promise. */
  lemma ResultUnique(lib: Library, logs: ByteString, exitCode: int, r1: JudgeResult, r2: JudgeResult)
    requires IsResult(lib, logs, exitCode, r1) && IsResult(lib, logs, exitCode, r2)
    ensures r1 == r2
  {
    if !NoneQualifies(lib, Lines(logs)) {
      var k := LastExists(lib, Lines(logs));
    } else if exitCode != 0 {
      var reason := if logs == [] then "judge produced no stdout" else "judge produced no parseable result JSON";
      var m :| IsNumeral(m, exitCode) && r1.errorMessage == reason + " (wait exit=" + m + ")";
      var n :| IsNumeral(n, exitCode) && r2.errorMessage == reason + " (wait exit=" + n + ")";
      OneNumeral(m, n, exitCode);
    }
  }

  lemma {:induction false} LastExists(lib: Library, lines: seq<ByteString>) returns (k: int)
    requires !NoneQualifies(lib, lines)
    ensures IsLast(lib, lines, k)
  {
    k := |lines| - 1;
    if !Qualifies(lib, lines[k]) {
      k := LastExists(lib, lines[..k]);
    }
  }

  // ---- noise around the deciding line --------------------------------------------------

  function WithoutReturns(line: ByteString): ByteString {
    if line == [] then []
    else if line[0] == CARRIAGE_RETURN then WithoutReturns(line[1..])
    else [line[0]] + WithoutReturns(line[1..])
  }

  /** Carriage returns vanish, and nothing else does. */
  lemma {:induction false} OnlyReturnsVanish(a: ByteString, b: ByteString)
    ensures WithoutReturns(a + [13] + b) == WithoutReturns(a + b)
    ensures 13 !in a ==> WithoutReturns(a) == a
    decreases |a|
  {
    if a == [] {
      assert a + [13] + b == [13] + b && a + b == b;
    } else {
      assert (a + [13] + b)[1..] == a[1..] + [13] + b && (a + b)[1..] == a[1..] + b;
      OnlyReturnsVanish(a[1..], b);
    }
  }

  lemma {:induction false} OneLine(cur: ByteString, line: ByteString, after: ByteString)
    requires NEWLINE !in line
    ensures LinesFrom(cur, line + [NEWLINE] + after) == [cur + WithoutReturns(line)] + Lines(after)
    decreases |line|
  {
    var all := line + [NEWLINE] + after;
    if line == [] {
      assert all[1..] == after;
      assert cur + [] == cur;
    } else {
      assert all[1..] == line[1..] + [NEWLINE] + after;
      if line[0] == CARRIAGE_RETURN {
        OneLine(cur, line[1..], after);
      } else {
        OneLine(cur + [line[0]], line[1..], after);
        assert cur + [line[0]] + WithoutReturns(line[1..]) == cur + ([line[0]] + WithoutReturns(line[1..]));
      }
    }
  }

  lemma {:induction false} LinesAfterNewline(cur: ByteString, before: ByteString, after: ByteString)
    ensures LinesFrom(cur, before + [NEWLINE] + after) == LinesFrom(cur, before + [NEWLINE]) + Lines(after)
    decreases |before|
  {
    var all, part := before + [NEWLINE] + after, before + [NEWLINE];
    if before == [] {
      assert all[1..] == after && part[1..] == [];
    } else {
      assert all[1..] == before[1..] + [NEWLINE] + after && part[1..] == before[1..] + [NEWLINE];
      if before[0] == NEWLINE {
        LinesAfterNewline([], before[1..], after);
        assert [cur] + (LinesFrom([], part[1..]) + Lines(after)) == [cur] + LinesFrom([], part[1..]) + Lines(after);
      } else if before[0] == CARRIAGE_RETURN {
        LinesAfterNewline(cur, before[1..], after);
      } else {
        LinesAfterNewline(cur + [before[0]], before[1..], after);
      }
    }
  }

  /** A last line without its newline is a line too, unless nothing of it is left. */
  lemma {:induction false} UnendedLine(cur: ByteString, line: ByteString)
    requires NEWLINE !in line
    ensures LinesFrom(cur, line) == if cur + WithoutReturns(line) == [] then [] else [cur + WithoutReturns(line)]
    decreases |line|
  {
    if line == [] {
      assert cur + [] == cur;
    } else if line[0] == CARRIAGE_RETURN {
      UnendedLine(cur, line[1..]);
    } else {
      UnendedLine(cur + [line[0]], line[1..]);
      assert cur + [line[0]] + WithoutReturns(line[1..]) == cur + ([line[0]] + WithoutReturns(line[1..]));
    }
  }

  /** Output before the deciding line: nothing, or anything that ends its own last line. */
  function Prefix(noise: Option<ByteString>): ByteString {
    if noise.Some? then noise.value + [NEWLINE] else []
  }

  /** Output after the deciding line: nothing, not even its newline, or its newline and anything. */
  function Suffix(after: Option<ByteString>): ByteString {
    if after.Some? then [NEWLINE] + after.value else []
  }

  function LinesOf(after: Option<ByteString>): seq<ByteString> {
    if after.Some? then Lines(after.value) else []
  }

  lemma LastLines(line: ByteString, after: Option<ByteString>)
    requires NEWLINE !in line && WithoutReturns(line) != []
    ensures Lines(line + Suffix(after)) == [WithoutReturns(line)] + LinesOf(after)
  {
    assert [] + WithoutReturns(line) == WithoutReturns(line);
    if after.Some? {
      OneLine([], line, after.value);
      assert line + Suffix(after) == line + [NEWLINE] + after.value;
    } else {
      UnendedLine([], line);
      assert line + Suffix(after) == line;
    }
  }

  lemma LinesPrefixed(noise: Option<ByteString>, rest: ByteString)
    ensures Lines(Prefix(noise) + rest) == Lines(Prefix(noise)) + Lines(rest)
  {
    if noise.Some? {
      LinesAfterNewline([], noise.value, rest);
      assert Prefix(noise) + rest == noise.value + [NEWLINE] + rest;
    } else {
      assert Prefix(noise) + rest == rest;
    }
  }

  lemma LinesAround(noise: Option<ByteString>, line: ByteString, after: Option<ByteString>)
    requires NEWLINE !in line && WithoutReturns(line) != []
    ensures Lines(Prefix(noise) + (line + Suffix(after))) ==
              Lines(Prefix(noise)) + [WithoutReturns(line)] + LinesOf(after)
  {
    LastLines(line, after);
    LinesPrefixed(noise, line + Suffix(after));
  }

  lemma LastAmong(lib: Library, before: seq<ByteString>, line: ByteString, after: seq<ByteString>)
    requires Qualifies(lib, line) && NoneQualifies(lib, after)
    ensures IsLast(lib, before + [line] + after, |before|)
  {
    var lines, k := before + [line] + after, |before|;
    assert lines[k] == line;
    assert forall j | k < j < |lines| :: lines[j] == after[j - k - 1];
  }

  lemma NoiseIgnored(lib: Library, noise: Option<ByteString>, line: ByteString, after: Option<ByteString>,
                     exitCode: int, r: JudgeResult)
    requires NEWLINE !in line && Qualifies(lib, WithoutReturns(line)) && NoneQualifies(lib, LinesOf(after))
    requires IsResult(lib, Prefix(noise) + (line + Suffix(after)), exitCode, r)
    ensures r == FromObject(lib(WithoutReturns(line)).value.fields)
  {
    LinesAround(noise, line, after);
    LastAmong(lib, Lines(Prefix(noise)), WithoutReturns(line), LinesOf(after));
  }

  /**
   From the container to the verdict: however Docker cuts the output into frames and mixes in
   stderr, and whatever surrounds the line judge.sh ends with, that line alone decides, as long
   as no later stdout line qualifies.
   */
  lemma VerdictThroughFrames(lib: Library, fs: seq<Frame>, noise: Option<ByteString>, line: ByteString,
                             after: Option<ByteString>,
                             exitCode: int, r: JudgeResult)
    requires AllWellFormed(fs) && forall k | 0 <= k < |fs| :: fs[k].stream == 1 || fs[k].stream == 2
    requires StdoutBytes(fs) == Prefix(noise) + (line + Suffix(after))
    requires NEWLINE !in line && Qualifies(lib, WithoutReturns(line)) && NoneQualifies(lib, LinesOf(after))
    requires IsResult(lib, Stripped(EncodeAll(fs), true, false), exitCode, r)
    ensures r == FromObject(lib(WithoutReturns(line)).value.fields)
  {
    StdoutOnly(fs);
    NoiseIgnored(lib, noise, line, after, exitCode, r);
  }

  // ---- from the reported status to the row -------------------------------------------------

  /** The reported status as the table's ENUM sees it. */
  function StatusOf(text: string): (s: Status)
    ensures s.Other? ==> s.text == text
  {
    match text
    case "pending" => Pending
    case "running" => Running
    case "ac" => Ac
    case "wa" => Wa
    case "re" => Re
    case "tle" => Tle
    case "mle" => Mle
    case "ole" => Ole
    case "pe" => Pe
    case "ce" => Ce
    case "se" => Se
    case _ => Other(text)
  }

  /** What a parsed result hands to `mark_finished`. */
  function OutcomeOf(r: JudgeResult): Outcome {
    Outcome(StatusOf(r.status), Some(r.timeUsedMs), Some(r.memoryUsedKb), r.errorMessage)
  }

  /** Reading a status string gives the status that is spelled so, and `mark_finished` accepts exactly the nine. */
  lemma StatusSpelled(text: string)
    ensures Spelled(StatusOf(text)) == text
    ensures IsVerdict(StatusOf(text)) <==> text in {"ac", "wa", "re", "tle", "mle", "ole", "pe", "ce", "se"}
    ensures IsTerminalStatus(StatusOf(text)) <==> text != "pending" && text != "running"
  {
  }

  /** Different strings are different statuses, so reading a status loses nothing. */
  lemma StatusOfInjective(a: string, b: string)
    requires StatusOf(a) == StatusOf(b)
    ensures a == b
  {
    StatusSpelled(a);
    StatusSpelled(b);
  }
}
