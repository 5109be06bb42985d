/**
 From judge.sh to the row: the envelope the judge prints as its last line, through Docker's
 framing, the parser and one pass of `run_one_task`, into the submission's row.
 */
module JudgedRow {
  import opened Options
  import opened Bytes
  import opened Submissions
  import opened LogFrames
  import opened ResultParser
  import Pipeline
  import RunTask

  /** One test case as judge.sh reports it; `info` may be null. */
  datatype CaseReport = CaseReport(index: int, status: string, timeMs: int, memKb: int, info: Option<string>,
                                   input: string, expectedOutput: string, actualOutput: string, stderr: string)

  /** The documented envelope; the error message and the failed case may be null. */
  datatype Report = Report(submissionId: int, status: string, timeUsedMs: int, memoryUsedKb: int,
                           errorMessage: Option<string>, failedCaseIndex: Option<int>, cases: seq<CaseReport>)

  function TextOrNull(o: Option<string>): Json {
    if o.Some? then Text(o.value) else Null
  }

  function CaseObject(c: CaseReport): Json {
    Object(map["index" := Number(c.index), "status" := Text(c.status), "time_ms" := Number(c.timeMs),
               "mem_kb" := Number(c.memKb), "info" := TextOrNull(c.info), "input" := Text(c.input),
               "expected_output" := Text(c.expectedOutput), "actual_output" := Text(c.actualOutput),
                 "stderr" := Text(c.stderr)])
  }

  function CaseObjects(cases: seq<CaseReport>): seq<Json> {
    seq(|cases|, k requires 0 <= k < |cases| => CaseObject(cases[k]))
  }

  function Envelope(r: Report): map<string, Json> {
    map["submission_id" := Number(r.submissionId), "status" := Text(r.status), "time_used_ms" := Number(r.timeUsedMs),
        "memory_used_kb" := Number(r.memoryUsedKb), "error_message" := TextOrNull(r.errorMessage),
        "failed_case_index" := if r.failedCaseIndex.Some? then Number(r.failedCaseIndex.value) else Null,
        "case_results" := Array(CaseObjects(r.cases))]
  }

  function TextOrEmpty(o: Option<string>): string {
    if o.Some? then o.value else ""
  }

  /** A parsed case says what the report said. */
  ghost predicate SameCase(c: CaseResult, r: CaseReport) {
    && c.index == r.index && c.status == r.status && c.timeMs == r.timeMs && c.memKb == r.memKb
    && c.info == TextOrEmpty(r.info) && c.input == r.input && c.expectedOutput == r.expectedOutput
    && c.actualOutput == r.actualOutput && c.caseStderr == r.stderr
  }

  ghost predicate SameReport(j: JudgeResult, r: Report) {
    && j.parsed && j.status == r.status && j.timeUsedMs == r.timeUsedMs && j.memoryUsedKb == r.memoryUsedKb
    && j.errorMessage == TextOrEmpty(r.errorMessage)
    && j.failedCaseIndex == (if r.failedCaseIndex.Some? then r.failedCaseIndex.value else -1)
    && |j.caseResults| == |r.cases|
    && forall k | 0 <= k < |r.cases| :: SameCase(j.caseResults[k], r.cases[k])
  }

  lemma CaseReads(c: CaseReport)
    ensures CaseObject(c).Object? && SameCase(CaseOf(CaseObject(c).fields), c)
  {
  }

  lemma {:induction false} CasesRead(cases: seq<CaseReport>)
    ensures var read := CasesOf(CaseObjects(cases));
            |read| == |cases| && forall k | 0 <= k < |cases| :: SameCase(read[k], cases[k])
  {
    if cases != [] {
      var last := |cases| - 1;
      CasesRead(cases[..last]);
      CaseReads(cases[last]);
      assert CaseObjects(cases)[..last] == CaseObjects(cases[..last]);
    }
  }

  /** What the envelope's own fields are read as. */
  lemma FieldsRead(r: Report)
    ensures var o := Envelope(r);
            && TextField(o, "status", "se") == r.status
            && IntField(o, "time_used_ms", 0) == r.timeUsedMs && IntField(o, "memory_used_kb", 0) == r.memoryUsedKb
            && TextField(o, "error_message", "") == TextOrEmpty(r.errorMessage)
            && IntField(o, "failed_case_index", -1) == (if r.failedCaseIndex.Some? then r.failedCaseIndex.value else -1)
  {
  }

  lemma CasesFieldRead(r: Report)
    ensures "case_results" in Envelope(r) && Envelope(r)["case_results"] == Array(CaseObjects(r.cases))
  {
  }

  /** Reading the documented envelope loses nothing: nulls become the defaults, everything else arrives. */
  lemma EnvelopeReads(r: Report)
    ensures SameReport(FromObject(Envelope(r)), r)
  {
    FieldsRead(r);
    CasesFieldRead(r);
    CasesRead(r.cases);
    EnvelopeParts(Envelope(r), r);
  }

  lemma EnvelopeParts(o: map<string, Json>, r: Report)
    requires TextField(o, "status", "se") == r.status
    requires IntField(o, "time_used_ms", 0) == r.timeUsedMs && IntField(o, "memory_used_kb", 0) == r.memoryUsedKb
    requires TextField(o, "error_message", "") == TextOrEmpty(r.errorMessage)
    requires IntField(o, "failed_case_index", -1) == if r.failedCaseIndex.Some? then r.failedCaseIndex.value else -1
    requires "case_results" in o && o["case_results"] == Array(CaseObjects(r.cases))
    requires var read := CasesOf(CaseObjects(r.cases));
             |read| == |r.cases| && forall k | 0 <= k < |r.cases| :: SameCase(read[k], r.cases[k])
    ensures SameReport(FromObject(o), r)
  {
  }

  /** The row says what the report said. */
  ghost predicate RowReports(row: Row, r: Report, now: int) {
    && Spelled(row.status) == r.status && row.timeUsed == Some(r.timeUsedMs) && row.memoryUsed == Some(r.memoryUsedKb)
    && row.errorMessage == (if TextOrEmpty(r.errorMessage) == "" then None else r.errorMessage)
    && row.finishedAt == Some(now)
  }

  lemma ReportStored(j: JudgeResult, r: Report, p: RunTask.Plan, rows: Table, id: int)
    requires SameReport(j, r) && p.result == OutcomeOf(j)
    requires RunTask.Wins(p, rows, id) && !RunTask.GivesUp(p) && Pipeline.TakesEffect(p.write)
    ensures var rows' := RunTask.PassRows(true, p, rows, id);
            && rows'.Keys == rows.Keys && (forall k | k in rows && k != id :: rows'[k] == rows[k])
            && if r.status in VERDICTS then RowReports(rows'[id], r, p.now)
               else rows'[id] == rows[id].(status := Running)
  {
    StatusSpelled(r.status);
  }

  /** The published row says what the report said; a time or memory that is not positive is left out. */
  ghost predicate EventReports(e: Pipeline.Event, r: Report) {
    && Spelled(e.status) == r.status
    && e.errorMessage == (if TextOrEmpty(r.errorMessage) == "" then None else r.errorMessage)
    && e.timeUsed == (if r.timeUsedMs > 0 then Some(r.timeUsedMs) else None)
    && e.memoryUsed == (if r.memoryUsedKb > 0 then Some(r.memoryUsedKb) else None)
  }

  /**
   What a lone pass that wins and gets through tells the world about that report: it is published exactly when the
   status is one of the nine and the write was answered, with the task's own data, and the user is checked in exactly
   when the status is `ac`.
   */
  lemma ReportAnnounced(s: Pipeline.State, i: nat, r: Report, j: JudgeResult, p: RunTask.Plan)
    requires RunTask.OnTask(s, i, p) && s.workers[i].Entered? && s.cfg.hasClient
    requires SameReport(j, r) && p.result == OutcomeOf(j)
    requires RunTask.Wins(p, s.db.rows, s.workers[i].task.id) && !RunTask.GivesUp(p)
    ensures var t, o, o' := s.workers[i].task, s.outbox, RunTask.Solo(s, i, p).outbox;
            var told := p.write.Answered? && r.status in VERDICTS;
            && |o'.published| == |o.published| + (if told then 1 else 0) && o.published <= o'.published
            && |o'.checkins| == |o.checkins| + (if told && r.status == "ac" then 1 else 0) && o.checkins <= o'.checkins
            && (told ==> var e := o'.published[|o.published|];
                  && EventReports(e, r) && e.id == t.id && e.user == t.user && e.problem == t.problem
                  && e.language == t.language && e.code == t.code)
            && (told && r.status == "ac" ==> var v := o'.checkins[|o.checkins|];
                  v.user == t.user && v.problem == t.problem && v.id == t.id)
  {
    RunTask.SoloEffect(s, i, p);
    StatusSpelled(r.status);
  }

  /**
   End to end.  However Docker cuts judge.sh's output into frames and mixes in stderr, and whatever
   is printed around the report's line, a pass that wins its claim, gets through and writes leaves
   the report in the row, or the row `running` when the reported status is not a verdict.
   */
  lemma ReportReachesRow(lib: Library, fs: seq<Frame>, noise: Option<ByteString>, line: ByteString,
                         after: Option<ByteString>,
                         exitCode: int, r: Report, j: JudgeResult, p: RunTask.Plan, rows: Table, id: int)
    requires AllWellFormed(fs) && forall k | 0 <= k < |fs| :: fs[k].stream == 1 || fs[k].stream == 2
    requires StdoutBytes(fs) == Prefix(noise) + (line + Suffix(after))
    requires NEWLINE !in line && StartsWithBrace(WithoutReturns(line)) && NoneQualifies(lib, LinesOf(after))
    requires lib(WithoutReturns(line)) == Some(Object(Envelope(r)))
    requires IsResult(lib, Stripped(EncodeAll(fs), true, false), exitCode, j) && p.result == OutcomeOf(j)
    requires RunTask.Wins(p, rows, id) && !RunTask.GivesUp(p) && Pipeline.TakesEffect(p.write)
    ensures var rows' := RunTask.PassRows(true, p, rows, id);
            && rows'.Keys == rows.Keys && (forall k | k in rows && k != id :: rows'[k] == rows[k])
            && if r.status in VERDICTS then RowReports(rows'[id], r, p.now)
               else rows'[id] == rows[id].(status := Running)
  {
    VerdictThroughFrames(lib, fs, noise, line, after, exitCode, j);
    EnvelopeReads(r);
    ReportStored(j, r, p, rows, id);
  }
}
