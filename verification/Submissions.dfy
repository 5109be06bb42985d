/**
 The `submissions` table: a row moves `pending -> running -> verdict` and is
 changed only by guarded single-statement updates.  The functions are the
 statements' effects on the table; the class is the repository that issues them.
 */
module Submissions {
  import opened Options

  /** The column's ENUM spelled as constructors; `Other` is every string outside it. */
  datatype Status = Pending | Running | Ac | Wa | Re | Tle | Mle | Ole | Pe | Ce | Se | Other(text: string)

  predicate IsValidStatus(s: Status) {
    !s.Other?
  }

  predicate IsTerminalStatus(s: Status) {
    !s.Pending? && !s.Running?
  }

  /** What `mark_finished` accepts: one of the nine verdicts. */
  predicate IsVerdict(s: Status) {
    IsValidStatus(s) && IsTerminalStatus(s)
  }

  /** The ENUM's own spelling of a status. */
  function Spelled(s: Status): string {
    match s
    case Pending => "pending"
    case Running => "running"
    case Ac => "ac"
    case Wa => "wa"
    case Re => "re"
    case Tle => "tle"
    case Mle => "mle"
    case Ole => "ole"
    case Pe => "pe"
    case Ce => "ce"
    case Se => "se"
    case Other(text) => text
  }

  const OPEN_STATUSES: set<string> := {"pending", "running"}
  const VERDICTS: set<string> := {"ac", "wa", "re", "tle", "mle", "ole", "pe", "ce", "se"}

  datatype Row = Row(status: Status, createdAt: int, finishedAt: Option<int>,
                     timeUsed: Option<int>, memoryUsed: Option<int>, errorMessage: Option<string>)

  type Table = map<int, Row>

  /** What a verdict update writes. */
  datatype Outcome = Outcome(status: Status, timeUsed: Option<int>, memoryUsed: Option<int>, errorMessage: string)

  function NewRow(now: int): Row {
    Row(Pending, now, None, None, None, None)
  }

  /** The guard `status = 'pending'`. */
  predicate Claimable(t: Table, id: int) {
    id in t && t[id].status == Pending
  }

  /** The guard `status IN ('pending','running')`. */
  predicate Open(t: Table, id: int) {
    id in t && !IsTerminalStatus(t[id].status)
  }

  function Claimed(t: Table, id: int): Table {
    if Claimable(t, id) then t[id := t[id].(status := Running)] else t
  }

  function FinishedRow(row: Row, o: Outcome, now: int): Row {
    row.(status := o.status, timeUsed := o.timeUsed, memoryUsed := o.memoryUsed,
         errorMessage := if o.errorMessage == "" then None else Some(o.errorMessage),
         finishedAt := Some(now))
  }

  /** The row shows this outcome. */
  predicate Shows(row: Row, o: Outcome) {
    && row.status == o.status && row.timeUsed == o.timeUsed && row.memoryUsed == o.memoryUsed
    && row.errorMessage == if o.errorMessage == "" then None else Some(o.errorMessage)
  }

  function Finished(t: Table, id: int, o: Outcome, now: int): Table {
    if Open(t, id) then t[id := FinishedRow(t[id], o, now)] else t
  }

  /** The rows a sweep with this cutoff flips back to pending. */
  function Stuck(t: Table, cutoff: int): set<int> {
    set id | id in t && t[id].status == Running && t[id].createdAt < cutoff
  }

  function Swept(t: Table, cutoff: int): Table {
    map id | id in t :: if id in Stuck(t, cutoff) then t[id].(status := Pending) else t[id]
  }

  /** `finished_at` is set exactly when the status is terminal, and the status is in the ENUM. */
  ghost predicate RowsWellFormed(t: Table) {
    forall id | id in t :: IsValidStatus(t[id].status) && (t[id].finishedAt.Some? <==> IsTerminalStatus(t[id].status))
  }

  /** Every terminal row of `t` is in `u`, unchanged. */
  ghost predicate TerminalRowsKept(t: Table, u: Table) {
    forall id | id in t && IsTerminalStatus(t[id].status) :: id in u && u[id] == t[id]
  }

  const MIN_CODE_LENGTH := 1
  const MAX_CODE_LENGTH := 15 * 1024 * 1024

  predicate Submittable(language: string, codeLength: nat, user: int, problem: int) {
    language in {"c", "cpp"} && MIN_CODE_LENGTH <= codeLength <= MAX_CODE_LENGTH && user > 0 && problem > 0
  }

  datatype Answer<T> = Thrown | Returned(value: T)

  class SubmissionRepo {
    var rows: Table

    constructor ()
      ensures rows == map[]
    {
      rows := map[];
    }

    /**
     Throws on a bad field and answers 0 for an unknown user or problem; otherwise stores a pending row under the
     new id.
     */
    method Create(language: string, codeLength: nat, user: int, problem: int, known: bool, id: int, now: int)
      returns (r: Answer<int>)
      requires id > 0 && id !in rows
      requires RowsWellFormed(rows)
      modifies this
      ensures r.Thrown? <==> !Submittable(language, codeLength, user, problem)
      ensures r.Returned? <==>
                (language == "c" || language == "cpp") && 1 <= codeLength <= 15_728_640 && user > 0 && problem > 0
      ensures r.Returned? ==> r.value == if known then id else 0
      ensures rows == if r.Returned? && known then old(rows)[id := NewRow(now)] else old(rows)
      ensures r.Returned? && known ==> rows[id] == Row(Pending, now, None, None, None, None)
      ensures RowsWellFormed(rows) && TerminalRowsKept(old(rows), rows)
    {
      if language != "c" && language != "cpp" {
        return Thrown;
      }
      if codeLength < MIN_CODE_LENGTH || codeLength > MAX_CODE_LENGTH {
        return Thrown;
      }
      if user <= 0 || problem <= 0 {
        return Thrown;
      }
      if !known {
        return Returned(0);
      }
      rows := rows[id := NewRow(now)];
      r := Returned(id);
    }

    /** Answers whether this caller won the row. */
    method MarkRunning(id: int) returns (claimed: bool)
      requires RowsWellFormed(rows)
      modifies this
      ensures claimed <==> old(Claimable(rows, id))
      ensures claimed <==> id in old(rows) && old(rows)[id].status == Pending
      ensures rows == Claimed(old(rows), id)
      ensures rows == if claimed then old(rows)[id := old(rows)[id].(status := Running)] else old(rows)
      ensures claimed ==> !Claimable(rows, id)
      ensures RowsWellFormed(rows) && TerminalRowsKept(old(rows), rows)
    {
      claimed := id in rows && rows[id].status == Pending;
      if claimed {
        rows := rows[id := rows[id].(status := Running)];
      }
    }

    /** Throws on anything but a verdict; otherwise answers whether the row flipped. */
    method MarkFinished(id: int, o: Outcome, now: int) returns (r: Answer<bool>)
      requires RowsWellFormed(rows)
      modifies this
      ensures r.Thrown? <==> !IsVerdict(o.status)
      ensures r.Thrown? <==> Spelled(o.status) !in VERDICTS || o.status.Other?
      ensures r.Thrown? ==> rows == old(rows)
      ensures r.Returned? ==> rows == Finished(old(rows), id, o, now) && (r.value <==> old(Open(rows, id)))
      ensures r.Returned? ==> (r.value <==> id in old(rows) && Spelled(old(rows)[id].status) in OPEN_STATUSES)
      ensures r.Returned? && !r.value ==> rows == old(rows)
      ensures r.Returned? && r.value ==>
                && rows == old(rows)[id := rows[id]] && rows[id].createdAt == old(rows)[id].createdAt
                && rows[id].status == o.status && rows[id].timeUsed == o.timeUsed && rows[id].memoryUsed == o.memoryUsed
                && rows[id].errorMessage == (if o.errorMessage == "" then None else Some(o.errorMessage))
                && rows[id].finishedAt == Some(now)
      ensures r.Returned? && id in rows ==> IsTerminalStatus(rows[id].status)
      ensures RowsWellFormed(rows) && TerminalRowsKept(old(rows), rows)
    {
      if !IsValidStatus(o.status) || !IsTerminalStatus(o.status) {
        return Thrown;
      }
      var flipped := id in rows && !IsTerminalStatus(rows[id].status);
      if flipped {
        var message := if o.errorMessage == "" then None else Some(o.errorMessage);
        rows := rows[id := rows[id].(status := o.status, timeUsed := o.timeUsed, memoryUsed := o.memoryUsed,
                                     errorMessage := message, finishedAt := Some(now))];
      }
      r := Returned(flipped);
    }

    /** Throws below one second; otherwise answers the number of rows put back. */
    method RequeueStuckRunning(stuckAfterSeconds: int, now: int) returns (r: Answer<nat>)
      requires RowsWellFormed(rows)
      modifies this
      ensures r.Thrown? <==> stuckAfterSeconds < 1
      ensures r.Thrown? ==> rows == old(rows)
      ensures r.Returned? ==> var cutoff := now - stuckAfterSeconds;
                              rows == Swept(old(rows), cutoff) && r.value == |Stuck(old(rows), cutoff)|
      ensures r.Returned? ==> rows.Keys == old(rows.Keys) && forall id | id in rows ::
                                var row := old(rows)[id];
                                rows[id] == if row.status == Running && row.createdAt + stuckAfterSeconds < now
                                            then row.(status := Pending) else row
      ensures RowsWellFormed(rows) && TerminalRowsKept(old(rows), rows)
    {
      if stuckAfterSeconds < 1 {
        return Thrown;
      }
      var cutoff := now - stuckAfterSeconds;
      var stuck := set id | id in rows && rows[id].status == Running && rows[id].createdAt < cutoff;
      assert stuck == Stuck(rows, cutoff);
      rows := map id | id in rows :: if id in stuck then rows[id].(status := Pending) else rows[id];
      r := Returned(|stuck|);
    }
  }
}
