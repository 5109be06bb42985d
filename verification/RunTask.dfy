/**
 `run_one_task` as a worker executes it: one pass over one task, for every pattern of
 database and Docker outcomes.  The pass is first given as the path a lone worker takes
 through the transition system of Pipeline; the imperative methods are proved to follow
 it, and what the pass leaves behind is read off the outcomes.
 */
module RunTask {
  import opened Options
  import opened Submissions
  import opened Containers
  import opened Pipeline
  import opened PipelineInvariants
  import opened PipelineTheorems

  /** How each outside call of one pass turns out. */
  datatype Plan = Plan(claim: Reply, staged: bool, pool: Option<Cid>, discarded: bool, made: CreateReply,
                       launched: bool, exited: bool, removed: bool, result: Outcome, write: Reply,
                       message: string, now: int)

  /** What a worker inside the task body does next when the calls turn out as planned. */
  function ActFor(w: Worker, hasClient: bool, p: Plan): Act
    requires InBody(w) && !w.Leaving?
  {
    match w
    case Entered(_) => if hasClient then Claim(p.claim) else RejectNoClient
    case Staging(_) => Stage(p.staged)
    case Pooling(_) => AskPool(p.pool)
    case Discarding(_, _) => Discard(p.discarded)
    case Creating(_, _) => MakeBox(p.made)
    case Starting(_, _, _) => Launch(p.launched)
    case Awaiting(_, _, _) => Await(p.exited)
    case Killing(_, _, _) => KillBox
    case Reading(_, _, _) => ReadLogs(p.result)
    case Removing(_, _, _, _) => RemoveBox(p.removed)
    case Writing(_, _, _) => WriteBack(p.write, p.message, p.now)
    case CheckingIn(_, _, _) => CheckIn
    case Publishing(_, _, _) => Publish
    case Cleaning(_, _, _) => CleanUp
  }

  /** How far a worker is from leaving the task body. */
  function Distance(w: Worker): nat {
    match w
    case Entered(_) => 13
    case Staging(_) => 12
    case Pooling(_) => 11
    case Discarding(_, _) => 10
    case Creating(_, _) => 9
    case Starting(_, _, _) => 8
    case Awaiting(_, _, _) => 7
    case Killing(_, _, _) => 6
    case Reading(_, _, _) => 6
    case Removing(_, _, _, _) => 5
    case Writing(_, _, _) => 4
    case CheckingIn(_, _, _) => 3
    case Publishing(_, _, _) => 2
    case Cleaning(_, _, _) => 1
    case _ => 0
  }

  /** The ids Docker will hand out to this worker are fresh. */
  predicate FreshFor(boxes: Boxes, w: Worker, p: Plan) {
    && (Distance(w) >= 11 && p.pool.Some? ==> p.pool.value !in boxes)
    && (Distance(w) >= 9 ==> FreshReply(boxes, p.made))
    && (Distance(w) >= 10 && p.pool.Some? ==> NewId(p.made) != p.pool)
    && (w.Discarding? ==> p.pool == Some(w.cid))
  }

  /** A worker inside the task body, with the ids it will be given still unused. */
  predicate OnTask(s: State, i: nat, p: Plan) {
    i < |s.workers| && InBody(s.workers[i]) && FreshFor(s.docker.boxes, s.workers[i], p)
  }

  lemma ActForFits(s: State, w: Worker, p: Plan)
    requires InBody(w) && !w.Leaving? && FreshFor(s.docker.boxes, w, p)
    ensures var a := ActFor(w, s.cfg.hasClient, p);
            && ActEnabled(s, w, a)
            && var w' := NextWorker(s, w, a);
               && InBody(w') && Distance(w') < Distance(w)
               && FreshFor(NextDocker(s.docker, CallOf(w, a)).boxes, w', p)
  {
  }

  /** One planned act of worker `i`. */
  function Onward(s: State, i: nat, p: Plan): (s': State)
    requires OnTask(s, i, p) && !s.workers[i].Leaving?
    ensures OnTask(s', i, p) && Distance(s'.workers[i]) < Distance(s.workers[i])
  {
    ActForFits(s, s.workers[i], p);
    Acted(s, i, ActFor(s.workers[i], s.cfg.hasClient, p))
  }

  /** The state when worker `i`, undisturbed, is about to leave the task body. */
  function Solo(s: State, i: nat, p: Plan): (s': State)
    requires OnTask(s, i, p)
    decreases Distance(s.workers[i])
  {
    if s.workers[i].Leaving? then s else Solo(Onward(s, i, p), i, p)
  }

  ghost predicate OnlyWorker(run: seq<Step>, i: nat) {
    forall k | 0 <= k < |run| :: run[k].Work? && run[k].i == i
  }

  lemma OnwardIsAStep(s: State, i: nat, p: Plan) returns (m: State, step: Step)
    requires OnTask(s, i, p) && !s.workers[i].Leaving?
    ensures step.Work? && step.i == i && Exec(s, [step]) == Some(m)
    ensures OnTask(m, i, p) && Distance(m.workers[i]) < Distance(s.workers[i]) && Solo(s, i, p) == Solo(m, i, p)
  {
    ActForFits(s, s.workers[i], p);
    step := Work(i, ActFor(s.workers[i], s.cfg.hasClient, p));
    var run;
    run, m := Extend(s, [], s, step);
    assert run == [step];
  }

  lemma Prepend(s: State, step: Step, m: State, rest: seq<Step>, end: State, i: nat)
    requires Exec(s, [step]) == Some(m) && Exec(m, rest) == Some(end)
    requires step.Work? && step.i == i && OnlyWorker(rest, i)
    ensures Exec(s, [step] + rest) == Some(end) && OnlyWorker([step] + rest, i)
  {
    ExecConcat(s, [step], rest);
  }

  lemma {:induction false} SoloIsARun(s: State, i: nat, p: Plan) returns (run: seq<Step>)
    requires OnTask(s, i, p)
    ensures Exec(s, run) == Some(Solo(s, i, p)) && OnlyWorker(run, i)
    ensures OnTask(Solo(s, i, p), i, p) && Solo(s, i, p).workers[i].Leaving?
    decreases Distance(s.workers[i])
  {
    run := [];
    if !s.workers[i].Leaving? {
      var m, step := OnwardIsAStep(s, i, p);
      var rest := SoloIsARun(m, i, p);
      Prepend(s, step, m, rest, Solo(m, i, p), i);
      run := [step] + rest;
    }
  }

  /** A lone pass is a run of the transition system, so it keeps every invariant of it. */
  lemma SoloKeepsInv(s: State, i: nat, p: Plan)
    requires OnTask(s, i, p) && Inv(s)
    ensures Inv(Solo(s, i, p)) && TerminalRowsKept(s.db.rows, Solo(s, i, p).db.rows)
  {
    var run := SoloIsARun(s, i, p);
    RunKeepsInv(s, run);
  }

  // ---- what the pass leaves behind ------------------------------------------

  /** How a worker between its claim and its write will write the task back. */
  function Fate(w: Worker, p: Plan): Ending
    requires 4 <= Distance(w) <= 12
  {
    match w
    case Staging(_) => if p.staged then FateOfBox(p) else SystemError(false)
    case Starting(_, _, _) => if p.launched && p.exited then Verdict(p.result) else SystemError(true)
    case Awaiting(_, _, _) => if p.exited then Verdict(p.result) else SystemError(true)
    case Killing(_, _, _) => SystemError(true)
    case Reading(_, _, _) => Verdict(p.result)
    case Removing(_, _, _, e) => e
    case Writing(_, _, e) => e
    case _ => FateOfBox(p)
  }

  function FateOfBox(p: Plan): Ending {
    if p.made.Created? && p.launched && p.exited then Verdict(p.result) else SystemError(true)
  }

  /** The Docker calls a worker between its claim and its write has yet to make. */
  function CallsAhead(w: Worker, p: Plan): seq<Op>
    requires 4 <= Distance(w) <= 12
  {
    match w
    case Staging(_) => if p.staged then PoolCalls(p) + BoxCalls(p) else []
    case Pooling(_) => PoolCalls(p) + BoxCalls(p)
    case Discarding(_, c) => [RemoveCall(c, p.discarded)] + BoxCalls(p)
    case Creating(_, _) => BoxCalls(p)
    case Starting(_, _, c) => LaunchCalls(p, c)
    case Awaiting(_, _, c) => [Wait(c), if p.exited then Logs(c) else Kill(c), RemoveCall(c, p.removed)]
    case Killing(_, _, c) => [Kill(c), RemoveCall(c, p.removed)]
    case Reading(_, _, c) => [Logs(c), RemoveCall(c, p.removed)]
    case Removing(_, _, c, _) => [RemoveCall(c, p.removed)]
    case Writing(_, _, _) => []
  }

  function PoolCalls(p: Plan): seq<Op> {
    if p.pool.Some? then [Handed(p.pool.value), RemoveCall(p.pool.value, p.discarded)] else []
  }

  function BoxCalls(p: Plan): seq<Op> {
    match p.made
    case Created(c) => [Create(c)] + LaunchCalls(p, c)
    case NotCreated => []
    case ReplyLost(c) => [Orphan(c)]
  }

  function LaunchCalls(p: Plan, c: Cid): seq<Op> {
    if p.launched then [Start(c), Wait(c), if p.exited then Logs(c) else Kill(c), RemoveCall(c, p.removed)]
    else [Start(c), RemoveCall(c, p.removed)]
  }

  /** The announcements of a worker past its write. */
  function Announced(o: Outbox, w: Worker): Outbox {
    match w
    case CheckingIn(t, _, r) => Outbox(o.published + [EventOf(t, r)], o.checkins + [VisitOf(t)])
    case Publishing(t, _, r) => Outbox(o.published + [EventOf(t, r)], o.checkins)
    case _ => o
  }

  /** One planned act after the write, seen from outside. */
  lemma AfterStep(s: State, i: nat, p: Plan) returns (m: State)
    requires OnTask(s, i, p) && 0 < Distance(s.workers[i]) <= 3
    ensures OnTask(m, i, p) && Solo(s, i, p) == Solo(m, i, p)
    ensures m.db == s.db && m.docker == s.docker && Distance(m.workers[i]) < Distance(s.workers[i])
    ensures Announced(m.outbox, m.workers[i]) == Announced(s.outbox, s.workers[i])
  {
    m := Onward(s, i, p);
  }

  lemma {:induction false} SoloAfterWrite(s: State, i: nat, p: Plan)
    requires OnTask(s, i, p) && Distance(s.workers[i]) <= 3
    ensures Solo(s, i, p).db == s.db && Solo(s, i, p).docker == s.docker
    ensures Solo(s, i, p).outbox == Announced(s.outbox, s.workers[i])
    decreases Distance(s.workers[i])
  {
    if !s.workers[i].Leaving? {
      var m := AfterStep(s, i, p);
      SoloAfterWrite(m, i, p);
    }
  }

  /** Up to the write, a planned act only calls Docker. */
  lemma ActForQuiet(s: State, w: Worker, p: Plan)
    requires 5 <= Distance(w) <= 12 && InBody(w) && FreshFor(s.docker.boxes, w, p)
    ensures var a := ActFor(w, s.cfg.hasClient, p);
            && ActEnabled(s, w, a)
            && NextDb(s.db, w, a) == s.db && NextOutbox(s.outbox, w, a) == s.outbox
            && var w' := NextWorker(s, w, a);
               4 <= Distance(w') < Distance(w) && w'.task == w.task && Fate(w', p) == Fate(w, p)
  {
  }

  /** And its call is the first of those ahead. */
  lemma ActForCalls(s: State, w: Worker, p: Plan)
    requires 5 <= Distance(w) <= 12 && InBody(w) && ActEnabled(s, w, ActFor(w, s.cfg.hasClient, p))
    ensures var a := ActFor(w, s.cfg.hasClient, p);
            var call := CallOf(w, a);
            CallsAhead(w, p) == (if call.Some? then [call.value] else []) + CallsAhead(NextWorker(s, w, a), p)
  {
  }

  /** One planned act before the write, seen from outside; `made` are its calls. */
  lemma QuietStep(s: State, i: nat, p: Plan) returns (m: State, made: seq<Op>)
    requires OnTask(s, i, p) && 5 <= Distance(s.workers[i]) <= 12
    ensures OnTask(m, i, p) && Solo(s, i, p) == Solo(m, i, p)
    ensures m.db == s.db && m.outbox == s.outbox && m.docker.calls == s.docker.calls + made
    ensures var w, w' := s.workers[i], m.workers[i];
            && 4 <= Distance(w') < Distance(w) && w'.task == w.task && Fate(w', p) == Fate(w, p)
            && CallsAhead(w, p) == made + CallsAhead(w', p)
  {
    var w := s.workers[i];
    var call := CallOf(w, ActFor(w, s.cfg.hasClient, p));
    made := if call.Some? then [call.value] else [];
    ActForQuiet(s, w, p);
    ActForCalls(s, w, p);
    m := Onward(s, i, p);
  }

  lemma WriteStep(s: State, i: nat, p: Plan) returns (m: State)
    requires OnTask(s, i, p) && s.workers[i].Writing?
    ensures OnTask(m, i, p) && Solo(s, i, p) == Solo(m, i, p)
    ensures m.db == NextDb(s.db, s.workers[i], WriteBack(p.write, p.message, p.now))
    ensures m.outbox == s.outbox && m.docker == s.docker
    ensures m.workers[i] == AfterWrite(s.db.rows, s.workers[i], p.write) && Distance(m.workers[i]) <= 3
  {
    assert ActFor(s.workers[i], s.cfg.hasClient, p) == WriteBack(p.write, p.message, p.now);
    m := Onward(s, i, p);
  }

  /** What a worker between its claim and its write leaves: the calls ahead, then one write of its fate. */
  ghost predicate LeavesFate(s: State, task: Task, fate: Ending, ahead: seq<Op>, p: Plan, end: State) {
    var w := Writing(task, None, fate);
    && end.db == NextDb(s.db, w, WriteBack(p.write, p.message, p.now))
    && end.outbox == Announced(s.outbox, AfterWrite(s.db.rows, w, p.write))
    && end.docker.calls == s.docker.calls + ahead
  }

  lemma LeaseIrrelevant(db: Db, o: Outbox, w: Worker, p: Plan)
    requires w.Writing?
    ensures var w' := Writing(w.task, None, w.ending);
            && NextDb(db, w, WriteBack(p.write, p.message, p.now)) ==
              NextDb(db, w', WriteBack(p.write, p.message, p.now))
            && Announced(o, AfterWrite(db.rows, w, p.write)) == Announced(o, AfterWrite(db.rows, w', p.write))
  {
  }

  lemma FateCarries(s: State, m: State, task: Task, fate: Ending, made: seq<Op>, later: seq<Op>, ahead: seq<Op>,
                    p: Plan, end: State)
    requires m.db == s.db && m.outbox == s.outbox && m.docker.calls == s.docker.calls + made && ahead == made + later
    requires LeavesFate(m, task, fate, later, p, end)
    ensures LeavesFate(s, task, fate, ahead, p, end)
  {
    assert (s.docker.calls + made) + later == s.docker.calls + (made + later);
  }

  lemma FateWritten(s: State, w: Worker, p: Plan, end: State)
    requires w.Writing?
    requires end.db == NextDb(s.db, w, WriteBack(p.write, p.message, p.now)) && end.docker == s.docker
    requires end.outbox == Announced(s.outbox, AfterWrite(s.db.rows, w, p.write))
    ensures LeavesFate(s, w.task, w.ending, [], p, end)
  {
    LeaseIrrelevant(s.db, s.outbox, w, p);
    assert s.docker.calls + [] == s.docker.calls;
  }

  lemma SoloWrites(s: State, i: nat, p: Plan, task: Task, fate: Ending, end: State)
    requires OnTask(s, i, p) && s.workers[i].Writing?
    requires task == s.workers[i].task && fate == s.workers[i].ending && end == Solo(s, i, p)
    ensures LeavesFate(s, task, fate, [], p, end)
  {
    var m := WriteStep(s, i, p);
    SoloAfterWrite(m, i, p);
    FateWritten(s, s.workers[i], p, end);
  }

  lemma {:induction false} SoloBeforeWrite(s: State, i: nat, p: Plan, task: Task, fate: Ending, end: State)
    requires OnTask(s, i, p) && 4 <= Distance(s.workers[i]) <= 12
    requires task == s.workers[i].task && fate == Fate(s.workers[i], p) && end == Solo(s, i, p)
    ensures LeavesFate(s, task, fate, CallsAhead(s.workers[i], p), p, end)
    decreases Distance(s.workers[i])
  {
    if s.workers[i].Writing? {
      SoloWrites(s, i, p, task, fate, end);
    } else {
      var m, made := QuietStep(s, i, p);
      SoloBeforeWrite(m, i, p, task, fate, end);
      FateCarries(s, m, task, fate, made, CallsAhead(m.workers[i], p), CallsAhead(s.workers[i], p), p, end);
    }
  }

  /** The claim is won and its answer arrives. */
  predicate Wins(p: Plan, rows: Table, id: int) {
    p.claim.Answered? && Claimable(rows, id)
  }

  /** The outcomes that make `run_one_task` give up on a claimed task. */
  predicate GivesUp(p: Plan) {
    !p.staged || !p.made.Created? || !p.launched || !p.exited
  }

  function SeOutcome(p: Plan): Outcome {
    Outcome(Se, None, None, p.message)
  }

  /** The write a won claim ends with, if the reported status can be written at all. */
  function WonWrite(p: Plan): Option<Outcome> {
    if GivesUp(p) then Some(SeOutcome(p))
    else if IsVerdict(p.result.status) then Some(p.result)
    else None
  }

  function Ended(rows: Table, id: int, last: Option<Outcome>, p: Plan): Table {
    if last.Some? && TakesEffect(p.write) then Finished(rows, id, last.value, p.now) else rows
  }

  function PassRows(hasClient: bool, p: Plan, rows: Table, id: int): Table {
    if !hasClient then Ended(rows, id, Some(SeOutcome(p)), p)
    else
      var claimed := if TakesEffect(p.claim) then Claimed(rows, id) else rows;
      if Wins(p, rows, id) then Ended(claimed, id, WonWrite(p), p) else claimed
  }

  function PassCalls(hasClient: bool, p: Plan, rows: Table, id: int): seq<Op> {
    if hasClient && Wins(p, rows, id) && p.staged then PoolCalls(p) + BoxCalls(p) else []
  }

  /** Exactly when the pass tells the subscribers. */
  predicate Announces(hasClient: bool, p: Plan, rows: Table, id: int) {
    hasClient && Wins(p, rows, id) && !GivesUp(p) && IsVerdict(p.result.status) && p.write.Answered?
  }

  /** What a lone pass does to the shared state. */
  ghost predicate PassEffect(s: State, task: Task, p: Plan, end: State) {
    var id, hasClient, rows := task.id, s.cfg.hasClient, s.db.rows;
    && end.db.rows == PassRows(hasClient, p, rows, id)
    && end.docker.calls == s.docker.calls + PassCalls(hasClient, p, rows, id)
    && end.outbox.published == s.outbox.published +
         (if Announces(hasClient, p, rows, id) then [EventOf(task, p.result)] else [])
    && end.outbox.checkins == s.outbox.checkins +
         (if Announces(hasClient, p, rows, id) && p.result.status == Ac then [VisitOf(task)] else [])
  }

  /** The first act of a pass. */
  lemma EnterStep(s: State, i: nat, p: Plan) returns (m: State)
    requires OnTask(s, i, p) && s.workers[i].Entered?
    ensures OnTask(m, i, p) && Solo(s, i, p) == Solo(m, i, p)
    ensures m.outbox == s.outbox && m.docker == s.docker
    ensures var t, id := s.workers[i].task, s.workers[i].task.id;
            && m.db.rows == (if s.cfg.hasClient && TakesEffect(p.claim) then Claimed(s.db.rows, id) else s.db.rows)
            && m.workers[i] == if !s.cfg.hasClient then Writing(t, None, SystemError(false))
                               else if Wins(p, s.db.rows, id) then Staging(t)
                               else Leaving(t, false)
  {
    m := Onward(s, i, p);
  }

  lemma LostClaimEffect(s: State, task: Task, p: Plan, m: State)
    requires s.cfg.hasClient && !Wins(p, s.db.rows, task.id)
    requires m.outbox == s.outbox && m.docker == s.docker
    requires m.db.rows == if TakesEffect(p.claim) then Claimed(s.db.rows, task.id) else s.db.rows
    ensures PassEffect(s, task, p, m)
  {
  }

  lemma NoClientEffect(s: State, task: Task, p: Plan, m: State, end: State)
    requires !s.cfg.hasClient && m.outbox == s.outbox && m.docker == s.docker && m.db.rows == s.db.rows
    requires LeavesFate(m, task, SystemError(false), [], p, end)
    ensures PassEffect(s, task, p, end)
  {
  }

  lemma WonClaimEffect(s: State, task: Task, p: Plan, m: State, end: State)
    requires s.cfg.hasClient && Wins(p, s.db.rows, task.id)
    requires m.outbox == s.outbox && m.docker == s.docker && m.db.rows == Claimed(s.db.rows, task.id)
    requires LeavesFate(m, task, Fate(Staging(task), p), CallsAhead(Staging(task), p), p, end)
    ensures PassEffect(s, task, p, end)
  {
  }

  lemma SoloEffect(s: State, i: nat, p: Plan)
    requires OnTask(s, i, p) && s.workers[i].Entered?
    ensures PassEffect(s, s.workers[i].task, p, Solo(s, i, p))
  {
    var task, end := s.workers[i].task, Solo(s, i, p);
    var m := EnterStep(s, i, p);
    if m.workers[i].Leaving? {
      LostClaimEffect(s, task, p, end);
    } else {
      SoloBeforeWrite(m, i, p, task, Fate(m.workers[i], p), end);
      if s.cfg.hasClient {
        WonClaimEffect(s, task, p, m, end);
      } else {
        NoClientEffect(s, task, p, m, end);
      }
    }
  }

  predicate Terminal(rows: Table, id: int) {
    id in rows && IsTerminalStatus(rows[id].status)
  }

  /** Exactly when an undisturbed pass makes an open row terminal. */
  predicate Decides(hasClient: bool, p: Plan, rows: Table, id: int) {
    && Open(rows, id)
    && TakesEffect(p.write)
    && (hasClient ==> Wins(p, rows, id) && (GivesUp(p) || IsVerdict(p.result.status)))
  }

  /** The pass moves the row to `running`, whether or not it learns that it did. */
  predicate TakesRow(hasClient: bool, p: Plan, rows: Table, id: int) {
    hasClient && Claimable(rows, id) && TakesEffect(p.claim)
  }

  /**
   For every pattern of outcomes: the row is terminal afterwards exactly when it was before or this
   pass decides it; it is `running` exactly when it is not decided and was running before or was
   taken by this pass, be it that the claim's answer was lost, that the judge reported no verdict or
   that the write failed; and no other row changes.
   */
  lemma PassDecidesExactly(hasClient: bool, p: Plan, rows: Table, id: int)
    ensures var rows' := PassRows(hasClient, p, rows, id);
            && (Terminal(rows', id) <==> Terminal(rows, id) || Decides(hasClient, p, rows, id))
            && rows'.Keys == rows.Keys
            && (forall k | k in rows && k != id :: rows'[k] == rows[k])
            && (id in rows ==>
                  (rows'[id].status == Running <==>
                   !Decides(hasClient, p, rows, id) &&
                     (rows[id].status == Running || TakesRow(hasClient, p, rows, id))))
  {
  }

  /**
   What the pass leaves in its row, column by column: a terminal row is left alone; giving up, or having no Docker
   client, writes `se` without times; a verdict writes the result; and a row taken but not written stays `running`.
   */
  lemma PassLeavesRow(hasClient: bool, p: Plan, rows: Table, id: int)
    requires id in rows
    ensures var row, row' := rows[id], PassRows(hasClient, p, rows, id)[id];
            var won := hasClient && p.claim.Answered? && row.status == Pending;
            var over := !p.staged || !p.made.Created? || !p.launched || !p.exited;
            && row'.createdAt == row.createdAt
            && if row.status != Pending && row.status != Running then row' == row
               else if hasClient && !won then
                 row' == if row.status == Pending && p.claim == Failed(true) then row.(status := Running) else row
               else if p.write == Failed(false) || (won && !over && Spelled(p.result.status) !in VERDICTS) then
                 row' == if won then row.(status := Running) else row
               else if !hasClient || over then
                 row' == Row(Se, row.createdAt, Some(p.now), None, None,
                             if p.message == "" then None else Some(p.message))
               else if p.result.status.Other? then row' == row.(status := Running)
               else
                 && row'.status == p.result.status && row'.finishedAt == Some(p.now)
                 && row'.timeUsed == p.result.timeUsed && row'.memoryUsed == p.result.memoryUsed
                 && row'.errorMessage == if p.result.errorMessage == "" then None else Some(p.result.errorMessage)
  {
  }

  /**
   Which Docker calls a pass makes: none unless it wins and stages its files; the logs are read exactly when the
   container was started and exited in time, it is killed exactly when it did not, and there is exactly one attempt
   to remove it.
   */
  lemma PassCallsMean(p: Plan, rows: Table, id: int, c: Cid)
    requires p.made == Created(c) && p.pool != Some(c)
    ensures var ops := PassCalls(true, p, rows, id);
            var boxed := p.claim.Answered? && id in rows && rows[id].status == Pending && p.staged;
            && (Create(c) in ops <==> boxed) && (Start(c) in ops <==> boxed)
            && (Wait(c) in ops <==> boxed && p.launched)
            && (Logs(c) in ops <==> boxed && p.launched && p.exited)
            && (Kill(c) in ops <==> boxed && p.launched && !p.exited)
            && Removals(ops, c) == (if boxed then 1 else 0)
            && (Remove(c) in ops <==> boxed && p.removed)
  {
    if p.claim.Answered? && id in rows && rows[id].status == Pending && p.staged {
      assert PassCalls(true, p, rows, id) == PoolCalls(p) + BoxCalls(p);
      OneRemovalOf(p, c);
      NamedCalls(p, c);
    } else {
      assert PassCalls(true, p, rows, id) == [];
      assert Removals([], c) == 0;
    }
  }

  lemma OneRemovalOf(p: Plan, c: Cid)
    requires p.made == Created(c) && p.pool != Some(c)
    ensures Removals(PoolCalls(p) + BoxCalls(p), c) == 1
  {
    LaunchMeans(p, c);
    PoolMeans(p);
    var front := PoolCalls(p) + ([Create(c)] + Launching(p, c));
    assert PoolCalls(p) + BoxCalls(p) == front + [RemoveCall(c, p.removed)];
    LastRemoval(front, RemoveCall(c, p.removed), c);
  }

  /** The calls that name `c`. */
  lemma NamedCalls(p: Plan, c: Cid)
    requires p.made == Created(c) && p.pool != Some(c)
    ensures var ops := PoolCalls(p) + BoxCalls(p);
            && Create(c) in ops && Start(c) in ops && (Wait(c) in ops <==> p.launched)
            && (Logs(c) in ops <==> p.launched && p.exited) && (Kill(c) in ops <==> p.launched && !p.exited)
            && (Remove(c) in ops <==> p.removed)
  {
    LaunchMeans(p, c);
    PoolMeans(p);
    var box := [Create(c)] + Launching(p, c) + [RemoveCall(c, p.removed)];
    assert BoxCalls(p) == box;
    assert forall op :: op in box <==> op == Create(c) || op in Launching(p, c) || op == RemoveCall(c, p.removed);
  }

  /** The calls on a container that was made, up to its removal. */
  function Launching(p: Plan, c: Cid): seq<Op> {
    if p.launched then [Start(c), Wait(c), if p.exited then Logs(c) else Kill(c)] else [Start(c)]
  }

  lemma LaunchMeans(p: Plan, c: Cid)
    ensures LaunchCalls(p, c) == Launching(p, c) + [RemoveCall(c, p.removed)]
    ensures var ops := Launching(p, c);
            forall op :: op in ops <==>
              op == Start(c) || (p.launched && (op == Wait(c) || op == if p.exited then Logs(c) else Kill(c)))
  {
  }

  lemma PoolMeans(p: Plan)
    ensures forall op :: op in PoolCalls(p) <==>
              p.pool.Some? && (op == Handed(p.pool.value) || op == RemoveCall(p.pool.value, p.discarded))
  {
  }

  /** A pooled container is only handed over and discarded. */
  lemma PooledOnlyDiscarded(p: Plan, rows: Table, id: int, c: Cid)
    requires p.pool == Some(c) && NewId(p.made) != Some(c)
    ensures var ops := PassCalls(true, p, rows, id);
            var boxed := p.claim.Answered? && id in rows && rows[id].status == Pending && p.staged;
            && (Handed(c) in ops <==> boxed) && Removals(ops, c) == (if boxed then 1 else 0)
            && (Remove(c) in ops <==> boxed && p.discarded)
            && Start(c) !in ops
  {
    if p.claim.Answered? && id in rows && rows[id].status == Pending && p.staged {
      assert PassCalls(true, p, rows, id) == PoolCalls(p) + BoxCalls(p);
      PooledNamed(p, c);
    } else {
      assert PassCalls(true, p, rows, id) == [] && Removals([], c) == 0;
    }
  }

  lemma PooledNamed(p: Plan, c: Cid)
    requires p.pool == Some(c) && NewId(p.made) != Some(c)
    ensures var ops := PoolCalls(p) + BoxCalls(p);
            && Handed(c) in ops && Removals(ops, c) == 1 && (Remove(c) in ops <==> p.discarded) && Start(c) !in ops
  {
    var last := RemoveCall(c, p.discarded);
    assert PoolCalls(p) == [Handed(c)] + [last];
    LastRemoval([Handed(c)], last, c);
    BoxNamesOwn(p);
    NoRemoval(PoolCalls(p), BoxCalls(p), c);
  }

  lemma BoxNamesOwn(p: Plan)
    ensures forall op | op in BoxCalls(p) :: Some(op.cid) == NewId(p.made)
  {
    if p.made.Created? {
      var c := p.made.cid;
      LaunchMeans(p, c);
      assert BoxCalls(p) == [Create(c)] + Launching(p, c) + [RemoveCall(c, p.removed)];
    }
  }

  lemma NoRemoval(ops: seq<Op>, more: seq<Op>, c: Cid)
    requires Remove(c) !in more && RemoveFailed(c) !in more
    ensures Removals(ops + more, c) == Removals(ops, c)
  {
    assert multiset(more)[Remove(c)] == 0 && multiset(more)[RemoveFailed(c)] == 0;
    assert multiset(ops + more) == multiset(ops) + multiset(more);
  }

  // ---- cleaning up ----------------------------------------------------------------

  /** The cleanups along the path of a lone worker, each with the lease it reports as released, if any. */
  function CleanUps(s: State, i: nat, p: Plan): seq<Option<Cid>>
    requires OnTask(s, i, p)
    decreases Distance(s.workers[i])
  {
    var w := s.workers[i];
    if w.Leaving? then []
    else (if w.Cleaning? then [w.lease] else []) + CleanUps(Onward(s, i, p), i, p)
  }

  /** The lease of a pass that gets to the pool: a pooled container it managed to discard. */
  function LeaseOf(p: Plan): Option<Cid> {
    if p.discarded then p.pool else None
  }

  /** The cleanups still ahead of a worker that has won its claim. */
  function LeasesAhead(w: Worker, p: Plan): seq<Option<Cid>>
    requires Distance(w) <= 12
  {
    match w
    case Staging(_) => if p.staged then [LeaseOf(p)] else []
    case Pooling(_) => [LeaseOf(p)]
    case Discarding(_, _) => [LeaseOf(p)]
    case Creating(_, lease) => [lease]
    case Starting(_, lease, _) => [lease]
    case Awaiting(_, lease, _) => [lease]
    case Killing(_, lease, _) => [lease]
    case Reading(_, lease, _) => [lease]
    case Removing(_, lease, _, ending) => if ending == SystemError(false) then [] else [lease]
    case Writing(_, lease, ending) => if ending == SystemError(false) then [] else [lease]
    case CheckingIn(_, lease, _) => [lease]
    case Publishing(_, lease, _) => [lease]
    case Cleaning(_, lease, _) => [lease]
    case _ => []
  }

  lemma LeasesStep(s: State, w: Worker, p: Plan)
    requires InBody(w) && !w.Leaving? && Distance(w) <= 12 && FreshFor(s.docker.boxes, w, p)
    requires ActEnabled(s, w, ActFor(w, s.cfg.hasClient, p))
    ensures var w' := NextWorker(s, w, ActFor(w, s.cfg.hasClient, p));
            Distance(w') <= 12 && LeasesAhead(w, p) == if w.Cleaning? then [w.lease] else LeasesAhead(w', p)
  {
  }

  lemma {:induction false} LeasesFollow(s: State, i: nat, p: Plan)
    requires OnTask(s, i, p) && Distance(s.workers[i]) <= 12
    ensures CleanUps(s, i, p) == LeasesAhead(s.workers[i], p)
    decreases Distance(s.workers[i])
  {
    if !s.workers[i].Leaving? {
      ActForFits(s, s.workers[i], p);
      LeasesStep(s, s.workers[i], p);
      LeasesFollow(Onward(s, i, p), i, p);
    }
  }

  /**
   A pass cleans up, once, exactly when it wins its claim and stages its files, and then releases exactly the pooled
   container that it managed to discard.
   */
  lemma PassCleansUp(s: State, i: nat, p: Plan)
    requires OnTask(s, i, p) && s.workers[i].Entered?
    ensures CleanUps(s, i, p) ==
            if s.cfg.hasClient && Wins(p, s.db.rows, s.workers[i].task.id) && p.staged
            then [if p.discarded then p.pool else None] else []
  {
    ActForFits(s, s.workers[i], p);
    LeasesFollow(Onward(s, i, p), i, p);
  }

  // ---- the imperative pass ------------------------------------------------------

  class JudgeScheduler {
    const hasClient: bool
    const repo: SubmissionRepo
    var calls: seq<Op>
    var released: seq<Cid>
    var published: seq<Event>
    var checkins: seq<Visit>

    constructor (repo: SubmissionRepo, hasClient: bool)
      ensures this.repo == repo && this.hasClient == hasClient
      ensures calls == [] && released == [] && published == [] && checkins == []
    {
      this.repo, this.hasClient := repo, hasClient;
      calls, released, published, checkins := [], [], [], [];
    }

    /** `mark_finished` as the worker sees it: a failed or throwing statement shows as no flip. */
    method Persist(id: int, o: Outcome, reply: Reply, now: int) returns (flipped: bool)
      requires RowsWellFormed(repo.rows)
      modifies repo
      ensures RowsWellFormed(repo.rows)
      ensures repo.rows == if IsVerdict(o.status) && TakesEffect(reply) then Finished(old(repo.rows), id, o, now)
                           else old(repo.rows)
      ensures flipped <==> reply.Answered? && IsVerdict(o.status) && old(Open(repo.rows, id))
    {
      flipped := false;
      if TakesEffect(reply) {
        var answer := repo.MarkFinished(id, o, now);
        flipped := reply.Answered? && answer.Returned? && answer.value;
      }
    }

    /** `finish_se`: write `se`, whoever holds the row by now, and tell nobody. */
    method FinishSe(id: int, p: Plan)
      requires RowsWellFormed(repo.rows)
      modifies repo
      ensures RowsWellFormed(repo.rows)
      ensures repo.rows == if TakesEffect(p.write) then Finished(old(repo.rows), id, SeOutcome(p), p.now)
                           else old(repo.rows)
      ensures if id in old(repo.rows) && old(repo.rows)[id].status in {Pending, Running} && p.write != Failed(false)
              then
                && repo.rows == old(repo.rows)[id := repo.rows[id]]
                && repo.rows[id].status == Se && repo.rows[id].timeUsed == None && repo.rows[id].memoryUsed == None
                && repo.rows[id].errorMessage == (if p.message == "" then None else Some(p.message))
                && repo.rows[id].createdAt == old(repo.rows)[id].createdAt && repo.rows[id].finishedAt == Some(p.now)
              else repo.rows == old(repo.rows)
    {
      var _ := Persist(id, SeOutcome(p), p.write, p.now);
    }

    /** Start the container and wait for it, removing it on every path; answers whether there is a result to read. */
    method Supervise(cid: Cid, p: Plan) returns (judged: bool)
      modifies this`calls
      ensures calls == old(calls) + LaunchCalls(p, cid)
      ensures judged <==> p.launched && p.exited
    {
      calls := calls + [Start(cid)];
      if !p.launched {
        calls := calls + [RemoveCall(cid, p.removed)];
        return false;
      }
      calls := calls + [Wait(cid)];
      if !p.exited {
        calls := calls + [Kill(cid)];
        calls := calls + [RemoveCall(cid, p.removed)];
        return false;
      }
      calls := calls + [Logs(cid)];
      calls := calls + [RemoveCall(cid, p.removed)];
      judged := true;
    }

    method CleanupAndRelease(lease: Option<Cid>)
      modifies this`released
      ensures released == old(released) + if lease.Some? then [lease.value] else []
    {
      if lease.Some? {
        released := released + [lease.value];
      }
    }

    /** Take a container from the pool only to discard it; the lease is reported only if the discard worked. */
    method DiscardPooled(p: Plan) returns (lease: Option<Cid>)
      modifies this`calls
      ensures calls == old(calls) + PoolCalls(p)
      ensures lease == if p.discarded then p.pool else None
    {
      lease := None;
      if p.pool.Some? {
        calls := calls + [Handed(p.pool.value)];
        calls := calls + [RemoveCall(p.pool.value, p.discarded)];
        lease := if p.discarded then p.pool else None;
      }
    }

    /** The task's own container, if Docker makes one. */
    method RunBox(p: Plan) returns (judged: bool)
      modifies this`calls
      ensures calls == old(calls) + BoxCalls(p)
      ensures judged <==> p.made.Created? && p.launched && p.exited
    {
      match p.made
      case NotCreated => judged := false;
      case ReplyLost(c) =>
        calls := calls + [Orphan(c)];
        judged := false;
      case Created(c) =>
        calls := calls + [Create(c)];
        judged := Supervise(c, p);
    }

    /** Persist a parsed result; check in and publish only when this write flipped the row. */
    method Conclude(task: Task, p: Plan)
      requires RowsWellFormed(repo.rows)
      modifies repo, `published, `checkins
      ensures RowsWellFormed(repo.rows)
      ensures repo.rows == if IsVerdict(p.result.status) && TakesEffect(p.write)
                           then Finished(old(repo.rows), task.id, p.result, p.now) else old(repo.rows)
      ensures var flipped := p.write.Answered? && IsVerdict(p.result.status) && old(Open(repo.rows, task.id));
              && published == old(published) + (if flipped then [EventOf(task, p.result)] else [])
              && checkins == old(checkins) + (if flipped && p.result.status == Ac then [VisitOf(task)] else [])
      ensures |published| > |old(published)| ==>
                var e := published[|old(published)|];
                && e.id == task.id && e.user == task.user && e.problem == task.problem
                && e.language == task.language && e.code == task.code && e.status == p.result.status
                && e.timeUsed ==
                     (if p.result.timeUsed.Some? && p.result.timeUsed.value > 0 then p.result.timeUsed else None)
                && e.memoryUsed ==
                     (if p.result.memoryUsed.Some? && p.result.memoryUsed.value > 0 then p.result.memoryUsed else None)
                && e.errorMessage == (if p.result.errorMessage == "" then None else Some(p.result.errorMessage))
      ensures |checkins| > |old(checkins)| ==>
                var v := checkins[|old(checkins)|]; v.user == task.user && v.problem == task.problem && v.id == task.id
      ensures |checkins| > |old(checkins)| <==> |published| > |old(published)| && p.result.status.Ac?
    {
      var persisted := Persist(task.id, p.result, p.write, p.now);
      if persisted {
        if p.result.status == Ac {
          checkins := checkins + [VisitOf(task)];
        }
        published := published + [EventOf(task, p.result)];
      }
    }

    /** From a won claim to the end of the pass. */
    method JudgeClaimed(task: Task, p: Plan)
      requires RowsWellFormed(repo.rows) && Open(repo.rows, task.id)
      modifies this, repo
      ensures RowsWellFormed(repo.rows)
      ensures repo.rows == Ended(old(repo.rows), task.id, WonWrite(p), p)
      ensures calls == old(calls) + if p.staged then PoolCalls(p) + BoxCalls(p) else []
      ensures var flipped := p.write.Answered? && !GivesUp(p) && IsVerdict(p.result.status);
              && published == old(published) + (if flipped then [EventOf(task, p.result)] else [])
              && checkins == old(checkins) + (if flipped && p.result.status == Ac then [VisitOf(task)] else [])
      ensures released == old(released) + if p.staged && p.discarded && p.pool.Some? then [p.pool.value] else []
    {
      if !p.staged {
        FinishSe(task.id, p);
        return;
      }
      var lease := DiscardPooled(p);
      var judged := RunBox(p);
      assert calls == old(calls) + (PoolCalls(p) + BoxCalls(p));
      if judged {
        Conclude(task, p);
      } else {
        FinishSe(task.id, p);
      }
      CleanupAndRelease(lease);
    }

    /** The whole pass; every failure converges on a write of `se`, and a lost claim drops the task. */
    method RunOneTask(task: Task, p: Plan)
      requires RowsWellFormed(repo.rows)
      modifies this, repo
      ensures RowsWellFormed(repo.rows)
      ensures repo.rows == PassRows(hasClient, p, old(repo.rows), task.id)
      ensures calls == old(calls) + PassCalls(hasClient, p, old(repo.rows), task.id)
      ensures published == old(published) +
              if Announces(hasClient, p, old(repo.rows), task.id) then [EventOf(task, p.result)] else []
      ensures checkins == old(checkins) +
              if Announces(hasClient, p, old(repo.rows), task.id) && p.result.status == Ac then [VisitOf(task)] else []
      ensures released == old(released) +
              if hasClient && Wins(p, old(repo.rows), task.id) && p.staged && p.discarded && p.pool.Some?
              then [p.pool.value] else []
      ensures |published| > |old(published)| <==>
                && hasClient && p.claim.Answered? && p.staged && p.made.Created? && p.launched && p.exited
                && p.write.Answered? && task.id in old(repo.rows) && old(repo.rows)[task.id].status == Pending
                && !p.result.status.Other? && Spelled(p.result.status) in VERDICTS
      ensures |published| > |old(published)| ==>
                var e := published[|old(published)|];
                && e.id == task.id && e.user == task.user && e.problem == task.problem
                && e.language == task.language && e.code == task.code && e.status == p.result.status
                && e.timeUsed ==
                     (if p.result.timeUsed.Some? && p.result.timeUsed.value > 0 then p.result.timeUsed else None)
                && e.memoryUsed ==
                     (if p.result.memoryUsed.Some? && p.result.memoryUsed.value > 0 then p.result.memoryUsed else None)
                && e.errorMessage == (if p.result.errorMessage == "" then None else Some(p.result.errorMessage))
      ensures |checkins| > |old(checkins)| <==> |published| > |old(published)| && p.result.status.Ac?
      ensures |checkins| > |old(checkins)| ==>
                var v := checkins[|old(checkins)|]; v.user == task.user && v.problem == task.problem && v.id == task.id
    {
      if !hasClient {
        FinishSe(task.id, p);
        return;
      }
      var claimed := false;
      if TakesEffect(p.claim) {
        claimed := repo.MarkRunning(task.id);
      }
      if p.claim.Answered? && claimed {
        JudgeClaimed(task, p);
      }
    }
  }
}
