/**
 What every step of the judge pipeline keeps.  Each invariant speaks about few
 components and has its own small preservation lemma; PipelineTheorems puts them
 together for whole runs.
 */
module PipelineInvariants {
  import opened Options
  import opened Submissions
  import opened Containers
  import opened Pipeline

  // ---- the queue -------------------------------------------------------

  ghost predicate NoneExited(ws: seq<Worker>) {
    forall i | 0 <= i < |ws| :: !ws[i].Exited?
  }

  /** FIFO, nothing lost or duplicated, and the bound. */
  ghost predicate QueueInv(s: State) {
    && s.queue.accepted == s.queue.popped + s.queue.waiting
    && (s.cfg.maxQueueSize > 0 ==> |s.queue.waiting| <= s.cfg.maxQueueSize)
  }

  /**
   Nothing happens before the start; in the first life workers exit only once shutdown has begun; a later one is all
   shutdown.
   */
  ghost predicate LifeInv(s: State) {
    && (s.phase.NotStarted? ==>
          !s.restarted && !s.shuttingDown && s.workers == [] && !s.running && s.queue.offers == multiset{} &&
            s.queue.accepted == [])
    && ((s.phase.Spawning? || s.phase.Serving?) && !s.restarted ==> !s.shuttingDown && NoneExited(s.workers))
    && (s.phase.Serving? ==> s.workers != [])
    && (s.phase.Down? ==> !s.running && AllExited(s.workers))
    && (s.restarted || s.phase.Joining? || s.phase.Down? ==> s.shuttingDown)
    && (!s.restarted && s.workers == [] ==> s.queue.popped == [])
  }

  lemma QueueStep(s: State, step: Step)
    requires QueueInv(s) && Enabled(s, step)
    ensures QueueInv(Apply(s, step))
  {
    if step.Work? && step.act.Pop? {
      assert s.queue.waiting == [s.queue.waiting[0]] + s.queue.waiting[1..];
    }
  }

  lemma LifeStep(s: State, step: Step)
    requires QueueInv(s) && LifeInv(s) && Enabled(s, step)
    ensures LifeInv(Apply(s, step))
  {
  }

  /**
   How it comes about that no worker is left: the last one exits and finds the queue empty, or none of
   those spawned so far is left when a thread cannot be spawned, or the scheduler is stopped before it was started.
   */
  lemma NoneLeftBecause(s: State, step: Step)
    requires LifeInv(s) && Enabled(s, step) && !NoneLeft(s) && NoneLeft(Apply(s, step))
    ensures match step
            case Work(_, a) => a.Exit? && Apply(s, step).queue.waiting == []
            case SpawnFails => AllExited(s.workers) && (!s.restarted ==> s.workers == [])
            case StopRequested => s.phase.NotStarted?
            case _ => false
  {
    var s' := Apply(s, step);
    if step.Work? {
      assert s'.workers[step.i].Exited?;
    }
    assert s.workers != [] && NoneExited(s.workers) ==> !s.workers[0].Exited?;
    assert !step.Work? && !step.Spawn? && !step.Restart? ==> s'.workers == s.workers;
    assert Spawned(s).workers[|s.workers|] == Waiting;
  }

  // ---- the gauge ---------------------------------------------------------

  /** A worker is inside the task body from its `fetch_add` to its `fetch_sub`. */
  predicate InBody(w: Worker) {
    !w.Waiting? && !w.Popped? && !w.Exited?
  }

  function BodyCount(ws: seq<Worker>): nat {
    if ws == [] then 0
    else BodyCount(ws[..|ws| - 1]) + (if InBody(ws[|ws| - 1]) then 1 else 0)
  }

  lemma {:induction false} BodyCountUpdate(ws: seq<Worker>, i: nat, w: Worker)
    requires i < |ws|
    ensures BodyCount(ws[i := w]) == BodyCount(ws) - (if InBody(ws[i]) then 1 else 0) + (if InBody(w) then 1 else 0)
  {
    var last := |ws| - 1;
    if i < last {
      BodyCountUpdate(ws[..last], i, w);
      assert ws[i := w][..last] == ws[..last][i := w];
    } else {
      assert ws[i := w][..last] == ws[..last];
    }
  }

  lemma {:induction false} BodyCountBound(ws: seq<Worker>)
    ensures BodyCount(ws) <= |ws|
  {
    if ws != [] {
      BodyCountBound(ws[..|ws| - 1]);
    }
  }

  /** No worker is inside the task body once all have exited. */
  lemma {:induction false} NoneInBody(ws: seq<Worker>)
    requires AllExited(ws)
    ensures BodyCount(ws) == 0
  {
    if ws != [] {
      NoneInBody(ws[..|ws| - 1]);
    }
  }

  ghost predicate GaugeInv(s: State) {
    && s.runningCount == BodyCount(s.workers)
    && (s.phase.NotStarted? ==> s.workers == [])
    && (s.phase.Spawning? ==> |s.workers| < s.cfg.maxConcurrent)
    && (s.workers != [] ==> |s.workers| <= s.cfg.maxConcurrent)
  }

  lemma ActCounts(s: State, w: Worker, a: Act)
    requires ActEnabled(s, w, a)
    ensures InBody(NextWorker(s, w, a)) <==> (InBody(w) || a.Enter?) && !a.Leave?
    ensures a.Enter? ==> !InBody(w)
    ensures a.Leave? ==> InBody(w)
  {
  }

  lemma GaugeStep(s: State, step: Step)
    requires GaugeInv(s) && LifeInv(s) && Enabled(s, step)
    ensures GaugeInv(Apply(s, step))
  {
    match step
    case Work(i, a) =>
      ActCounts(s, s.workers[i], a);
      BodyCountUpdate(s.workers, i, NextWorker(s, s.workers[i], a));
    case Spawn =>
      assert Spawned(s).workers[..|s.workers|] == s.workers;
    case Restart => NoneInBody(s.workers);
    case _ =>
  }

  // ---- the rows -----------------------------------------------------------

  /** How often a row may have been claimed and made terminal, read off its status. */
  ghost predicate RowAccounts(db: Db, id: int) {
    && db.verdicts[id] <= db.flips[id]
    && (id !in db.rows ==> db.claims[id] == 0 && db.sweeps[id] == 0 && db.flips[id] == 0)
    && (id in db.rows ==>
          match db.rows[id].status
          case Pending => db.claims[id] == db.sweeps[id] && db.flips[id] == 0
          case Running => db.claims[id] == db.sweeps[id] + 1 && db.flips[id] == 0
          case _ => db.sweeps[id] <= db.claims[id] <= db.sweeps[id] + 1 && db.flips[id] == 1)
  }

  ghost predicate RowsInv(db: Db) {
    && RowsWellFormed(db.rows)
    && forall id :: RowAccounts(db, id)
  }

  /** One act touches at most its own task's row. */
  lemma ActRows(db: Db, w: Worker, a: Act)
    requires RowsInv(db)
    ensures RowsInv(NextDb(db, w, a))
    ensures TerminalRowsKept(db.rows, NextDb(db, w, a).rows)
  {
    var db' := NextDb(db, w, a);
    forall id
      ensures RowAccounts(db', id)
    {
      assert RowAccounts(db, id);
    }
  }

  lemma SweepRows(db: Db, cutoff: int)
    requires RowsInv(db)
    ensures RowsInv(SweptDb(db, cutoff))
    ensures TerminalRowsKept(db.rows, SweptDb(db, cutoff).rows)
  {
    forall id
      ensures RowAccounts(SweptDb(db, cutoff), id)
    {
      assert RowAccounts(db, id);
    }
  }

  lemma RowsStep(s: State, step: Step)
    requires RowsInv(s.db) && Enabled(s, step)
    ensures RowsInv(Apply(s, step).db)
    ensures TerminalRowsKept(s.db.rows, Apply(s, step).db.rows)
  {
    match step
    case Work(i, a) => ActRows(s.db, s.workers[i], a);
    case Sweep(cutoff) => SweepRows(s.db, cutoff);
    case Submit(_, _) =>
      forall id
        ensures RowAccounts(Apply(s, step).db, id)
      {
        assert RowAccounts(s.db, id);
      }
    case _ =>
  }

  // ---- the containers ---------------------------------------------------------

  function Held(w: Worker): Option<Cid> {
    match w
    case Discarding(_, c) => Some(c)
    case Starting(_, _, c) => Some(c)
    case Awaiting(_, _, c) => Some(c)
    case Killing(_, _, c) => Some(c)
    case Reading(_, _, c) => Some(c)
    case Removing(_, _, c, _) => Some(c)
    case _ => None
  }

  function HeldLife(w: Worker): Life {
    if w.Discarding? || w.Starting? then Made else Up
  }

  ghost predicate HeldBySome(ws: seq<Worker>, c: Cid) {
    exists i | 0 <= i < |ws| :: Held(ws[i]) == Some(c)
  }

  ghost predicate HolderOk(boxes: Boxes, w: Worker) {
    Held(w).Some? ==> Held(w).value in boxes && boxes[Held(w).value] == HeldLife(w)
  }

  /** The monitor accepts the calls so far, and every container not yet removed is in exactly one worker's hands. */
  ghost predicate BoxInv(d: Docker, ws: seq<Worker>) {
    && Replay(d.calls) == Some(d.boxes)
    && (forall i | 0 <= i < |ws| :: HolderOk(d.boxes, ws[i]))
    && (forall i, j | 0 <= i < j < |ws| && Held(ws[i]).Some? :: Held(ws[i]) != Held(ws[j]))
    && (forall c: Cid | Standing(d.boxes, c) :: HeldBySome(ws, c))
  }

  predicate RemovalOp(op: Op) {
    op.Remove? || op.RemoveFailed?
  }

  /**
   A worker calls Docker only about the container it holds or takes up, lets go only by attempting to remove it, and
   does not hear of one whose reply is lost.
   */
  ghost predicate CallFits(d: Docker, w: Worker, call: Option<Op>, w': Worker) {
    && HolderOk(NextDocker(d, call).boxes, w')
    && (call.None? ==> Held(w') == Held(w) == None)
    && (call.Some? ==>
          && Allowed(d.boxes, call.value)
          && (if call.value.Create? || call.value.Handed? || call.value.Orphan? then Held(w).None?
              else Held(w) == Some(call.value.cid))
          && (Held(w') == if RemovalOp(call.value) || call.value.Orphan? then None else Some(call.value.cid)))
  }

  /** The acts that bring a container or give one up. */
  predicate Turnover(a: Act) {
    a.AskPool? || a.Discard? || a.MakeBox? || a.RemoveBox?
  }

  lemma TurnoverCalls(s: State, w: Worker, a: Act)
    requires ActEnabled(s, w, a) && HolderOk(s.docker.boxes, w) && Turnover(a)
    ensures CallFits(s.docker, w, CallOf(w, a), NextWorker(s, w, a))
  {
    match a
    case AskPool(_) =>
    case Discard(_) =>
    case MakeBox(_) =>
    case RemoveBox(_) =>
  }

  /** The acts on a container at hand. */
  predicate Handles(a: Act) {
    a.Launch? || a.Await? || a.KillBox? || a.ReadLogs?
  }

  lemma HandlingCalls(s: State, w: Worker, a: Act)
    requires ActEnabled(s, w, a) && HolderOk(s.docker.boxes, w) && Handles(a)
    ensures CallFits(s.docker, w, CallOf(w, a), NextWorker(s, w, a))
  {
    match a
    case Launch(_) =>
    case Await(_) =>
    case KillBox =>
    case ReadLogs(_) =>
  }

  lemma ActCalls(s: State, w: Worker, a: Act)
    requires ActEnabled(s, w, a) && HolderOk(s.docker.boxes, w)
    ensures CallFits(s.docker, w, CallOf(w, a), NextWorker(s, w, a))
  {
    if Turnover(a) {
      TurnoverCalls(s, w, a);
    } else if Handles(a) {
      HandlingCalls(s, w, a);
    }
  }

  lemma HeldElsewhere(ws: seq<Worker>, i: nat, w: Worker, c: Cid)
    requires i < |ws| && HeldBySome(ws, c)
    requires Held(ws[i]) != Some(c) || Held(w) == Some(c)
    ensures HeldBySome(ws[i := w], c)
  {
    var k :| 0 <= k < |ws| && Held(ws[k]) == Some(c);
    assert k != i ==> Held(ws[i := w][k]) == Some(c);
    assert k == i ==> Held(ws[i := w][i]) == Some(c);
  }

  lemma BoxTransfer(d: Docker, ws: seq<Worker>, i: nat, call: Option<Op>, w': Worker)
    requires BoxInv(d, ws) && i < |ws| && CallFits(d, ws[i], call, w')
    ensures BoxInv(NextDocker(d, call), ws[i := w'])
  {
    var d', ws' := NextDocker(d, call), ws[i := w'];
    if call.Some? {
      ReplayExtends(d.calls, call.value);
    }
    forall c: Cid | Standing(d'.boxes, c)
      ensures HeldBySome(ws', c)
    {
      if Held(w') == Some(c) {
        assert Held(ws'[i]) == Some(c);
      } else {
        HeldElsewhere(ws, i, w', c);
      }
    }
    forall k | 0 <= k < |ws'|
      ensures HolderOk(d'.boxes, ws'[k])
    {
      assert HolderOk(d.boxes, ws[k]);
    }
  }

  lemma BoxStep(s: State, step: Step)
    requires BoxInv(s.docker, s.workers) && LifeInv(s) && Enabled(s, step)
    ensures BoxInv(Apply(s, step).docker, Apply(s, step).workers)
  {
    match step
    case Work(i, a) =>
      assert HolderOk(s.docker.boxes, s.workers[i]);
      ActCalls(s, s.workers[i], a);
      BoxTransfer(s.docker, s.workers, i, CallOf(s.workers[i], a), NextWorker(s, s.workers[i], a));
    case Spawn =>
      forall c: Cid | HeldBySome(s.workers, c)
        ensures HeldBySome(Spawned(s).workers, c)
      {
        var k :| 0 <= k < |s.workers| && Held(s.workers[k]) == Some(c);
        assert Held(Spawned(s).workers[k]) == Some(c);
      }
    case Restart => assert forall i | 0 <= i < |s.workers| :: Held(s.workers[i]).None?;
    case _ =>
  }

  // ---- what is announced --------------------------------------------------------

  /** The worker has seen its verdict flip the row and has not published it yet. */
  predicate Announcing(w: Worker) {
    w.CheckingIn? || w.Publishing?
  }

  ghost predicate AnnouncedBySome(ws: seq<Worker>, id: int) {
    exists i | 0 <= i < |ws| :: Announcing(ws[i]) && ws[i].task.id == id
  }

  ghost predicate PublishedBefore(o: Outbox, id: int) {
    exists k | 0 <= k < |o.published| :: o.published[k].id == id
  }

  /** A verdict's answered write has put this outcome into the row. */
  ghost predicate StoredAs(db: Db, id: int, o: Outcome) {
    id in db.rows && Shows(db.rows[id], o) && IsTerminalStatus(o.status) && db.verdicts[id] == 1
  }

  /** A published row says what the stored one says, times that are not positive left out. */
  ghost predicate Mirrors(e: Event, row: Row) {
    && e.status == row.status && e.errorMessage == row.errorMessage
    && e.timeUsed == (if row.timeUsed.Some? && row.timeUsed.value > 0 then row.timeUsed else None)
    && e.memoryUsed == (if row.memoryUsed.Some? && row.memoryUsed.value > 0 then row.memoryUsed else None)
  }

  ghost predicate CheckedIn(o: Outbox, id: int) {
    exists k | 0 <= k < |o.checkins| :: o.checkins[k].id == id
  }

  ghost predicate Accepted(db: Db, id: int) {
    id in db.rows && db.rows[id].status == Ac && db.verdicts[id] == 1
  }

  /** A worker about to announce owns its submission's only announcement. */
  ghost predicate AnnouncerOk(db: Db, o: Outbox, w: Worker) {
    Announcing(w) ==>
      && StoredAs(db, w.task.id, w.result)
      && !PublishedBefore(o, w.task.id)
      && (w.CheckingIn? ==> w.result.status == Ac && !CheckedIn(o, w.task.id))
      && (w.Publishing? && w.result.status == Ac ==> CheckedIn(o, w.task.id))
  }

  ghost predicate PublishedOk(db: Db, o: Outbox, e: Event) {
    && e.id in db.rows && Mirrors(e, db.rows[e.id]) && IsTerminalStatus(e.status) && db.verdicts[e.id] == 1
    && (e.status == Ac ==> CheckedIn(o, e.id))
  }

  /** Everything already announced is backed by a row, once. */
  ghost predicate OutboxInv(db: Db, o: Outbox) {
    && (forall k | 0 <= k < |o.published| :: PublishedOk(db, o, o.published[k]))
    && (forall k, l | 0 <= k < l < |o.published| :: o.published[k].id != o.published[l].id)
    && (forall k | 0 <= k < |o.checkins| :: Accepted(db, o.checkins[k].id))
    && (forall k, l | 0 <= k < l < |o.checkins| :: o.checkins[k].id != o.checkins[l].id)
  }

  /** Everything still to be announced is in exactly one worker's hands. */
  ghost predicate AnnounceInv(db: Db, o: Outbox, ws: seq<Worker>) {
    && OutboxInv(db, o)
    && (forall i | 0 <= i < |ws| :: AnnouncerOk(db, o, ws[i]))
    && (forall i, j | 0 <= i < j < |ws| && Announcing(ws[i]) && Announcing(ws[j]) ::
          ws[i].task.id != ws[j].task.id)
    && (forall id | db.verdicts[id] > 0 :: PublishedBefore(o, id) || AnnouncedBySome(ws, id))
  }

  /** Rows already decided stay decided the same way under any step that keeps terminal rows. */
  ghost predicate Keeps(db: Db, db': Db) {
    && TerminalRowsKept(db.rows, db'.rows)
    && forall id | db.verdicts[id] == 1 && id in db.rows && IsTerminalStatus(db.rows[id].status) ::
      db'.verdicts[id] == 1
  }

  lemma OutboxKept(db: Db, db': Db, o: Outbox)
    requires OutboxInv(db, o) && Keeps(db, db')
    ensures OutboxInv(db', o)
  {
    forall k | 0 <= k < |o.published|
      ensures PublishedOk(db', o, o.published[k])
    {
      assert PublishedOk(db, o, o.published[k]);
    }
  }

  /** Steps that neither start an announcement nor make one. */
  lemma AnnounceFrame(db: Db, db': Db, o: Outbox, ws: seq<Worker>)
    requires AnnounceInv(db, o, ws) && Keeps(db, db') && db'.verdicts == db.verdicts
    ensures AnnounceInv(db', o, ws)
  {
    OutboxKept(db, db', o);
    forall i | 0 <= i < |ws|
      ensures AnnouncerOk(db', o, ws[i])
    {
    }
  }

  lemma AnnouncedElsewhere(ws: seq<Worker>, i: nat, w: Worker, id: int)
    requires i < |ws| && AnnouncedBySome(ws, id)
    requires !(Announcing(ws[i]) && ws[i].task.id == id) || (Announcing(w) && w.task.id == id)
    ensures AnnouncedBySome(ws[i := w], id)
  {
    var k :| 0 <= k < |ws| && Announcing(ws[k]) && ws[k].task.id == id;
    var ws' := ws[i := w];
    assert k != i ==> ws'[k] == ws[k];
    assert k == i ==> ws'[k] == w;
  }

  /** A worker moves outside the announcing part of its task. */
  lemma QuietMove(db: Db, o: Outbox, ws: seq<Worker>, i: nat, w': Worker)
    requires AnnounceInv(db, o, ws) && i < |ws| && !Announcing(ws[i]) && !Announcing(w')
    ensures AnnounceInv(db, o, ws[i := w'])
  {
    forall id | db.verdicts[id] > 0 && !PublishedBefore(o, id)
      ensures AnnouncedBySome(ws[i := w'], id)
    {
      AnnouncedElsewhere(ws, i, w', id);
    }
  }

  lemma CheckInGrows(o: Outbox, w: Worker)
    requires w.CheckingIn?
    ensures forall id :: CheckedIn(NextOutbox(o, w, CheckIn), id) <==> CheckedIn(o, id) || id == w.task.id
  {
    var o', n := NextOutbox(o, w, CheckIn), |o.checkins|;
    assert o'.checkins[n].id == w.task.id && o'.checkins[..n] == o.checkins;
    forall id | CheckedIn(o, id)
      ensures CheckedIn(o', id)
    {
      var k :| 0 <= k < n && o.checkins[k].id == id;
      assert o'.checkins[k].id == id;
    }
  }

  lemma CheckInMove(db: Db, o: Outbox, ws: seq<Worker>, i: nat)
    requires AnnounceInv(db, o, ws) && i < |ws| && ws[i].CheckingIn?
    ensures AnnounceInv(db, NextOutbox(o, ws[i], CheckIn), ws[i := Publishing(ws[i].task, ws[i].lease, ws[i].result)])
  {
    var w, o' := ws[i], NextOutbox(o, ws[i], CheckIn);
    var w' := Publishing(w.task, w.lease, w.result);
    var ws' := ws[i := w'];
    assert AnnouncerOk(db, o, w);
    CheckInGrows(o, w);
    forall k | 0 <= k < |o'.published|
      ensures PublishedOk(db, o', o'.published[k])
    {
      assert PublishedOk(db, o, o.published[k]);
    }
    forall k | 0 <= k < |ws'|
      ensures AnnouncerOk(db, o', ws'[k])
    {
      assert AnnouncerOk(db, o, ws[k]);
    }
    forall id | db.verdicts[id] > 0
      ensures PublishedBefore(o', id) || AnnouncedBySome(ws', id)
    {
      if PublishedBefore(o, id) {
        assert PublishedBefore(o', id);
      } else {
        AnnouncedElsewhere(ws, i, w', id);
      }
    }
  }

  lemma PublishOutbox(db: Db, o: Outbox, w: Worker)
    requires OutboxInv(db, o) && AnnouncerOk(db, o, w) && w.Publishing?
    ensures OutboxInv(db, NextOutbox(o, w, Publish))
  {
    var o', n := NextOutbox(o, w, Publish), |o.published|;
    forall k | 0 <= k < |o'.published|
      ensures PublishedOk(db, o', o'.published[k])
    {
      assert k < n ==> PublishedOk(db, o, o.published[k]);
    }
  }

  lemma PublishMove(db: Db, o: Outbox, ws: seq<Worker>, i: nat)
    requires AnnounceInv(db, o, ws) && i < |ws| && ws[i].Publishing?
    ensures AnnounceInv(db, NextOutbox(o, ws[i], Publish), ws[i := Cleaning(ws[i].task, ws[i].lease, true)])
  {
    var w, o' := ws[i], NextOutbox(o, ws[i], Publish);
    var w' := Cleaning(w.task, w.lease, true);
    var ws', n := ws[i := w'], |o.published|;
    assert AnnouncerOk(db, o, w);
    assert o'.published[n].id == w.task.id;
    PublishOutbox(db, o, w);
    forall k | 0 <= k < |ws'|
      ensures AnnouncerOk(db, o', ws'[k])
    {
      assert AnnouncerOk(db, o, ws[k]);
    }
    forall id | db.verdicts[id] > 0
      ensures PublishedBefore(o', id) || AnnouncedBySome(ws', id)
    {
      if PublishedBefore(o, id) {
        var k :| 0 <= k < n && o.published[k].id == id;
        assert o'.published[k].id == id;
      } else if id != w.task.id {
        AnnouncedElsewhere(ws, i, w', id);
      }
    }
  }

  /** A worker's answered write has just flipped an open row: nobody else can hold or have made that announcement. */
  lemma VerdictMove(db: Db, db': Db, o: Outbox, ws: seq<Worker>, i: nat, w': Worker)
    requires AnnounceInv(db, o, ws) && RowsInv(db) && Keeps(db, db')
    requires i < |ws| && !Announcing(ws[i]) && Announcing(w') && Open(db.rows, w'.task.id)
    requires db'.verdicts == db.verdicts + multiset{w'.task.id}
    requires StoredAs(db', w'.task.id, w'.result) && (w'.CheckingIn? <==> w'.result.status == Ac)
    ensures AnnounceInv(db', o, ws[i := w'])
  {
    var ws', id' := ws[i := w'], w'.task.id;
    OutboxKept(db, db', o);
    assert forall k | 0 <= k < |o.published| :: PublishedOk(db, o, o.published[k]);
    assert !PublishedBefore(o, id');
    assert AnnouncerOk(db', o, w');
    forall k | 0 <= k < |ws'|
      ensures AnnouncerOk(db', o, ws'[k])
      ensures k != i && Announcing(ws'[k]) ==> ws'[k].task.id != id'
    {
      if k != i {
        assert AnnouncerOk(db, o, ws[k]);
      }
    }
    forall id | db'.verdicts[id] > 0
      ensures PublishedBefore(o, id) || AnnouncedBySome(ws', id)
    {
      if id == id' {
        assert Announcing(ws'[i]) && ws'[i].task.id == id;
      } else if !PublishedBefore(o, id) {
        AnnouncedElsewhere(ws, i, w', id);
      }
    }
  }

  lemma ActKeeps(db: Db, w: Worker, a: Act)
    requires RowsInv(db)
    ensures Keeps(db, NextDb(db, w, a))
  {
    ActRows(db, w, a);
  }

  /** Which acts start an announcement. */
  lemma ActAnnounces(s: State, w: Worker, a: Act)
    requires ActEnabled(s, w, a) && RowsInv(s.db) && !Announcing(w)
    ensures var w', db' := NextWorker(s, w, a), NextDb(s.db, w, a);
            if Announcing(w')
            then
              && Open(s.db.rows, w'.task.id)
              && db'.verdicts == s.db.verdicts + multiset{w'.task.id}
              && StoredAs(db', w'.task.id, w'.result) && (w'.CheckingIn? <==> w'.result.status == Ac)
            else db'.verdicts == s.db.verdicts
  {
    if a.WriteBack? {
      assert RowAccounts(s.db, w.task.id);
    }
  }

  lemma AnnounceAct(s: State, i: nat, a: Act, w: Worker, w': Worker, db': Db, o': Outbox)
    requires i < |s.workers| && w == s.workers[i] && ActEnabled(s, w, a)
    requires w' == NextWorker(s, w, a) && db' == NextDb(s.db, w, a) && o' == NextOutbox(s.outbox, w, a)
    requires RowsInv(s.db) && AnnounceInv(s.db, s.outbox, s.workers)
    ensures AnnounceInv(db', o', s.workers[i := w'])
  {
    if a.CheckIn? {
      CheckInMove(s.db, s.outbox, s.workers, i);
    } else if a.Publish? {
      PublishMove(s.db, s.outbox, s.workers, i);
    } else {
      ActKeeps(s.db, w, a);
      ActAnnounces(s, w, a);
      if Announcing(w') {
        VerdictMove(s.db, db', s.outbox, s.workers, i, w');
      } else {
        AnnounceFrame(s.db, db', s.outbox, s.workers);
        QuietMove(db', s.outbox, s.workers, i, w');
      }
    }
  }

  lemma AnnounceSpawn(db: Db, o: Outbox, ws: seq<Worker>)
    requires AnnounceInv(db, o, ws)
    ensures AnnounceInv(db, o, ws + [Waiting])
  {
    forall id | AnnouncedBySome(ws, id)
      ensures AnnouncedBySome(ws + [Waiting], id)
    {
      var k :| 0 <= k < |ws| && Announcing(ws[k]) && ws[k].task.id == id;
      assert (ws + [Waiting])[k] == ws[k];
    }
  }

  lemma AnnounceStep(s: State, step: Step)
    requires RowsInv(s.db) && AnnounceInv(s.db, s.outbox, s.workers) && LifeInv(s) && Enabled(s, step)
    ensures var s' := Apply(s, step); AnnounceInv(s'.db, s'.outbox, s'.workers)
  {
    RowsStep(s, step);
    match step
    case Work(i, a) =>
      var w := s.workers[i];
      AnnounceAct(s, i, a, w, NextWorker(s, w, a), NextDb(s.db, w, a), NextOutbox(s.outbox, w, a));
    case Spawn => AnnounceSpawn(s.db, s.outbox, s.workers);
    case Submit(_, _) => AnnounceFrame(s.db, Apply(s, step).db, s.outbox, s.workers);
    case Sweep(_) => AnnounceFrame(s.db, Apply(s, step).db, s.outbox, s.workers);
    case Restart => assert forall i | 0 <= i < |s.workers| :: !Announcing(s.workers[i]);
    case _ =>
  }

  // ---- what a worker leaves behind ------------------------------------------------

  /** A worker whose row write was answered leaves a terminal row behind. */
  ghost predicate SettledOk(rows: Table, w: Worker) {
    (w.Cleaning? || w.Leaving?) && w.settled ==> w.task.id in rows && IsTerminalStatus(rows[w.task.id].status)
  }

  ghost predicate SettledInv(rows: Table, ws: seq<Worker>) {
    forall i | 0 <= i < |ws| :: SettledOk(rows, ws[i])
  }

  /** Only a write and what follows it can leave a settled worker. */
  lemma OthersUnsettled(s: State, w: Worker, a: Act)
    requires ActEnabled(s, w, a) && !a.WriteBack? && !a.Publish? && !a.CleanUp?
    ensures var w' := NextWorker(s, w, a); !((w'.Cleaning? || w'.Leaving?) && w'.settled)
  {
  }

  lemma ActSettles(s: State, w: Worker, a: Act)
    requires ActEnabled(s, w, a) && RowsInv(s.db) && SettledOk(s.db.rows, w) && AnnouncerOk(s.db, s.outbox, w)
    ensures SettledOk(NextDb(s.db, w, a).rows, NextWorker(s, w, a))
  {
    if a.Publish? || a.CleanUp? {
      assert NextDb(s.db, w, a) == s.db;
    } else if !a.WriteBack? {
      OthersUnsettled(s, w, a);
    }
  }

  lemma SettledStep(s: State, step: Step)
    requires RowsInv(s.db) && AnnounceInv(s.db, s.outbox, s.workers) && SettledInv(s.db.rows, s.workers)
    requires Enabled(s, step)
    ensures SettledInv(Apply(s, step).db.rows, Apply(s, step).workers)
  {
    RowsStep(s, step);
    var s' := Apply(s, step);
    if step.Work? {
      var i := step.i;
      assert SettledOk(s.db.rows, s.workers[i]) && AnnouncerOk(s.db, s.outbox, s.workers[i]);
      ActSettles(s, s.workers[i], step.act);
    }
    forall k | 0 <= k < |s'.workers|
      ensures SettledOk(s'.db.rows, s'.workers[k])
    {
      assert k < |s.workers| ==> SettledOk(s.db.rows, s.workers[k]);
    }
  }
}
