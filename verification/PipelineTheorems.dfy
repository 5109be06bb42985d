/**
 The pipeline's promises over whole runs, and the runs on which a stronger
 reading of its comments fails.
 */
module PipelineTheorems {
  import opened Options
  import opened Submissions
  import opened Containers
  import opened Pipeline
  import opened PipelineInvariants

  ghost predicate Inv(s: State) {
    && QueueInv(s)
    && LifeInv(s)
    && GaugeInv(s)
    && RowsInv(s.db)
    && BoxInv(s.docker, s.workers)
    && AnnounceInv(s.db, s.outbox, s.workers)
    && SettledInv(s.db.rows, s.workers)
  }

  lemma StepKeepsInv(s: State, step: Step)
    requires Inv(s) && Enabled(s, step)
    ensures Inv(Apply(s, step))
    ensures TerminalRowsKept(s.db.rows, Apply(s, step).db.rows)
  {
    QueueStep(s, step);
    LifeStep(s, step);
    GaugeStep(s, step);
    RowsStep(s, step);
    BoxStep(s, step);
    AnnounceStep(s, step);
    SettledStep(s, step);
  }

  lemma {:induction false} RunKeepsInv(s: State, run: seq<Step>)
    requires Inv(s) && Exec(s, run).Some?
    ensures Inv(Exec(s, run).value)
    ensures TerminalRowsKept(s.db.rows, Exec(s, run).value.db.rows)
  {
    if run != [] {
      var last := |run| - 1;
      RunKeepsInv(s, run[..last]);
      StepKeepsInv(Exec(s, run[..last]).value, run[last]);
    }
  }

  lemma InitInv(cfg: Config)
    ensures Inv(Init(cfg))
  {
    assert forall id :: RowAccounts(Init(cfg).db, id);
  }

  lemma ReachableInv(cfg: Config, run: seq<Step>)
    requires Exec(Init(cfg), run).Some?
    ensures Inv(Exec(Init(cfg), run).value)
  {
    InitInv(cfg);
    RunKeepsInv(Init(cfg), run);
  }

  lemma ExecOneMore(s: State, run: seq<Step>, step: Step, m: Option<State>)
    requires Exec(s, run) == m
    ensures Exec(s, run + [step]) == Next(m, step)
  {
    assert (run + [step])[..|run|] == run;
  }

  lemma {:induction false} ExecConcat(s: State, r1: seq<Step>, r2: seq<Step>)
    requires Exec(s, r1).Some?
    ensures Exec(s, r1 + r2) == Exec(Exec(s, r1).value, r2)
  {
    if r2 == [] {
      assert r1 + r2 == r1;
    } else {
      var rest, step := r2[..|r2| - 1], r2[|r2| - 1];
      ExecConcat(s, r1, rest);
      ExecOneMore(s, r1 + rest, step, Exec(s, r1 + rest));
      ExecOneMore(Exec(s, r1).value, rest, step, Exec(s, r1 + rest));
      assert r1 + r2 == (r1 + rest) + [step] && r2 == rest + [step];
    }
  }

  // ---- submissions -------------------------------------------------------------

  /** Once a submission is terminal it keeps its row, whatever else the run does. */
  lemma TerminalForever(cfg: Config, early: seq<Step>, later: seq<Step>, id: int)
    requires Exec(Init(cfg), early + later).Some?
    requires Exec(Init(cfg), early).Some?
    requires var rows := Exec(Init(cfg), early).value.db.rows; id in rows && IsTerminalStatus(rows[id].status)
    ensures var rows := Exec(Init(cfg), early + later).value.db.rows;
            id in rows && rows[id] == Exec(Init(cfg), early).value.db.rows[id]
  {
    ReachableInv(cfg, early);
    ExecConcat(Init(cfg), early, later);
    RunKeepsInv(Exec(Init(cfg), early).value, later);
  }

  /**
   In every interleaving: `finished_at` is set exactly on terminal rows, a row is made
   terminal at most once, and claims are bounded by the sweeps that gave the row back.
   */
  lemma RowLifecycle(cfg: Config, run: seq<Step>, id: int)
    requires Exec(Init(cfg), run).Some?
    ensures var db := Exec(Init(cfg), run).value.db;
            && db.flips[id] <= 1
            && (db.flips[id] == 1 <==> id in db.rows && IsTerminalStatus(db.rows[id].status))
            && (id in db.rows ==> (db.rows[id].finishedAt.Some? <==> IsTerminalStatus(db.rows[id].status)))
            && db.claims[id] <= db.sweeps[id] + 1
  {
    ReachableInv(cfg, run);
    assert RowAccounts(Exec(Init(cfg), run).value.db, id);
  }

  lemma OnlySweepsSweep(s: State, step: Step)
    requires Enabled(s, step) && !step.Sweep?
    ensures Apply(s, step).db.sweeps == s.db.sweeps
  {
  }

  lemma {:induction false} NoSweepNoSweeps(s: State, run: seq<Step>)
    requires Exec(s, run).Some?
    requires forall k | 0 <= k < |run| :: !run[k].Sweep?
    ensures Exec(s, run).value.db.sweeps == s.db.sweeps
  {
    if run != [] {
      NoSweepNoSweeps(s, run[..|run| - 1]);
      OnlySweepsSweep(Exec(s, run[..|run| - 1]).value, run[|run| - 1]);
    }
  }

  lemma ClaimedOnceWithoutSweeps(cfg: Config, run: seq<Step>, id: int)
    requires Exec(Init(cfg), run).Some?
    requires forall k | 0 <= k < |run| :: !run[k].Sweep?
    ensures Exec(Init(cfg), run).value.db.claims[id] <= 1
  {
    RowLifecycle(cfg, run, id);
    NoSweepNoSweeps(Init(cfg), run);
  }

  /**
   Each submission is published at most once and checked in at most once, with what
   its row shows from then on, except that a time or memory of zero or less is left out; accepted verdicts are
   checked in before they are published.
   */
  lemma AnnouncedAtMostOnce(cfg: Config, run: seq<Step>)
    requires Exec(Init(cfg), run).Some?
    ensures var s := Exec(Init(cfg), run).value;
            && (forall k, l | 0 <= k < |s.outbox.published| && 0 <= l < |s.outbox.published| ::
                  s.outbox.published[k].id == s.outbox.published[l].id ==> k == l)
            && (forall k, l | 0 <= k < |s.outbox.checkins| && 0 <= l < |s.outbox.checkins| ::
                  s.outbox.checkins[k].id == s.outbox.checkins[l].id ==> k == l)
            && (forall k | 0 <= k < |s.outbox.published| ::
                  var e := s.outbox.published[k];
                  && e.id in s.db.rows && Mirrors(e, s.db.rows[e.id]) && IsTerminalStatus(e.status)
                  && (e.status == Ac ==> CheckedIn(s.outbox, e.id)))
            && (forall k | 0 <= k < |s.outbox.checkins| ::
                  var id := s.outbox.checkins[k].id; id in s.db.rows && s.db.rows[id].status == Ac)
  {
    ReachableInv(cfg, run);
    var s := Exec(Init(cfg), run).value;
    assert forall k | 0 <= k < |s.outbox.published| :: PublishedOk(s.db, s.outbox, s.outbox.published[k]);
  }

  // ---- whom an announcement is about ------------------------------------------------------------

  predicate HasTask(w: Worker) {
    !w.Waiting? && !w.Exited?
  }

  /** The published row and the check-in name the task's submission, user and problem, and its language and code. */
  ghost predicate EventAbout(e: Event, t: Task) {
    e.id == t.id && e.user == t.user && e.problem == t.problem && e.language == t.language && e.code == t.code
  }

  ghost predicate VisitAbout(v: Visit, t: Task) {
    v.id == t.id && v.user == t.user && v.problem == t.problem
  }

  ghost predicate Sourced(tasks: seq<Task>, o: Outbox) {
    && (forall k | 0 <= k < |o.published| :: exists t :: t in tasks && EventAbout(o.published[k], t))
    && (forall k | 0 <= k < |o.checkins| :: exists t :: t in tasks && VisitAbout(o.checkins[k], t))
  }

  ghost predicate SourceInv(s: State) {
    && (forall i | 0 <= i < |s.workers| && HasTask(s.workers[i]) :: s.workers[i].task in s.queue.popped)
    && Sourced(s.queue.popped, s.outbox)
  }

  lemma SourceOutbox(tasks: seq<Task>, o: Outbox, w: Worker, a: Act)
    requires Sourced(tasks, o) && (HasTask(w) ==> w.task in tasks)
    ensures Sourced(tasks, NextOutbox(o, w, a))
  {
    var o' := NextOutbox(o, w, a);
    if a.Publish? && w.Publishing? {
      assert EventAbout(o'.published[|o.published|], w.task);
    } else if a.CheckIn? && w.CheckingIn? {
      assert VisitAbout(o'.checkins[|o.checkins|], w.task);
    }
  }

  lemma SourceStep(s: State, step: Step)
    requires SourceInv(s) && Enabled(s, step)
    ensures SourceInv(Apply(s, step))
  {
    var s' := Apply(s, step);
    if step.Work? {
      var w, w' := s.workers[step.i], s'.workers[step.i];
      assert HasTask(w') && !step.act.Pop? ==> HasTask(w) && w'.task == w.task;
      SourceOutbox(s.queue.popped, s.outbox, w, step.act);
      assert s'.queue.popped[..|s.queue.popped|] == s.queue.popped;
      assert forall t :: t in s.queue.popped ==> t in s'.queue.popped;
    }
  }

  lemma {:induction false} SourceRun(s: State, run: seq<Step>)
    requires SourceInv(s) && Exec(s, run).Some?
    ensures SourceInv(Exec(s, run).value)
  {
    if run != [] {
      var last := |run| - 1;
      SourceRun(s, run[..last]);
      SourceStep(Exec(s, run[..last]).value, run[last]);
    }
  }

  /**
   In every reachable state every published row and every check-in is about a task that was accepted: the submission,
   the user, the problem, the language and the code are that task's.
   */
  lemma AnnouncedAsAccepted(cfg: Config, run: seq<Step>)
    requires Exec(Init(cfg), run).Some?
    ensures var s := Exec(Init(cfg), run).value;
            && (forall e | e in s.outbox.published ::
                  exists t :: t in s.queue.accepted && e.id == t.id && e.user == t.user && e.problem == t.problem &&
                              e.language == t.language && e.code == t.code)
            && (forall v | v in s.outbox.checkins ::
                  exists t :: t in s.queue.accepted && v.id == t.id && v.user == t.user && v.problem == t.problem)
  {
    SourceRun(Init(cfg), run);
    ReachableInv(cfg, run);
    var s := Exec(Init(cfg), run).value;
    forall e | e in s.outbox.published
      ensures exists t :: t in s.queue.accepted && EventAbout(e, t)
    {
      var t :| t in s.queue.popped && EventAbout(e, t);
      assert t in s.queue.accepted;
    }
    forall v | v in s.outbox.checkins
      ensures exists t :: t in s.queue.accepted && VisitAbout(v, t)
    {
      var t :| t in s.queue.popped && VisitAbout(v, t);
      assert t in s.queue.accepted;
    }
  }

  /**
   Which terminal rows reach their subscribers: at every moment, a submission has been published
   or is in the hands of a worker about to publish it exactly when a verdict's answered write flipped
   its row.  A row finished by `finish_se`, or by a write whose answer was lost, is never published.
   */
  lemma PublishedExactlyVerdicts(cfg: Config, run: seq<Step>, id: int)
    requires Exec(Init(cfg), run).Some?
    ensures var s := Exec(Init(cfg), run).value;
            s.db.verdicts[id] == 1 <==> PublishedBefore(s.outbox, id) || AnnouncedBySome(s.workers, id)
  {
    ReachableInv(cfg, run);
    VerdictsAnnounced(Exec(Init(cfg), run).value, id);
  }

  lemma VerdictsAnnounced(s: State, id: int)
    requires RowsInv(s.db) && AnnounceInv(s.db, s.outbox, s.workers)
    ensures s.db.verdicts[id] <= 1
    ensures s.db.verdicts[id] == 1 <==> PublishedBefore(s.outbox, id) || AnnouncedBySome(s.workers, id)
  {
    assert RowAccounts(s.db, id);
    assert forall k | 0 <= k < |s.outbox.published| :: PublishedOk(s.db, s.outbox, s.outbox.published[k]);
    if AnnouncedBySome(s.workers, id) {
      var i :| 0 <= i < |s.workers| && Announcing(s.workers[i]) && s.workers[i].task.id == id;
      assert AnnouncerOk(s.db, s.outbox, s.workers[i]);
    }
  }

  lemma VerdictsFixedStep(s: State, step: Step, id: int)
    requires Enabled(s, step) && id in s.db.rows && IsTerminalStatus(s.db.rows[id].status)
    ensures Apply(s, step).db.verdicts[id] == s.db.verdicts[id]
  {
  }

  lemma {:induction false} VerdictsFixed(s: State, run: seq<Step>, id: int)
    requires Inv(s) && Exec(s, run).Some? && id in s.db.rows && IsTerminalStatus(s.db.rows[id].status)
    ensures Exec(s, run).value.db.verdicts[id] == s.db.verdicts[id]
  {
    if run != [] {
      VerdictsFixed(s, run[..|run| - 1], id);
      RunKeepsInv(s, run[..|run| - 1]);
      VerdictsFixedStep(Exec(s, run[..|run| - 1]).value, run[|run| - 1], id);
    }
  }

  /** A terminal submission that nobody has published or is about to publish stays unpublished for good. */
  lemma SilentForever(cfg: Config, early: seq<Step>, later: seq<Step>, id: int)
    requires Exec(Init(cfg), early).Some? && Exec(Init(cfg), early + later).Some?
    requires var s := Exec(Init(cfg), early).value;
             && id in s.db.rows && IsTerminalStatus(s.db.rows[id].status)
             && !PublishedBefore(s.outbox, id) && !AnnouncedBySome(s.workers, id)
    ensures !PublishedBefore(Exec(Init(cfg), early + later).value.outbox, id)
  {
    PublishedExactlyVerdicts(cfg, early, id);
    PublishedExactlyVerdicts(cfg, early + later, id);
    ReachableInv(cfg, early);
    ExecConcat(Init(cfg), early, later);
    VerdictsFixed(Exec(Init(cfg), early).value, later, id);
  }

  // ---- queue and gauge -----------------------------------------------------------

  lemma QueueIsFifo(cfg: Config, run: seq<Step>)
    requires Exec(Init(cfg), run).Some?
    ensures var s := Exec(Init(cfg), run).value;
            && s.queue.accepted == s.queue.popped + s.queue.waiting
            && (cfg.maxQueueSize > 0 ==> |s.queue.waiting| <= cfg.maxQueueSize)
            && s.runningCount == BodyCount(s.workers)
            && 0 <= s.runningCount <= |s.workers|
            && (s.workers != [] ==> s.runningCount <= cfg.maxConcurrent)
  {
    ReachableInv(cfg, run);
    ConfigFixed(Init(cfg), run);
    BodyCountBound(Exec(Init(cfg), run).value.workers);
  }

  lemma ConfigFixedStep(s: State, step: Step)
    requires Enabled(s, step)
    ensures Apply(s, step).cfg == s.cfg
  {
  }

  lemma {:induction false} ConfigFixed(s: State, run: seq<Step>)
    requires Exec(s, run).Some?
    ensures Exec(s, run).value.cfg == s.cfg
  {
    if run != [] {
      ConfigFixed(s, run[..|run| - 1]);
      ConfigFixedStep(Exec(s, run[..|run| - 1]).value, run[|run| - 1]);
    }
  }

  lemma NothingPoppedStep(s: State, step: Step)
    requires NoneLeft(s) && Enabled(s, step) && !step.Restart?
    ensures var s' := Apply(s, step);
            && NoneLeft(s') && s'.queue.popped == s.queue.popped
            && s'.workers == s.workers && s'.restarted == s.restarted
  {
  }

  /** Once no worker is left, no run without another start pops anything more. */
  lemma {:induction false} NothingPoppedAfterLastExit(s: State, run: seq<Step>)
    requires NoneLeft(s) && Exec(s, run).Some? && Restart !in run
    ensures var s' := Exec(s, run).value;
            NoneLeft(s') && s'.queue.popped == s.queue.popped && s'.workers == s.workers
  {
    if run != [] {
      NothingPoppedAfterLastExit(s, run[..|run| - 1]);
      NothingPoppedStep(Exec(s, run[..|run| - 1]).value, run[|run| - 1]);
    }
  }

  /** `k` is the step from which, to the end of the run, no worker is left. */
  ghost predicate NoneLeftFrom(cfg: Config, run: seq<Step>, k: nat) {
    && k < |run| && Restart !in run[k..]
    && Exec(Init(cfg), run[..k + 1]).Some? && NoneLeft(Exec(Init(cfg), run[..k + 1]).value)
    && Exec(Init(cfg), run[..k]).Some? && !NoneLeft(Exec(Init(cfg), run[..k]).value)
  }

  /**
   The scheduler was stopped without ever having been started: no worker, nobody past the `running_` test, nothing
   accepted.
   */
  ghost predicate NeverBegun(s: State) {
    (s.phase == Joining || s.phase == Down) && !s.running && s.workers == [] && s.queue.offers == multiset{} &&
      s.queue.accepted == []
  }

  /** What is left in the queue of `end`, given the step from which no worker was left and the queue then. */
  ghost predicate LeftBehind(last: Step, stop: Queue, end: State) {
    && end.queue.accepted == end.queue.popped + end.queue.waiting
    && end.queue.popped == stop.popped
    && match last
       case Work(_, a) => a.Exit? && end.queue.popped == stop.accepted
       case SpawnFails => !end.restarted ==> end.workers == [] && end.queue.popped == []
       case StopRequested => NeverBegun(end)
       case _ => false
  }

  lemma LeftBehindStep(last: Step, stop: Queue, s: State, step: Step, s': State)
    requires LeftBehind(last, stop, s) && NoneLeft(s) && Enabled(s, step) && s' == Apply(s, step)
    requires QueueInv(s') && !step.Restart?
    ensures LeftBehind(last, stop, s')
  {
    NothingPoppedStep(s, step);
  }

  lemma LeftBehindFirst(s: State, step: Step, s': State)
    requires LifeInv(s) && Enabled(s, step) && s' == Apply(s, step) && !NoneLeft(s) && NoneLeft(s') && QueueInv(s')
    ensures LeftBehind(step, s'.queue, s') && !step.Restart?
  {
    NoneLeftBecause(s, step);
  }

  /** The last step of a run. */
  lemma LastStep(cfg: Config, run: seq<Step>, end: State) returns (before: seq<Step>, m: State, step: Step)
    requires run != [] && Exec(Init(cfg), run) == Some(end)
    ensures before == run[..|run| - 1] && step == run[|run| - 1]
    ensures Exec(Init(cfg), before) == Some(m) && Enabled(m, step) && end == Apply(m, step)
    ensures QueueInv(end) && LifeInv(m) && (NoneLeft(end) ==> !step.Restart?)
  {
    before, step := run[..|run| - 1], run[|run| - 1];
    m := Exec(Init(cfg), before).value;
    ReachableQueue(cfg, run);
    ReachableQueue(cfg, before);
  }

  lemma ReachableQueue(cfg: Config, run: seq<Step>)
    requires Exec(Init(cfg), run).Some?
    ensures QueueInv(Exec(Init(cfg), run).value) && LifeInv(Exec(Init(cfg), run).value)
  {
    ReachableInv(cfg, run);
  }

  /** One more step that is no start. */
  lemma NoneLeftLonger(cfg: Config, run: seq<Step>, before: seq<Step>, k: nat)
    requires run != [] && before == run[..|run| - 1] && NoneLeftFrom(cfg, before, k) && !run[|run| - 1].Restart?
    ensures NoneLeftFrom(cfg, run, k) && run[k] == before[k] && run[..k + 1] == before[..k + 1]
  {
    assert before[..k] == run[..k] && before[..k + 1] == run[..k + 1];
    assert run[k..] == before[k..] + [run[|run| - 1]];
  }

  lemma NoneLeftNow(cfg: Config, run: seq<Step>, before: seq<Step>)
    requires run != [] && before == run[..|run| - 1] && !run[|run| - 1].Restart? && Exec(Init(cfg), run).Some?
    requires !NoneLeft(Exec(Init(cfg), before).value) && NoneLeft(Exec(Init(cfg), run).value)
    ensures NoneLeftFrom(cfg, run, |run| - 1)
  {
    assert run[..|run|] == run && run[|run| - 1..] == [run[|run| - 1]];
  }

  /**
   What a shutdown strands, over any number of starts and stops.  Whenever no worker is left there is a step
   from which that is so, and nothing is popped after it.  If it is the last worker's exit, the tasks popped are
   exactly those accepted up to it, and those left in the queue the ones accepted after it.  If it is a failure
   to spawn a thread when none is left, all that wait then are left too; in the first life that is every task
   accepted.  If it is a stop before the start, nothing is accepted at all.
   */
  lemma {:induction false} DrainedAtShutdown(cfg: Config, run: seq<Step>, end: State) returns (k: nat, stop: State)
    requires Exec(Init(cfg), run) == Some(end) && NoneLeft(end)
    ensures NoneLeftFrom(cfg, run, k) && Exec(Init(cfg), run[..k + 1]) == Some(stop)
    ensures LeftBehind(run[k], stop.queue, end)
  {
    var before, m, last := LastStep(cfg, run, end);
    if NoneLeft(m) {
      k, stop := DrainedAtShutdown(cfg, before, m);
      NoneLeftLonger(cfg, run, before, k);
      LeftBehindStep(run[k], stop.queue, m, last, end);
    } else {
      LeftBehindFirst(m, last, end);
      NoneLeftNow(cfg, run, before);
      k, stop := |run| - 1, end;
      assert run[..|run|] == run;
    }
  }

  /** `shutting_down_` is never lowered: after a restart a worker at the queue never waits, it pops or it exits. */
  lemma RestartedNeverWaits(cfg: Config, run: seq<Step>, i: nat)
    requires Exec(Init(cfg), run).Some? && Exec(Init(cfg), run).value.restarted
    requires i < |Exec(Init(cfg), run).value.workers| && Exec(Init(cfg), run).value.workers[i].Waiting?
    ensures var s := Exec(Init(cfg), run).value;
            if s.queue.waiting != [] then Enabled(s, Work(i, Pop)) else Enabled(s, Work(i, Exit))
  {
    ReachableInv(cfg, run);
  }

  /** One worker is started and stopped. */
  lemma StartedAndStopped() returns (run: seq<Step>, s: State)
    ensures run == [Begin, Spawn, StopRequested] && Exec(Init(Config(1, 8, true)), run) == Some(s) &&
              s.cfg == Config(1, 8, true)
    ensures s.phase == Joining && s.shuttingDown && s.workers == [Waiting] && s.queue == Queue(multiset{}, [], [], [])
  {
    var s0 := Init(Config(1, 8, true));
    run, s := Extend(s0, [], s0, Begin);
    run, s := Extend(s0, run, s, Spawn);
    run, s := Extend(s0, run, s, StopRequested);
  }

  /** And started again. */
  lemma StartedAgain() returns (run: seq<Step>, s: State)
    ensures run == [Begin, Spawn, StopRequested, Work(0, Exit), AllJoined, Restart]
    ensures Exec(Init(Config(1, 8, true)), run) == Some(s) && s.cfg == Config(1, 8, true)
    ensures s.phase == Spawning && s.running && s.shuttingDown && s.workers == [] &&
              s.queue == Queue(multiset{}, [], [], [])
  {
    var s0 := Init(Config(1, 8, true));
    run, s := StartedAndStopped();
    run, s := Extend(s0, run, s, Work(0, Exit));
    run, s := Extend(s0, run, s, AllJoined);
    run, s := Extend(s0, run, s, Restart);
  }

  /** Its worker finds nothing and goes. */
  lemma GoneAgain() returns (run: seq<Step>, s: State)
    ensures run == [Begin, Spawn, StopRequested, Work(0, Exit), AllJoined, Restart, Spawn, Work(0, Exit)]
    ensures Exec(Init(Config(1, 8, true)), run) == Some(s) && s.cfg == Config(1, 8, true)
    ensures s.phase == Serving && s.running && s.workers == [Exited] && s.queue == Queue(multiset{}, [], [], [])
  {
    var s0 := Init(Config(1, 8, true));
    run, s := StartedAgain();
    run, s := Extend(s0, run, s, Spawn);
    run, s := Extend(s0, run, s, Work(0, Exit));
  }

  /** Its worker is gone at once, and what it goes on accepting is popped in no continuation without another start. */
  lemma RestartStrandsTasks(t: Task) returns (run: seq<Step>, s: State)
    ensures run == [Begin, Spawn, StopRequested, Work(0, Exit), AllJoined, Restart, Spawn, Work(0, Exit), Offer(t),
              Push(t)]
    ensures Exec(Init(Config(1, 8, true)), run) == Some(s)
    ensures s.phase == Serving && s.running && s.queue.accepted == [t]
    ensures forall later | Exec(s, later).Some? && Restart !in later :: Exec(s, later).value.queue.popped == []
  {
    var s0 := Init(Config(1, 8, true));
    run, s := GoneAgain();
    run, s := Enqueued(s0, run, s, t);
    forall later | Exec(s, later).Some? && Restart !in later
      ensures Exec(s, later).value.queue.popped == []
    {
      NothingPoppedAfterLastExit(s, later);
    }
  }

  /** A worker is waiting and a caller is past the `running_` test when shutdown begins. */
  lemma StopAfterOffer(t: Task) returns (run: seq<Step>, s: State)
    ensures run == [Begin, Spawn, Offer(t), StopRequested] && Exec(Init(Config(1, 8, true)), run) == Some(s)
    ensures s.phase == Joining && s.shuttingDown && s.cfg == Config(1, 8, true) && s.workers == [Waiting]
    ensures s.queue == Queue(multiset{t}, [], [], [])
  {
    var s0 := Init(Config(1, 8, true));
    run, s := Extend(s0, [], s0, Begin);
    run, s := Extend(s0, run, s, Spawn);
    run, s := Extend(s0, run, s, Offer(t));
    run, s := Extend(s0, run, s, StopRequested);
  }

  /**
   `enqueue` tests only `running_`, which stays true until the join is over: here a caller is
   told its task was accepted, and the task is not popped until another start.
   */
  lemma AcceptedTaskCanBeStranded(t: Task) returns (run: seq<Step>, end: State)
    ensures run == [Begin, Spawn, Offer(t), StopRequested, Work(0, Exit), Push(t), AllJoined]
    ensures Exec(Init(Config(1, 8, true)), run) == Some(end)
    ensures end.phase == Down && end.queue.accepted == [t] && end.queue.popped == []
  {
    var s0 := Init(Config(1, 8, true));
    run, end := StopAfterOffer(t);
    run, end := Extend(s0, run, end, Work(0, Exit));
    run, end := Extend(s0, run, end, Push(t));
    run, end := Extend(s0, run, end, AllJoined);
  }

  /** An undisturbed `enqueue` that is accepted. */
  lemma Enqueued(s0: State, run: seq<Step>, s: State, t: Task) returns (run': seq<Step>, s': State)
    requires Exec(s0, run) == Some(s) && s.running && !QueueFull(s.cfg, s.queue)
    ensures run' == run + [Offer(t), Push(t)] && Exec(s0, run') == Some(s')
    ensures s' == s.(queue := s.queue.(waiting := s.queue.waiting + [t], accepted := s.queue.accepted + [t]))
  {
    var m;
    run', m := Extend(s0, run, s, Offer(t));
    run', s' := Extend(s0, run', m, Push(t));
    assert m.queue.offers - multiset{t} == s.queue.offers;
    assert run + [Offer(t)] + [Push(t)] == run + [Offer(t), Push(t)];
  }

  lemma AcceptedBeforeSpawn(cfg: Config, t: Task) returns (run: seq<Step>, s: State)
    requires cfg.maxConcurrent >= 1
    ensures run == [Begin, Offer(t), Push(t)] && Exec(Init(cfg), run) == Some(s)
    ensures s.phase == Spawning && s.workers == [] && s.queue.accepted == [t] && s.queue.popped == []
  {
    run, s := Extend(Init(cfg), [], Init(cfg), Begin);
    run, s := Enqueued(Init(cfg), run, s, t);
  }

  /** `running_` is set before the first thread is spawned: a task accepted in between is stranded when that fails. */
  lemma AcceptedTaskCanBeStrandedAtStart(cfg: Config, t: Task) returns (run: seq<Step>, end: State)
    requires cfg.maxConcurrent >= 1
    ensures run == [Begin, Offer(t), Push(t), SpawnFails, AllJoined] && Exec(Init(cfg), run) == Some(end)
    ensures end.phase == Down && end.workers == [] && end.queue.accepted == [t] && end.queue.popped == []
  {
    run, end := AcceptedBeforeSpawn(cfg, t);
    run, end := Extend(Init(cfg), run, end, SpawnFails);
    run, end := Extend(Init(cfg), run, end, AllJoined);
  }

  /** One more step at the end of a run. */
  lemma Extend(s: State, run: seq<Step>, m: State, step: Step) returns (run': seq<Step>, m': State)
    requires Exec(s, run) == Some(m) && Enabled(m, step)
    ensures run' == run + [step] && m' == Apply(m, step)
    ensures Exec(s, run') == Some(m')
  {
    run', m' := run + [step], Apply(m, step);
    assert run'[..|run|] == run;
  }

  // ---- containers ------------------------------------------------------------------

  /**
   For every pattern of Docker successes and failures, the monitor accepts the calls: no container's
   removal is attempted twice, and none is touched after that.  By the time no worker holds it, a
   container has had exactly one attempt, or none if the reply to its create was lost; and Docker
   still has it exactly when that reply was lost or that one attempt failed.
   */
  lemma ContainersRemovedOnce(cfg: Config, run: seq<Step>, c: Cid)
    requires Exec(Init(cfg), run).Some?
    ensures var s := Exec(Init(cfg), run).value; var calls := s.docker.calls;
            && Replay(calls).Some?
            && Removals(calls, c) <= 1
            && (c in s.docker.boxes <==> Create(c) in calls || Handed(c) in calls || Orphan(c) in calls)
            && (c in s.docker.boxes && !HeldBySome(s.workers, c) ==>
                  && Removals(calls, c) == (if Orphan(c) in calls then 0 else 1)
                  && (Remove(c) !in calls <==> Orphan(c) in calls || RemoveFailed(c) in calls))
            && (forall i, j | 0 <= i < j < |calls| && RemovalOp(calls[i]) && calls[i].cid == c :: calls[j] != Start(c))
  {
    ReachableInv(cfg, run);
    var s := Exec(Init(cfg), run).value;
    AcceptedMeansOneRemoval(s.docker.calls, c);
    AcceptedMeansBrought(s.docker.calls, c);
    assert Standing(s.docker.boxes, c) ==> HeldBySome(s.workers, c);
    forall i, j | 0 <= i < j < |s.docker.calls| && RemovalOp(s.docker.calls[i]) && s.docker.calls[i].cid == c
      ensures s.docker.calls[j] != Start(c)
    {
      AcceptedMeansNothingAfterRemoval(s.docker.calls, i, j);
    }
  }

  /** A worker whose write of an existing row was answered leaves that row terminal, whoever else touched it. */
  lemma SettledRowsAreTerminal(cfg: Config, run: seq<Step>, i: nat)
    requires Exec(Init(cfg), run).Some?
    requires var s := Exec(Init(cfg), run).value;
             i < |s.workers| && s.workers[i].Leaving? && s.workers[i].settled
    ensures var s := Exec(Init(cfg), run).value;
            s.workers[i].task.id in s.db.rows && IsTerminalStatus(s.db.rows[s.workers[i].task.id].status)
  {
    ReachableInv(cfg, run);
    assert SettledOk(Exec(Init(cfg), run).value.db.rows, Exec(Init(cfg), run).value.workers[i]);
  }
}
