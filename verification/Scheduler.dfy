/**
 The scheduler's own methods, each executed undisturbed: `start`, `enqueue`, `worker_loop` and
 `shutdown` are proved to be paths of the transition system of Pipeline, and a shutdown to drain
 the queue completely.
 */
module Scheduler {
  import opened Options
  import opened Containers
  import opened Pipeline
  import opened PipelineInvariants
  import PipelineTheorems
  import opened RunTask

  /** Nothing but worker `i`, the rows, the containers and the announcements may differ. */
  ghost predicate Aside(s: State, t: State, i: nat) {
    && t.cfg == s.cfg && t.phase == s.phase && t.running == s.running && t.shuttingDown == s.shuttingDown
    && t.restarted == s.restarted && t.queue == s.queue && i < |s.workers| == |t.workers|
    && forall j | 0 <= j < |s.workers| && j != i :: t.workers[j] == s.workers[j]
  }

  lemma AsideTwice(s: State, t: State, u: State, v: State, i: nat)
    requires t == s || Aside(s, t, i)
    requires Aside(t, u, i) && Aside(u, v, i)
    ensures Aside(s, v, i)
  {
  }

  /** A pass touches neither the queue nor the other workers. */
  lemma {:induction false} SoloStaysAside(s: State, i: nat, p: Plan)
    requires OnTask(s, i, p)
    ensures Aside(s, Solo(s, i, p), i) && Solo(s, i, p).runningCount == s.runningCount
    decreases Distance(s.workers[i])
  {
    if !s.workers[i].Leaving? {
      SoloStaysAside(Onward(s, i, p), i, p);
    }
  }

  /** The outcomes of a pass from where the worker stands, with the ids Docker will hand out named. */
  function Named(p: Plan, w: Worker, c: Cid): Plan {
    p.(pool := if w.Discarding? then Some(w.cid) else if p.pool.Some? then Some(c) else None,
       made := if p.made.NotCreated? then NotCreated else p.made.(cid := c + 1))
  }

  method UnusedFrom(boxes: Boxes) returns (c: Cid)
    ensures forall k | k in boxes :: k < c
  {
    c := 0;
    var todo := boxes.Keys;
    while todo != {}
      invariant todo <= boxes.Keys
      invariant forall k | k in boxes && k !in todo :: k < c
      decreases |todo|
    {
      var k :| k in todo;
      todo := todo - {k};
      if k >= c {
        c := k + 1;
      }
    }
  }

  /** What `start` looks at before it spawns anything. */
  datatype Settings = Settings(hardTimeoutSeconds: int, compileTimeoutMs: int, hasDb: bool, dirUsable: bool)

  predicate Usable(cfg: Config, x: Settings) {
    cfg.maxConcurrent >= 1 && x.hardTimeoutSeconds >= 1 && x.compileTimeoutMs >= 1 && x.hasDb && x.dirUsable
  }

  lemma FrontPops(popped: seq<Task>, waiting: seq<Task>)
    requires waiting != []
    ensures popped + [waiting[0]] + waiting[1..] == popped + waiting
  {
  }

  class JudgeQueue {
    const cfg: Config
    var s: State
    ghost var run: seq<Step>

    ghost predicate Valid()
      reads this
    {
      Exec(Init(cfg), run) == Some(s) && s.cfg == cfg
    }

    constructor (cfg: Config)
      ensures Valid() && this.cfg == cfg && s == Init(cfg) && run == []
    {
      this.cfg, s, run := cfg, Init(cfg), [];
    }

    method Do(step: Step)
      requires Valid() && Enabled(s, step)
      modifies this
      ensures Valid() && s == Apply(old(s), step) && run == old(run) + [step]
    {
      assert (run + [step])[..|run|] == run;
      s, run := Apply(s, step), run + [step];
    }

    /** Spawns workers until all are there or, as `failsAt` says, one cannot be. */
    method SpawnAll(failsAt: nat)
      requires Valid() && s.phase == Spawning && s.workers == [] && cfg.maxConcurrent >= 1
      modifies this
      ensures Valid() && s.running == old(s.running) && s.shuttingDown == old(s.shuttingDown) && s.queue == old(s.queue)
      ensures s.restarted == old(s.restarted)
      ensures |s.workers| == (if failsAt < cfg.maxConcurrent then failsAt else cfg.maxConcurrent)
      ensures s.phase == if failsAt < cfg.maxConcurrent then Spawning else Serving
      ensures forall i | 0 <= i < |s.workers| :: s.workers[i] == Waiting
    {
      while s.phase == Spawning && |s.workers| < failsAt
        invariant Valid() && s.running == old(s.running) && s.shuttingDown == old(s.shuttingDown) &&
                    s.queue == old(s.queue)
        invariant s.restarted == old(s.restarted) && |s.workers| <= failsAt && |s.workers| <= cfg.maxConcurrent
        invariant s.phase == if |s.workers| == cfg.maxConcurrent then Serving else Spawning
        invariant forall i | 0 <= i < |s.workers| :: s.workers[i] == Waiting
        decreases cfg.maxConcurrent - |s.workers|
      {
        Do(Spawn);
      }
    }

    /**
     A running scheduler is left alone.  Otherwise, the first time as after a shutdown that has returned, unusable
     settings are refused before anything changes, and exactly `max_concurrent` workers are spawned; if a thread cannot
     be spawned, those that were are joined again and the scheduler is down.
     */
    method Start(x: Settings, failsAt: nat, outcomes: nat -> Plan) returns (ok: bool)
      requires Valid() && (s.running || s.phase.NotStarted? || s.phase.Down?)
      modifies this
      ensures Valid() && (ok <==> old(s.running) || (Usable(cfg, x) && failsAt >= cfg.maxConcurrent))
      ensures ok <==> old(s.running) ||
                      (1 <= cfg.maxConcurrent <= failsAt && x.hardTimeoutSeconds >= 1 && x.compileTimeoutMs >= 1 &&
                       x.hasDb && x.dirUsable)
      ensures old(s.running) || !Usable(cfg, x) ==> s == old(s)
      ensures ok && !old(s.running) ==> s.running && s.phase == Serving && |s.workers| == cfg.maxConcurrent
      ensures ok && !old(s.running) ==> s.queue == old(s.queue)
      ensures ok && !old(s.running) ==> forall i | 0 <= i < |s.workers| :: s.workers[i] == Waiting
      ensures Usable(cfg, x) && !ok ==> s.phase == Down && !s.running && |s.workers| == failsAt && AllExited(s.workers)
      ensures !old(s.running) && Usable(cfg, x) ==> (s.restarted <==> old(s.phase.Down?) || old(s.restarted))
    {
      if s.running {
        return true;
      }
      if cfg.maxConcurrent < 1 || x.hardTimeoutSeconds < 1 || x.compileTimeoutMs < 1 || !x.hasDb || !x.dirUsable {
        return false;
      }
      PipelineTheorems.ReachableInv(cfg, run);
      Do(if s.phase.NotStarted? then Begin else Restart);
      SpawnAll(failsAt);
      if s.phase == Spawning {
        Do(SpawnFails);
        JoinAll(outcomes);
        return false;
      }
      ok := true;
    }

    /** Accepts exactly while `running_` holds and the bound leaves room, at the back of the queue. */
    method Enqueue(t: Task) returns (accepted: bool)
      requires Valid()
      modifies this
      ensures Valid() && s.workers == old(s.workers) && s.phase == old(s.phase) && s.running == old(s.running)
      ensures accepted <==> old(s.running) && (cfg.maxQueueSize > 0 ==> |old(s.queue.waiting)| < cfg.maxQueueSize)
      ensures s.queue.waiting == old(s.queue.waiting) + if accepted then [t] else []
      ensures s.queue.popped == old(s.queue.popped)
    {
      if !s.running {
        return false;
      }
      accepted := !(cfg.maxQueueSize > 0 && |s.queue.waiting| >= cfg.maxQueueSize);
      Do(Offer(t));
      Do(Push(t));
    }

    /** The rest of a pass from wherever the worker stands in it, with ids Docker has not used. */
    method Pass(i: nat, outcome: Plan)
      requires Valid() && i < |s.workers| && InBody(s.workers[i])
      modifies this
      ensures Valid() && Aside(old(s), s, i) && s.workers[i].Leaving? && s.runningCount == old(s.runningCount)
    {
      PipelineTheorems.ReachableInv(cfg, run);
      assert HolderOk(s.docker.boxes, s.workers[i]);
      var c := UnusedFrom(s.docker.boxes);
      var p := Named(outcome, s.workers[i], c);
      ghost var path := SoloIsARun(s, i, p);
      SoloStaysAside(s, i, p);
      PipelineTheorems.ExecConcat(Init(cfg), run, path);
      s, run := Solo(s, i, p), run + path;
    }

    /** One act of a worker that leaves the queue alone. */
    method DoAct(i: nat, a: Act)
      requires Valid() && i < |s.workers| && ActEnabled(s, s.workers[i], a) && !a.Pop?
      modifies this
      ensures Valid() && Aside(old(s), s, i) && s.workers[i] == NextWorker(old(s), old(s.workers[i]), a)
      ensures s.runningCount == NextCount(old(s.runningCount), a)
    {
      Do(Work(i, a));
    }

    /** A worker that has popped a task finishes it and is back at the queue. */
    method FinishTask(i: nat, outcome: Plan)
      requires Valid() && i < |s.workers| && !s.workers[i].Exited? && !s.workers[i].Waiting?
      modifies this
      ensures Valid() && Aside(old(s), s, i) && s.workers[i].Waiting?
      ensures s.runningCount == old(s.runningCount) - if old(InBody(s.workers[i])) then 1 else 0
    {
      if s.workers[i].Popped? {
        DoAct(i, Enter);
      }
      ghost var entered := s;
      Pass(i, outcome);
      ghost var judged := s;
      DoAct(i, Leave);
      AsideTwice(old(s), entered, judged, s, i);
    }

    /** One turn of the loop: pop the oldest task and judge it. */
    method JudgeNext(i: nat, outcome: Plan)
      requires Valid() && i < |s.workers| && s.workers[i].Waiting? && s.queue.waiting != []
      modifies this
      ensures Valid() && Aside(old(s).(queue := s.queue), s, i) && s.workers[i].Waiting? &&
                s.runningCount == old(s.runningCount)
      ensures s.queue.waiting == old(s.queue.waiting)[1..] &&
                s.queue.popped == old(s.queue.popped) + [old(s.queue.waiting)[0]]
      ensures s.queue.accepted == old(s.queue.accepted)
    {
      Do(Work(i, Pop));
      FinishTask(i, outcome);
    }

    /**
     The loop with nobody else about: a busy worker finishes its task, then the queue is drained in
     order; then it exits if shutdown has begun and waits otherwise.
     */
    method WorkerLoop(i: nat, outcomes: nat -> Plan)
      requires Valid() && i < |s.workers| && !s.workers[i].Exited?
      modifies this
      ensures Valid() && Aside(old(s).(queue := s.queue), s, i)
      ensures s.workers[i] == if old(s.shuttingDown) then Exited else Waiting
      ensures s.queue.waiting == [] && s.queue.popped == old(s.queue.popped) + old(s.queue.waiting)
      ensures s.queue.accepted == old(s.queue.accepted)
    {
      if !s.workers[i].Waiting? {
        FinishTask(i, outcomes(0));
      }
      while s.queue.waiting != []
        invariant Valid() && Aside(old(s).(queue := s.queue), s, i) && s.workers[i].Waiting?
        invariant s.queue.accepted == old(s.queue.accepted)
        invariant s.queue.popped + s.queue.waiting == old(s.queue.popped) + old(s.queue.waiting)
        decreases |s.queue.waiting|
      {
        FrontPops(s.queue.popped, s.queue.waiting);
        JudgeNext(i, outcomes(|s.queue.popped| + 1));
      }
      if s.shuttingDown {
        Do(Work(i, Exit));
      }
    }

    /** Joins every worker in turn, those that have already exited at once, and only then clears `running_`. */
    method JoinAll(outcomes: nat -> Plan)
      requires Valid() && s.phase == Joining && s.shuttingDown
      modifies this
      ensures Valid() && s.phase == Down && !s.running && |s.workers| == |old(s.workers)| && AllExited(s.workers)
      ensures s.restarted == old(s.restarted) && s.queue.accepted == old(s.queue.accepted)
      ensures !old(AllExited(s.workers)) ==> s.queue.waiting == []
    {
      var i := 0;
      while i < |s.workers|
        invariant Valid() && 0 <= i <= |s.workers| == |old(s.workers)| && s.phase == Joining && s.shuttingDown
        invariant s.restarted == old(s.restarted) && s.queue.accepted == old(s.queue.accepted)
        invariant forall j | 0 <= j < |s.workers| :: if j < i then s.workers[j].Exited?
                    else s.workers[j] == old(s.workers)[j]
        invariant (exists j | 0 <= j < i :: !old(s.workers)[j].Exited?) ==> s.queue.waiting == []
      {
        if !s.workers[i].Exited? {
          WorkerLoop(i, outcomes);
        }
        i := i + 1;
      }
      Do(AllJoined);
    }

    /**
     Whatever the workers are doing when it begins: all end, nobody is left in the task body, and `running_` is
     false.  In the first life every task that had been accepted has been popped.
     */
    method Shutdown(outcomes: nat -> Plan)
      requires Valid() && (s.phase == Serving || s.phase == NotStarted)
      modifies this
      ensures Valid() && s.phase == Down && !s.running && AllExited(s.workers)
      ensures s.queue.accepted == old(s.queue.accepted) && s.runningCount == 0
      ensures !old(s.restarted) ==> s.queue.waiting == [] && s.queue.popped == s.queue.accepted
    {
      PipelineTheorems.ReachableInv(cfg, run);
      assert s.workers != [] && NoneExited(s.workers) ==> !s.workers[0].Exited?;
      Do(StopRequested);
      JoinAll(outcomes);
      PipelineTheorems.ReachableInv(cfg, run);
      NoneInBody(s.workers);
    }
  }
}
