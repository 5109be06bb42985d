/**
 Runs of the pipeline in which a submission does not end as its comments say: one worker, one
 submission, one pass.
 */
module PassWitnesses {
  import opened Options
  import opened Submissions
  import opened Containers
  import opened Pipeline
  import opened PipelineInvariants
  import opened PipelineTheorems
  import opened RunTask

  const ONE_WORKER := Config(1, 8, true)

  ghost predicate NoPublish(run: seq<Step>) {
    forall k | 0 <= k < |run| && run[k].Work? :: !run[k].act.Publish?
  }

  /** A run that publishes nothing, and where it ends. */
  ghost predicate Quietly(run: seq<Step>, s: State) {
    Exec(Init(ONE_WORKER), run) == Some(s) && NoPublish(run)
  }

  lemma Then(run: seq<Step>, s: State, step: Step) returns (run': seq<Step>, s': State)
    requires Quietly(run, s) && Enabled(s, step) && (step.Work? ==> !step.act.Publish?)
    ensures Quietly(run', s') && s' == Apply(s, step)
  {
    run', s' := Extend(Init(ONE_WORKER), run, s, step);
  }

  /** One act of the only worker, seen component by component. */
  lemma Act(run: seq<Step>, s: State, w: Worker, a: Act) returns (run': seq<Step>, s': State)
    requires Quietly(run, s) && s.workers == [w] && ActEnabled(s, w, a) && !a.Publish?
    ensures Quietly(run', s') && s'.workers == [NextWorker(s, w, a)] && s'.cfg == s.cfg
    ensures s'.queue == NextQueue(s.queue, a) && s'.db == NextDb(s.db, w, a)
    ensures s'.docker == NextDocker(s.docker, CallOf(w, a)) && s'.outbox == NextOutbox(s.outbox, w, a)
  {
    run', s' := Then(run, s, Work(0, a));
    assert s'.workers == [NextWorker(s, w, a)];
  }

  /** One submission is pending and the first thread is about to be spawned. */
  lemma Submitted(id: int) returns (run: seq<Step>, s: State)
    ensures Quietly(run, s) && s.cfg == ONE_WORKER && s.running && s.phase == Spawning && s.workers == []
    ensures s.queue == Queue(multiset{}, [], [], []) && s.db.rows == map[id := NewRow(0)]
    ensures s.docker == Docker([], map[]) && s.outbox == Outbox([], [])
  {
    run, s := Then([], Init(ONE_WORKER), Submit(id, 0));
    run, s := Then(run, s, Begin);
  }

  /** The only worker waits and that submission's task is queued. */
  lemma Served(t: Task) returns (run: seq<Step>, s: State)
    ensures Quietly(run, s) && s.cfg == ONE_WORKER && s.workers == [Waiting] && s.queue.waiting == [t]
    ensures s.db.rows == map[t.id := NewRow(0)] && s.docker == Docker([], map[]) && s.outbox == Outbox([], [])
  {
    run, s := Submitted(t.id);
    run, s := Then(run, s, Spawn);
    run, s := Enqueued(Init(ONE_WORKER), run, s, t);
    assert NoPublish(run);
  }

  /** The worker has entered the body of that submission's task. */
  lemma InTheBody(t: Task) returns (run: seq<Step>, s: State)
    ensures Quietly(run, s) && s.cfg == ONE_WORKER && s.workers == [Entered(t)]
    ensures s.db.rows == map[t.id := NewRow(0)] && s.docker == Docker([], map[]) && s.outbox == Outbox([], [])
  {
    run, s := Served(t);
    run, s := Act(run, s, Waiting, Pop);
    run, s := Act(run, s, Popped(t), Enter);
  }

  /** A whole run with one pass in it, and what the pass left. */
  lemma AfterOnePass(t: Task, p: Plan) returns (run: seq<Step>, end: State)
    requires p.pool.Some? ==> NewId(p.made) != p.pool
    ensures Exec(Init(ONE_WORKER), run) == Some(end) && |end.workers| == 1 && end.workers[0].Leaving?
    ensures end.db.rows == PassRows(true, p, map[t.id := NewRow(0)], t.id)
    ensures end.outbox.published == if Announces(true, p, map[t.id := NewRow(0)], t.id) then [EventOf(t, p.result)]
              else []
  {
    var path, s;
    run, s := InTheBody(t);
    path := SoloIsARun(s, 0, p);
    SoloEffect(s, 0, p);
    ExecConcat(Init(ONE_WORKER), run, path);
    run, end := run + path, Solo(s, 0, p);
    ReachableWorkers(run, end);
  }

  lemma ReachableWorkers(run: seq<Step>, s: State)
    requires Exec(Init(ONE_WORKER), run) == Some(s) && s.workers != []
    ensures |s.workers| == 1
  {
    ReachableInv(ONE_WORKER, run);
    ConfigFixed(Init(ONE_WORKER), run);
  }

  const FINE :=
    Plan(Answered, true, None, false, Created(0), true, true, true, Outcome(Ac, Some(1), Some(1), ""), Answered, "", 0)

  lemma AfterFailedCreate(t: Task) returns (run: seq<Step>, end: State)
    ensures Exec(Init(ONE_WORKER), run) == Some(end) && |end.workers| == 1 && end.workers[0].Leaving?
    ensures t.id in end.db.rows && end.db.rows[t.id].status == Se && end.outbox.published == []
  {
    run, end := AfterOnePass(t, FINE.(made := NotCreated));
  }

  /** Docker cannot make a container: the row becomes `se`, and in no continuation are its subscribers told. */
  lemma SystemErrorNeverPublished(t: Task) returns (run: seq<Step>, end: State)
    ensures Exec(Init(ONE_WORKER), run) == Some(end) && |end.workers| == 1 && end.workers[0].Leaving?
    ensures t.id in end.db.rows && end.db.rows[t.id].status == Se
    ensures forall later | Exec(Init(ONE_WORKER), run + later).Some? ::
              !PublishedBefore(Exec(Init(ONE_WORKER), run + later).value.outbox, t.id)
  {
    run, end := AfterFailedCreate(t);
    assert !PublishedBefore(end.outbox, t.id);
    forall later | Exec(Init(ONE_WORKER), run + later).Some?
      ensures !PublishedBefore(Exec(Init(ONE_WORKER), run + later).value.outbox, t.id)
    {
      SilentForever(ONE_WORKER, run, later, t.id);
    }
  }

  /** The judge reports a status that is no verdict: everything is answered and the row stays `running`. */
  lemma NonVerdictLeftRunning(t: Task) returns (run: seq<Step>, end: State)
    ensures Exec(Init(ONE_WORKER), run) == Some(end) && |end.workers| == 1 && end.workers[0].Leaving?
    ensures t.id in end.db.rows && end.db.rows[t.id].status == Running && end.outbox.published == []
  {
    run, end := AfterOnePass(t, FINE.(result := Outcome(Other("ok"), Some(1), Some(1), "")));
  }

  /**
   The claim takes effect and its answer is lost: the worker drops the task and the row is `running`, not `pending`.
   */
  lemma LostClaimLeftRunning(t: Task) returns (run: seq<Step>, end: State)
    ensures Exec(Init(ONE_WORKER), run) == Some(end) && |end.workers| == 1 && end.workers[0].Leaving?
    ensures t.id in end.db.rows && end.db.rows[t.id].status == Running && end.outbox.published == []
  {
    run, end := AfterOnePass(t, FINE.(claim := Failed(true)));
  }

  const WRONG := Outcome(Wa, Some(1), Some(1), "")

  /** The claim is won and a container is about to be created. */
  lemma Claiming(t: Task) returns (run: seq<Step>, s: State)
    ensures Quietly(run, s) && s.workers == [Creating(t, None)] && Open(s.db.rows, t.id)
    ensures s.docker.boxes == map[]
  {
    run, s := InTheBody(t);
    run, s := Act(run, s, Entered(t), Claim(Answered));
    run, s := Act(run, s, Staging(t), Stage(true));
    run, s := Act(run, s, Pooling(t), AskPool(None));
  }

  /** The container has exited. */
  lemma Judging(t: Task) returns (run: seq<Step>, s: State)
    ensures Quietly(run, s) && s.workers == [Worker.Reading(t, None, 0)] && Open(s.db.rows, t.id)
  {
    run, s := Claiming(t);
    run, s := Act(run, s, Creating(t, None), MakeBox(Created(0)));
    run, s := Act(run, s, Starting(t, None, 0), Launch(true));
    run, s := Act(run, s, Awaiting(t, None, 0), Await(true));
  }

  /** The verdict is written and about to be published. */
  lemma AboutToPublish(t: Task) returns (run: seq<Step>, s: State)
    ensures Quietly(run, s) && s.workers == [Publishing(t, None, WRONG)]
  {
    run, s := Judging(t);
    run, s := Act(run, s, Worker.Reading(t, None, 0), ReadLogs(WRONG));
    run, s := Act(run, s, Removing(t, None, 0, Verdict(WRONG)), RemoveBox(true));
    run, s := Act(run, s, Writing(t, None, Verdict(WRONG)), WriteBack(Answered, "", 0));
  }

  lemma CallsGrow(s: State, step: Step)
    requires Enabled(s, step)
    ensures s.docker.calls <= Apply(s, step).docker.calls
  {
  }

  lemma {:induction false} CallsKept(s: State, run: seq<Step>)
    requires Exec(s, run).Some?
    ensures s.docker.calls <= Exec(s, run).value.docker.calls
  {
    if run != [] {
      CallsKept(s, run[..|run| - 1]);
      CallsGrow(Exec(s, run[..|run| - 1]).value, run[|run| - 1]);
    }
  }

  /** A container created with its reply lost: in no continuation is its removal even attempted. */
  lemma LostContainerStays(t: Task) returns (run: seq<Step>, s: State)
    ensures Quietly(run, s) && 0 in s.docker.boxes
    ensures forall later | Exec(Init(ONE_WORKER), run + later).Some? ::
              Removals(Exec(Init(ONE_WORKER), run + later).value.docker.calls, 0) == 0
  {
    run, s := Claiming(t);
    run, s := Act(run, s, Creating(t, None), MakeBox(ReplyLost(0)));
    assert Orphan(0) in s.docker.calls;
    forall later | Exec(Init(ONE_WORKER), run + later).Some?
      ensures Removals(Exec(Init(ONE_WORKER), run + later).value.docker.calls, 0) == 0
    {
      ExecConcat(Init(ONE_WORKER), run, later);
      CallsKept(s, later);
      NeverAttempted(run + later);
    }
  }

  lemma NeverAttempted(run: seq<Step>)
    requires Exec(Init(ONE_WORKER), run).Some? && Orphan(0) in Exec(Init(ONE_WORKER), run).value.docker.calls
    ensures Removals(Exec(Init(ONE_WORKER), run).value.docker.calls, 0) == 0
  {
    ReachableInv(ONE_WORKER, run);
    AcceptedMeansOneRemoval(Exec(Init(ONE_WORKER), run).value.docker.calls, 0);
    AcceptedMeansBrought(Exec(Init(ONE_WORKER), run).value.docker.calls, 0);
  }
}
