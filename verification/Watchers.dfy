/**
 The pipeline and the result channel in one run: publishing is a worker's act and the channel's snapshot at once.
 A watcher reads the row, subscribes and waits; this module says exactly which watchers are told.
 */
module Watchers {
  import opened Options
  import P = Pipeline
  import I = PipelineInvariants
  import T = PipelineTheorems
  import N = Notifier
  import PassWitnesses

  /** `told` records, for every published submission, the callbacks that waited for it at that moment. */
  datatype State = State(pipe: P.State, chan: N.State, told: map<int, seq<N.Handle>>)

  /** A step of the scheduler other than a publication, a publication by worker `i`, or a step of the channel. */
  datatype Step = Pipe(ps: P.Step) | Tell(i: nat, pub: N.Publisher) | Chan(op: N.Op)

  function Init(cfg: P.Config): State {
    State(P.Init(cfg), N.Init(), map[])
  }

  predicate Publishes(ps: P.Step) {
    ps.Work? && ps.act.Publish?
  }

  predicate Enabled(s: State, step: Step) {
    match step
    case Pipe(ps) => P.Enabled(s.pipe, ps) && !Publishes(ps)
    case Tell(i, pub) => i < |s.pipe.workers| && s.pipe.workers[i].Publishing? && pub !in s.chan.taken
    case Chan(op) => !op.Take?
  }

  function Published(pipe: P.State, i: nat): P.State
    requires i < |pipe.workers| && pipe.workers[i].Publishing?
  {
    P.Apply(pipe, P.Work(i, P.Publish))
  }

  function RowOf(w: P.Worker): N.Result
    requires w.Publishing?
  {
    N.Result(w.task.id, w.result.status)
  }

  function Told(s: State, i: nat, pub: N.Publisher): State
    requires Enabled(s, Tell(i, pub))
  {
    var row := RowOf(s.pipe.workers[i]);
    State(Published(s.pipe, i), N.Apply(s.chan, N.Take(pub, row)), s.told[row.id := N.Waiting(s.chan.subs, row.id)])
  }

  function Apply(s: State, step: Step): State
    requires Enabled(s, step)
  {
    match step
    case Pipe(ps) => s.(pipe := P.Apply(s.pipe, ps))
    case Tell(i, pub) => Told(s, i, pub)
    case Chan(op) => s.(chan := N.Apply(s.chan, op))
  }

  function Next(s: Option<State>, step: Step): Option<State> {
    if s.Some? && Enabled(s.value, step) then Some(Apply(s.value, step)) else None
  }

  function Exec(s: State, run: seq<Step>): Option<State> {
    if run == [] then Some(s) else Next(Exec(s, run[..|run| - 1]), run[|run| - 1])
  }

  // ---- invariants ------------------------------------------------------------------------

  ghost predicate TakenFor(chan: N.State, told: map<int, seq<N.Handle>>, pub: N.Publisher) {
    pub in chan.taken && chan.taken[pub].row.id in told && chan.taken[pub].handles == told[chan.taken[pub].row.id]
  }

  ghost predicate HasBatch(chan: N.State, id: int) {
    exists pub | pub in chan.taken :: chan.taken[pub].row.id == id
  }

  /** The snapshots taken are those of the submissions published. */
  ghost predicate BatchInv(chan: N.State, told: map<int, seq<N.Handle>>) {
    && (forall pub | pub in chan.taken :: TakenFor(chan, told, pub))
    && (forall id | id in told :: HasBatch(chan, id))
  }

  ghost predicate ToldInv(o: P.Outbox, told: map<int, seq<N.Handle>>) {
    forall id :: id in told <==> I.PublishedBefore(o, id)
  }

  ghost predicate Inv(s: State) {
    T.Inv(s.pipe) && N.Inv(s.chan) && BatchInv(s.chan, s.told) && ToldInv(s.pipe.outbox, s.told)
  }

  lemma OutboxOnlyByPublish(s: P.State, ps: P.Step)
    requires P.Enabled(s, ps) && !Publishes(ps)
    ensures P.Apply(s, ps).outbox.published == s.outbox.published
  {
  }

  /** Other steps of the channel leave what was taken. */
  lemma ChanKeeps(chan: N.State, told: map<int, seq<N.Handle>>, op: N.Op)
    requires BatchInv(chan, told) && !op.Take?
    ensures BatchInv(N.Apply(chan, op), told)
  {
    var chan' := N.Apply(chan, op);
    forall pub | pub in chan'.taken
      ensures TakenFor(chan', told, pub)
    {
      assert TakenFor(chan, told, pub);
    }
    forall id | id in told
      ensures HasBatch(chan', id)
    {
      assert HasBatch(chan, id);
      var pub :| pub in chan.taken && chan.taken[pub].row.id == id;
      assert chan'.taken[pub].row.id == id;
    }
  }

  lemma TakeKeeps(chan: N.State, told: map<int, seq<N.Handle>>, pub: N.Publisher, row: N.Result)
    requires BatchInv(chan, told) && pub !in chan.taken && row.id !in told
    ensures BatchInv(N.Apply(chan, N.Take(pub, row)), told[row.id := N.Waiting(chan.subs, row.id)])
  {
    var chan', told' := N.Apply(chan, N.Take(pub, row)), told[row.id := N.Waiting(chan.subs, row.id)];
    forall q | q in chan'.taken
      ensures TakenFor(chan', told', q)
    {
      assert q != pub ==> TakenFor(chan, told, q);
    }
    forall id | id in told'
      ensures HasBatch(chan', id)
    {
      if id == row.id {
        assert chan'.taken[pub].row.id == id;
      } else {
        assert HasBatch(chan, id);
        var q :| q in chan.taken && chan.taken[q].row.id == id;
        assert chan'.taken[q].row.id == id;
      }
    }
  }

  lemma OutboxGrows(o: P.Outbox, o': P.Outbox, e: P.Event, told: map<int, seq<N.Handle>>, hs: seq<N.Handle>)
    requires ToldInv(o, told) && o'.published == o.published + [e]
    ensures ToldInv(o', told[e.id := hs])
  {
    forall id
      ensures id in told[e.id := hs] <==> I.PublishedBefore(o', id)
    {
      if I.PublishedBefore(o, id) {
        var k :| 0 <= k < |o.published| && o.published[k].id == id;
        assert o'.published[k].id == id;
      }
      assert o'.published[|o.published|].id == e.id;
    }
  }

  /** A publication of a submission not yet published. */
  lemma PublishedGrows(pipe: P.State, i: nat, w: P.Worker)
    requires T.Inv(pipe) && i < |pipe.workers| && w == pipe.workers[i] && w.Publishing?
    ensures T.Inv(Published(pipe, i)) && !I.PublishedBefore(pipe.outbox, w.task.id)
    ensures Published(pipe, i).outbox.published == pipe.outbox.published + [P.EventOf(w.task, w.result)]
  {
    assert I.AnnouncerOk(pipe.db, pipe.outbox, w);
    T.StepKeepsInv(pipe, P.Work(i, P.Publish));
  }

  lemma TellKeeps(s: State, i: nat, pub: N.Publisher, w: P.Worker, s': State)
    requires Inv(s) && Enabled(s, Tell(i, pub)) && w == s.pipe.workers[i] && s' == Told(s, i, pub)
    ensures Inv(s') && RowOf(w).id !in s.told
  {
    PublishedGrows(s.pipe, i, w);
    N.TakeKeeps(s.chan, pub, RowOf(w));
    TakeKeeps(s.chan, s.told, pub, RowOf(w));
    OutboxGrows(s.pipe.outbox, s'.pipe.outbox, P.EventOf(w.task, w.result), s.told, N.Waiting(s.chan.subs, w.task.id));
  }

  lemma PipeKeeps(s: State, ps: P.Step, s': State)
    requires Inv(s) && Enabled(s, Pipe(ps)) && s' == s.(pipe := P.Apply(s.pipe, ps))
    ensures Inv(s')
  {
    T.StepKeepsInv(s.pipe, ps);
    OutboxOnlyByPublish(s.pipe, ps);
  }

  lemma ChanStep(s: State, op: N.Op, s': State)
    requires Inv(s) && !op.Take? && s' == s.(chan := N.Apply(s.chan, op))
    ensures Inv(s')
  {
    N.OpKeepsInv(s.chan, op);
    ChanKeeps(s.chan, s.told, op);
  }

  lemma RegistryGrows(chan: N.State, op: N.Op)
    requires N.Inv(chan)
    ensures forall h | h in chan.registry :: h in N.Apply(chan, op).registry &&
              N.Apply(chan, op).registry[h] == chan.registry[h]
  {
  }

  /** What is on record stays on record: who was told, and what each callback was subscribed to. */
  ghost predicate Grows(s: State, s': State) {
    && (forall id | id in s.told :: id in s'.told && s'.told[id] == s.told[id])
    && (forall h | h in s.chan.registry :: h in s'.chan.registry && s'.chan.registry[h] == s.chan.registry[h])
  }

  lemma StepKeepsInv(s: State, step: Step, s': State)
    requires Inv(s) && Enabled(s, step) && s' == Apply(s, step)
    ensures Inv(s') && Grows(s, s')
  {
    match step {
      case Pipe(ps) => PipeKeeps(s, ps, s');
      case Tell(i, pub) =>
        TellKeeps(s, i, pub, s.pipe.workers[i], s');
        RegistryGrows(s.chan, N.Take(pub, RowOf(s.pipe.workers[i])));
      case Chan(op) =>
        ChanStep(s, op, s');
        RegistryGrows(s.chan, op);
    }
  }

  lemma {:induction false} RunKeepsInv(s: State, run: seq<Step>)
    requires Inv(s) && Exec(s, run).Some?
    ensures Inv(Exec(s, run).value) && Grows(s, Exec(s, run).value)
  {
    if run != [] {
      RunKeepsInv(s, run[..|run| - 1]);
      StepKeepsInv(Exec(s, run[..|run| - 1]).value, run[|run| - 1], Exec(s, run).value);
    }
  }

  lemma InitInv(cfg: P.Config)
    ensures Inv(Init(cfg))
  {
    T.InitInv(cfg);
  }

  // ---- who is told -----------------------------------------------------------------------

  /** The callback has fired, or a publisher has it in hand. */
  ghost predicate IsTold(chan: N.State, h: N.Handle) {
    N.HasFired(chan, h) || N.InFlight(chan, h)
  }

  /** A callback in a snapshot is subscribed to a published submission and was waiting for it. */
  lemma BatchMeans(chan: N.State, told: map<int, seq<N.Handle>>, pub: N.Publisher, k: nat)
    requires N.BatchesOk(chan) && TakenFor(chan, told, pub) && k < |chan.taken[pub].handles|
    ensures var h, id := chan.taken[pub].handles[k], chan.taken[pub].row.id;
            h in chan.registry && chan.registry[h] == id && id in told && h in told[id]
  {
    assert N.ListOk(chan.registry, chan.taken[pub].handles, chan.taken[pub].row.id);
  }

  lemma ToldMeans(chan: N.State, told: map<int, seq<N.Handle>>, h: N.Handle)
    requires N.Inv(chan) && BatchInv(chan, told) && IsTold(chan, h)
    ensures h in chan.registry && chan.registry[h] in told && h in told[chan.registry[h]]
  {
    if N.HasFired(chan, h) {
      var k :| 0 <= k < |chan.fired| && chan.fired[k].handle == h;
      assert N.Logged(chan, chan.fired[k]);
      BatchMeans(chan, told, chan.fired[k].pub, chan.fired[k].place);
    } else {
      var pub :| pub in chan.taken && N.FliesWith(chan.taken[pub], h);
      var b := chan.taken[pub];
      var k :| 0 <= k < |b.handles[b.done..]| && b.handles[b.done..][k] == h;
      BatchMeans(chan, told, pub, b.done + k);
    }
  }

  lemma TakenIsTold(chan: N.State, told: map<int, seq<N.Handle>>, id: int, h: N.Handle)
    requires N.Inv(chan) && BatchInv(chan, told) && id in told && h in told[id]
    ensures IsTold(chan, h)
  {
    assert HasBatch(chan, id);
    var pub :| pub in chan.taken && chan.taken[pub].row.id == id;
    assert TakenFor(chan, told, pub);
    var b := chan.taken[pub];
    var k :| 0 <= k < |b.handles| && b.handles[k] == h;
    if k < b.done {
      assert N.LoggedBySome(chan, pub, k);
      var j :| 0 <= j < |chan.fired| && chan.fired[j].pub == pub && chan.fired[j].place == k;
      assert N.Logged(chan, chan.fired[j]);
    } else {
      assert b.handles[b.done..][k - b.done] == h;
      assert N.FliesWith(b, h);
    }
  }

  /**
   In every joint run, a watcher of a submission is told exactly when the submission has been published and its
   callback was waiting at that moment.
   */
  lemma ToldExactly(cfg: P.Config, run: seq<Step>, id: int, h: N.Handle)
    requires Exec(Init(cfg), run).Some?
    requires var s := Exec(Init(cfg), run).value; h in s.chan.registry && s.chan.registry[h] == id
    ensures var s := Exec(Init(cfg), run).value;
            && (id in s.told <==> I.PublishedBefore(s.pipe.outbox, id))
            && (IsTold(s.chan, h) <==> id in s.told && h in s.told[id])
  {
    InitInv(cfg);
    RunKeepsInv(Init(cfg), run);
    var s := Exec(Init(cfg), run).value;
    if IsTold(s.chan, h) {
      ToldMeans(s.chan, s.told, h);
    }
    if id in s.told && h in s.told[id] {
      TakenIsTold(s.chan, s.told, id, h);
    }
  }

  /** A watcher that was not waiting when its submission was published is told in no continuation. */
  lemma MissedForever(s: State, later: seq<Step>, id: int, h: N.Handle)
    requires Inv(s) && id in s.told && h in s.chan.registry && s.chan.registry[h] == id && h !in s.told[id]
    requires Exec(s, later).Some?
    ensures !IsTold(Exec(s, later).value.chan, h)
  {
    RunKeepsInv(s, later);
    if IsTold(Exec(s, later).value.chan, h) {
      ToldMeans(Exec(s, later).value.chan, Exec(s, later).value.told, h);
    }
  }

  /** The callbacks told are old ones. */
  lemma ToldAreOld(s: State, id: int)
    requires Inv(s) && id in s.told
    ensures forall h | h in s.told[id] :: h in s.chan.registry
  {
    assert HasBatch(s.chan, id);
    var pub :| pub in s.chan.taken && s.chan.taken[pub].row.id == id;
    assert TakenFor(s.chan, s.told, pub);
    assert N.ListOk(s.chan.registry, s.chan.taken[pub].handles, id);
  }

  /** Whoever subscribes at any time after the publication, even having read an unfinished row before, waits in vain. */
  lemma LateWatcherMissed(s: State, id: int, late: State)
    requires Inv(s) && id in s.told && late == s.(chan := N.Apply(s.chan, N.Subscribe(id)))
    ensures forall later | Exec(late, later).Some? :: !IsTold(Exec(late, later).value.chan, late.chan.nextId)
  {
    ChanStep(s, N.Subscribe(id), late);
    ToldAreOld(s, id);
    var h := late.chan.nextId;
    assert h !in s.chan.registry;
    forall later | Exec(late, later).Some?
      ensures !IsTold(Exec(late, later).value.chan, h)
    {
      MissedForever(late, later, id, h);
    }
  }

  function Piped(run: seq<P.Step>): seq<Step> {
    seq(|run|, k requires 0 <= k < |run| => Pipe(run[k]))
  }

  /** A run of the scheduler that publishes nothing is a joint run. */
  lemma {:induction false} PipedRuns(cfg: P.Config, run: seq<P.Step>)
    requires P.Exec(P.Init(cfg), run).Some? && PassWitnesses.NoPublish(run)
    ensures Exec(Init(cfg), Piped(run)) == Some(Init(cfg).(pipe := P.Exec(P.Init(cfg), run).value))
  {
    if run != [] {
      PipedRuns(cfg, run[..|run| - 1]);
      assert Piped(run)[..|run| - 1] == Piped(run[..|run| - 1]);
    }
  }

  lemma Extend(s0: State, run: seq<Step>, s: State, step: Step) returns (run': seq<Step>, s': State)
    requires Exec(s0, run) == Some(s) && Enabled(s, step)
    ensures run' == run + [step] && s' == Apply(s, step) && Exec(s0, run') == Some(s')
  {
    run', s' := run + [step], Apply(s, step);
    assert run'[..|run|] == run;
  }

  /** A worker is about to publish and nobody has subscribed. */
  lemma ReadyToTell(t: P.Task) returns (run: seq<Step>, s: State)
    ensures Exec(Init(PassWitnesses.ONE_WORKER), run) == Some(s) && Inv(s) && s.chan == N.Init()
    ensures Enabled(s, Tell(0, 0)) && RowOf(s.pipe.workers[0]).id == t.id
  {
    var path, pipe := PassWitnesses.AboutToPublish(t);
    PipedRuns(PassWitnesses.ONE_WORKER, path);
    run, s := Piped(path), Init(PassWitnesses.ONE_WORKER).(pipe := pipe);
    InitInv(PassWitnesses.ONE_WORKER);
    RunKeepsInv(Init(PassWitnesses.ONE_WORKER), run);
  }

  /** A run in which a watcher subscribes after the publication, and is told in no continuation. */
  lemma WatcherMisses(t: P.Task) returns (run: seq<Step>, s: State)
    ensures Exec(Init(PassWitnesses.ONE_WORKER), run) == Some(s) && s.chan.nextId == 1 &&
              s.chan.registry == map[1 := t.id]
    ensures forall later | Exec(s, later).Some? :: !IsTold(Exec(s, later).value.chan, 1)
  {
    var s0 := Init(PassWitnesses.ONE_WORKER);
    var m0, m;
    run, m0 := ReadyToTell(t);
    run, m := Extend(s0, run, m0, Tell(0, 0));
    run, s := Extend(s0, run, m, Chan(N.Subscribe(t.id)));
    TellKeeps(m0, 0, 0, m0.pipe.workers[0], m);
    LateWatcherMissed(m, t.id, s);
  }
}
