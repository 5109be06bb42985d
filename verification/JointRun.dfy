/**
 The pipeline and its warm pool in one run.  Docker's ids are shared: an id new to one side is new
 to both, except that a container the pool hands out arrives at exactly one worker.  What either
 side assumes of the other is discharged here.
 */
module JointRun {
  import opened Options
  import Containers
  import P = Pipeline
  import I = PipelineInvariants
  import T = PipelineTheorems
  import W = WarmPool

  type Cid = Containers.Cid

  datatype State = State(pipe: P.State, pool: W.State)

  /**
   A step of the scheduler that involves no pooled container, a step of the pool that hands none
   out, or the last step of an acquisition together with the worker that receives its container.
   */
  datatype Step = Pipe(ps: P.Step) | Pool(ws: W.Step) | Hand(i: nat, ws: W.Step)

  function Init(cfg: P.Config, poolCfg: W.Config): State {
    State(P.Init(cfg), W.Init(poolCfg))
  }

  /** The container a pool step gives to its acquirer. */
  function HandedOut(pool: W.State, ws: W.Step): Option<Cid> {
    match ws
    case AcquirePop => if pool.idle != [] then Some(pool.idle[0]) else None
    case AcquireFallback(got) => Containers.KnownId(got)
    case _ => None
  }

  /** The container a pool step has Docker make. */
  function MadeBy(ws: W.Step): Option<Cid> {
    match ws
    case Precreate(got) => Containers.NewId(got)
    case CreateOne(got) => Containers.NewId(got)
    case AcquireFallback(got) => Containers.NewId(got)
    case _ => None
  }

  function AskStep(i: nat, c: Cid): P.Step {
    P.Work(i, P.AskPool(Some(c)))
  }

  predicate Enabled(s: State, step: Step) {
    match step
    case Pipe(ps) =>
      && P.Enabled(s.pipe, ps)
      && (ps.Work? && ps.act.AskPool? ==> ps.act.got.None?)
      && (ps.Work? && ps.act.MakeBox? && Containers.NewId(ps.act.made).Some? ==>
            Containers.NewId(ps.act.made).value !in s.pool.log.issued)
    case Pool(ws) =>
      && W.Enabled(s.pool, ws) && HandedOut(s.pool, ws).None?
      && (MadeBy(ws).Some? ==> MadeBy(ws).value !in s.pipe.docker.boxes)
    case Hand(i, ws) =>
      && W.Enabled(s.pool, ws) && HandedOut(s.pool, ws).Some?
      && (MadeBy(ws).Some? ==> MadeBy(ws).value !in s.pipe.docker.boxes)
      && P.Enabled(s.pipe, AskStep(i, HandedOut(s.pool, ws).value))
  }

  function Apply(s: State, step: Step): State
    requires Enabled(s, step)
  {
    match step
    case Pipe(ps) => s.(pipe := P.Apply(s.pipe, ps))
    case Pool(ws) => s.(pool := W.Apply(s.pool, ws))
    case Hand(i, ws) => State(P.Apply(s.pipe, AskStep(i, HandedOut(s.pool, ws).value)), W.Apply(s.pool, ws))
  }

  function Next(s: Option<State>, step: Step): Option<State> {
    if s.Some? && Enabled(s.value, step) then Some(Apply(s.value, step)) else None
  }

  function Exec(s: State, run: seq<Step>): Option<State> {
    if run == [] then Some(s) else Next(Exec(s, run[..|run| - 1]), run[|run| - 1])
  }

  // ---- the two sides ------------------------------------------------------------------------

  /** The container an act of a worker brings in. */
  function BroughtBy(a: P.Act): Option<Cid> {
    match a
    case AskPool(got) => got
    case MakeBox(made) => Containers.NewId(made)
    case _ => None
  }

  /** The container a scheduler step brings in. */
  function BroughtIn(ps: P.Step): Option<Cid> {
    if ps.Work? then BroughtBy(ps.act) else None
  }

  function SetOf(c: Option<Cid>): set<Cid> {
    if c.Some? then {c.value} else {}
  }

  predicate Brings(op: Containers.Op) {
    op.Create? || op.Handed? || op.Orphan?
  }

  lemma CallBrings(w: P.Worker, a: P.Act)
    ensures SetOf(BroughtBy(a)) ==
            if P.CallOf(w, a).Some? && Brings(P.CallOf(w, a).value) then {P.CallOf(w, a).value.cid} else {}
  {
  }

  lemma PipeBoxes(s: P.State, ps: P.Step)
    requires T.Inv(s) && P.Enabled(s, ps)
    ensures P.Apply(s, ps).docker.boxes.Keys == s.docker.boxes.Keys + SetOf(BroughtIn(ps))
  {
    if ps.Work? {
      var w := s.workers[ps.i];
      assert I.HolderOk(s.docker.boxes, w);
      I.ActCalls(s, w, ps.act);
      CallBrings(w, ps.act);
    }
  }

  /** What a pool step does to the pool's history. */
  ghost predicate Recorded(h: W.History, h': W.History, idle: seq<Cid>, ws: W.Step) {
    && h'.issued == h.issued + SetOf(MadeBy(ws))
    && h'.taken == h.taken + (if ws.AcquirePop? && idle != [] then [idle[0]] else [])
    && h'.oneOff == h.oneOff + (if ws.AcquireFallback? && ws.got.Created? then [ws.got.cid] else [])
  }

  lemma PoolHistory(s: W.State, ws: W.Step)
    requires W.Enabled(s, ws)
    ensures Recorded(s.log, W.Apply(s, ws).log, s.idle, ws)
  {
    if W.ByOwner(ws) {
      OwnerHistory(s, ws);
    } else if W.ByRefill(ws) {
      RefillHistory(s, ws);
    }
  }

  lemma OwnerHistory(s: W.State, ws: W.Step)
    requires W.Enabled(s, ws) && W.ByOwner(ws)
    ensures Recorded(s.log, W.OwnerMove(s, ws).log, s.idle, ws)
  {
  }

  lemma RefillHistory(s: W.State, ws: W.Step)
    requires W.Enabled(s, ws) && W.ByRefill(ws)
    ensures Recorded(s.log, W.RefillMove(s, ws).log, s.idle, ws)
  {
  }

  predicate GivenAway(pool: W.State, c: Cid) {
    c in pool.log.taken || c in pool.log.oneOff
  }

  /** The containers both sides know are exactly those the pool gave away. */
  ghost predicate Shared(s: State) {
    forall c :: (c in s.pipe.docker.boxes && c in s.pool.log.issued) <==> GivenAway(s.pool, c)
  }

  ghost predicate Inv(s: State) {
    T.Inv(s.pipe) && W.Inv(s.pool) && Shared(s)
  }

  /** An idle container is one of the pool's own, and it has not been given away. */
  lemma IdleIsOwn(pool: W.State, c: Cid)
    requires W.Inv(pool) && (c in pool.idle || c in pool.log.drained)
    ensures c in pool.log.issued && !GivenAway(pool, c)
  {
    var all := pool.log.taken + pool.log.drained + pool.idle;
    assert forall k | 0 <= k < |pool.log.pushed| :: pool.log.pushed[k] == pool.log.made[k];
    W.TakenStaysOut(pool.log.taken, pool.log.drained, pool.idle);
    assert c in all;
    assert c in pool.log.made;
  }

  /** The scheduler never finds a container the pool hands out among its own: its assumption of fresh ids holds. */
  lemma HandedIsNew(s: State, i: nat, ws: W.Step)
    requires Inv(s) && W.Enabled(s.pool, ws) && HandedOut(s.pool, ws).Some?
    requires MadeBy(ws).Some? ==> MadeBy(ws).value !in s.pipe.docker.boxes
    requires i < |s.pipe.workers| && s.pipe.workers[i].Pooling?
    ensures Enabled(s, Hand(i, ws))
  {
    if ws.AcquirePop? {
      IdleIsOwn(s.pool, s.pool.idle[0]);
    }
  }

  lemma PipeStep(s: State, ps: P.Step)
    requires Inv(s) && Enabled(s, Pipe(ps))
    ensures Inv(Apply(s, Pipe(ps)))
  {
    T.StepKeepsInv(s.pipe, ps);
    PipeBoxes(s.pipe, ps);
  }

  lemma PoolStep(s: State, ws: W.Step)
    requires Inv(s) && Enabled(s, Pool(ws))
    ensures Inv(Apply(s, Pool(ws)))
  {
    W.StepKeepsInv(s.pool, ws);
    PoolHistory(s.pool, ws);
    assert s.pool.log.taken + [] == s.pool.log.taken && s.pool.log.oneOff + [] == s.pool.log.oneOff;
  }

  /** A container the pool gives away becomes known to both sides. */
  lemma HandShared(boxes: set<Cid>, boxes': set<Cid>, pool: W.State, pool': W.State, ws: W.Step, c: Cid)
    requires forall d :: d in boxes && d in pool.log.issued <==> GivenAway(pool, d)
    requires W.Enabled(pool, ws) && HandedOut(pool, ws) == Some(c) && pool' == W.Apply(pool, ws)
    requires boxes' == boxes + {c} && c !in boxes && (ws.AcquirePop? ==> c in pool.log.issued)
    ensures forall d :: d in boxes' && d in pool'.log.issued <==> GivenAway(pool', d)
  {
    PoolHistory(pool, ws);
    forall d
      ensures GivenAway(pool', d) <==> GivenAway(pool, d) || d == c
    {
    }
  }

  lemma HandKeepsShared(s: State, i: nat, ws: W.Step)
    requires Inv(s) && Enabled(s, Hand(i, ws))
    ensures Shared(Apply(s, Hand(i, ws)))
  {
    var c, s' := HandedOut(s.pool, ws).value, Apply(s, Hand(i, ws));
    PipeBoxes(s.pipe, AskStep(i, c));
    if ws.AcquirePop? {
      IdleIsOwn(s.pool, c);
    }
    HandShared(s.pipe.docker.boxes.Keys, s'.pipe.docker.boxes.Keys, s.pool, s'.pool, ws, c);
  }

  lemma HandStep(s: State, i: nat, ws: W.Step)
    requires Inv(s) && Enabled(s, Hand(i, ws))
    ensures Inv(Apply(s, Hand(i, ws)))
  {
    T.StepKeepsInv(s.pipe, AskStep(i, HandedOut(s.pool, ws).value));
    W.StepKeepsInv(s.pool, ws);
    HandKeepsShared(s, i, ws);
  }

  lemma StepKeepsInv(s: State, step: Step)
    requires Inv(s) && Enabled(s, step)
    ensures Inv(Apply(s, step))
  {
    match step {
      case Pipe(ps) => PipeStep(s, ps);
      case Pool(ws) => PoolStep(s, ws);
      case Hand(i, ws) => HandStep(s, i, ws);
    }
  }

  lemma {:induction false} RunKeepsInv(s: State, run: seq<Step>)
    requires Inv(s) && Exec(s, run).Some?
    ensures Inv(Exec(s, run).value)
  {
    if run != [] {
      RunKeepsInv(s, run[..|run| - 1]);
      StepKeepsInv(Exec(s, run[..|run| - 1]).value, run[|run| - 1]);
    }
  }

  lemma InitInv(cfg: P.Config, poolCfg: W.Config)
    ensures Inv(Init(cfg, poolCfg))
  {
    T.InitInv(cfg);
    W.InitInv(poolCfg);
  }

  lemma ReachableInv(cfg: P.Config, poolCfg: W.Config, run: seq<Step>)
    requires Exec(Init(cfg, poolCfg), run).Some?
    ensures Inv(Exec(Init(cfg, poolCfg), run).value)
  {
    InitInv(cfg, poolCfg);
    RunKeepsInv(Init(cfg, poolCfg), run);
  }

  // ---- what the two together promise ---------------------------------------------------------

  /** How often a removal of the container was attempted, by a worker or by the pool's shutdown. */
  function AllRemovals(s: State, c: Cid): nat {
    Containers.Removals(s.pipe.docker.calls, c) + multiset(s.pool.log.removed)[c]
  }

  lemma PoolRemovals(pool: W.State, c: Cid)
    requires W.Inv(pool)
    ensures multiset(pool.log.removed)[c] == if c in pool.log.removed then 1 else 0
    ensures c in pool.log.removed ==> c in pool.log.drained
    ensures pool.owner.Stopped? && c in pool.log.made && c !in pool.log.taken ==> c in pool.log.removed
  {
    assert forall k | 0 <= k < |pool.log.pushed| :: pool.log.pushed[k] == pool.log.made[k];
    var all := pool.log.taken + pool.log.drained + pool.idle;
    if c in pool.log.removed {
      var k :| 0 <= k < |pool.log.removed| && pool.log.removed[k] == c;
      assert pool.log.drained[k] == c;
    }
    assert forall k | 0 <= k < |pool.log.removed| :: all[|pool.log.taken| + k] == pool.log.removed[k];
    OnceEach(pool.log.removed, c);
  }

  lemma {:induction false} OnceEach(ids: seq<Cid>, c: Cid)
    requires W.Distinct(ids)
    ensures multiset(ids)[c] == if c in ids then 1 else 0
  {
    if ids != [] {
      var last := |ids| - 1;
      OnceEach(ids[..last], c);
      assert ids == ids[..last] + [ids[last]];
    }
  }

  /**
   In every joint run no container's removal is attempted twice, neither by two workers nor by a
   worker and the pool's shutdown; a container the shutdown removes is known to no worker.
   */
  lemma NeverRemovedTwice(cfg: P.Config, poolCfg: W.Config, run: seq<Step>, c: Cid)
    requires Exec(Init(cfg, poolCfg), run).Some?
    ensures var s := Exec(Init(cfg, poolCfg), run).value;
            AllRemovals(s, c) <= 1 && (c in s.pool.log.removed ==> c !in s.pipe.docker.boxes)
  {
    ReachableInv(cfg, poolCfg, run);
    var s := Exec(Init(cfg, poolCfg), run).value;
    Containers.AcceptedMeansOneRemoval(s.pipe.docker.calls, c);
    PoolRemovals(s.pool, c);
    if c in s.pool.log.removed {
      IdleIsOwn(s.pool, c);
    }
  }

  /** The container was made for one side or the other, or is one whose create lost its reply. */
  predicate EverMade(s: State, c: Cid) {
    c in s.pool.log.made || c in s.pool.log.oneOff || c in s.pool.log.lost || c in s.pipe.docker.boxes
  }

  /** The reply to its create was lost. */
  predicate LostReply(s: State, c: Cid) {
    c in s.pool.log.lost || Containers.Orphan(c) in s.pipe.docker.calls
  }

  /** The one attempt to remove it failed. */
  predicate RemovalFailed(s: State, c: Cid) {
    c in s.pool.log.stuck || Containers.RemoveFailed(c) in s.pipe.docker.calls
  }

  /** Docker no longer has it. */
  predicate RemovedForGood(s: State, c: Cid) {
    (c in s.pool.log.removed && c !in s.pool.log.stuck) || Containers.Remove(c) in s.pipe.docker.calls
  }

  /** Everything the pool ever made, lost or not, was issued to it, and the kinds do not overlap. */
  lemma PoolHas(pool: W.State, c: Cid)
    requires W.Inv(pool)
    ensures c in pool.log.made || c in pool.log.oneOff || c in pool.log.lost ==> c in pool.log.issued
    ensures c in pool.log.lost ==> !GivenAway(pool, c) && c !in pool.log.removed
  {
    assert forall k | 0 <= k < |pool.log.pushed| :: pool.log.pushed[k] == pool.log.made[k];
    var all := pool.log.taken + pool.log.drained + pool.idle;
    assert forall k | 0 <= k < |pool.log.taken| :: all[k] == pool.log.taken[k];
    assert forall k | 0 <= k < |pool.log.drained| :: all[|pool.log.taken| + k] == pool.log.drained[k];
    PoolRemovals(pool, c);
    assert c in pool.log.taken || c in pool.log.drained ==> c in pool.log.made;
  }

  /** One container's account: how often its removal was attempted, and whether Docker still has it. */
  ghost predicate Accounted(s: State, c: Cid) {
    && AllRemovals(s, c) == (if LostReply(s, c) then 0 else 1)
    && (!RemovedForGood(s, c) <==> LostReply(s, c) || RemovalFailed(s, c))
  }

  /** A container the scheduler knows and no worker holds. */
  lemma KnownToWorkers(s: State, c: Cid)
    requires Inv(s) && c in s.pipe.docker.boxes && !I.HeldBySome(s.pipe.workers, c)
    ensures Accounted(s, c)
  {
    Containers.AcceptedMeansOneRemoval(s.pipe.docker.calls, c);
    Containers.AcceptedMeansBrought(s.pipe.docker.calls, c);
    PoolRemovals(s.pool, c);
    PoolHas(s.pool, c);
    assert c in s.pool.log.issued <==> GivenAway(s.pool, c);
    if c in s.pool.log.removed {
      IdleIsOwn(s.pool, c);
    }
    assert !Containers.Standing(s.pipe.docker.boxes, c);
  }

  /** A container only the pool knows, or nobody. */
  lemma KnownToPool(s: State, c: Cid)
    requires Inv(s) && c !in s.pipe.docker.boxes && EverMade(s, c) && s.pool.owner.Stopped?
    ensures Accounted(s, c)
  {
    Containers.AcceptedMeansOneRemoval(s.pipe.docker.calls, c);
    Containers.AcceptedMeansBrought(s.pipe.docker.calls, c);
    PoolRemovals(s.pool, c);
    PoolHas(s.pool, c);
    assert !GivenAway(s.pool, c);
  }

  /**
   What survives: once the pool is stopped and no worker holds a container, every container that was ever created has
   had exactly one attempt to remove it, or none if the reply to its create was lost; and Docker still has it exactly
   when that reply was lost or that one attempt failed.
   */
  lemma SurvivesIff(cfg: P.Config, poolCfg: W.Config, run: seq<Step>, c: Cid)
    requires Exec(Init(cfg, poolCfg), run).Some?
    requires var s := Exec(Init(cfg, poolCfg), run).value;
             s.pool.owner.Stopped? && !I.HeldBySome(s.pipe.workers, c) && EverMade(s, c)
    ensures var s := Exec(Init(cfg, poolCfg), run).value;
            && AllRemovals(s, c) == (if LostReply(s, c) then 0 else 1)
            && (!RemovedForGood(s, c) <==> LostReply(s, c) || RemovalFailed(s, c))
  {
    ReachableInv(cfg, poolCfg, run);
    var s := Exec(Init(cfg, poolCfg), run).value;
    if c in s.pipe.docker.boxes {
      KnownToWorkers(s, c);
    } else {
      KnownToPool(s, c);
    }
  }
}
