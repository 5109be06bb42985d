/**
 The warm container pool as a transition system: one owner that starts and shuts it
 down, one refill thread, and any number of acquirers.  A step is one lock region, one
 atomic read or write, or one Docker call; Docker hands out fresh ids or fails.
 */
module WarmPool {
  import opened Options
  import opened Containers

  type Cid = Containers.Cid

  type CreateReply = Containers.CreateReply

  datatype Config = Config(target: nat, attempts: nat)

  datatype Owner =
    | Fresh
    | Precreating(i: nat)
    | Pushing(i: nat, id: Cid)
    | Started
    | Refused
    | Joining
    | Draining
    | Removing(rest: seq<Cid>)
    | Stopped

  /** `cur` is the idle count the thread read before trying; `left` the attempts it still has. */
  datatype Refill =
    | Absent
    | AtCv
    | AtGap
    | Checking(cur: nat)
    | Trying(cur: nat, left: nat)
    | Creating(cur: nat, left: nat)
    | Holding(cur: nat, id: Cid)
    | Ended

  /**
   What has happened so far: the ids Docker used up, the containers made for the pool and those pushed, taken by
   acquirers, drained at shutdown and attempted to remove there; the one-offs; the containers whose create lost its
   reply; and those whose removal failed.
   */
  datatype History = History(
    issued: set<Cid>, made: seq<Cid>, pushed: seq<Cid>, taken: seq<Cid>, drained: seq<Cid>, removed: seq<Cid>,
    oneOff: seq<Cid>, lost: set<Cid>, stuck: set<Cid>)

  /** `passed` counts acquirers past the `running_` test, `falling` those that found the pool empty. */
  datatype State = State(
    cfg: Config, running: bool, shuttingDown: bool, owner: Owner, refill: Refill, idle: seq<Cid>,
    passed: nat, falling: nat, log: History)

  datatype Step =
    | StartUp | Precreate(got: CreateReply) | PushFirst | Ready
    | Shutdown | Joined | Drain | RemoveOne(ok: bool) | Finish
    | Wake | ReadGap | CheckFlag | LookAgain | CreateOne(got: CreateReply) | PushOne
    | AcquireTest | AcquirePop | AcquireFallback(got: CreateReply) | Release(id: Cid)

  function Init(cfg: Config): State {
    State(cfg, false, false, Fresh, Absent, [], 0, 0, History({}, [], [], [], [], [], [], {}, {}))
  }

  /** The id Docker uses up, if it does, is new. */
  predicate Unused(s: State, got: CreateReply) {
    NewId(got).Some? ==> NewId(got).value !in s.log.issued
  }

  predicate Enabled(s: State, step: Step) {
    match step
    case StartUp => s.owner.Fresh?
    case Precreate(got) => s.owner.Precreating? && s.owner.i < s.cfg.target && Unused(s, got)
    case PushFirst => s.owner.Pushing?
    case Ready => s.owner.Precreating? && s.owner.i >= s.cfg.target
    case Shutdown => s.owner.Fresh? || s.owner.Started? || s.owner.Refused?
    case Joined => s.owner.Joining? && (s.refill.Absent? || s.refill.Ended?)
    case Drain => s.owner.Draining?
    case RemoveOne(_) => s.owner.Removing? && s.owner.rest != []
    case Finish => s.owner.Removing? && s.owner.rest == []
    case Wake => s.refill.AtCv? && (s.shuttingDown || |s.idle| < s.cfg.target)
    case ReadGap => s.refill.AtGap?
    case CheckFlag => s.refill.Checking?
    case LookAgain => s.refill.Trying?
    case CreateOne(got) => s.refill.Creating? && Unused(s, got)
    case PushOne => s.refill.Holding?
    case AcquireTest => s.running
    case AcquirePop => s.passed > 0
    case AcquireFallback(got) => s.falling > 0 && Unused(s, got)
    case Release(_) => true
  }

  /** `refill_once` gave up: back to the condition variable only when at most one container is missing. */
  function GaveUp(s: State, cur: nat): Refill {
    if cur + 1 >= s.cfg.target then AtCv else AtGap
  }

  /** A create: its id is used up, and lost if the reply is. */
  function Asked(h: History, got: CreateReply): History {
    match got
    case Created(id) => h.(issued := h.issued + {id})
    case NotCreated => h
    case ReplyLost(id) => h.(issued := h.issued + {id}, lost := h.lost + {id})
  }

  function MadeForPool(h: History, got: CreateReply): History {
    if got.Created? then Asked(h, got).(made := h.made + [got.cid]) else Asked(h, got)
  }

  function OneOff(h: History, got: CreateReply): History {
    if got.Created? then Asked(h, got).(oneOff := h.oneOff + [got.cid]) else Asked(h, got)
  }

  function Pushed(s: State, id: Cid): State {
    s.(idle := s.idle + [id], log := s.log.(pushed := s.log.pushed + [id]))
  }

  function Attempted(h: History, id: Cid, ok: bool): History {
    h.(removed := h.removed + [id], stuck := if ok then h.stuck else h.stuck + {id})
  }

  /** The owner's steps. */
  function OwnerMove(s: State, step: Step): State
    requires Enabled(s, step) && ByOwner(step)
  {
    match step
    case StartUp => if s.cfg.target == 0 then s.(running := true, owner := Started) else s.(owner := Precreating(0))
    case Precreate(got) =>
      s.(owner := if got.Created? then Pushing(s.owner.i, got.cid) else Precreating(s.owner.i + 1),
         log := MadeForPool(s.log, got))
    case PushFirst => Pushed(s, s.owner.id).(owner := Precreating(s.owner.i + 1))
    case Ready =>
      if s.log.pushed != [] then s.(running := true, owner := Started, refill := AtCv) else s.(owner := Refused)
    case Shutdown => s.(shuttingDown := true, owner := Joining)
    case Joined => s.(owner := Draining)
    case Drain => s.(idle := [], log := s.log.(drained := s.idle), owner := Removing(s.idle))
    case RemoveOne(ok) => s.(log := Attempted(s.log, s.owner.rest[0], ok), owner := Removing(s.owner.rest[1..]))
    case Finish => s.(running := false, owner := Stopped)
  }

  /** The refill thread's steps. */
  function RefillMove(s: State, step: Step): State
    requires Enabled(s, step) && ByRefill(step)
  {
    match step
    case Wake => s.(refill := if s.shuttingDown then Ended else AtGap)
    case ReadGap => s.(refill := if |s.idle| >= s.cfg.target then AtCv else Checking(|s.idle|))
    case CheckFlag => s.(refill := if s.shuttingDown then AtCv else Trying(s.refill.cur, s.cfg.attempts))
    case LookAgain =>
      if s.shuttingDown || s.refill.left == 0 then s.(refill := GaveUp(s, s.refill.cur))
      else s.(refill := Creating(s.refill.cur, s.refill.left - 1))
    case CreateOne(got) =>
      s.(refill := if got.Created? then Holding(s.refill.cur, got.cid) else Trying(s.refill.cur, s.refill.left),
         log := MadeForPool(s.log, got))
    case PushOne => Pushed(s, s.refill.id).(refill := AtGap)
  }

  /** The acquirers' steps. */
  function AcquirerMove(s: State, step: Step): State
    requires Enabled(s, step) && !ByOwner(step) && !ByRefill(step)
  {
    match step
    case AcquireTest => s.(passed := s.passed + 1)
    case AcquirePop =>
      if s.idle == [] then s.(passed := s.passed - 1, falling := s.falling + 1)
      else s.(passed := s.passed - 1, idle := s.idle[1..], log := s.log.(taken := s.log.taken + [s.idle[0]]))
    case AcquireFallback(got) => s.(falling := s.falling - 1, log := OneOff(s.log, got))
    case Release(_) => s
  }

  predicate ByOwner(step: Step) {
    || step.StartUp? || step.Precreate? || step.PushFirst? || step.Ready?
    || step.Shutdown? || step.Joined? || step.Drain? || step.RemoveOne? || step.Finish?
  }

  predicate ByRefill(step: Step) {
    step.Wake? || step.ReadGap? || step.CheckFlag? || step.LookAgain? || step.CreateOne? || step.PushOne?
  }

  function Apply(s: State, step: Step): State
    requires Enabled(s, step)
  {
    if ByOwner(step) then OwnerMove(s, step)
    else if ByRefill(step) then RefillMove(s, step)
    else AcquirerMove(s, step)
  }

  function Next(s: Option<State>, step: Step): Option<State> {
    if s.Some? && Enabled(s.value, step) then Some(Apply(s.value, step)) else None
  }

  /** The state after a run from `s`, or `None` when some step of it was not enabled. */
  function Exec(s: State, run: seq<Step>): Option<State> {
    if run == [] then Some(s) else Next(Exec(s, run[..|run| - 1]), run[|run| - 1])
  }

  // ---- invariants --------------------------------------------------------------

  ghost predicate Distinct(ids: seq<Cid>) {
    forall i, j | 0 <= i < j < |ids| :: ids[i] != ids[j]
  }

  /** A container made for the pool but not pushed yet. */
  function InFlight(s: State): seq<Cid> {
    (if s.owner.Pushing? then [s.owner.id] else []) + (if s.refill.Holding? then [s.refill.id] else [])
  }

  /** Everything made for the pool enters it, once. */
  ghost predicate MadeInv(s: State) {
    s.log.made == s.log.pushed + InFlight(s)
  }

  /** Ids leave the pool in the order they entered it, to an acquirer or to the shutdown drain. */
  ghost predicate FlowInv(s: State) {
    s.log.pushed == s.log.taken + s.log.drained + s.idle
  }

  ghost predicate FreshInv(h: History) {
    && Distinct(h.made)
    && (forall k | 0 <= k < |h.made| :: h.made[k] in h.issued)
    && (forall k | 0 <= k < |h.oneOff| :: h.oneOff[k] in h.issued && h.oneOff[k] !in h.made)
  }

  /** A container whose create lost its reply is nobody's. */
  ghost predicate LostInv(h: History) {
    forall id | id in h.lost :: id in h.issued && id !in h.made && id !in h.oneOff
  }

  /** Only removals that were attempted fail. */
  ghost predicate StuckInv(h: History) {
    forall id | id in h.stuck :: id in h.removed
  }

  /** The refill thread only tries after seeing room, and nobody else adds once it runs. */
  ghost predicate SizeInv(s: State) {
    && |s.idle| <= s.cfg.target
    && (s.owner.Fresh? ==> s.idle == [])
    && (s.owner.Precreating? || s.owner.Pushing? ==> |s.idle| <= s.owner.i <= s.cfg.target)
    && (s.owner.Pushing? ==> s.owner.i < s.cfg.target)
    && (s.refill.Checking? || s.refill.Trying? || s.refill.Creating? || s.refill.Holding? ==>
          |s.idle| <= s.refill.cur < s.cfg.target)
  }

  ghost predicate OwnerInv(s: State) {
    && (s.owner.Fresh? || s.owner.Precreating? || s.owner.Pushing? ==> s.refill.Absent?)
    && (s.owner.Draining? || s.owner.Removing? || s.owner.Stopped? ==> s.refill.Absent? || s.refill.Ended?)
    && (s.owner.Stopped? ==> !s.running)
    && (if s.owner.Removing? || s.owner.Stopped?
        then s.idle == [] && s.log.drained == s.log.removed + (if s.owner.Removing? then s.owner.rest else [])
        else s.log.drained == [] && s.log.removed == [])
  }

  ghost predicate Inv(s: State) {
    && MadeInv(s) && FlowInv(s) && FreshInv(s.log) && LostInv(s.log) && StuckInv(s.log)
    && SizeInv(s) && OwnerInv(s)
  }

  lemma OwnerByOwner(s: State, step: Step)
    requires OwnerInv(s) && Enabled(s, step) && ByOwner(step)
    ensures OwnerInv(OwnerMove(s, step))
  {
    if step.RemoveOne? {
      assert s.owner.rest == [s.owner.rest[0]] + s.owner.rest[1..];
    }
  }

  lemma OwnerByRefill(s: State, step: Step)
    requires OwnerInv(s) && Enabled(s, step) && ByRefill(step)
    ensures OwnerInv(RefillMove(s, step))
  {
  }

  lemma OwnerByAcquirer(s: State, step: Step)
    requires OwnerInv(s) && Enabled(s, step) && !ByOwner(step) && !ByRefill(step)
    ensures OwnerInv(AcquirerMove(s, step))
  {
  }

  lemma OwnerStep(s: State, step: Step)
    requires OwnerInv(s) && Enabled(s, step)
    ensures OwnerInv(Apply(s, step))
  {
    if ByOwner(step) {
      OwnerByOwner(s, step);
    } else if ByRefill(step) {
      OwnerByRefill(s, step);
    } else {
      OwnerByAcquirer(s, step);
    }
  }

  lemma SizeByOwner(s: State, step: Step)
    requires SizeInv(s) && OwnerInv(s) && Enabled(s, step) && ByOwner(step)
    ensures SizeInv(OwnerMove(s, step))
  {
  }

  lemma SizeByRefill(s: State, step: Step)
    requires SizeInv(s) && OwnerInv(s) && Enabled(s, step) && ByRefill(step)
    ensures SizeInv(RefillMove(s, step))
  {
  }

  lemma SizeByAcquirer(s: State, step: Step)
    requires SizeInv(s) && Enabled(s, step) && !ByOwner(step) && !ByRefill(step)
    ensures SizeInv(AcquirerMove(s, step))
  {
  }

  lemma SizeStep(s: State, step: Step)
    requires SizeInv(s) && OwnerInv(s) && Enabled(s, step)
    ensures SizeInv(Apply(s, step))
  {
    if ByOwner(step) {
      SizeByOwner(s, step);
    } else if ByRefill(step) {
      SizeByRefill(s, step);
    } else {
      SizeByAcquirer(s, step);
    }
  }

  lemma MadeByOwner(s: State, step: Step)
    requires MadeInv(s) && OwnerInv(s) && Enabled(s, step) && ByOwner(step)
    ensures MadeInv(OwnerMove(s, step))
  {
    match step
    case Precreate(got) => assert InFlight(s) == [];
    case PushFirst => assert InFlight(s) == [s.owner.id];
    case _ =>
  }

  lemma MadeByRefill(s: State, step: Step)
    requires MadeInv(s) && OwnerInv(s) && Enabled(s, step) && ByRefill(step)
    ensures MadeInv(RefillMove(s, step))
  {
    match step
    case CreateOne(got) => assert InFlight(s) == [];
    case PushOne => assert InFlight(s) == [s.refill.id];
    case _ =>
  }

  lemma MadeStep(s: State, step: Step)
    requires MadeInv(s) && OwnerInv(s) && Enabled(s, step)
    ensures MadeInv(Apply(s, step))
  {
    if ByOwner(step) {
      MadeByOwner(s, step);
    } else if ByRefill(step) {
      MadeByRefill(s, step);
    }
  }

  lemma FlowStep(s: State, step: Step)
    requires FlowInv(s) && OwnerInv(s) && Enabled(s, step)
    ensures FlowInv(Apply(s, step))
  {
    match step
    case PushFirst => PushFlow(s.log.taken, s.log.drained, s.idle, s.owner.id);
    case PushOne => PushFlow(s.log.taken, s.log.drained, s.idle, s.refill.id);
    case _ =>
  }

  lemma PushFlow(taken: seq<Cid>, drained: seq<Cid>, idle: seq<Cid>, id: Cid)
    ensures taken + drained + idle + [id] == taken + drained + (idle + [id])
  {
  }

  lemma FreshMade(h: History, got: CreateReply)
    requires FreshInv(h) && LostInv(h) && (NewId(got).Some? ==> NewId(got).value !in h.issued)
    ensures FreshInv(MadeForPool(h, got)) && LostInv(MadeForPool(h, got))
  {
  }

  lemma FreshStep(s: State, step: Step)
    requires FreshInv(s.log) && LostInv(s.log) && Enabled(s, step)
    ensures FreshInv(Apply(s, step).log) && LostInv(Apply(s, step).log)
  {
    match step
    case Precreate(got) => FreshMade(s.log, got);
    case CreateOne(got) => FreshMade(s.log, got);
    case _ =>
  }

  lemma StuckStep(s: State, step: Step)
    requires StuckInv(s.log) && Enabled(s, step)
    ensures StuckInv(Apply(s, step).log)
  {
    match step
    case RemoveOne(ok) =>
      var h, id := s.log, s.owner.rest[0];
      assert (h.removed + [id])[|h.removed|] == id;
    case _ =>
  }

  lemma InitInv(cfg: Config)
    ensures Inv(Init(cfg))
  {
  }

  lemma StepKeepsInv(s: State, step: Step)
    requires Inv(s) && Enabled(s, step)
    ensures Inv(Apply(s, step))
  {
    MadeStep(s, step);
    FlowStep(s, step);
    FreshStep(s, step);
    StuckStep(s, step);
    SizeStep(s, step);
    OwnerStep(s, step);
  }

  lemma {:induction false} RunKeepsInv(s: State, run: seq<Step>)
    requires Inv(s) && Exec(s, run).Some?
    ensures Inv(Exec(s, run).value)
  {
    if run != [] {
      var last := |run| - 1;
      RunKeepsInv(s, run[..last]);
      StepKeepsInv(Exec(s, run[..last]).value, run[last]);
    }
  }

  // ---- the pool's promises over whole runs ----------------------------------------

  /** Idle never exceeds K. */
  lemma IdleBounded(cfg: Config, run: seq<Step>)
    requires Exec(Init(cfg), run).Some?
    ensures var s := Exec(Init(cfg), run).value; |s.idle| <= s.cfg.target
  {
    RunKeepsInv(Init(cfg), run);
  }

  /**
   Each pooled id leaves the pool at most once: the ids ever pushed are, in order, those taken
   by acquirers, those drained at shutdown and those still idle, and no id occurs twice.  An id
   that was taken therefore never comes back, whatever is released.
   */
  lemma LeavesOnce(cfg: Config, run: seq<Step>)
    requires Exec(Init(cfg), run).Some?
    ensures var s := Exec(Init(cfg), run).value;
            && s.log.pushed == s.log.taken + s.log.drained + s.idle
            && Distinct(s.log.pushed)
            && (forall id | id in s.log.taken :: id !in s.idle && id !in s.log.drained)
            && (forall id | id in s.log.oneOff :: id !in s.log.pushed)
  {
    RunKeepsInv(Init(cfg), run);
    var s := Exec(Init(cfg), run).value;
    assert forall k | 0 <= k < |s.log.pushed| :: s.log.pushed[k] == s.log.made[k];
    TakenStaysOut(s.log.taken, s.log.drained, s.idle);
  }

  lemma TakenStaysOut(taken: seq<Cid>, drained: seq<Cid>, idle: seq<Cid>)
    requires Distinct(taken + drained + idle)
    ensures forall id | id in taken :: id !in idle && id !in drained
  {
    var all := taken + drained + idle;
    assert forall k | 0 <= k < |taken| :: all[k] == taken[k];
    assert forall k | 0 <= k < |drained| :: all[|taken| + k] == drained[k];
    assert forall k | 0 <= k < |idle| :: all[|taken| + |drained| + k] == idle[k];
  }

  lemma StoppedAccounts(s: State)
    requires Inv(s) && s.owner.Stopped?
    ensures s.idle == [] && !s.running && s.log.made == s.log.taken + s.log.removed && Distinct(s.log.made)
  {
    assert s.log.taken + s.log.drained + [] == s.log.taken + s.log.removed;
  }

  /**
   After shutdown the pool is empty and every container ever made for it, including one whose
   creation was under way when shutdown began, went to one acquirer or to one shutdown removal.
   */
  lemma ShutdownAccountsForAll(cfg: Config, run: seq<Step>)
    requires Exec(Init(cfg), run).Some? && Exec(Init(cfg), run).value.owner.Stopped?
    ensures var s := Exec(Init(cfg), run).value;
            s.idle == [] && !s.running && s.log.made == s.log.taken + s.log.removed && Distinct(s.log.made)
  {
    RunKeepsInv(Init(cfg), run);
    StoppedAccounts(Exec(Init(cfg), run).value);
  }

  /** How many calls of `acquire` found the pool running. */
  function Tests(run: seq<Step>): nat {
    if run == [] then 0 else Tests(run[..|run| - 1]) + if run[|run| - 1].AcquireTest? then 1 else 0
  }

  /** The containers given out, and the calls that may still get one. */
  function Served(s: State): nat {
    |s.log.taken| + |s.log.oneOff| + s.passed + s.falling
  }

  lemma ServedStep(s: State, step: Step)
    requires Enabled(s, step)
    ensures Served(Apply(s, step)) <= Served(s) + if step.AcquireTest? then 1 else 0
  {
  }

  /** A call of `acquire` that found the pool running takes one container from it, or makes at most one for itself. */
  lemma {:induction false} AcquiresServed(cfg: Config, run: seq<Step>)
    requires Exec(Init(cfg), run).Some?
    ensures Served(Exec(Init(cfg), run).value) <= Tests(run)
  {
    if run != [] {
      var last := |run| - 1;
      AcquiresServed(cfg, run[..last]);
      ServedStep(Exec(Init(cfg), run[..last]).value, run[last]);
    }
  }

  /** From the drain on, the pool stays empty for good: late acquirers and releases cannot refill it. */
  lemma {:induction false} EmptyForever(s: State, run: seq<Step>)
    requires OwnerInv(s) && (s.owner.Removing? || s.owner.Stopped?) && Exec(s, run).Some?
    ensures var s' := Exec(s, run).value;
            && OwnerInv(s') && (s'.owner.Removing? || s'.owner.Stopped?)
            && s'.idle == [] && s'.log.taken == s.log.taken && s'.log.made == s.log.made
  {
    if run != [] {
      var last := |run| - 1;
      EmptyForever(s, run[..last]);
      var m := Exec(s, run[..last]).value;
      OwnerStep(m, run[last]);
    }
  }

  // ---- where the refill thread does not yield --------------------------------------

  /** One pass of `refill_once` in which Docker fails `n` times. */
  function FailedTries(n: nat): seq<Step> {
    if n == 0 then [] else FailedTries(n - 1) + [LookAgain, CreateOne(NotCreated)]
  }

  lemma ExecOneMore(s: State, run: seq<Step>, step: Step, m: Option<State>)
    requires Exec(s, run) == m
    ensures Exec(s, run + [step]) == Next(m, step)
  {
    assert (run + [step])[..|run|] == run;
  }

  lemma Extend(s0: State, run: seq<Step>, s: State, step: Step) returns (run': seq<Step>, s': State)
    requires Exec(s0, run) == Some(s) && Enabled(s, step)
    ensures run' == run + [step] && s' == Apply(s, step) && Exec(s0, run') == Some(s')
  {
    run', s' := run + [step], Apply(s, step);
    assert run'[..|run|] == run;
  }

  /** One failing attempt. */
  lemma TryFails(s0: State, run: seq<Step>, s: State, cur: nat, left: nat)
    requires Exec(s0, run) == Some(s) && s.refill == Trying(cur, left) && left > 0 && !s.shuttingDown
    ensures Exec(s0, run + [LookAgain, CreateOne(NotCreated)]) == Some(s.(refill := Trying(cur, left - 1)))
  {
    var run', m := Extend(s0, run, s, LookAgain);
    run', m := Extend(s0, run', m, CreateOne(NotCreated));
    assert run' == run + [LookAgain, CreateOne(NotCreated)];
  }

  lemma {:induction false} TriesFail(s: State, cur: nat, left: nat, n: nat)
    requires s.refill == Trying(cur, left) && n <= left && !s.shuttingDown
    ensures Exec(s, FailedTries(n)) == Some(s.(refill := Trying(cur, left - n)))
  {
    if n > 0 {
      TriesFail(s, cur, left, n - 1);
      TryFails(s, FailedTries(n - 1), s.(refill := Trying(cur, left - n + 1)), cur, left - n + 1);
    }
  }

  function FailedPass(n: nat): seq<Step> {
    [ReadGap, CheckFlag] + FailedTries(n) + [LookAgain]
  }

  lemma {:induction false} ExecConcat(s: State, r1: seq<Step>, r2: seq<Step>)
    requires Exec(s, r1).Some?
    ensures Exec(s, r1 + r2) == Exec(Exec(s, r1).value, r2)
  {
    if r2 == [] {
      assert r1 + r2 == r1;
    } else {
      var rest, step := r2[..|r2| - 1], r2[|r2| - 1];
      ExecConcat(s, r1, rest);
      ExecOneMore(s, r1 + rest, step, Exec(s, r1 + rest));
      ExecOneMore(Exec(s, r1).value, rest, step, Exec(s, r1 + rest));
      assert r1 + r2 == (r1 + rest) + [step] && r2 == rest + [step];
    }
  }

  /**
   Bounded retries do not hand the thread back to its condition variable: with Docker failing,
   a whole pass of `refill_once` ends waiting exactly when at most one container is missing;
   with two or more missing it is back where it began, and can repeat the pass for ever.
   */
  lemma FailedPassYieldsIff(s: State)
    requires s.refill.AtGap? && !s.shuttingDown && |s.idle| < s.cfg.target
    ensures var end := Exec(s, FailedPass(s.cfg.attempts));
            end == Some(if |s.idle| + 1 >= s.cfg.target then s.(refill := AtCv) else s)
  {
    var cur, n := |s.idle|, s.cfg.attempts;
    var s1 := Apply(s, ReadGap);
    var s2 := Apply(s1, CheckFlag);
    assert [ReadGap, CheckFlag][..1] == [ReadGap];
    assert Exec(s, []) == Some(s);
    assert Exec(s, [ReadGap]) == Some(s1);
    assert Exec(s, [ReadGap, CheckFlag]) == Some(s2);
    TriesFail(s2, cur, n, n);
    ExecConcat(s, [ReadGap, CheckFlag], FailedTries(n));
    var r := [ReadGap, CheckFlag] + FailedTries(n);
    assert (r + [LookAgain])[..|r|] == r;
  }

  /** Of three containers only the first can be made at the start. */
  lemma OneOfThree(attempts: nat) returns (run: seq<Step>, s: State)
    ensures Exec(Init(Config(3, attempts)), run) == Some(s) && s.cfg == Config(3, attempts)
    ensures s.owner == Precreating(3) && s.idle == [0] && s.log.pushed == [0] && !s.shuttingDown
  {
    var s0 := Init(Config(3, attempts));
    run, s := Extend(s0, [], s0, StartUp);
    run, s := Extend(s0, run, s, Precreate(Created(0)));
    run, s := Extend(s0, run, s, PushFirst);
    run, s := Extend(s0, run, s, Precreate(NotCreated));
    run, s := Extend(s0, run, s, Precreate(NotCreated));
  }

  /** With Docker failing from then on, the refill thread can go round for ever: each pass ends where it began. */
  lemma RefillCanSpin(attempts: nat) returns (run: seq<Step>, s: State)
    ensures Exec(Init(Config(3, attempts)), run) == Some(s) && s.running && s.refill.AtGap?
    ensures forall n: nat :: Exec(s, Passes(attempts, n)) == Some(s)
  {
    var s0 := Init(Config(3, attempts));
    run, s := OneOfThree(attempts);
    run, s := Extend(s0, run, s, Ready);
    run, s := Extend(s0, run, s, Wake);
    FailedPassYieldsIff(s);
    forall n: nat
      ensures Exec(s, Passes(attempts, n)) == Some(s)
    {
      PassesSpin(s, attempts, n);
    }
  }

  function Passes(attempts: nat, n: nat): seq<Step> {
    if n == 0 then [] else Passes(attempts, n - 1) + FailedPass(attempts)
  }

  lemma {:induction false} PassesSpin(s: State, attempts: nat, n: nat)
    requires Exec(s, FailedPass(attempts)) == Some(s)
    ensures Exec(s, Passes(attempts, n)) == Some(s)
  {
    if n > 0 {
      PassesSpin(s, attempts, n - 1);
      ExecConcat(s, Passes(attempts, n - 1), FailedPass(attempts));
    }
  }
}
