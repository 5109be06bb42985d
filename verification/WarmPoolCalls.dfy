/**
 The warm pool's methods as one thread executes them, undisturbed: each is proved to be a path of
 the transition system of WarmPool and to leave the idle list its callers are promised.
 */
module WarmPoolCalls {
  import opened Options
  import opened Containers
  import opened WarmPool

  /** The ids of the creations that worked, in order. */
  function Successes(outcomes: seq<CreateReply>): seq<Cid> {
    if outcomes == [] then []
    else
      var last := outcomes[|outcomes| - 1];
      Successes(outcomes[..|outcomes| - 1]) + if last.Created? then [last.cid] else []
  }

  /** The ids Docker used up. */
  function IdsOf(outcomes: seq<CreateReply>): set<Cid> {
    set k | 0 <= k < |outcomes| && NewId(outcomes[k]).Some? :: NewId(outcomes[k]).value
  }

  /** Docker never hands out an id twice. */
  ghost predicate AllDifferent(outcomes: seq<CreateReply>) {
    forall i, j | 0 <= i < j < |outcomes| && NewId(outcomes[i]).Some? :: NewId(outcomes[i]) != NewId(outcomes[j])
  }

  lemma OneMoreOutcome(outcomes: seq<CreateReply>, i: nat)
    requires i < |outcomes|
    ensures Successes(outcomes[..i + 1]) ==
            Successes(outcomes[..i]) + if outcomes[i].Created? then [outcomes[i].cid] else []
    ensures IdsOf(outcomes[..i + 1]) ==
            IdsOf(outcomes[..i]) + if outcomes[i].NotCreated? then {} else {outcomes[i].cid}
  {
    var longer, shorter := outcomes[..i + 1], outcomes[..i];
    assert longer[..i] == shorter;
    assert forall k | 0 <= k < i :: longer[k] == shorter[k];
    forall id | id in IdsOf(shorter)
      ensures id in IdsOf(longer)
    {
      var k :| 0 <= k < i && NewId(shorter[k]) == Some(id);
      assert NewId(longer[k]) == Some(id);
    }
    assert NewId(longer[i]).Some? ==> NewId(longer[i]).value in IdsOf(longer);
  }

  lemma NextIsNew(outcomes: seq<CreateReply>, i: nat)
    requires AllDifferent(outcomes) && i < |outcomes| && NewId(outcomes[i]).Some?
    ensures NewId(outcomes[i]).value !in IdsOf(outcomes[..i])
  {
  }

  /** The state of a starting pool after these creations. */
  ghost predicate Begun(s: State, i: nat, made: seq<Cid>, used: set<Cid>) {
    && s.owner == Precreating(i) && s.refill.Absent? && !s.running && !s.shuttingDown
    && s.idle == made && s.log.pushed == made && s.log.issued == used
  }

  function FirstSuccess(outcomes: seq<CreateReply>): Option<Cid> {
    if outcomes == [] then None else if outcomes[0].Created? then Some(outcomes[0].cid) else FirstSuccess(outcomes[1..])
  }

  lemma {:induction false} FirstSuccessAt(outcomes: seq<CreateReply>, i: nat)
    requires i <= |outcomes| && forall k | 0 <= k < i :: !outcomes[k].Created?
    ensures i == |outcomes| ==> FirstSuccess(outcomes) == None
    ensures i < |outcomes| && outcomes[i].Created? ==> FirstSuccess(outcomes) == Some(outcomes[i].cid)
  {
    if i > 0 {
      FirstSuccessAt(outcomes[1..], i - 1);
    }
  }

  lemma FrontMoves(done: seq<Cid>, rest: seq<Cid>)
    requires rest != []
    ensures done + [rest[0]] + rest[1..] == done + rest
  {
  }

  /** Consecutive ids from `first` on. */
  function From(first: Cid, n: nat): seq<Cid> {
    seq(n, k => first + k)
  }

  lemma FromGrows(idle: seq<Cid>, first: Cid, n: nat)
    ensures idle + From(first, n) + [first + n] == idle + From(first, n + 1)
  {
  }

  /** The container the refill thread will still push, if a creation under way ends as `got` says. */
  function InHand(refill: Refill, got: CreateReply): seq<Cid> {
    match refill
    case Holding(_, id) => [id]
    case Creating(_, _) => if got.Created? then [got.cid] else []
    case _ => []
  }

  /** How far the refill thread is from its end once shutdown has begun. */
  function Remaining(refill: Refill): nat {
    match refill
    case Creating(_, _) => 6
    case Holding(_, _) => 5
    case Trying(_, _) => 5
    case AtGap => 3
    case Checking(_) => 2
    case AtCv => 1
    case _ => 0
  }

  /** Nothing but the refill thread, the idle list and the account of what was made and pushed may differ. */
  ghost predicate OnlyRefilled(s: State, s': State) {
    && s'.cfg == s.cfg && s'.running == s.running && s'.shuttingDown == s.shuttingDown && s'.owner == s.owner
    && s'.log.taken == s.log.taken && s'.log.removed == s.log.removed && s'.log.stuck == s.log.stuck
  }

  lemma RefillOnlyRefills(s: State, step: Step)
    requires Enabled(s, step) && ByRefill(step)
    ensures OnlyRefilled(s, Apply(s, step))
  {
  }

  /** One attempt to create, seen as one move. */
  function Attempt(s: State, got: CreateReply): State
    requires s.refill.Trying? && s.refill.left > 0
  {
    var log := MadeForPool(s.log, got);
    if got.Created?
    then s.(refill := AtGap, idle := s.idle + [got.cid], log := log.(pushed := log.pushed + [got.cid]))
    else s.(refill := Trying(s.refill.cur, s.refill.left - 1), log := log)
  }

  lemma AttemptKeeps(s: State, got: CreateReply)
    requires s.refill.Trying? && s.refill.left > 0
    ensures OnlyRefilled(s, Attempt(s, got))
    ensures Attempt(s, got).log.issued == s.log.issued + if got.NotCreated? then {} else {got.cid}
  {
  }

  lemma Untried(outcomes: seq<CreateReply>, i: nat, issued: set<Cid>)
    requires AllDifferent(outcomes) && i < |outcomes| && issued !! IdsOf(outcomes)
    ensures NewId(outcomes[i]).Some? ==> NewId(outcomes[i]).value !in issued + IdsOf(outcomes[..i])
    ensures IdsOf(outcomes[..i + 1]) <= IdsOf(outcomes)
  {
    if NewId(outcomes[i]).Some? {
      NextIsNew(outcomes, i);
      assert NewId(outcomes[i]).value in IdsOf(outcomes);
    }
  }

  /** After `i` failed attempts of a refill that began in `was`. */
  ghost predicate Trial(was: State, s: State, outcomes: seq<CreateReply>, i: nat) {
    && i <= |outcomes| && was.refill.Trying? && OnlyRefilled(was, s) && s.idle == was.idle
    && s.refill == Trying(was.refill.cur, |outcomes| - i)
    && s.log.issued == was.log.issued + IdsOf(outcomes[..i])
    && forall k | 0 <= k < i :: !outcomes[k].Created?
  }

  /** What a refill that began in `was` comes to. */
  ghost predicate Refilled(was: State, s: State, outcomes: seq<CreateReply>) {
    && was.refill.Trying? && OnlyRefilled(was, s)
    && s.idle == was.idle + (if FirstSuccess(outcomes).Some? then [FirstSuccess(outcomes).value] else [])
    && s.log.issued <= was.log.issued + IdsOf(outcomes)
    && s.refill == if FirstSuccess(outcomes).Some? then AtGap else GaveUp(was, was.refill.cur)
  }

  lemma TrialBegins(s: State, outcomes: seq<CreateReply>)
    requires s.refill.Trying? && s.refill.left == |outcomes|
    ensures Trial(s, s, outcomes, 0)
  {
    assert outcomes[..0] == [];
  }

  lemma TrialStep(was: State, s: State, outcomes: seq<CreateReply>, i: nat)
    requires Trial(was, s, outcomes, i) && i < |outcomes| && AllDifferent(outcomes)
    requires was.log.issued !! IdsOf(outcomes)
    ensures Unused(s, outcomes[i])
    ensures !outcomes[i].Created? ==> Trial(was, Attempt(s, outcomes[i]), outcomes, i + 1)
    ensures outcomes[i].Created? ==> FirstSuccess(outcomes).Some? && Refilled(was, Attempt(s, outcomes[i]), outcomes)
  {
    OneMoreOutcome(outcomes, i);
    Untried(outcomes, i, was.log.issued);
    AttemptKeeps(s, outcomes[i]);
    FirstSuccessAt(outcomes, i);
  }

  lemma TrialOver(was: State, s: State, outcomes: seq<CreateReply>)
    requires Trial(was, s, outcomes, |outcomes|) && !was.shuttingDown
    ensures Enabled(s, LookAgain) && FirstSuccess(outcomes).None? && Refilled(was, Apply(s, LookAgain), outcomes)
  {
    FirstSuccessAt(outcomes, |outcomes|);
    assert outcomes[..|outcomes|] == outcomes && was.idle + [] == was.idle;
  }

  /** The refill thread's next step once shutdown has begun. */
  function RunDown(refill: Refill, got: CreateReply): Step
    requires !refill.Absent? && !refill.Ended?
  {
    match refill
    case AtCv => Wake
    case AtGap => ReadGap
    case Checking(_) => CheckFlag
    case Trying(_, _) => LookAgain
    case Creating(_, _) => CreateOne(got)
    case Holding(_, _) => PushOne
  }

  lemma RunDownMoves(s: State, got: CreateReply, step: Step)
    requires s.shuttingDown && !s.refill.Absent? && !s.refill.Ended? && (s.refill.Creating? ==> Unused(s, got))
    requires step == RunDown(s.refill, got)
    ensures Enabled(s, step) && ByRefill(step)
    ensures var s' := RefillMove(s, step);
            && Remaining(s'.refill) < Remaining(s.refill) && !s'.refill.Absent? && !s'.refill.Creating?
            && s'.idle + InHand(s'.refill, got) == s.idle + InHand(s.refill, got)
  {
    if s.refill.Holding? {
      assert s.idle + [s.refill.id] + [] == s.idle + [s.refill.id];
    }
  }

  class Pool {
    const cfg: Config
    var s: State
    ghost var run: seq<Step>

    ghost predicate Valid()
      reads this
    {
      Exec(Init(cfg), run) == Some(s) && s.cfg == cfg
    }

    constructor (cfg: Config)
      ensures Valid() && this.cfg == cfg && s == Init(cfg) && run == []
    {
      this.cfg, s, run := cfg, Init(cfg), [];
    }

    method Do(step: Step)
      requires Valid() && Enabled(s, step)
      modifies this
      ensures Valid() && s == Apply(old(s), step) && run == old(run) + [step]
    {
      assert (run + [step])[..|run|] == run;
      s, run := Apply(s, step), run + [step];
    }

    /** One turn of the precreation loop. */
    method PrecreateOne(got: CreateReply, ghost i: nat, ghost made: seq<Cid>, ghost used: set<Cid>)
      requires Valid() && Begun(s, i, made, used) && i < cfg.target && (NewId(got).Some? ==> NewId(got).value !in used)
      modifies this
      ensures Valid()
      ensures Begun(s, i + 1, made + (if got.Created? then [got.cid] else []),
                    used + if got.NotCreated? then {} else {got.cid})
    {
      Do(Precreate(got));
      if got.Created? {
        Do(PushFirst);
      } else {
        assert made + [] == made;
      }
    }

    /** The precreation loop. */
    method PrecreateAll(outcomes: seq<CreateReply>)
      requires Valid() && Begun(s, 0, [], {}) && |outcomes| == cfg.target && AllDifferent(outcomes)
      modifies this
      ensures Valid() && Begun(s, cfg.target, Successes(outcomes), IdsOf(outcomes))
    {
      var i := 0;
      while i < cfg.target
        invariant 0 <= i <= cfg.target
        invariant Valid() && Begun(s, i, Successes(outcomes[..i]), IdsOf(outcomes[..i]))
      {
        OneMoreOutcome(outcomes, i);
        if !outcomes[i].NotCreated? {
          NextIsNew(outcomes, i);
        }
        PrecreateOne(outcomes[i], i, Successes(outcomes[..i]), IdsOf(outcomes[..i]));
        i := i + 1;
      }
      assert outcomes[..i] == outcomes;
    }

    /**
     Starts with whatever could be created; refuses a negative target, a target without a client, and
     a target of which nothing could be created.
     */
    method Start(target: int, hasClient: bool, outcomes: seq<CreateReply>) returns (ok: bool)
      requires Valid() && s == Init(cfg) && (target >= 0 ==> cfg.target == target)
      requires |outcomes| == cfg.target && AllDifferent(outcomes)
      modifies this
      ensures Valid()
      ensures ok <==> target == 0 || (target > 0 && hasClient && Successes(outcomes) != [])
      ensures s.idle == (if target > 0 && hasClient then Successes(outcomes) else []) && s.running == ok
      ensures ok && target > 0 ==> s.refill.AtCv?
      ensures s.owner == if ok then Started else if target > 0 && hasClient then Refused else Fresh
    {
      if target < 0 || (target > 0 && !hasClient) {
        return false;
      }
      Do(StartUp);
      if target == 0 {
        return true;
      }
      PrecreateAll(outcomes);
      ok := s.log.pushed != [];
      Do(Ready);
    }

    /** The oldest idle container, or a one-off when the pool is empty, or nothing when it is not running. */
    method Acquire(got: CreateReply) returns (r: Option<Cid>)
      requires Valid() && Unused(s, got)
      modifies this
      ensures Valid() && s.owner == old(s.owner) && s.refill == old(s.refill) && s.running == old(s.running)
      ensures r == if !old(s.running) then None
                   else if old(s.idle) != [] then Some(old(s.idle)[0])
                   else KnownId(got)
      ensures s.idle == if old(s.running) && old(s.idle) != [] then old(s.idle)[1..] else old(s.idle)
      ensures s.log.taken ==
              old(s.log.taken) + if old(s.running) && old(s.idle) != [] then [old(s.idle)[0]] else []
    {
      if !s.running {
        return None;
      }
      Do(AcquireTest);
      if s.idle != [] {
        r := Some(s.idle[0]);
        Do(AcquirePop);
      } else {
        r := KnownId(got);
        Do(AcquirePop);
        Do(AcquireFallback(got));
      }
    }

    /** One attempt; a failed one only uses up the id whose reply it lost. */
    method TryOnce(got: CreateReply)
      requires Valid() && s.refill.Trying? && s.refill.left > 0 && !s.shuttingDown && Unused(s, got)
      modifies this
      ensures Valid() && s == Attempt(old(s), got)
    {
      Do(LookAgain);
      Do(CreateOne(got));
      if got.Created? {
        Do(PushOne);
      }
    }

    /** Up to the configured number of attempts; the first that works is pushed. */
    method RefillOnce(outcomes: seq<CreateReply>) returns (ok: bool)
      requires Valid() && s.refill.Trying? && s.refill.left == cfg.attempts == |outcomes| && !s.shuttingDown
      requires AllDifferent(outcomes) && s.log.issued !! IdsOf(outcomes)
      modifies this
      ensures Valid() && Refilled(old(s), s, outcomes)
      ensures ok <==> FirstSuccess(outcomes).Some?
    {
      ghost var was := s;
      TrialBegins(s, outcomes);
      var i := 0;
      while i < |outcomes|
        invariant Valid() && Trial(was, s, outcomes, i)
      {
        ghost var before := s;
        TrialStep(was, s, outcomes, i);
        TryOnce(outcomes[i]);
        assert s == Attempt(before, outcomes[i]);
        if outcomes[i].Created? {
          return true;
        }
        i := i + 1;
      }
      TrialOver(was, s, outcomes);
      Do(LookAgain);
      return false;
    }

    /** One turn of the refill loop in which Docker works. */
    method TopUp(id: Cid)
      requires Valid() && s.refill.AtGap? && !s.shuttingDown && cfg.attempts >= 1
      requires |s.idle| < cfg.target && id !in s.log.issued
      modifies this
      ensures Valid() && s.refill.AtGap? && !s.shuttingDown
      ensures s.idle == old(s.idle) + [id] && s.log.issued <= old(s.log.issued) + {id}
    {
      Do(ReadGap);
      Do(CheckFlag);
      var outcomes := [Created(id)] + seq(cfg.attempts - 1, _ => NotCreated);
      assert forall k | 1 <= k < |outcomes| :: NewId(outcomes[k]).None?;
      var _ := RefillOnce(outcomes);
    }

    /** With Docker working, the refill loop tops the pool up to exactly its target and waits again. */
    method FillGap(first: Cid)
      requires Valid() && s.refill.AtGap? && !s.shuttingDown && cfg.attempts >= 1
      requires |s.idle| <= cfg.target && forall id | id in s.log.issued :: id < first
      modifies this
      ensures Valid() && s.refill.AtCv? && |s.idle| == cfg.target
      ensures s.idle == old(s.idle) + From(first, cfg.target - |old(s.idle)|)
    {
      ghost var was := s.idle;
      var n := 0;
      assert was + From(first, 0) == was;
      while |s.idle| < cfg.target
        invariant Valid() && s.refill.AtGap? && !s.shuttingDown && |s.idle| <= cfg.target
        invariant s.idle == was + From(first, n)
        invariant forall id | id in s.log.issued :: id < first + n
        decreases cfg.target - |s.idle|
      {
        TopUp(first + n);
        FromGrows(was, first, n);
        n := n + 1;
      }
      Do(ReadGap);
    }

    /** One step of the refill thread once shutdown has begun; a creation under way ends as `got` says. */
    method RunDownOne(got: CreateReply)
      requires Valid() && s.shuttingDown && !s.refill.Absent? && !s.refill.Ended?
      requires s.refill.Creating? ==> Unused(s, got)
      modifies this
      ensures Valid() && OnlyRefilled(old(s), s)
      ensures Remaining(s.refill) < Remaining(old(s.refill)) && !s.refill.Absent? && !s.refill.Creating?
      ensures s.idle + InHand(s.refill, got) == old(s.idle) + InHand(old(s.refill), got)
    {
      var step := RunDown(s.refill, got);
      RunDownMoves(s, got, step);
      RefillOnlyRefills(s, step);
      Do(step);
    }

    /** Waits for the refill thread: a container it is about to create or push still arrives. */
    method JoinRefill(got: CreateReply)
      requires Valid() && s.shuttingDown && (s.refill.Creating? ==> Unused(s, got))
      modifies this
      ensures Valid() && OnlyRefilled(old(s), s) && (s.refill.Absent? || s.refill.Ended?)
      ensures s.idle == old(s.idle) + InHand(old(s.refill), got)
    {
      ghost var all := s.idle + InHand(s.refill, got);
      while !s.refill.Absent? && !s.refill.Ended?
        invariant Valid() && OnlyRefilled(old(s), s) && (s.refill.Creating? ==> Unused(s, got))
        invariant s.idle + InHand(s.refill, got) == all
        decreases Remaining(s.refill)
      {
        RunDownOne(got);
      }
      assert s.idle + [] == s.idle;
    }

    /** Ends the refill thread and takes the idle list over. */
    method JoinAndDrain(got: CreateReply)
      requires Valid() && (s.owner.Fresh? || s.owner.Started? || s.owner.Refused?)
      requires s.refill.Creating? ==> Unused(s, got)
      modifies this
      ensures Valid() && s.owner == Removing(old(s.idle) + InHand(old(s.refill), got)) && s.idle == []
      ensures s.log.taken == old(s.log.taken) && s.log.removed == old(s.log.removed) && s.log.stuck == old(s.log.stuck)
    {
      Do(WarmPool.Shutdown);
      JoinRefill(got);
      Do(Joined);
      Do(Drain);
    }

    /** One attempt per container; `works` says which succeed. */
    method RemoveAll(works: Cid -> bool)
      requires Valid() && s.owner.Removing?
      modifies this
      ensures Valid() && s.owner == Removing([]) && s.idle == old(s.idle) && s.log.taken == old(s.log.taken)
      ensures s.log.removed == old(s.log.removed) + old(s.owner.rest)
      ensures forall c :: c in s.log.stuck <==> c in old(s.log.stuck) || (c in old(s.owner.rest) && !works(c))
    {
      ghost var todo, all := s.owner.rest, s.log.removed + s.owner.rest;
      ghost var n := 0;
      while s.owner.rest != []
        invariant Valid() && s.owner.Removing? && s.idle == old(s.idle) && s.log.taken == old(s.log.taken)
        invariant n <= |todo| && s.owner.rest == todo[n..] && s.log.removed + s.owner.rest == all
        invariant forall c :: c in s.log.stuck <==> c in old(s.log.stuck) || (c in todo[..n] && !works(c))
        decreases |s.owner.rest|
      {
        FrontMoves(s.log.removed, s.owner.rest);
        assert todo[..n + 1] == todo[..n] + [todo[n]];
        Do(RemoveOne(works(s.owner.rest[0])));
        n := n + 1;
      }
      assert s.log.removed + [] == s.log.removed && todo[..n] == todo;
    }

    /** Every idle container, and one whose creation was under way, gets one attempt to remove it, oldest first. */
    method Shutdown(got: CreateReply, works: Cid -> bool)
      requires Valid() && (s.owner.Fresh? || s.owner.Started? || s.owner.Refused?)
      requires s.refill.Creating? ==> Unused(s, got)
      modifies this
      ensures Valid() && s.owner.Stopped? && !s.running && s.idle == [] && s.log.taken == old(s.log.taken)
      ensures var left := old(s.idle) + InHand(old(s.refill), got);
              && s.log.removed == old(s.log.removed) + left
              && forall c :: c in s.log.stuck <==> c in old(s.log.stuck) || (c in left && !works(c))
    {
      JoinAndDrain(got);
      RemoveAll(works);
      Do(Finish);
    }
  }
}
