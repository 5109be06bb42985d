/**
 Sample runs: the synchronous twin of the judge pipeline.  A run needs a permit, refuses at once
 without one, and works on a container of its own.  Any number of runs interleave; a step is one
 semaphore operation, one Docker call or the preparation of the task file.
 */
module Samples {
  import opened Options
  import opened Bytes
  import opened Containers
  import ResultParser

  type RunId = nat

  /** `box` is the run's container once it has been removed. */
  datatype Phase =
    | Permitted
    | Staged
    | Boxed(cid: Cid)
    | Awaiting(cid: Cid)
    | Killing(cid: Cid)
    | Reading(cid: Cid)
    | Removing(cid: Cid)
    | Leaving(box: Option<Cid>)
    | Done(box: Option<Cid>)
    | Refused

  /** `gave` counts the permits each run has returned. */
  datatype State = State(cap: nat, hasClient: bool, permits: int, gave: multiset<RunId>, runs: map<RunId, Phase>,
                         docker: Docker)

  datatype WaitEnd = Exited(code: int) | TimedOut | WaitFailed

  /** How each outside call of a run turns out; `what` is the text of an exception. */
  datatype Plan = Plan(dirMade: bool, written: bool, made: CreateReply, started: bool, waited: WaitEnd,
                       logs: Option<ByteString>, removed: bool, what: string)

  /** A run's next step depends only on its phase and on how its call turns out. */
  datatype Step = Arrive(r: RunId) | Go(r: RunId, plan: Plan)

  /** The cap as configured, or 1 for a setting below 1. */
  function Permits(setting: int): (n: int)
    ensures n >= 1 && (setting >= 1 ==> n == setting)
  {
    if setting < 1 then 1 else setting
  }

  function Init(setting: int, hasClient: bool): State {
    State(Permits(setting), hasClient, Permits(setting), multiset{}, map[], Docker([], map[]))
  }

  predicate InProgress(ph: Phase) {
    !ph.Done? && !ph.Refused?
  }

  function NextPhase(hasClient: bool, ph: Phase, p: Plan): Phase
    requires InProgress(ph)
  {
    match ph
    case Permitted => if hasClient && p.dirMade && p.written then Staged else Leaving(None)
    case Staged => if p.made.Created? then Boxed(p.made.cid) else Leaving(None)
    case Boxed(c) => if p.started then Awaiting(c) else Removing(c)
    case Awaiting(c) => if p.waited.Exited? then Reading(c) else Killing(c)
    case Killing(c) => Removing(c)
    case Reading(c) => Removing(c)
    case Removing(c) => Leaving(Some(c))
    case Leaving(box) => Done(box)
  }

  function CallOf(ph: Phase, p: Plan): Option<Op> {
    match ph
    case Staged => CreateCall(p.made)
    case Boxed(c) => Some(Start(c))
    case Awaiting(c) => Some(Wait(c))
    case Killing(c) => Some(Kill(c))
    case Reading(c) => Some(Logs(c))
    case Removing(c) => Some(RemoveCall(c, p.removed))
    case _ => None
  }

  predicate Enabled(s: State, step: Step) {
    match step
    case Arrive(r) => r !in s.runs
    case Go(r, p) =>
      && r in s.runs && InProgress(s.runs[r])
      && (s.runs[r].Staged? ==> FreshReply(s.docker.boxes, p.made))
  }

  function Arrived(s: State, r: RunId): State {
    if s.permits <= 0 then s.(runs := s.runs[r := Refused])
    else s.(permits := s.permits - 1, runs := s.runs[r := Permitted])
  }

  function Moved(s: State, r: RunId, p: Plan): State
    requires r in s.runs && InProgress(s.runs[r])
  {
    var ph := s.runs[r];
    State(s.cap, s.hasClient,
          if ph.Leaving? then s.permits + 1 else s.permits,
          if ph.Leaving? then s.gave + multiset{r} else s.gave,
          s.runs[r := NextPhase(s.hasClient, ph, p)],
          NextDocker(s.docker, CallOf(ph, p)))
  }

  function Apply(s: State, step: Step): State
    requires Enabled(s, step)
  {
    match step
    case Arrive(r) => Arrived(s, r)
    case Go(r, p) => Moved(s, r, p)
  }

  function Next(s: Option<State>, step: Step): Option<State> {
    if s.Some? && Enabled(s.value, step) then Some(Apply(s.value, step)) else None
  }

  /** The state after a run of steps from `s`, or `None` when one of them was not enabled. */
  function Exec(s: State, run: seq<Step>): Option<State> {
    if run == [] then Some(s) else Next(Exec(s, run[..|run| - 1]), run[|run| - 1])
  }

  // ---- permits ---------------------------------------------------------------------------------

  function Active(runs: map<RunId, Phase>): set<RunId> {
    set r | r in runs && InProgress(runs[r])
  }

  ghost predicate PermitInv(s: State) {
    s.cap >= 1 && s.permits >= 0 && s.permits + |Active(s.runs)| == s.cap
  }

  ghost predicate GaveInv(gave: multiset<RunId>, runs: map<RunId, Phase>) {
    forall r: RunId :: gave[r] == if r in runs && runs[r].Done? then 1 else 0
  }

  /** One run's phase changes: the set of active runs changes by that run alone. */
  lemma ActiveAfter(runs: map<RunId, Phase>, r: RunId, ph: Phase)
    ensures Active(runs[r := ph]) == if InProgress(ph) then Active(runs) + {r} else Active(runs) - {r}
  {
  }

  lemma PermitStep(s: State, step: Step)
    requires PermitInv(s) && Enabled(s, step)
    ensures PermitInv(Apply(s, step))
  {
    match step
    case Arrive(r) => ActiveAfter(s.runs, r, if s.permits <= 0 then Refused else Permitted);
    case Go(r, p) =>
      assert r in Active(s.runs);
      var ph' := NextPhase(s.hasClient, s.runs[r], p);
      assert ph'.Done? <==> s.runs[r].Leaving?;
      ActiveAfter(s.runs, r, ph');
  }

  lemma GaveStep(s: State, step: Step)
    requires GaveInv(s.gave, s.runs) && Enabled(s, step)
    ensures GaveInv(Apply(s, step).gave, Apply(s, step).runs)
  {
  }

  // ---- containers ------------------------------------------------------------------------------

  /** The container a run holds. */
  function Held(ph: Phase): Option<Cid> {
    match ph
    case Boxed(c) => Some(c)
    case Awaiting(c) => Some(c)
    case Killing(c) => Some(c)
    case Reading(c) => Some(c)
    case Removing(c) => Some(c)
    case _ => None
  }

  /** Its removal was attempted. */
  predicate LetGo(boxes: Boxes, c: Cid) {
    c in boxes && (boxes[c] == Gone || boxes[c] == Left)
  }

  /** The container a run holds is in the life its phase expects; the one it let go of is gone. */
  ghost predicate PhaseOk(boxes: Boxes, ph: Phase) {
    match ph
    case Boxed(c) => c in boxes && boxes[c] == Made
    case Awaiting(c) => c in boxes && boxes[c] == Up
    case Killing(c) => c in boxes && boxes[c] == Up
    case Reading(c) => c in boxes && boxes[c] == Up
    case Removing(c) => Standing(boxes, c)
    case Leaving(box) => box.Some? ==> LetGo(boxes, box.value)
    case Done(box) => box.Some? ==> LetGo(boxes, box.value)
    case _ => true
  }

  ghost predicate PhasesOk(boxes: Boxes, runs: map<RunId, Phase>) {
    forall r | r in runs :: PhaseOk(boxes, runs[r])
  }

  ghost predicate HeldApart(runs: map<RunId, Phase>) {
    forall q, r | q in runs && r in runs && q != r && Held(runs[q]).Some? :: Held(runs[q]) != Held(runs[r])
  }

  ghost predicate HeldBySome(runs: map<RunId, Phase>, c: Cid) {
    exists r | r in runs :: Held(runs[r]) == Some(c)
  }

  /** Every container that stands is in some run's hands. */
  ghost predicate AllHeld(boxes: Boxes, runs: map<RunId, Phase>) {
    forall c: Cid | Standing(boxes, c) :: HeldBySome(runs, c)
  }

  ghost predicate BoxInv(d: Docker, runs: map<RunId, Phase>) {
    Replay(d.calls) == Some(d.boxes) && PhasesOk(d.boxes, runs) && HeldApart(runs) && AllHeld(d.boxes, runs)
  }

  /** A run lets go of a container only by removing it, and has one only by creating it. */
  lemma HeldKept(hasClient: bool, d: Docker, runs: map<RunId, Phase>, r: RunId, p: Plan)
    requires AllHeld(d.boxes, runs) && r in runs && InProgress(runs[r])
    ensures AllHeld(NextDocker(d, CallOf(runs[r], p)).boxes, runs[r := NextPhase(hasClient, runs[r], p)])
  {
    var ph, d' := runs[r], NextDocker(d, CallOf(runs[r], p));
    var runs' := runs[r := NextPhase(hasClient, ph, p)];
    forall c: Cid | Standing(d'.boxes, c)
      ensures HeldBySome(runs', c)
    {
      if Held(runs'[r]) != Some(c) {
        assert Standing(d.boxes, c) && Held(ph) != Some(c);
        var q :| q in runs && Held(runs[q]) == Some(c);
        assert Held(runs'[q]) == Some(c);
      } else {
        assert Held(runs'[r]) == Some(c);
      }
    }
  }

  lemma ArriveHeld(boxes: Boxes, runs: map<RunId, Phase>, r: RunId, ph: Phase)
    requires AllHeld(boxes, runs) && r !in runs
    ensures AllHeld(boxes, runs[r := ph])
  {
    forall c: Cid | Standing(boxes, c)
      ensures HeldBySome(runs[r := ph], c)
    {
      var q :| q in runs && Held(runs[q]) == Some(c);
      assert Held(runs[r := ph][q]) == Some(c);
    }
  }

  /** A run calls Docker only about the container it holds or has just been given. */
  lemma CallFits(hasClient: bool, d: Docker, ph: Phase, p: Plan)
    requires InProgress(ph) && PhaseOk(d.boxes, ph)
    requires ph.Staged? ==> FreshReply(d.boxes, p.made)
    ensures var call, ph', d' := CallOf(ph, p), NextPhase(hasClient, ph, p), NextDocker(d, CallOf(ph, p));
            && PhaseOk(d'.boxes, ph')
            && (call.Some? ==>
                  && Allowed(d.boxes, call.value)
                  && (Some(call.value.cid) == Held(ph) || call.value.cid !in d.boxes))
            && (Held(ph').Some? ==> Held(ph') == Held(ph) || Held(ph').value !in d.boxes)
  {
  }

  lemma PhasesKept(d: Docker, runs: map<RunId, Phase>, r: RunId, call: Option<Op>, ph': Phase)
    requires BoxInv(d, runs) && r in runs && PhaseOk(NextDocker(d, call).boxes, ph')
    requires call.Some? ==>
               && Allowed(d.boxes, call.value)
               && (Some(call.value.cid) == Held(runs[r]) || call.value.cid !in d.boxes)
    ensures PhasesOk(NextDocker(d, call).boxes, runs[r := ph'])
  {
    forall q | q in runs && q != r
      ensures PhaseOk(NextDocker(d, call).boxes, runs[q])
    {
    }
  }

  lemma ApartKept(boxes: Boxes, runs: map<RunId, Phase>, r: RunId, ph': Phase)
    requires PhasesOk(boxes, runs) && HeldApart(runs) && r in runs
    requires Held(ph').Some? ==> Held(ph') == Held(runs[r]) || Held(ph').value !in boxes
    ensures HeldApart(runs[r := ph'])
  {
    forall q | q in runs && q != r && Held(ph').Some?
      ensures Held(ph') != Held(runs[q])
    {
      assert PhaseOk(boxes, runs[q]);
    }
  }

  lemma GoBoxes(s: State, r: RunId, p: Plan)
    requires BoxInv(s.docker, s.runs) && Enabled(s, Go(r, p))
    ensures BoxInv(Moved(s, r, p).docker, Moved(s, r, p).runs)
  {
    var ph := s.runs[r];
    CallFits(s.hasClient, s.docker, ph, p);
    PhasesKept(s.docker, s.runs, r, CallOf(ph, p), NextPhase(s.hasClient, ph, p));
    ApartKept(s.docker.boxes, s.runs, r, NextPhase(s.hasClient, ph, p));
    HeldKept(s.hasClient, s.docker, s.runs, r, p);
    if CallOf(ph, p).Some? {
      ReplayExtends(s.docker.calls, CallOf(ph, p).value);
    }
  }

  lemma BoxStep(s: State, step: Step)
    requires BoxInv(s.docker, s.runs) && Enabled(s, step)
    ensures BoxInv(Apply(s, step).docker, Apply(s, step).runs)
  {
    match step
    case Arrive(r) => ArriveHeld(s.docker.boxes, s.runs, r, if s.permits <= 0 then Refused else Permitted);
    case Go(r, p) => GoBoxes(s, r, p);
  }

  // ---- promises over whole runs ----------------------------------------------------------------

  lemma {:induction false} RunKeepsInv(s: State, run: seq<Step>)
    requires PermitInv(s) && GaveInv(s.gave, s.runs) && BoxInv(s.docker, s.runs) && Exec(s, run).Some?
    ensures var s' := Exec(s, run).value;
            PermitInv(s') && GaveInv(s'.gave, s'.runs) && BoxInv(s'.docker, s'.runs) && s'.cap == s.cap
  {
    if run != [] {
      RunKeepsInv(s, run[..|run| - 1]);
      PermitStep(Exec(s, run[..|run| - 1]).value, run[|run| - 1]);
      GaveStep(Exec(s, run[..|run| - 1]).value, run[|run| - 1]);
      BoxStep(Exec(s, run[..|run| - 1]).value, run[|run| - 1]);
    }
  }

  /** Free permits and runs in progress add up to the cap, and each finished run gave back exactly one permit. */
  lemma PermitsConserved(setting: int, hasClient: bool, run: seq<Step>)
    requires Exec(Init(setting, hasClient), run).Some?
    ensures var s := Exec(Init(setting, hasClient), run).value;
            && 0 <= s.permits <= Permits(setting)
            && s.permits + |Active(s.runs)| == Permits(setting)
            && (forall r: RunId :: s.gave[r] == if r in s.runs && s.runs[r].Done? then 1 else 0)
  {
    assert Active(map[]) == {};
    RunKeepsInv(Init(setting, hasClient), run);
  }

  /** An arriving run is refused as saturated exactly when the cap's number of runs is in progress. */
  lemma SaturatedIff(setting: int, hasClient: bool, run: seq<Step>, r: RunId)
    requires Exec(Init(setting, hasClient), run + [Arrive(r)]).Some?
    ensures Exec(Init(setting, hasClient), run).Some?
    ensures var s, s' := Exec(Init(setting, hasClient), run).value,
              Exec(Init(setting, hasClient), run + [Arrive(r)]).value;
            && r in s'.runs
            && (s'.runs[r].Refused? <==> |Active(s.runs)| == Permits(setting))
            && (s'.runs[r].Refused? ==> s'.permits == s.permits && s'.docker == s.docker)
  {
    assert (run + [Arrive(r)])[..|run|] == run;
    PermitsConserved(setting, hasClient, run);
  }

  /** One container's account, read off the calls and the runs. */
  ghost predicate Accounted(calls: seq<Op>, boxes: Boxes, runs: map<RunId, Phase>, c: Cid) {
    && (c in boxes <==> Create(c) in calls || Handed(c) in calls || Orphan(c) in calls)
    && (c in boxes ==>
          && Removals(calls, c) == (if Orphan(c) in calls || HeldBySome(runs, c) then 0 else 1)
          && (Remove(c) !in calls <==> Orphan(c) in calls || HeldBySome(runs, c) || RemoveFailed(c) in calls))
  }

  lemma HeldStands(boxes: Boxes, runs: map<RunId, Phase>, c: Cid)
    requires PhasesOk(boxes, runs) && AllHeld(boxes, runs)
    ensures HeldBySome(runs, c) <==> Standing(boxes, c)
  {
    if HeldBySome(runs, c) {
      var r :| r in runs && Held(runs[r]) == Some(c);
      assert PhaseOk(boxes, runs[r]);
    }
  }

  lemma AccountHolds(d: Docker, runs: map<RunId, Phase>, c: Cid)
    requires BoxInv(d, runs)
    ensures Accounted(d.calls, d.boxes, runs, c)
  {
    AcceptedMeansOneRemoval(d.calls, c);
    AcceptedMeansBrought(d.calls, c);
    HeldStands(d.boxes, runs, c);
  }

  lemma FinishedLetGo(d: Docker, runs: map<RunId, Phase>, r: RunId, c: Cid)
    requires BoxInv(d, runs) && r in runs && runs[r] == Done(Some(c))
    ensures Removals(d.calls, c) == 1
  {
    AcceptedMeansOneRemoval(d.calls, c);
    assert PhaseOk(d.boxes, runs[r]);
  }

  /**
   Whatever fails, in every interleaving: a container is in the hands of a run in progress or has had exactly one
   attempt to remove it, or none if the reply to its create was lost; and Docker still has it exactly when a run holds
   it, that reply was lost or that one attempt failed.  A finished run's container has had its attempt.
   */
  lemma BoxesRemovedOnce(setting: int, hasClient: bool, run: seq<Step>, c: Cid)
    requires Exec(Init(setting, hasClient), run).Some?
    ensures var s := Exec(Init(setting, hasClient), run).value;
            && Replay(s.docker.calls).Some? && Accounted(s.docker.calls, s.docker.boxes, s.runs, c)
            && forall r | r in s.runs && s.runs[r] == Done(Some(c)) :: Removals(s.docker.calls, c) == 1
  {
    assert Active(map[]) == {};
    RunKeepsInv(Init(setting, hasClient), run);
    var s := Exec(Init(setting, hasClient), run).value;
    AccountHolds(s.docker, s.runs, c);
    forall r | r in s.runs && s.runs[r] == Done(Some(c))
      ensures Removals(s.docker.calls, c) == 1
    {
      FinishedLetGo(s.docker, s.runs, r, c);
    }
  }

  // ---- one run from permit to return ------------------------------------------------------------

  function WaitCalls(c: Cid, p: Plan): seq<Op> {
    [Wait(c)] + [if p.waited.Exited? then Logs(c) else Kill(c)] + [RemoveCall(c, p.removed)]
  }

  function StartCalls(c: Cid, p: Plan): seq<Op> {
    [Start(c)] + if p.started then WaitCalls(c, p) else [RemoveCall(c, p.removed)]
  }

  function BoxCalls(p: Plan): seq<Op> {
    match p.made
    case Created(c) => [Create(c)] + StartCalls(c, p)
    case NotCreated => []
    case ReplyLost(c) => [Orphan(c)]
  }

  /** Every Docker call of a run that has its permit. */
  function RunCalls(hasClient: bool, p: Plan): seq<Op> {
    if hasClient && p.dirMade && p.written then BoxCalls(p) else []
  }

  function CallsAhead(hasClient: bool, ph: Phase, p: Plan): seq<Op> {
    match ph
    case Permitted => RunCalls(hasClient, p)
    case Staged => BoxCalls(p)
    case Boxed(c) => StartCalls(c, p)
    case Awaiting(c) => WaitCalls(c, p)
    case Killing(c) => [Kill(c), RemoveCall(c, p.removed)]
    case Reading(c) => [Logs(c), RemoveCall(c, p.removed)]
    case Removing(c) => [RemoveCall(c, p.removed)]
    case _ => []
  }

  function Distance(ph: Phase): nat {
    match ph
    case Permitted => 7
    case Staged => 6
    case Boxed(_) => 5
    case Awaiting(_) => 4
    case Killing(_) => 3
    case Reading(_) => 3
    case Removing(_) => 2
    case Leaving(_) => 1
    case _ => 0
  }

  lemma CallsAheadStep(hasClient: bool, ph: Phase, p: Plan)
    requires InProgress(ph)
    ensures var call := CallOf(ph, p);
            CallsAhead(hasClient, ph, p) ==
            (if call.Some? then [call.value] else []) + CallsAhead(hasClient, NextPhase(hasClient, ph, p), p)
    ensures Distance(NextPhase(hasClient, ph, p)) < Distance(ph)
  {
  }

  /** The container id a run will be given is still unused. */
  predicate Unused(boxes: Boxes, ph: Phase, p: Plan) {
    Distance(ph) >= 6 ==> FreshReply(boxes, p.made)
  }

  lemma StaysUnused(hasClient: bool, d: Docker, ph: Phase, p: Plan)
    requires InProgress(ph) && Unused(d.boxes, ph, p)
    ensures var d' := NextDocker(d, CallOf(ph, p));
            && d'.calls == d.calls + (if CallOf(ph, p).Some? then [CallOf(ph, p).value] else [])
            && Unused(d'.boxes, NextPhase(hasClient, ph, p), p)
  {
  }

  lemma OneStep(s0: State, before: seq<Step>, s: State, r: RunId, p: Plan) returns (run: seq<Step>, m: State)
    requires Exec(s0, before) == Some(s) && r in s.runs && InProgress(s.runs[r]) && Unused(s.docker.boxes, s.runs[r], p)
    ensures Exec(s0, run) == Some(m) && before <= run
    ensures m.hasClient == s.hasClient && m.runs == s.runs[r := NextPhase(s.hasClient, s.runs[r], p)]
    ensures m.permits == if s.runs[r].Leaving? then s.permits + 1 else s.permits
    ensures m.docker.calls == s.docker.calls + (if CallOf(s.runs[r], p).Some? then [CallOf(s.runs[r], p).value] else [])
    ensures Unused(m.docker.boxes, m.runs[r], p)
  {
    StaysUnused(s.hasClient, s.docker, s.runs[r], p);
    run, m := before + [Go(r, p)], Moved(s, r, p);
    assert run[..|before|] == before;
  }

  lemma Regroup<T>(a: seq<T>, b: seq<T>, c: seq<T>)
    ensures a + b + c == a + (b + c)
  {
  }

  /**
   A permitted run, undisturbed, is a path of the transition system that makes exactly those
   calls and ends with its permit back.
   */
  lemma {:induction false} RunIsAPath(s0: State, before: seq<Step>, s: State, r: RunId, p: Plan)
    returns (run: seq<Step>, end: State)
    requires Exec(s0, before) == Some(s) && r in s.runs && InProgress(s.runs[r]) && Unused(s.docker.boxes, s.runs[r], p)
    ensures Exec(s0, run) == Some(end) && before <= run
    ensures end.docker.calls == s.docker.calls + CallsAhead(s.hasClient, s.runs[r], p)
    ensures end.permits == s.permits + 1
    ensures r in end.runs && end.runs[r].Done? && end.runs == s.runs[r := end.runs[r]]
    decreases Distance(s.runs[r])
  {
    var ph, call := s.runs[r], CallOf(s.runs[r], p);
    run, end := OneStep(s0, before, s, r, p);
    CallsAheadStep(s.hasClient, ph, p);
    if !ph.Leaving? {
      var m := end;
      run, end := RunIsAPath(s0, run, m, r, p);
      Regroup(s.docker.calls, if call.Some? then [call.value] else [], CallsAhead(s.hasClient, m.runs[r], p));
    }
  }

  class CountingSemaphore {
    var permits: int

    constructor (initial: int)
      ensures permits == initial
    {
      permits := initial;
    }

    method TryAcquire() returns (ok: bool)
      modifies this
      ensures ok <==> old(permits) > 0
      ensures permits == if ok then old(permits) - 1 else old(permits)
    {
      if permits <= 0 {
        return false;
      }
      permits := permits - 1;
      return true;
    }

    method Release()
      modifies this
      ensures permits == old(permits) + 1
    {
      permits := permits + 1;
    }
  }

  datatype Result = Result(verdict: ResultParser.JudgeResult, error: string, saturated: bool)

  /** Only the making of the task directory can throw out of a run. */
  datatype Ending = Returned(result: Result) | Thrown

  function Failure(message: string): Result {
    Result(ResultParser.JudgeResult("se", 0, 0, message, -1, false, []), message, false)
  }

  /** The run got as far as a container that exited. */
  predicate Judged(hasClient: bool, p: Plan) {
    hasClient && p.dirMade && p.written && p.made.Created? && p.started && p.waited.Exited?
  }

  /** The calls before the removal. */
  function StartedCalls(c: Cid, p: Plan): seq<Op> {
    [Create(c), Start(c)] + if p.started then [Wait(c), if p.waited.Exited? then Logs(c) else Kill(c)] else []
  }

  /**
   Which Docker calls a permitted run makes on the container it was given: the logs are read exactly when it exited in
   time, it is killed exactly when waiting failed, and there is one attempt to remove it.
   */
  lemma RunCallsMean(hasClient: bool, p: Plan, c: Cid)
    requires p.made == Created(c)
    ensures var ops, boxed := RunCalls(hasClient, p), hasClient && p.dirMade && p.written;
            && (Create(c) in ops <==> boxed) && (Start(c) in ops <==> boxed) && (Wait(c) in ops <==> boxed && p.started)
            && (Logs(c) in ops <==> boxed && p.started && p.waited.Exited?)
            && (Kill(c) in ops <==> boxed && p.started && !p.waited.Exited?)
            && Removals(ops, c) == (if boxed then 1 else 0) && (Remove(c) in ops <==> boxed && p.removed)
  {
    if hasClient && p.dirMade && p.written {
      assert RunCalls(hasClient, p) == StartedCalls(c, p) + [RemoveCall(c, p.removed)];
      BoxNamed(p, c);
      StartedNamed(p, c);
      LastRemoval(StartedCalls(c, p), RemoveCall(c, p.removed), c);
    } else {
      assert RunCalls(hasClient, p) == [] && Removals([], c) == 0;
    }
  }

  lemma BoxNamed(p: Plan, c: Cid)
    ensures var ops := StartedCalls(c, p) + [RemoveCall(c, p.removed)];
            && Create(c) in ops && Start(c) in ops && (Wait(c) in ops <==> p.started)
            && (Logs(c) in ops <==> p.started && p.waited.Exited?)
            && (Kill(c) in ops <==> p.started && !p.waited.Exited?)
            && (Remove(c) in ops <==> p.removed)
  {
    StartedNamed(p, c);
    var front, last := StartedCalls(c, p), RemoveCall(c, p.removed);
    assert forall op :: op in front + [last] <==> op in front || op == last;
  }

  lemma StartedNamed(p: Plan, c: Cid)
    ensures forall op :: op in StartedCalls(c, p) <==>
              op == Create(c) || op == Start(c) ||
              (p.started && (op == Wait(c) || op == if p.waited.Exited? then Logs(c) else Kill(c)))
  {
  }

  /** What a run that has its permit answers. */
  ghost predicate Answers(lib: ResultParser.Library, hasClient: bool, p: Plan, e: Ending) {
    if hasClient && !p.dirMade then e.Thrown?
    else
      && e.Returned? && !e.result.saturated
      && var v := e.result.verdict;
         if Judged(hasClient, p) then
           && ResultParser.IsResult(lib, if p.logs.Some? then p.logs.value else [], p.waited.code, v)
           && e.result.error == if v.status == "se" && v.parsed then v.errorMessage else ""
         else
           && v.status == "se" && !v.parsed && v.timeUsedMs == 0 && v.memoryUsedKb == 0
           && v.failedCaseIndex == -1 && v.caseResults == []
           && e.result.error == v.errorMessage && e.result.error != ""
  }

  class SampleRunner {
    const hasClient: bool
    const lib: ResultParser.Library
    const hardTimeout: string
    const sem: CountingSemaphore
    var calls: seq<Op>

    constructor (hasClient: bool, lib: ResultParser.Library, hardTimeout: string, setting: int)
      ensures this.hasClient == hasClient && this.lib == lib && fresh(sem) && sem.permits == Permits(setting) &&
                calls == []
    {
      this.hasClient, this.lib, this.hardTimeout := hasClient, lib, hardTimeout;
      sem := new CountingSemaphore(if setting < 1 then 1 else setting);
      calls := [];
    }

    /** From the started container on: wait, read, remove and parse. */
    method Await(cid: Cid, p: Plan) returns (result: Result)
      modifies `calls
      ensures calls == old(calls) + WaitCalls(cid, p)
      ensures p.waited.Exited? ==>
                && ResultParser.IsResult(lib, if p.logs.Some? then p.logs.value else [], p.waited.code, result.verdict)
                && result.error ==
                   (if result.verdict.status == "se" && result.verdict.parsed then result.verdict.errorMessage else "")
                && !result.saturated
      ensures !p.waited.Exited? ==> result.error != "" && result == Failure(result.error)
    {
      calls := calls + [Wait(cid)];
      if !p.waited.Exited? {
        calls := calls + [Kill(cid)];
        calls := calls + [RemoveCall(cid, p.removed)];
        return Failure(if p.waited.TimedOut? then "judge exceeded hard timeout (" + hardTimeout + "s)"
                       else "docker wait failed: " + p.what);
      }
      calls := calls + [Logs(cid)];
      var logs := if p.logs.Some? then p.logs.value else [];
      calls := calls + [RemoveCall(cid, p.removed)];
      var verdict := ResultParser.ParseJudgeResult(lib, logs, p.waited.code);
      var error := "";
      if verdict.status == "se" && verdict.parsed {
        error := verdict.errorMessage;
      }
      result := Result(verdict, error, false);
    }

    method RunPermitted(p: Plan) returns (e: Ending)
      modifies `calls
      ensures calls == old(calls) + RunCalls(hasClient, p)
      ensures Answers(lib, hasClient, p, e)
    {
      if !hasClient {
        return Returned(Failure("docker client not configured"));
      }
      if !p.dirMade {
        return Thrown;
      }
      if !p.written {
        return Returned(Failure("write_task_json failed: " + p.what));
      }
      if !p.made.Created? {
        if p.made.ReplyLost? {
          calls := calls + [Orphan(p.made.cid)];
        }
        return Returned(Failure("docker create failed: " + p.what));
      }
      var cid := p.made.cid;
      calls := calls + [Create(cid)];
      calls := calls + [Start(cid)];
      if !p.started {
        calls := calls + [RemoveCall(cid, p.removed)];
        return Returned(Failure("docker start failed: " + p.what));
      }
      var result := Await(cid, p);
      return Returned(result);
    }

    /**
     One sample run: refused at once without a permit, otherwise the permit comes back however
     the run ends, an exception included.
     */
    method Run(p: Plan) returns (e: Ending)
      modifies `calls, sem
      ensures sem.permits == old(sem.permits)
      ensures calls == old(calls) + if old(sem.permits) > 0 then RunCalls(hasClient, p) else []
      ensures if old(sem.permits) > 0 then Answers(lib, hasClient, p, e)
              else e.Returned? && e.result.saturated && e.result.verdict.status == "se"
    {
      var permitted := sem.TryAcquire();
      if !permitted {
        return Returned(Failure("sample runner saturated").(error := "", saturated := true));
      }
      e := RunPermitted(p);
      sem.Release();
    }
  }
}
