/**
 Revision numbering: `record` inserts a problem's next revision number, computed as MAX + 1.
 Concurrent writers are modelled with the read of MAX and the insert as separate steps, the
 weakest reading of the statement, under the unique key (problem_id, revision_no).
 */
module Revisions {
  import opened Options

  type Problem = int

  type WriterId = nat

  /** One problem's revisions: which call of `record` inserted each number. */
  type Revs = map<nat, WriterId>

  /**
   One call of `record`.  `attempt` counts from 0, `seen` is how many revisions the problem had at
   the call, and `computed` tells a computed number from one the caller forced.
   */
  datatype Writer =
    | Reading(problem: Problem, attempt: nat, seen: nat)
    | Inserting(problem: Problem, attempt: nat, seen: nat, no: nat, computed: bool)
    | Recorded(problem: Problem, no: nat)
    | Conflicted(problem: Problem, seen: nat, computed: bool)

  datatype State = State(table: map<Problem, Revs>, writers: map<WriterId, Writer>)

  const EMPTY := State(map[], map[])

  /** `forced` is 0 when the repository is to allocate the number; `max` is what the read of MAX returned. */
  datatype Step =
    | Call(w: WriterId, problem: Problem, forced: nat)
    | ReadMax(w: WriterId, max: nat)
    | Insert(w: WriterId)

  function RevsOf(table: map<Problem, Revs>, p: Problem): Revs {
    if p in table then table[p] else map[]
  }

  /** `m` is COALESCE(MAX(revision_no), 0). */
  predicate IsMax(revs: Revs, m: nat) {
    (forall n | n in revs :: n <= m) && if revs == map[] then m == 0 else m in revs
  }

  predicate Enabled(s: State, step: Step) {
    match step
    case Call(w, _, _) => w !in s.writers
    case ReadMax(w, max) => w in s.writers && s.writers[w].Reading? && IsMax(RevsOf(s.table, s.writers[w].problem), max)
    case Insert(w) => w in s.writers && s.writers[w].Inserting?
  }

  function Called(revs: Revs, p: Problem, forced: nat): Writer {
    if forced > 0 then Inserting(p, 0, |revs|, forced, false) else Reading(p, 0, |revs|)
  }

  /** A duplicate key: one retry, then the conflict error. */
  function Duplicate(x: Writer): Writer
    requires x.Inserting?
  {
    if x.attempt > 0 then Conflicted(x.problem, x.seen, x.computed)
    else if x.computed then Reading(x.problem, 1, x.seen)
    else x.(attempt := 1)
  }

  function Stored(s: State, w: WriterId, p: Problem, no: nat): State {
    State(s.table[p := RevsOf(s.table, p)[no := w]], s.writers[w := Recorded(p, no)])
  }

  function Apply(s: State, step: Step): State
    requires Enabled(s, step)
  {
    match step
    case Call(w, p, forced) => s.(writers := s.writers[w := Called(RevsOf(s.table, p), p, forced)])
    case ReadMax(w, max) =>
      var x := s.writers[w];
      s.(writers := s.writers[w := Inserting(x.problem, x.attempt, x.seen, max + 1, true)])
    case Insert(w) =>
      var x := s.writers[w];
      if x.no in RevsOf(s.table, x.problem) then s.(writers := s.writers[w := Duplicate(x)])
        else Stored(s, w, x.problem, x.no)
  }

  ghost function Next(s: Option<State>, step: Step): Option<State> {
    if s.Some? && Enabled(s.value, step) then Some(Apply(s.value, step)) else None
  }

  /** The state after a run from an empty table, or `None` when some step of it was not enabled. */
  ghost function Exec(run: seq<Step>): Option<State> {
    if run == [] then Some(EMPTY) else Next(Exec(run[..|run| - 1]), run[|run| - 1])
  }

  // ---- invariants ------------------------------------------------------------------------

  /** The numbers are exactly 1 to N. */
  ghost predicate GapFree(revs: Revs) {
    forall n: nat :: n in revs <==> 1 <= n <= |revs|
  }

  /** An allocating writer's number is at most the next one. */
  ghost predicate WriterOk(revs: Revs, x: Writer) {
    x.Inserting? && x.computed ==> 1 <= x.no <= |revs| + 1
  }

  ghost predicate TableInv(s: State) {
    forall p :: GapFree(RevsOf(s.table, p))
  }

  ghost predicate WritersInv(s: State) {
    forall w | w in s.writers :: WriterOk(RevsOf(s.table, s.writers[w].problem), s.writers[w])
  }

  ghost predicate Recorder(s: State, p: Problem, no: nat, w: WriterId) {
    w in s.writers && s.writers[w] == Recorded(p, no)
  }

  ghost predicate Owns(s: State, p: Problem, no: nat, w: WriterId) {
    no in RevsOf(s.table, p) && RevsOf(s.table, p)[no] == w
  }

  // ---- ownership, in every run ---------------------------------------------------------------

  /** A number in the table and a successful call belong together. */
  ghost predicate OwnedInv(s: State) {
    forall p, no: nat, w :: Owns(s, p, no, w) <==> Recorder(s, p, no, w)
  }

  lemma {:induction false} OwnedStep(s: State, step: Step)
    requires OwnedInv(s) && Enabled(s, step)
    ensures OwnedInv(Apply(s, step))
  {
    var s' := Apply(s, step);
    forall p, no: nat, w
      ensures Owns(s', p, no, w) <==> Recorder(s', p, no, w)
    {
      assert Owns(s, p, no, w) <==> Recorder(s, p, no, w);
      assert Owns(s, p, no, step.w) <==> Recorder(s, p, no, step.w);
    }
  }

  /**
   In every run, forced numbers included, the numbers of a problem and the successful calls for it correspond one to
   one.
   */
  lemma {:induction false} NumbersAreOwned(run: seq<Step>)
    requires Exec(run).Some?
    ensures OwnedInv(Exec(run).value)
  {
    if run != [] {
      NumbersAreOwned(run[..|run| - 1]);
      OwnedStep(Exec(run[..|run| - 1]).value, run[|run| - 1]);
    }
  }

  // ---- numbering -----------------------------------------------------------------------------

  ghost predicate Inv(s: State) {
    TableInv(s) && WritersInv(s)
  }

  /** The step does not store a forced number other than the next one. */
  ghost predicate InStep(s: State, step: Step)
    requires Enabled(s, step)
  {
    step.Insert? ==>
      var x := s.writers[step.w];
      var revs := RevsOf(s.table, x.problem);
      x.computed || x.no in revs || x.no == |revs| + 1
  }

  lemma MaxOfGapFree(revs: Revs, m: nat)
    requires GapFree(revs) && IsMax(revs, m)
    ensures m == |revs|
  {
    if revs != map[] {
      assert |revs| in revs;
    }
  }

  lemma OneMoreRevision(revs: Revs, no: nat, w: WriterId)
    requires no !in revs
    ensures |revs[no := w]| == |revs| + 1
  {
    assert revs[no := w].Keys == revs.Keys + {no};
    assert |revs[no := w].Keys| == |revs| + 1;
  }

  lemma NextKeepsGapFree(revs: Revs, w: WriterId)
    requires GapFree(revs)
    ensures GapFree(revs[|revs| + 1 := w])
  {
    var n := |revs| + 1;
    OneMoreRevision(revs, n, w);
  }

  /** A number keeps the numbering gap-free exactly when it is the next one. */
  lemma NextKeepsGapFreeIff(revs: Revs, no: nat, w: WriterId)
    requires GapFree(revs) && no !in revs
    ensures |revs[no := w]| == |revs| + 1
    ensures GapFree(revs[no := w]) <==> no == |revs| + 1
  {
    OneMoreRevision(revs, no, w);
    if no == |revs| + 1 {
      NextKeepsGapFree(revs, w);
    } else {
      assert |revs| + 1 !in revs && |revs| + 1 !in revs[no := w];
    }
  }

  lemma InsertedTable(s: State, w: WriterId, s': State)
    requires TableInv(s) && Enabled(s, Insert(w)) && s' == Apply(s, Insert(w))
    requires s.writers[w].no !in RevsOf(s.table, s.writers[w].problem)
    ensures TableInv(s') <==> s.writers[w].no == |RevsOf(s.table, s.writers[w].problem)| + 1
  {
    var x := s.writers[w];
    assert GapFree(RevsOf(s.table, x.problem));
    NextKeepsGapFreeIff(RevsOf(s.table, x.problem), x.no, w);
    forall p | p != x.problem
      ensures GapFree(RevsOf(s'.table, p))
    {
      assert GapFree(RevsOf(s.table, p));
    }
    assert RevsOf(s'.table, x.problem) == RevsOf(s.table, x.problem)[x.no := w];
  }

  lemma WriterOkStays(revs: Revs, no: nat, w: WriterId, x: Writer)
    requires WriterOk(revs, x) && no !in revs
    ensures WriterOk(revs[no := w], x)
  {
    assert revs[no := w].Keys == revs.Keys + {no};
    assert |revs[no := w].Keys| == |revs| + 1;
  }

  lemma InsertedWriters(s: State, w: WriterId, s': State)
    requires WritersInv(s) && Enabled(s, Insert(w)) && s' == Apply(s, Insert(w))
    requires s.writers[w].no !in RevsOf(s.table, s.writers[w].problem)
    ensures WritersInv(s')
  {
    var x := s.writers[w];
    forall v | v in s'.writers
      ensures WriterOk(RevsOf(s'.table, s'.writers[v].problem), s'.writers[v])
    {
      if v != w && s.writers[v].problem == x.problem {
        WriterOkStays(RevsOf(s.table, x.problem), x.no, w, s.writers[v]);
      }
    }
  }

  lemma StoringKeepsIff(s: State, w: WriterId, s': State)
    requires Inv(s) && Enabled(s, Insert(w)) && s' == Apply(s, Insert(w))
    requires s.writers[w].no !in RevsOf(s.table, s.writers[w].problem)
    ensures WritersInv(s') && (TableInv(s') <==> InStep(s, Insert(w)))
  {
    var x := s.writers[w];
    assert GapFree(RevsOf(s.table, x.problem)) && WriterOk(RevsOf(s.table, x.problem), x);
    InsertedTable(s, w, s');
    InsertedWriters(s, w, s');
  }

  /** A step keeps the numbering gap-free exactly when it is in step. */
  lemma StepKeepsIff(s: State, step: Step)
    requires Inv(s) && Enabled(s, step)
    ensures Inv(Apply(s, step)) <==> InStep(s, step)
    ensures TableInv(Apply(s, step)) <==> InStep(s, step)
  {
    match step {
      case Call(w, p, forced) =>
      case ReadMax(w, max) =>
        var x := s.writers[w];
        MaxOfGapFree(RevsOf(s.table, x.problem), max);
      case Insert(w) =>
        if s.writers[w].no !in RevsOf(s.table, s.writers[w].problem) {
          StoringKeepsIff(s, w, Apply(s, step));
        }
    }
  }

  /** Every number a caller forces is the next one at the moment it is stored. */
  ghost predicate ForcedInStep(run: seq<Step>)
    requires Exec(run).Some?
  {
    run != [] ==>
      var before := run[..|run| - 1];
      ForcedInStep(before) && InStep(Exec(before).value, run[|run| - 1])
  }

  /** Gap-free at every moment of the run. */
  ghost predicate GapFreeThroughout(run: seq<Step>)
    requires Exec(run).Some?
  {
    TableInv(Exec(run).value) && (run != [] ==> GapFreeThroughout(run[..|run| - 1]))
  }

  /**
   In every interleaving of allocating and forcing writers: each problem's numbers are exactly 1..N
   at every moment exactly when every forced number that is stored is the next one by then.
   */
  lemma {:induction false} GapFreeThroughoutIff(run: seq<Step>)
    requires Exec(run).Some?
    ensures GapFreeThroughout(run) <==> ForcedInStep(run)
    ensures ForcedInStep(run) ==> Inv(Exec(run).value)
  {
    if run != [] {
      var before := run[..|run| - 1];
      GapFreeThroughoutIff(before);
      if ForcedInStep(before) {
        StepKeepsIff(Exec(before).value, run[|run| - 1]);
      }
    }
  }

  ghost predicate AllAllocated(run: seq<Step>) {
    forall k | 0 <= k < |run| && run[k].Call? :: run[k].forced == 0
  }

  lemma {:induction false} AllocatedInStep(run: seq<Step>)
    requires Exec(run).Some? && AllAllocated(run)
    ensures ForcedInStep(run)
    ensures var s := Exec(run).value;
            forall w | w in s.writers && (s.writers[w].Inserting? || s.writers[w].Conflicted?) :: s.writers[w].computed
  {
    if run != [] {
      AllocatedInStep(run[..|run| - 1]);
    }
  }

  /** In every interleaving of allocating writers each problem's numbers are exactly 1..N. */
  lemma NumbersAreGapFree(run: seq<Step>, p: Problem)
    requires Exec(run).Some? && AllAllocated(run)
    ensures var revs := RevsOf(Exec(run).value.table, p); forall n: nat :: n in revs <==> 1 <= n <= |revs|
  {
    AllocatedInStep(run);
    GapFreeThroughoutIff(run);
    assert GapFree(RevsOf(Exec(run).value.table, p));
  }

  // ---- giving up, in every run -----------------------------------------------------------------

  /** Every failed attempt of an allocating writer is accounted for by a revision somebody recorded since its call. */
  ghost predicate Accounted(revs: Revs, x: Writer) {
    match x
    case Reading(_, attempt, seen) => attempt <= 1 && seen + attempt <= |revs|
    case Inserting(_, attempt, seen, no, computed) =>
      attempt <= 1 && (computed ==> seen + attempt + (if no in revs then 1 else 0) <= |revs|)
    case Recorded(_, _) => true
    case Conflicted(_, seen, computed) => computed ==> seen + 2 <= |revs|
  }

  ghost predicate AllAccounted(s: State) {
    forall w | w in s.writers :: Accounted(RevsOf(s.table, s.writers[w].problem), s.writers[w])
  }

  lemma AccountedStays(revs: Revs, no: nat, w: WriterId, x: Writer)
    requires Accounted(revs, x) && no !in revs
    ensures Accounted(revs[no := w], x)
  {
    assert revs[no := w].Keys == revs.Keys + {no};
    assert |revs[no := w].Keys| == |revs| + 1;
  }

  lemma AccountedInsert(s: State, w: WriterId, s': State)
    requires AllAccounted(s) && Enabled(s, Insert(w)) && s' == Apply(s, Insert(w))
    requires s.writers[w].no !in RevsOf(s.table, s.writers[w].problem)
    ensures AllAccounted(s')
  {
    var x := s.writers[w];
    forall v | v in s'.writers
      ensures Accounted(RevsOf(s'.table, s'.writers[v].problem), s'.writers[v])
    {
      if v != w && s.writers[v].problem == x.problem {
        AccountedStays(RevsOf(s.table, x.problem), x.no, w, s.writers[v]);
      }
    }
  }

  lemma AccountedStep(s: State, step: Step)
    requires AllAccounted(s) && Enabled(s, step)
    ensures AllAccounted(Apply(s, step))
  {
    match step {
      case Call(w, p, forced) =>
      case ReadMax(w, max) => assert Accounted(RevsOf(s.table, s.writers[w].problem), s.writers[w]);
      case Insert(w) =>
        if s.writers[w].no !in RevsOf(s.table, s.writers[w].problem) {
          AccountedInsert(s, w, Apply(s, step));
        } else {
          assert Accounted(RevsOf(s.table, s.writers[w].problem), s.writers[w]);
        }
    }
  }

  lemma {:induction false} RunAccounted(run: seq<Step>)
    requires Exec(run).Some?
    ensures AllAccounted(Exec(run).value)
  {
    if run != [] {
      RunAccounted(run[..|run| - 1]);
      AccountedStep(Exec(run[..|run| - 1]).value, run[|run| - 1]);
    }
  }

  /**
   In every run, forced numbers included, one retry is enough unless two others were faster: an allocating call that
   gives up means two more revisions of that problem since the call.
   */
  lemma ConflictNeedsTwoOthers(run: seq<Step>, w: WriterId)
    requires Exec(run).Some?
    requires var s := Exec(run).value; w in s.writers && s.writers[w].Conflicted? && s.writers[w].computed
    ensures var s := Exec(run).value; s.writers[w].seen + 2 <= |RevsOf(s.table, s.writers[w].problem)|
  {
    RunAccounted(run);
  }

  /** A caller forces number 5 into an empty table. */
  lemma ForcedNumberLeavesGap() returns (run: seq<Step>)
    ensures run == [Call(0, 1, 5), Insert(0)] && Exec(run).Some? && !ForcedInStep(run)
    ensures RevsOf(Exec(run).value.table, 1) == map[5 := 0]
  {
    var first := [Call(0, 1, 5)];
    assert first[..0] == [];
    assert Exec(first) == Some(Apply(EMPTY, Call(0, 1, 5)));
    run := [Call(0, 1, 5), Insert(0)];
    assert run[..1] == first;
    assert RevsOf(Exec(first).value.table, 1) == map[];
  }

  // ---- one call of record, undisturbed -------------------------------------------------------

  /** A call before its attempt of that number, or given up after two. */
  function Waiting(p: Problem, forced: nat, attempt: nat, seen: nat): Writer {
    if attempt >= 2 then Conflicted(p, seen, forced == 0)
    else if forced > 0 then Inserting(p, attempt, seen, forced, false)
    else Reading(p, attempt, seen)
  }

  /** The state `was` with that call of `w`. */
  function Pending(was: State, w: WriterId, p: Problem, forced: nat, attempt: nat): State {
    was.(writers := was.writers[w := Waiting(p, forced, attempt, |RevsOf(was.table, p)|)])
  }

  /** The state `was` with that call about to insert `no`. */
  function Loaded(was: State, w: WriterId, p: Problem, forced: nat, attempt: nat, no: nat): State {
    was.(writers := was.writers[w := Inserting(p, attempt, |RevsOf(was.table, p)|, no, forced == 0)])
  }

  lemma ReadFrom(was: State, w: WriterId, p: Problem, attempt: nat, max: nat)
    requires attempt < 2 && IsMax(RevsOf(was.table, p), max)
    ensures var s := Pending(was, w, p, 0, attempt);
            Enabled(s, ReadMax(w, max)) && Apply(s, ReadMax(w, max)) == Loaded(was, w, p, 0, attempt, max + 1)
  {
  }

  lemma InsertFrom(was: State, w: WriterId, p: Problem, forced: nat, attempt: nat, no: nat)
    requires attempt < 2 && if forced > 0 then no == forced else no !in RevsOf(was.table, p)
    ensures var s := Loaded(was, w, p, forced, attempt, no);
            && Enabled(s, Insert(w))
            && Apply(s, Insert(w)) ==
               if no !in RevsOf(was.table, p) then Stored(was, w, p, no) else Pending(was, w, p, forced, attempt + 1)
  {
  }

  method MaxNumber(revs: Revs) returns (m: nat)
    ensures IsMax(revs, m)
  {
    m := 0;
    var todo := revs.Keys;
    while todo != {}
      invariant todo <= revs.Keys
      invariant m in revs || (m == 0 && todo == revs.Keys)
      invariant forall k | k in revs && k !in todo :: k <= m
      decreases |todo|
    {
      var n :| n in todo;
      if m !in revs || n > m {
        m := n;
      }
      todo := todo - {n};
    }
  }

  class RevisionsTable {
    var s: State
    ghost var run: seq<Step>

    ghost predicate Valid()
      reads this
    {
      Exec(run) == Some(s)
    }

    constructor ()
      ensures Valid() && s == EMPTY && run == []
    {
      s, run := EMPTY, [];
    }

    method Do(step: Step)
      requires Valid() && Enabled(s, step)
      modifies this
      ensures Valid() && s == Apply(old(s), step) && run == old(run) + [step]
    {
      assert (run + [step])[..|run|] == run;
      s, run := Apply(s, step), run + [step];
    }

    /** The number this attempt will try. */
    method Choose(ghost was: State, w: WriterId, p: Problem, forced: nat, attempt: nat) returns (no: nat)
      requires Valid() && attempt < 2 && s == Pending(was, w, p, forced, attempt)
      modifies this
      ensures Valid() && old(run) <= run && (AllAllocated(old(run)) ==> AllAllocated(run))
      ensures if forced > 0 then no == forced else no > 0 && IsMax(RevsOf(was.table, p), no - 1)
      ensures s == Loaded(was, w, p, forced, attempt, no)
    {
      no := forced;
      if forced == 0 {
        var max := MaxNumber(RevsOf(s.table, p));
        ReadFrom(was, w, p, attempt, max);
        Do(ReadMax(w, max));
        no := max + 1;
      }
    }

    /**
     One attempt with nobody between its steps, on the state `was` in which the call came; `no` is the number tried.
     */
    method Attempt(ghost was: State, w: WriterId, p: Problem, forced: nat, attempt: nat) returns (no: nat, stored: bool)
      requires Valid() && attempt < 2 && s == Pending(was, w, p, forced, attempt)
      modifies this
      ensures Valid() && old(run) <= run && (AllAllocated(old(run)) ==> AllAllocated(run))
      ensures if forced > 0 then no == forced else no > 0 && IsMax(RevsOf(was.table, p), no - 1) && stored
      ensures stored <==> no !in RevsOf(was.table, p)
      ensures s == if stored then Stored(was, w, p, no) else Pending(was, w, p, forced, attempt + 1)
    {
      no := Choose(was, w, p, forced, attempt);
      InsertFrom(was, w, p, forced, attempt, no);
      stored := no !in RevsOf(s.table, p);
      Do(Insert(w));
    }

    /**
     The allocate-and-retry loop with nobody between its steps, as a path of the transition system.
     An allocated number is MAX + 1 and cannot fail; a forced one succeeds iff it is free, and its
     retry never helps.
     */
    method Record(w: WriterId, p: Problem, forced: nat) returns (r: Option<nat>)
      requires Valid() && w !in s.writers
      modifies this
      ensures Valid() && old(run) <= run
      ensures forced == 0 && AllAllocated(old(run)) ==> AllAllocated(run)
      ensures forced == 0 ==> r.Some? && r.value > 0 && IsMax(RevsOf(old(s.table), p), r.value - 1)
      ensures forced > 0 ==> r == if forced in RevsOf(old(s.table), p) then None else Some(forced)
      ensures s == if r.Some? then Stored(old(s), w, p, r.value) else Pending(old(s), w, p, forced, 2)
    {
      ghost var was := s;
      Do(Call(w, p, forced));
      var attempt := 0;
      while attempt < 2
        invariant 0 <= attempt <= 2
        invariant Valid() && old(run) <= run && s == Pending(was, w, p, forced, attempt)
        invariant forced == 0 && AllAllocated(old(run)) ==> AllAllocated(run)
        invariant attempt > 0 ==> 0 < forced && forced in RevsOf(was.table, p)
      {
        var no, stored := Attempt(was, w, p, forced, attempt);
        if stored {
          return Some(no);
        }
        attempt := attempt + 1;
      }
      return None;
    }

    /** Whatever other calls of `record` do meanwhile: those of these steps that are possible and not ours. */
    method Meanwhile(w: WriterId, steps: seq<Step>)
      requires Valid() && w in s.writers
      modifies this
      ensures Valid() && old(run) <= run && w in s.writers && s.writers[w] == old(s.writers[w])
      ensures AllAllocated(old(run)) && AllAllocated(steps) ==> AllAllocated(run)
    {
      for i := 0 to |steps|
        invariant Valid() && old(run) <= run && w in s.writers && s.writers[w] == old(s.writers[w])
        invariant AllAllocated(old(run)) && AllAllocated(steps) ==> AllAllocated(run)
      {
        if steps[i].w != w && Enabled(s, steps[i]) {
          Do(steps[i]);
        }
      }
    }

    /** The number an attempt will try: a forced one, or one past MAX as it is now. */
    method NumberAmong(w: WriterId, p: Problem, forced: nat, attempt: nat, ghost seen: nat, between: seq<Step>)
      returns (no: nat)
      requires Valid() && attempt < 2 && w in s.writers && s.writers[w] == Waiting(p, forced, attempt, seen)
      modifies this
      ensures Valid() && old(run) <= run && w in s.writers
      ensures AllAllocated(old(run)) && AllAllocated(between) ==> AllAllocated(run)
      ensures s.writers[w] == Inserting(p, attempt, seen, no, forced == 0) && (forced > 0 ==> no == forced)
    {
      if forced > 0 {
        return forced;
      }
      var max := MaxNumber(RevsOf(s.table, p));
      Do(ReadMax(w, max));
      Meanwhile(w, between);
      no := max + 1;
    }

    /** One attempt among other writers. */
    method AttemptAmong(w: WriterId, p: Problem, forced: nat, attempt: nat, ghost seen: nat, before: seq<Step>,
                        between: seq<Step>)
      returns (r: Option<nat>)
      requires Valid() && attempt < 2 && w in s.writers && s.writers[w] == Waiting(p, forced, attempt, seen)
      modifies this
      ensures Valid() && old(run) <= run && w in s.writers
      ensures AllAllocated(old(run)) && AllAllocated(before) && AllAllocated(between) ==> AllAllocated(run)
      ensures s.writers[w] == if r.Some? then Recorded(p, r.value) else Waiting(p, forced, attempt + 1, seen)
      ensures r.Some? && forced > 0 ==> r.value == forced
    {
      Meanwhile(w, before);
      var no := NumberAmong(w, p, forced, attempt, seen, between);
      r := if no in RevsOf(s.table, p) then None else Some(no);
      Do(Insert(w));
    }

    /**
     The same loop among other writers, who may act between any two of its steps: it is still a path
     of the transition system, and what it returns is what the table has for this call.
     */
    method RecordAmong(w: WriterId, p: Problem, forced: nat, others: nat -> seq<Step>) returns (r: Option<nat>)
      requires Valid() && w !in s.writers
      modifies this
      ensures Valid() && old(run) <= run
      ensures forced == 0 && AllAllocated(old(run)) && (forall k :: AllAllocated(others(k))) ==> AllAllocated(run)
      ensures r.Some? ==> Owns(s, p, r.value, w) && (forced > 0 ==> r.value == forced)
      ensures r.None? ==> w in s.writers && s.writers[w] == Conflicted(p, |RevsOf(old(s.table), p)|, forced == 0)
    {
      ghost var seen := |RevsOf(s.table, p)|;
      Do(Call(w, p, forced));
      r := None;
      var attempt := 0;
      while attempt < 2 && r.None?
        invariant 0 <= attempt <= 2
        invariant Valid() && old(run) <= run && w in s.writers
        invariant s.writers[w] == if r.Some? then Recorded(p, r.value) else Waiting(p, forced, attempt, seen)
        invariant r.Some? && forced > 0 ==> r.value == forced
        invariant forced == 0 && AllAllocated(old(run)) && (forall k :: AllAllocated(others(k))) ==> AllAllocated(run)
      {
        r := AttemptAmong(w, p, forced, attempt, seen, others(2 * attempt), others(2 * attempt + 1));
        attempt := attempt + 1;
      }
      NumbersAreOwned(run);
      assert r.Some? ==> Recorder(s, p, r.value, w);
    }
  }
}
