/**
 Any number of check-ins of one user at the same time, statement by statement.  Nothing holds them together: no
 transaction, no lock, and every statement asks for the date anew.  A run in which no midnight falls inside a check-in
 leaves the counters truthful; across one midnight `AcrossMidnightIff` says exactly when they are.
 */
module CheckinNight {
  import opened Options
  import opened Checkin

  /**
   Where a check-in stands: nothing done, no record seen for the day, the record of day `on` stored, the users row read
   (as it was after `saw` updates), the day before asked for on day `asked`, or the users row updated on day `put`, as
   its version `at`.  A check-in that finds a record, or whose insert meets one, is skipped.
   */
  datatype Call =
    | Idle
    | Clear
    | Skipped
    | Stored(on: Day)
    | Read(on: Day, saw: nat)
    | Asked(on: Day, saw: nat, asked: Day, yes: bool)
    | Done(on: Day, saw: nat, asked: Day, yes: bool, at: nat, put: Day)

  /** The date, the recorded days, every version of the users row so far, and the check-ins. */
  datatype State = State(today: Day, days: set<Day>, rows: seq<Counters>, calls: seq<Call>)

  datatype Step = Midnight | Look(k: nat) | Insert(k: nat) | ReadRow(k: nat) | Ask(k: nat) | Update(k: nat)

  predicate Enabled(s: State, step: Step) {
    match step
    case Midnight => true
    case Look(k) => k < |s.calls| && s.calls[k].Idle?
    case Insert(k) => k < |s.calls| && s.calls[k].Clear?
    case ReadRow(k) => k < |s.calls| && s.calls[k].Stored? && s.rows != []
    case Ask(k) => k < |s.calls| && s.calls[k].Read?
    case Update(k) => k < |s.calls| && s.calls[k].Asked? && s.calls[k].saw < |s.rows|
  }

  function Apply(s: State, step: Step): State
    requires Enabled(s, step)
  {
    match step
    case Midnight => s.(today := s.today + 1)
    case Look(k) => s.(calls := s.calls[k := if s.today in s.days then Skipped else Clear])
    case Insert(k) =>
      if s.today in s.days then s.(calls := s.calls[k := Skipped])
      else s.(days := s.days + {s.today}, calls := s.calls[k := Stored(s.today)])
    case ReadRow(k) => s.(calls := s.calls[k := Read(s.calls[k].on, |s.rows| - 1)])
    // without a last day nothing is asked, and `Noted` does not look at the answer
    case Ask(k) =>
      var c := s.calls[k];
      s.(calls := s.calls[k := Asked(c.on, c.saw, s.today, s.today - 1 in s.days)])
    case Update(k) =>
      var c := s.calls[k];
      s.(rows := s.rows + [Noted(s.rows[c.saw], c.yes, s.today)],
         calls := s.calls[k := Done(c.on, c.saw, c.asked, c.yes, |s.rows|, s.today)])
  }

  ghost predicate Happens(s: State, run: seq<Step>, end: State)
    decreases |run|
  {
    if run == [] then end == s
    else Enabled(s, run[0]) && Happens(Apply(s, run[0]), run[1..], end)
  }

  function Row(s: State): Counters
    requires s.rows != []
  {
    s.rows[|s.rows| - 1]
  }

  /** Between its insert and its update. */
  predicate InFlight(c: Call) {
    c.Stored? || c.Read? || c.Asked?
  }

  ghost predicate Settled(s: State) {
    forall k | 0 <= k < |s.calls| :: !InFlight(s.calls[k])
  }

  // ---- no midnight inside a check-in ---------------------------------------------------------

  /** The one check-in in flight, if there is any, stored today's record and works with the current row. */
  ghost predicate Current(s: State, c: Call)
    requires s.rows != [] && InFlight(c)
  {
    && c.on == s.today && s.today in s.days && Truthful(s.days - {s.today}, Row(s))
    && (c.Read? || c.Asked? ==> c.saw == |s.rows| - 1)
    && (c.Asked? ==> (c.yes <==> s.today - 1 in s.days))
  }

  ghost predicate DayInv(s: State) {
    && s.rows != [] && (forall e | e in s.days :: e <= s.today)
    && (Settled(s) ==> Truthful(s.days, Row(s)))
    && (forall k | 0 <= k < |s.calls| && InFlight(s.calls[k]) :: Current(s, s.calls[k]))
    && (forall j, k | 0 <= j < k < |s.calls| :: !InFlight(s.calls[j]) || !InFlight(s.calls[k]))
  }

  /** Every midnight of the run finds all check-ins settled. */
  ghost predicate Undivided(s: State, run: seq<Step>)
    decreases |run|
  {
    run != [] ==> Enabled(s, run[0]) && (run[0].Midnight? ==> Settled(s)) && Undivided(Apply(s, run[0]), run[1..])
  }

  /** A check-in outside its flight before and after a step that changes nothing else. */
  lemma DayAside(s: State, k: nat, c: Call)
    requires DayInv(s) && k < |s.calls| && !InFlight(s.calls[k]) && !InFlight(c)
    ensures DayInv(s.(calls := s.calls[k := c]))
  {
    var s' := s.(calls := s.calls[k := c]);
    assert forall j | 0 <= j < |s.calls| :: InFlight(s'.calls[j]) <==> InFlight(s.calls[j]);
  }

  /** Nobody else is in flight, for the record of today could not have been stored twice. */
  lemma DayInsert(s: State, k: nat)
    requires DayInv(s) && Enabled(s, Insert(k)) && s.today !in s.days
    ensures DayInv(Apply(s, Insert(k)))
  {
    var s' := Apply(s, Insert(k));
    assert Settled(s);
    assert s'.days - {s.today} == s.days;
    assert InFlight(s'.calls[k]) && Current(s', s'.calls[k]);
    assert forall j | 0 <= j < |s.calls| && j != k :: !InFlight(s'.calls[j]);
  }

  lemma DayOn(s: State, k: nat, c: Call)
    requires DayInv(s) && k < |s.calls| && InFlight(s.calls[k]) && InFlight(c) && Current(s, c)
    ensures DayInv(s.(calls := s.calls[k := c]))
  {
    var s' := s.(calls := s.calls[k := c]);
    assert forall j | 0 <= j < |s.calls| && j != k :: !InFlight(s'.calls[j]);
    assert InFlight(s'.calls[k]) && Current(s', c);
  }

  lemma DayUpdate(s: State, k: nat)
    requires DayInv(s) && Enabled(s, Update(k))
    ensures DayInv(Apply(s, Update(k)))
  {
    var s', c := Apply(s, Update(k)), s.calls[k];
    assert InFlight(c) && Current(s, c);
    var before := s.days - {s.today};
    BumpStaysTruthful(before, Row(s), s.today);
    assert before + {s.today} == s.days;
    assert Row(s') == Bumped(before, Row(s), s.today);
    assert forall j | 0 <= j < |s.calls| :: !InFlight(s'.calls[j]);
  }

  lemma DayStep(s: State, step: Step)
    requires DayInv(s) && Enabled(s, step) && (step.Midnight? ==> Settled(s))
    ensures DayInv(Apply(s, step))
  {
    var s' := Apply(s, step);
    match step
    case Midnight =>
    case Look(k) => DayAside(s, k, s'.calls[k]);
    case Insert(k) =>
      if s.today in s.days {
        DayAside(s, k, Skipped);
      } else {
        DayInsert(s, k);
      }
    case ReadRow(k) =>
      assert InFlight(s.calls[k]) && Current(s, s.calls[k]);
      DayOn(s, k, s'.calls[k]);
    case Ask(k) =>
      assert InFlight(s.calls[k]) && Current(s, s.calls[k]);
      DayOn(s, k, s'.calls[k]);
    case Update(k) => DayUpdate(s, k);
  }

  lemma {:induction false} DayRun(s: State, run: seq<Step>, end: State)
    requires DayInv(s) && Happens(s, run, end) && Undivided(s, run)
    ensures DayInv(end)
    decreases |run|
  {
    if run != [] {
      DayStep(s, run[0]);
      DayRun(Apply(s, run[0]), run[1..], end);
    }
  }

  /** Before any of the check-ins: truthful counters and no record later than today. */
  ghost predicate Dawn(s: State) {
    && |s.rows| == 1 && Truthful(s.days, s.rows[0]) && (forall e | e in s.days :: e <= s.today)
    && forall k | 0 <= k < |s.calls| :: s.calls[k] == Idle
  }

  /**
   In every run of any check-ins over any number of days in which no midnight falls between an insert and its update,
   the counters are truthful whenever no check-in is in flight.
   */
  lemma UndividedStaysTruthful(o: State, run: seq<Step>, s: State)
    requires Dawn(o) && Happens(o, run, s) && Undivided(o, run) && Settled(s)
    ensures s.rows != [] && Truthful(s.days, Row(s))
  {
    DayRun(o, run, s);
  }

  // ---- across one midnight --------------------------------------------------------------------

  /** The check-in stored a record. */
  predicate Stores(c: Call) {
    InFlight(c) || c.Done?
  }

  predicate HasRead(c: Call) {
    c.Read? || c.Asked? || c.Done?
  }

  predicate HasAsked(c: Call) {
    c.Asked? || c.Done?
  }

  /** What has happened to one check-in since the dawn `o`. */
  ghost predicate CallOk(o: State, s: State, c: Call)
  {
    && (Stores(c) ==> c.on in s.days - o.days && o.today <= c.on <= s.today)
    && (HasRead(c) ==> c.saw < |s.rows|)
    && (HasAsked(c) ==> c.on <= c.asked <= s.today && (c.yes <==> c.asked - 1 in s.days))
    && (c.Done? ==> c.saw < c.at < |s.rows| && c.asked <= c.put <= s.today)
    && (c.Done? ==> s.rows[c.at] == Noted(s.rows[c.saw], c.yes, c.put))
  }

  /** Two check-ins: different days and updates, and what is stored or asked after an update is so on no earlier day. */
  ghost predicate PairOk(c: Call, e: Call) {
    && (Stores(c) && Stores(e) ==> c.on != e.on)
    && (c.Done? && e.Done? ==> c.at != e.at)
    && (c.Done? && HasRead(e) && c.put < e.on ==> c.at <= e.saw)
    && (c.Done? && HasAsked(e) && c.at <= e.saw ==> c.put <= e.asked)
  }

  ghost predicate StoredOn(s: State, d: Day) {
    exists k :: 0 <= k < |s.calls| && Stores(s.calls[k]) && s.calls[k].on == d
  }

  ghost predicate UpdatedAt(s: State, i: nat) {
    exists k :: 0 <= k < |s.calls| && s.calls[k].Done? && s.calls[k].at == i
  }

  ghost predicate NightInv(o: State, s: State)
    requires o.rows != []
  {
    && s.rows != [] && s.rows[0] == o.rows[0] && o.days <= s.days && o.today <= s.today
    && (forall e | e in o.days :: e <= o.today)
    && (forall k | 0 <= k < |s.calls| :: CallOk(o, s, s.calls[k]))
    && (forall j, k | 0 <= j < |s.calls| && 0 <= k < |s.calls| && j != k :: PairOk(s.calls[j], s.calls[k]))
    && (forall d | d in s.days - o.days :: StoredOn(s, d))
    && (forall i | 0 < i < |s.rows| :: UpdatedAt(s, i))
  }

  /** A check-in moves on, and the rest of the state does not lose what the others rely on. */
  lemma NightMove(o: State, s: State, s': State, k: nat, c: Call)
    requires o.rows != [] && NightInv(o, s) && k < |s.calls| && s'.calls == s.calls[k := c] && s'.today == s.today
    requires s'.days == s.days || (s'.days == s.days + {s.today} && Stores(c) && c.on == s.today)
    requires s'.rows == s.rows ||
             (|s'.rows| == |s.rows| + 1 && s.rows == s'.rows[..|s.rows|] && c.Done? && c.at == |s.rows|)
    requires CallOk(o, s', c) && !s.calls[k].Done?
    requires Stores(s.calls[k]) ==> Stores(c) && c.on == s.calls[k].on
    requires forall j | 0 <= j < |s.calls| && j != k :: PairOk(s.calls[j], c) && PairOk(c, s.calls[j])
    ensures NightInv(o, s')
  {
    forall j | 0 <= j < |s.calls|
      ensures CallOk(o, s', s'.calls[j])
    {
      if j != k {
        var e := s.calls[j];
        assert s'.calls[j] == e && CallOk(o, s, e);
        assert HasAsked(e) ==> e.asked - 1 != s.today;
        assert e.Done? ==> s'.rows[e.at] == s.rows[e.at] && s'.rows[e.saw] == s.rows[e.saw];
      }
    }
    forall d | d in s'.days - o.days
      ensures StoredOn(s', d)
    {
      if d in s.days {
        assert StoredOn(s, d);
        var j :| 0 <= j < |s.calls| && Stores(s.calls[j]) && s.calls[j].on == d;
        assert j != k ==> s'.calls[j] == s.calls[j];
        assert Stores(s'.calls[j]) && s'.calls[j].on == d;
      } else {
        assert s'.calls[k] == c;
      }
    }
    forall i | 0 < i < |s'.rows|
      ensures UpdatedAt(s', i)
    {
      if i < |s.rows| {
        assert UpdatedAt(s, i);
        var j :| 0 <= j < |s.calls| && s.calls[j].Done? && s.calls[j].at == i;
        assert j != k && s'.calls[j] == s.calls[j];
        assert s'.calls[j].Done? && s'.calls[j].at == i;
      } else {
        assert s'.calls[k] == c;
      }
    }
  }

  lemma NightPair(o: State, s: State, step: Step, j: nat)
    requires o.rows != [] && NightInv(o, s) && Enabled(s, step) && !step.Midnight? && j < |s.calls| && j != step.k
    ensures var c, e := s.calls[j], Apply(s, step).calls[step.k]; PairOk(c, e) && PairOk(e, c)
  {
    var c := s.calls[step.k];
    assert PairOk(s.calls[j], c) && PairOk(c, s.calls[j]);
    assert CallOk(o, s, s.calls[j]) && CallOk(o, s, c);
  }

  lemma NightCall(o: State, s: State, step: Step)
    requires o.rows != [] && NightInv(o, s) && Enabled(s, step) && !step.Midnight?
    ensures var s' := Apply(s, step); CallOk(o, s', s'.calls[step.k])
  {
    assert CallOk(o, s, s.calls[step.k]);
  }

  lemma NightStep(o: State, s: State, step: Step)
    requires o.rows != [] && NightInv(o, s) && Enabled(s, step)
    ensures NightInv(o, Apply(s, step))
  {
    var s' := Apply(s, step);
    if step.Midnight? {
      assert forall d | d in s.days - o.days :: StoredOn(s, d) ==> StoredOn(s', d);
      assert forall i | 0 < i < |s.rows| :: UpdatedAt(s, i) ==> UpdatedAt(s', i);
      assert forall k | 0 <= k < |s.calls| :: CallOk(o, s, s.calls[k]) ==> CallOk(o, s', s.calls[k]);
    } else {
      var k := step.k;
      NightCall(o, s, step);
      forall j | 0 <= j < |s.calls| && j != k
        ensures PairOk(s.calls[j], s'.calls[k]) && PairOk(s'.calls[k], s.calls[j])
      {
        NightPair(o, s, step, j);
      }
      NightMove(o, s, s', k, s'.calls[k]);
    }
  }

  lemma {:induction false} NightRun(o: State, s: State, run: seq<Step>, end: State)
    requires o.rows != [] && NightInv(o, s) && Happens(s, run, end)
    ensures NightInv(o, end)
    decreases |run|
  {
    if run != [] {
      NightStep(o, s, run[0]);
      NightRun(o, Apply(s, run[0]), run[1..], end);
    }
  }

  // ---- what is left in the morning ---------------------------------------------------------------

  /** The check-in stored the record of day `d` and is through. */
  predicate DoneOn(c: Call, d: Day) {
    c.Done? && c.on == d
  }

  /** Nothing was recorded on the day before `d`, but some day earlier. */
  predicate Lapsed(c: Counters, d: Day) {
    c.last.Some? && c.last.value < d - 1
  }

  /**
   When the check-in `a` of one day and `b` of the next come out right: if one read what the other had written, the
   streak before had not lapsed or `a` asked for its day before in time; otherwise a lapsed streak of one day must
   happen to stand in for the lost update, and the last update must count two days.
   */
  predicate RightTogether(c: Counters, d: Day, a: Call, b: Call)
    requires a.Done? && b.Done?
  {
    if a.saw > 0 || b.saw > 0 then !Lapsed(c, d) || a.asked == d
    else Lapsed(c, d) && c.current == 1 && (a.at < b.at || a.asked == d + 1)
  }

  /** A record of the first day alone must be counted on that day; with one of the second the two must go together. */
  ghost predicate RightNight(s: State, d: Day)
    requires s.rows != []
  {
    forall a | 0 <= a < |s.calls| && DoneOn(s.calls[a], d) ::
      && (s.calls[a].put == d || exists b :: 0 <= b < |s.calls| && DoneOn(s.calls[b], d + 1))
      && (forall b | 0 <= b < |s.calls| && DoneOn(s.calls[b], d + 1) ::
            RightTogether(s.rows[0], d, s.calls[a], s.calls[b]))
  }

  /** What the morning finds: at most one record of each day, each by a check-in that is through. */
  ghost predicate Morning(o: State, s: State) {
    o.rows != [] && NightInv(o, s) && Dawn(o) && Settled(s) && s.today <= o.today + 1
  }

  /** The latest day and the streaks when both days have been recorded. */
  lemma BothRecorded(o: State, s: State)
    requires Dawn(o) && o.today !in o.days && s.days == o.days + {o.today} + {o.today + 1}
    requires s.rows != []
    ensures var c, d := o.rows[0], o.today;
            var first := 1 + if c.last == Some(d - 1) then c.current else 0;
            Truthful(s.days, Row(s)) <==>
            Row(s) == Counters(Some(d + 1), first + 1, Max(c.longest, first + 1))
  {
    var c, d := o.rows[0], o.today;
    BumpStaysTruthful(o.days, c, d);
    BumpStaysTruthful(o.days + {d}, Bumped(o.days, c, d), d + 1);
    var t := Bumped(o.days + {d}, Bumped(o.days, c, d), d + 1);
    if Truthful(s.days, Row(s)) {
      LongestUnique(s.days, Row(s).longest, t.longest);
    }
  }

  /** Who stored the record of a new day; nobody else is through with that day. */
  lemma OwnerOf(o: State, s: State, d: Day) returns (k: nat)
    requires Morning(o, s) && d in s.days - o.days
    ensures k < |s.calls| && DoneOn(s.calls[k], d) && o.today <= d <= s.today && CallOk(o, s, s.calls[k])
    ensures forall j | 0 <= j < |s.calls| && DoneOn(s.calls[j], d) :: j == k
  {
    assert StoredOn(s, d);
    k :| 0 <= k < |s.calls| && Stores(s.calls[k]) && s.calls[k].on == d;
    assert CallOk(o, s, s.calls[k]);
    forall j | 0 <= j < |s.calls| && DoneOn(s.calls[j], d)
      ensures j == k
    {
      assert j != k ==> PairOk(s.calls[j], s.calls[k]);
    }
  }

  /** The update behind a version of the users row. */
  lemma WriterOf(o: State, s: State, i: nat) returns (k: nat)
    requires Morning(o, s) && 0 < i < |s.rows|
    ensures k < |s.calls| && s.calls[k].Done? && s.calls[k].at == i && CallOk(o, s, s.calls[k])
    ensures s.calls[k].on in s.days - o.days
  {
    assert UpdatedAt(s, i);
    k :| 0 <= k < |s.calls| && s.calls[k].Done? && s.calls[k].at == i;
    assert CallOk(o, s, s.calls[k]);
  }

  lemma NoneRecorded(o: State, s: State)
    requires Morning(o, s) && s.days == o.days
    ensures Truthful(s.days, Row(s)) && RightNight(s, o.today)
  {
    if |s.rows| > 1 {
      var k := WriterOf(o, s, 1);
    }
    assert forall a | 0 <= a < |s.calls| && DoneOn(s.calls[a], o.today) :: CallOk(o, s, s.calls[a]);
  }

  /** A single record makes a single update. */
  lemma OneUpdate(o: State, s: State, d: Day) returns (k: nat)
    requires Morning(o, s) && s.days == o.days + {d} && d !in o.days
    ensures k < |s.calls| && DoneOn(s.calls[k], d) && CallOk(o, s, s.calls[k]) && o.today <= d <= s.today
    ensures |s.rows| == 2 && s.calls[k].saw == 0 && s.calls[k].at == 1
    ensures forall j | 0 <= j < |s.calls| && s.calls[j].Done? :: j == k
  {
    k := OwnerOf(o, s, d);
    forall j | 0 <= j < |s.calls| && s.calls[j].Done?
      ensures j == k
    {
      assert CallOk(o, s, s.calls[j]);
    }
    if |s.rows| > 2 {
      var i := WriterOf(o, s, 1);
      var j := WriterOf(o, s, 2);
    }
  }

  lemma FirstRecorded(o: State, s: State)
    requires Morning(o, s) && s.days == o.days + {o.today} && o.today !in o.days
    ensures Truthful(s.days, Row(s)) <==> RightNight(s, o.today)
  {
    var d := o.today;
    var a := OneUpdate(o, s, d);
    BumpStaysTruthful(o.days, o.rows[0], d);
    assert RightNight(s, d) <==> s.calls[a].put == d;
  }

  lemma SecondRecorded(o: State, s: State)
    requires Morning(o, s) && s.days == o.days + {o.today + 1} && o.today + 1 !in o.days
    ensures Truthful(s.days, Row(s)) && RightNight(s, o.today)
  {
    var d := o.today;
    var b := OneUpdate(o, s, d + 1);
    BumpStaysTruthful(o.days, o.rows[0], d + 1);
    assert s.calls[b].yes <==> d in o.days;
  }

  /** Two records make two updates, in either order, and the second may have read the first. */
  lemma TwoUpdates(o: State, s: State) returns (a: nat, b: nat)
    requires Morning(o, s) && o.today !in o.days && s.days == o.days + {o.today} + {o.today + 1}
    ensures a < |s.calls| && b < |s.calls| && a != b && CallOk(o, s, s.calls[a]) && CallOk(o, s, s.calls[b])
    ensures DoneOn(s.calls[a], o.today) && DoneOn(s.calls[b], o.today + 1)
    ensures PairOk(s.calls[a], s.calls[b]) && PairOk(s.calls[b], s.calls[a])
    ensures forall j | 0 <= j < |s.calls| && s.calls[j].Done? :: j == a || j == b
    ensures |s.rows| == 3
  {
    var d := o.today;
    assert d + 1 !in o.days;
    a := OwnerOf(o, s, d);
    b := OwnerOf(o, s, d + 1);
    forall j | 0 <= j < |s.calls| && s.calls[j].Done?
      ensures j == a || j == b
    {
      assert CallOk(o, s, s.calls[j]);
    }
    if |s.rows| > 3 {
      var i := WriterOf(o, s, 1);
      var j := WriterOf(o, s, 2);
      var k := WriterOf(o, s, 3);
    }
    assert PairOk(s.calls[a], s.calls[b]) && PairOk(s.calls[b], s.calls[a]);
  }

  /** The counters of the second update, from those before the night and what the two check-ins saw. */
  lemma TogetherIff(c: Counters, d: Day, a: Call, b: Call, rows: seq<Counters>)
    requires DoneOn(a, d) && DoneOn(b, d + 1) && |rows| == 3 && rows[0] == c && PairOk(a, b) && PairOk(b, a)
    requires a.saw < a.at < 3 && rows[a.at] == Noted(rows[a.saw], a.yes, a.put)
    requires b.saw < b.at < 3 && rows[b.at] == Noted(rows[b.saw], b.yes, b.put)
    requires d <= a.asked <= a.put <= d + 1 && b.asked == b.put == d + 1 && b.yes
    requires a.yes <==> a.asked == d + 1 || c.last == Some(d - 1)
    requires if c.last.Some? then c.last.value < d && 1 <= c.current <= c.longest else c.current == 0 == c.longest
    ensures var first := 1 + if c.last == Some(d - 1) then c.current else 0;
            rows[2] == Counters(Some(d + 1), first + 1, Max(c.longest, first + 1)) <==> RightTogether(c, d, a, b)
  {
    if a.saw == 0 && b.saw == 0 {
      assert rows[2] == if a.at < b.at then Noted(c, true, d + 1) else Noted(c, a.yes, a.put);
    } else if a.at < b.at {
      assert rows[2] == Noted(Noted(c, a.yes, a.put), true, d + 1);
    } else {
      assert rows[2] == Noted(Noted(c, true, d + 1), a.yes, a.put) && a.asked == a.put == d + 1;
    }
  }

  lemma CountersFit(days: set<Day>, c: Counters)
    requires Truthful(days, c)
    ensures if c.last.Some? then c.last.value in days && 1 <= c.current <= c.longest else c.current == 0 == c.longest
  {
    if c.last.Some? {
      assert RunEnding(days, c.last.value) <= c.longest;
    } else {
      assert forall e :: RunEnding({}, e) == 0;
    }
  }

  /** What the two check-ins were told about the day before. */
  lemma AnswersFit(o: State, s: State, a: Call, b: Call)
    requires Dawn(o) && o.today !in o.days && s.days == o.days + {o.today} + {o.today + 1} && s.today <= o.today + 1
    requires DoneOn(a, o.today) && DoneOn(b, o.today + 1) && CallOk(o, s, a) && CallOk(o, s, b)
    ensures var d := o.today;
            && d <= a.asked <= a.put <= d + 1 && b.asked == b.put == d + 1 && b.yes
            && (a.yes <==> a.asked == d + 1 || o.rows[0].last == Some(d - 1))
  {
    var d := o.today;
    assert d - 1 in s.days <==> d - 1 in o.days;
    assert d in s.days;
  }

  lemma BothRecordedIff(o: State, s: State)
    requires Morning(o, s) && o.today !in o.days && s.days == o.days + {o.today} + {o.today + 1}
    ensures Truthful(s.days, Row(s)) <==> RightNight(s, o.today)
  {
    var d, c := o.today, o.rows[0];
    var a, b := TwoUpdates(o, s);
    BothRecorded(o, s);
    CountersFit(o.days, c);
    AnswersFit(o, s, s.calls[a], s.calls[b]);
    TogetherIff(c, d, s.calls[a], s.calls[b], s.rows);
  }

  /** Only the two days of the night are new. */
  lemma NewDays(o: State, s: State)
    requires Morning(o, s)
    ensures var new_ := s.days - o.days;
            s.days == o.days + new_ && o.today + 1 !in o.days &&
            (new_ == {} || new_ == {o.today} || new_ == {o.today + 1} || new_ == {o.today} + {o.today + 1})
  {
    var d, new_ := o.today, s.days - o.days;
    forall e | e in new_
      ensures e == d || e == d + 1
    {
      var k := OwnerOf(o, s, e);
    }
    assert s.days == o.days + new_;
    if d in new_ {
      assert new_ == if d + 1 in new_ then {d} + {d + 1} else {d};
    } else {
      assert new_ == if d + 1 in new_ then {d + 1} else {};
    }
  }

  /**
   Any check-ins in any interleaving across one midnight, from truthful counters and a settled dawn: once all have
   settled, the counters are truthful exactly when the night was right.
   */
  lemma AcrossMidnightIff(o: State, run: seq<Step>, s: State)
    requires Dawn(o) && Happens(o, run, s) && Settled(s) && s.today <= o.today + 1
    ensures s.rows != [] && (Truthful(s.days, Row(s)) <==> RightNight(s, o.today))
  {
    NightRun(o, o, run, s);
    var d, new_ := o.today, s.days - o.days;
    NewDays(o, s);
    if new_ == {} {
      NoneRecorded(o, s);
    } else if new_ == {d} {
      FirstRecorded(o, s);
    } else if new_ == {d + 1} {
      SecondRecorded(o, s);
    } else {
      assert s.days == o.days + {d} + {d + 1};
      BothRecordedIff(o, s);
    }
  }

  lemma First(s: State, step: Step, rest: seq<Step>, end: State) returns (run: seq<Step>)
    requires Enabled(s, step) && Happens(Apply(s, step), rest, end)
    ensures Happens(s, run, end)
  {
    run := [step] + rest;
    assert run[1..] == rest;
  }

  /** One day so far, and two check-ins to come on the second. */
  const EVENING := State(2, {1}, [Counters(Some(1), 1, 1)], [Idle, Idle])

  /** Where the race below ends: both updates were computed from the counters of the first day. */
  const MORNING := State(3, {1, 2, 3}, [Counters(Some(1), 1, 1), Counters(Some(3), 2, 2), Counters(Some(3), 2, 2)],
                         [Done(2, 0, 3, true, 2, 3), Done(3, 0, 3, true, 1, 3)])

  /** One worker stores and reads before midnight, the other does its whole check-in after it, the first goes on. */
  lemma RaceHappens() returns (run: seq<Step>)
    ensures Happens(EVENING, run, MORNING)
  {
    var s0 := EVENING;
    assert {1} + {2} == {1, 2} && {1, 2} + {3} == {1, 2, 3};
    var s1 := Apply(s0, Look(0));
    var s2 := Apply(s1, Insert(0));
    var s3 := Apply(s2, ReadRow(0));
    var s4 := Apply(s3, Midnight);
    var s5 := Apply(s4, Look(1));
    var s6 := Apply(s5, Insert(1));
    assert s6 == State(3, {1, 2, 3}, s0.rows, [Read(2, 0), Stored(3)]);
    var s7 := Apply(s6, ReadRow(1));
    var s8 := Apply(s7, Ask(1));
    var s9 := Apply(s8, Update(1));
    var s10 := Apply(s9, Ask(0));
    assert Apply(s10, Update(0)) == MORNING;
    run := First(s10, Update(0), [], MORNING);
    run := First(s9, Ask(0), run, MORNING);
    run := First(s8, Update(1), run, MORNING);
    run := First(s7, Ask(1), run, MORNING);
    run := First(s6, ReadRow(1), run, MORNING);
    run := First(s5, Insert(1), run, MORNING);
    run := First(s4, Look(1), run, MORNING);
    run := First(s3, Midnight, run, MORNING);
    run := First(s2, ReadRow(0), run, MORNING);
    run := First(s1, Insert(0), run, MORNING);
    run := First(s0, Look(0), run, MORNING);
  }

  /** Three days in a row are recorded, everything succeeded, and the streak says two. */
  lemma MidnightCorrupts()
    ensures Dawn(EVENING) && Settled(MORNING) && (exists run :: Happens(EVENING, run, MORNING))
    ensures Row(MORNING).current == 2 && RunEnding(MORNING.days, 3) == 3 && !Truthful(MORNING.days, Row(MORNING))
  {
    BumpStaysTruthful({}, NEVER, 1);
    assert {} + {1} == {1};
    var run := RaceHappens();
    AcrossMidnightIff(EVENING, run, MORNING);
    var a := MORNING.calls[0];
    assert DoneOn(a, 2) && DoneOn(MORNING.calls[1], 3) && !RightTogether(EVENING.rows[0], 2, a, MORNING.calls[1]);
    RunWithNewDay({1, 2}, 3, 3);
    RunWithNewDay({1}, 2, 2);
    assert {1} + {2} == {1, 2} && {1, 2} + {3} == {1, 2, 3};
  }
}
