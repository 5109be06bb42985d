/**
 Daily check-ins: `try_checkin` records a day and updates three counters that cache facts
 about the set of recorded days.  Days are consecutive integers.
 */
module Checkin {
  import opened Options

  type Day = int

  /** The counters of the users row. */
  datatype Counters = Counters(last: Option<Day>, current: int, longest: int)

  const NEVER := Counters(None, 0, 0)

  // ---- what the counters mean -----------------------------------------------------

  /** The number of consecutive recorded days ending at `d`. */
  function RunEnding(days: set<Day>, d: Day): (n: nat)
    decreases |days|
  {
    if d !in days then 0 else 1 + RunEnding(days - {d}, d - 1)
  }

  ghost predicate IsLatest(days: set<Day>, last: Option<Day>) {
    match last
    case None => days == {}
    case Some(d) => d in days && forall e | e in days :: e <= d
  }

  ghost predicate IsLongest(days: set<Day>, n: int) {
    && (forall d :: RunEnding(days, d) <= n)
    && (n == 0 || exists d :: RunEnding(days, d) == n)
  }

  /** The counters say what they are named for. */
  ghost predicate Truthful(days: set<Day>, c: Counters) {
    && IsLatest(days, c.last)
    && c.current == (if c.last.Some? then RunEnding(days, c.last.value) else 0)
    && IsLongest(days, c.longest)
  }

  /** A run is an interval of recorded days that cannot be extended to the left. */
  lemma {:induction false} RunIsMaximalInterval(days: set<Day>, d: Day)
    ensures var n := RunEnding(days, d);
            && (forall e | d - n < e <= d :: e in days)
            && d - n !in days
    decreases |days|
  {
    if d in days {
      RunIsMaximalInterval(days - {d}, d - 1);
      var n := RunEnding(days, d);
      forall e | d - n < e <= d
        ensures e in days
      {
        assert e < d ==> e in days - {d};
      }
    }
  }

  /** Runs only look backwards: days after `d` do not matter to the run ending at `d`. */
  lemma {:induction false} RunIgnoresLater(a: set<Day>, b: set<Day>, d: Day)
    requires forall e | e <= d :: e in a <==> e in b
    ensures RunEnding(a, d) == RunEnding(b, d)
    decreases |a|
  {
    if d in a {
      RunIgnoresLater(a - {d}, b - {d}, d - 1);
    }
  }

  // ---- the repository ------------------------------------------------------------

  datatype Stats = Stats(current: int, longest: int, checkedInToday: bool, total: nat)

  /** How the statements of one check-in turn out; a duplicate day from a racing check-in fails the insert. */
  datatype Luck = AllFine | InsertFails | ReadFails | UpdateFails

  /**
   One user's part of `checkin_records` and `users`; the set is the unique key (user, day), and the users row may be
   missing.
   */
  class CheckinRepo {
    var days: set<Day>
    var user: Option<Counters>

    constructor (known: bool)
      ensures days == {} && user == if known then Some(NEVER) else None
    {
      days, user := {}, if known then Some(NEVER) else None;
    }

    /**
     Every statement asks the database for the date, so a midnight may fall between any two of them: the check for a
     record on day `looked`, the insert on `on`, the question for the day before on `asked`, the update on `put`.
     Answers true for a stored record whose counters were updated or have no row to be in.  Truthful counters stay so
     exactly when no midnight falls between the insert and the update.
     */
    method TryCheckin(looked: Day, on: Day, asked: Day, put: Day, luck: Luck) returns (done: bool)
      requires looked <= on <= asked <= put
      modifies this
      ensures days == if looked in old(days) || luck.InsertFails? then old(days) else old(days) + {on}
      ensures var stored := looked !in old(days) && on !in old(days) && !luck.InsertFails?;
              && user == (if !stored || !luck.AllFine? || old(user).None? then old(user)
                          else Some(Noted(old(user).value, asked - 1 in days, put)))
              && (done <==> stored && (luck.AllFine? || (luck.UpdateFails? && old(user).None?)))
      ensures old(user).Some? && Truthful(old(days), old(user).value) && (forall e | e in old(days) :: e <= looked) ==>
                user.Some? && (Truthful(days, user.value) <==> days == old(days) || (luck.AllFine? && put == on))
    {
      if looked in days {
        return false;
      }
      if luck.InsertFails? || on in days {
        assert on in days ==> days + {on} == days;
        return false;
      }
      ghost var before := days;
      days := days + {on};
      assert on in days && days != before;
      if luck.ReadFails? {
        return false;
      }
      if user.None? {
        return true;
      }
      var streak := 1;
      if user.value.last.Some? {
        var yesterday := asked - 1 in days;
        if yesterday {
          streak := user.value.current + 1;
        }
      }
      var longest := if user.value.longest >= streak then user.value.longest else streak;
      if luck.UpdateFails? {
        return false;
      }
      user := Some(Counters(Some(put), streak, longest));
      if put == on && Truthful(old(days), old(user).value) && forall e | e in old(days) :: e <= looked {
        BumpStaysTruthful(old(days), old(user).value, on);
      }
      done := true;
    }

    /** A missing users row reads as zero counters. */
    method GetStats(today: Day) returns (s: Stats)
      ensures (s.checkedInToday <==> today in days) && s.total == |days|
      ensures s.current == (if user.Some? then user.value.current else 0)
      ensures s.longest == (if user.Some? then user.value.longest else 0)
      ensures user.Some? && Truthful(days, user.value) ==>
                && IsLongest(days, s.longest)
                && s.current == if user.value.last.Some? then RunEnding(days, user.value.last.value) else 0
    {
      s := Stats(0, 0, today in days, |days|);
      if user.Some? {
        s := s.(current := user.value.current, longest := user.value.longest);
      }
    }
  }

  /** The counters an update writes on day `put`, from those it read and whether the day before had a record. */
  function Noted(c: Counters, yesterday: bool, put: Day): Counters {
    var streak := if c.last.Some? && yesterday then c.current + 1 else 1;
    Counters(Some(put), streak, if c.longest >= streak then c.longest else streak)
  }

  /** The counters after a new record of `today`. */
  function Bumped(days: set<Day>, c: Counters, today: Day): Counters {
    Noted(c, today - 1 in days, today)
  }

  // ---- runs of check-ins ------------------------------------------------------------

  function Recorded(days: set<Day>, visits: seq<Day>): set<Day>
    decreases |visits|
  {
    if visits == [] then days else Recorded(days + {visits[0]}, visits[1..])
  }

  function Counted(days: set<Day>, c: Counters, visits: seq<Day>): Counters
    decreases |visits|
  {
    if visits == [] then c
    else Counted(days + {visits[0]}, if visits[0] in days then c else Bumped(days, c, visits[0]), visits[1..])
  }

  lemma RunWithNewDay(days: set<Day>, today: Day, d: Day)
    requires forall e | e in days :: e < today
    ensures RunEnding(days + {today}, d) ==
            if d == today then 1 + RunEnding(days, today - 1) else RunEnding(days, d)
  {
    var now := days + {today};
    if d == today {
      RunIgnoresLater(now - {today}, days, today - 1);
    } else if d < today {
      RunIgnoresLater(now, days, d);
    }
  }

  lemma BumpStaysTruthful(days: set<Day>, c: Counters, today: Day)
    requires Truthful(days, c) && forall e | e in days :: e < today
    ensures Truthful(days + {today}, Bumped(days, c, today))
  {
    var now, c' := days + {today}, Bumped(days, c, today);
    RunWithNewDay(days, today, today);
    assert c'.current == RunEnding(now, today);
    forall d
      ensures RunEnding(now, d) <= c'.longest
    {
      RunWithNewDay(days, today, d);
      assert RunEnding(days, d) <= c.longest;
    }
    if c'.longest != c'.current && c.longest != 0 {
      var d :| RunEnding(days, d) == c.longest;
      RunWithNewDay(days, today, d);
      assert d == today ==> RunEnding(days, d) == 0;
      assert RunEnding(now, d) == c'.longest;
    }
  }

  ghost predicate NonDecreasingFrom(days: set<Day>, visits: seq<Day>) {
    && (forall e, k | e in days && 0 <= k < |visits| :: e <= visits[k])
    && (forall j, k | 0 <= j < k < |visits| :: visits[j] <= visits[k])
  }

  /**
   Over any run of check-ins on non-decreasing days whose updates succeed, repeats included, the
   counters stay truthful: the latest day, the length of the maximal run ending there, and the
   longest run anywhere.
   */
  lemma {:induction false} StreaksAreTruthful(days: set<Day>, c: Counters, visits: seq<Day>)
    requires Truthful(days, c) && NonDecreasingFrom(days, visits)
    ensures Truthful(Recorded(days, visits), Counted(days, c, visits))
    decreases |visits|
  {
    if visits != [] {
      var today, rest := visits[0], visits[1..];
      var c' := if today in days then c else Bumped(days, c, today);
      if today in days {
        assert days + {today} == days;
      } else {
        BumpStaysTruthful(days, c, today);
      }
      assert forall k | 0 <= k < |rest| :: rest[k] == visits[k + 1];
      StreaksAreTruthful(days + {today}, c', rest);
    }
  }

  /**
   `get_stats` reports the streak ending at the last recorded day, without looking at today.  It is
   the streak still alive today exactly when the last check-in was today or yesterday, or never.
   */
  lemma ReportedStreakAliveIff(days: set<Day>, c: Counters, today: Day)
    requires Truthful(days, c) && forall e | e in days :: e <= today
    ensures var alive := if today in days then RunEnding(days, today) else RunEnding(days, today - 1);
            c.current == alive <==> c.last.None? || c.last.value >= today - 1
  {
    if c.last.Some? {
      assert RunEnding(days, c.last.value) >= 1;
    }
  }

  /** The reported streak of one day long ago: nothing is alive today. */
  lemma LapsedStreakReported()
    ensures var days, c := {1}, Counters(Some(1), 1, 1);
            Truthful(days, c) && c.current == 1 && RunEnding(days, 10) == 0 && RunEnding(days, 9) == 0
  {
    BumpStaysTruthful({}, NEVER, 1);
    assert {} + {1} == {1};
  }

  /**
   When a lost update does no lasting harm, as far as the counters and the dates can tell: after a
   gap, the lost day must not have made the longest run longer; without one, an older isolated day
   must happen to stand in for the lost one.
   */
  predicate Forgiven(c: Counters, lost: Day, next: Day) {
    if next > lost + 1 then !(c.last == Some(lost - 1) && c.longest == c.current)
    else c.last.Some? && c.last.value < lost - 1 && c.current == 1
  }

  /** The longest run after the lost day and the next one. */
  lemma LongestAfterLoss(days: set<Day>, c: Counters, lost: Day, next: Day, e: Day)
    requires Truthful(days, c) && (forall e | e in days :: e < lost) && lost < next
    ensures var all := days + {lost} + {next};
            RunEnding(all, e) ==
            if e == next then 1 + (if next == lost + 1 then 1 + RunEnding(days, lost - 1) else 0)
            else if e == lost then 1 + RunEnding(days, lost - 1)
            else RunEnding(days, e)
    ensures RunEnding(days, lost - 1) == if c.last == Some(lost - 1) then c.current else 0
  {
    RunWithNewDay(days + {lost}, next, e);
    RunWithNewDay(days, lost, e);
    RunWithNewDay(days, lost, next - 1);
  }

  /**
   A lost update: the record of day `lost` is kept but the counters miss it.  After the next
   check-in all three counters are right again exactly when the loss is forgiven.
   */
  lemma LostUpdateForgivenIff(days: set<Day>, c: Counters, lost: Day, next: Day)
    requires Truthful(days, c) && (forall e | e in days :: e < lost) && lost < next
    ensures var seen := days + {lost};
            Truthful(seen + {next}, Bumped(seen, c, next)) <==> Forgiven(c, lost, next)
  {
    var seen := days + {lost};
    var all, c' := seen + {next}, Bumped(seen, c, next);
    LongestAfterLoss(days, c, lost, next, next);
    LongestAfterLoss(days, c, lost, next, lost);
    forall e
      ensures e != next && e != lost ==> RunEnding(all, e) == RunEnding(days, e) <= c.longest
    {
      LongestAfterLoss(days, c, lost, next, e);
    }
    if c'.longest == c.longest != 0 {
      var e :| RunEnding(days, e) == c.longest;
      assert e in days;
      assert RunEnding(all, e) == c.longest;
    }
  }

  /**
   A loss after a single day: the gap hides it from the streak and leaves `longest` one short; without a gap the
   streak is one short too.
   */
  lemma LostUpdateCorrupts()
    ensures var days, c := {1}, Counters(Some(1), 1, 1);
            && Truthful(days, c)
            && Bumped(days + {2}, c, 4).longest == 1 && RunEnding(days + {2} + {4}, 2) == 2
            && Bumped(days + {2}, c, 3).current == 2 && RunEnding(days + {2} + {3}, 3) == 3
  {
    var days, c := {1}, Counters(Some(1), 1, 1);
    BumpStaysTruthful({}, NEVER, 1);
    assert {} + {1} == days;
    LongestAfterLoss(days, c, 2, 4, 2);
    LongestAfterLoss(days, c, 2, 3, 3);
  }

  /** A loss can also over-report: an old run is counted on as if the lost day had continued it. */
  lemma LostUpdateOverReports()
    ensures var days, c := {1, 2}, Counters(Some(2), 2, 2);
            && Truthful(days, c)
            && Bumped(days + {5}, c, 6) == Counters(Some(6), 3, 3)
            && forall e :: RunEnding(days + {5} + {6}, e) <= 2
  {
    var days, c := {1, 2}, Counters(Some(2), 2, 2);
    StreaksAreTruthful({}, NEVER, [1, 2]);
    assert {} + {1} + {2} == days && [1, 2][1..] == [2] && [2][1..] == [];
    assert Recorded({}, [1, 2]) == Recorded({} + {1}, [2]) == Recorded({} + {1} + {2}, []);
    assert Counted({}, NEVER, [1, 2]) == Counted({} + {1}, Counters(Some(1), 1, 1), [2]) ==
      Counted({} + {1} + {2}, c, []);
    forall e
      ensures RunEnding(days + {5} + {6}, e) <= 2
    {
      LongestAfterLoss(days, c, 5, 6, e);
    }
  }

  // ---- recovery ------------------------------------------------------------------------------

  /** Some later visit leaves a day out. */
  predicate LeavesGap(last: Day, visits: seq<Day>)
    decreases |visits|
  {
    visits != [] && (visits[0] > last + 1 || LeavesGap(visits[0], visits[1..]))
  }

  /**
   The streak counter over any later visits, however wrong it was: it is right at the end exactly when it was
   right before or some visit left a gap.
   */
  lemma {:induction false} CurrentRightIff(days: set<Day>, c: Counters, visits: seq<Day>)
    requires c.last.Some? && IsLatest(days, c.last) && NonDecreasingFrom(days, visits)
    ensures var days', c' := Recorded(days, visits), Counted(days, c, visits);
            && c'.last.Some? && IsLatest(days', c'.last)
            && (c'.current == RunEnding(days', c'.last.value) <==>
                c.current == RunEnding(days, c.last.value) || LeavesGap(c.last.value, visits))
    decreases |visits|
  {
    if visits != [] {
      var today, rest := visits[0], visits[1..];
      assert c.last.value <= today;
      assert forall k | 0 <= k < |rest| :: rest[k] == visits[k + 1];
      if today in days {
        assert days + {today} == days && today == c.last.value;
        CurrentRightIff(days, c, rest);
      } else {
        RunWithNewDay(days, today, today);
        CurrentRightIff(days + {today}, Bumped(days, c, today), rest);
      }
    }
  }

  function Max(a: int, b: int): int {
    if a >= b then a else b
  }

  ghost predicate GapFirst(c: Counters, visits: seq<Day>)
    requires c.last.Some?
  {
    visits != [] && visits[0] > c.last.value + 1
  }

  /** `n` is the longest run ending at a newly visited day, with 0 for no such day. */
  ghost predicate LongestNew(days: set<Day>, days': set<Day>, n: nat) {
    && days <= days'
    && (forall d | d !in days' - days :: RunEnding(days', d) == RunEnding(days, d))
    && (forall d | d in days' - days :: RunEnding(days', d) <= n)
    && (if n == 0 then days' == days else exists d :: d in days' - days && RunEnding(days', d) == n)
  }

  /** From a right streak, or with a gap first, the record is raised to the longest new run and no further. */
  lemma {:induction false} RecordOver(days: set<Day>, c: Counters, visits: seq<Day>) returns (n: nat)
    requires c.last.Some? && IsLatest(days, c.last) && NonDecreasingFrom(days, visits)
    requires c.current == RunEnding(days, c.last.value) || GapFirst(c, visits)
    ensures LongestNew(days, Recorded(days, visits), n)
    ensures Counted(days, c, visits).longest == if n == 0 then c.longest else Max(c.longest, n)
    decreases |visits|
  {
    if visits == [] {
      return 0;
    }
    var today, rest := visits[0], visits[1..];
    assert forall k | 0 <= k < |rest| :: rest[k] == visits[k + 1];
    assert c.last.value <= today;
    if today in days {
      assert days + {today} == days && today == c.last.value;
      n := RecordOver(days, c, rest);
    } else {
      var now, c' := days + {today}, Bumped(days, c, today);
      RunWithNewDay(days, today, today);
      var m := RecordOver(now, c', rest);
      n := LongestOfBoth(days, today, Recorded(now, rest), m);
    }
  }

  lemma LongestOfBoth(days: set<Day>, today: Day, days': set<Day>, m: nat) returns (n: nat)
    requires (forall e | e in days :: e < today) && LongestNew(days + {today}, days', m)
    ensures n == Max(RunEnding(days + {today}, today), m) > 0 && LongestNew(days, days', n)
  {
    var now := days + {today};
    n := Max(RunEnding(now, today), m);
    assert today in days' - days && RunEnding(days', today) == RunEnding(now, today) > 0;
    forall d | d !in days' - days
      ensures RunEnding(days', d) == RunEnding(days, d)
    {
      RunWithNewDay(days, today, d);
    }
    if RunEnding(now, today) < m {
      var d :| d in days' - now && RunEnding(days', d) == m;
      assert d in days' - days && RunEnding(days', d) == n;
    }
  }

  lemma LongestUnique(days: set<Day>, m: int, n: int)
    requires IsLongest(days, m) && IsLongest(days, n)
    ensures m == n
  {
    assert RunEnding(days, 0) >= 0;
  }

  lemma LongestAfter(days: set<Day>, days': set<Day>, t: int, n: nat)
    requires IsLongest(days, t) && LongestNew(days, days', n)
    ensures IsLongest(days', Max(t, n))
  {
    assert RunEnding(days, 0) >= 0;
    if Max(t, n) == t != 0 && n < t {
      var d :| RunEnding(days, d) == t;
      assert d in days && d !in days' - days;
    }
    forall d
      ensures RunEnding(days', d) <= Max(t, n)
    {
      assert d !in days' - days ==> RunEnding(days', d) == RunEnding(days, d);
    }
  }

  /** Some run ending at a newly visited day has at least `n` days. */
  ghost predicate Reaches(days: set<Day>, visits: seq<Day>, n: int) {
    var days' := Recorded(days, visits);
    exists d :: d in days' - days && RunEnding(days', d) >= n
  }

  /**
   Recovery over any later visits, from a right streak or with a gap first: all three counters are right at the end
   exactly when the record was right, with `t` the longest run before, or a run ending at a newly visited day has
   reached both the stored record and the true one.
   */
  lemma RecoversIff(days: set<Day>, c: Counters, t: int, visits: seq<Day>)
    requires c.last.Some? && IsLatest(days, c.last) && IsLongest(days, t) && NonDecreasingFrom(days, visits)
    requires c.current == RunEnding(days, c.last.value) || GapFirst(c, visits)
    ensures Truthful(Recorded(days, visits), Counted(days, c, visits)) <==>
            c.longest == t || Reaches(days, visits, Max(c.longest, t))
  {
    var days', c' := Recorded(days, visits), Counted(days, c, visits);
    var n := RecordOver(days, c, visits);
    LongestAfter(days, days', t, n);
    CurrentRightIff(days, c, visits);
    assert RunEnding(days, c.last.value) >= 1;
    assert Reaches(days, visits, Max(c.longest, t)) <==> n > 0 && n >= Max(c.longest, t);
    if IsLongest(days', c'.longest) {
      LongestUnique(days', c'.longest, Max(t, n));
    }
  }

  /** The visits before the first gap reach `m` days past `last`. */
  function Unbroken(last: Day, visits: seq<Day>): int
    decreases |visits|
  {
    if visits == [] || visits[0] > last + 1 then 0 else visits[0] - last + Unbroken(visits[0], visits[1..])
  }

  /** The day after the last one makes the run ending there one longer. */
  lemma NextDay(days: set<Day>, t: int, last: Day)
    requires IsLatest(days, Some(last)) && IsLongest(days, t)
    ensures var n := RunEnding(days, last) + 1;
            RunEnding(days + {last + 1}, last + 1) == n && IsLongest(days + {last + 1}, Max(t, n))
  {
    var days', n := days + {last + 1}, RunEnding(days, last) + 1;
    forall d
      ensures RunEnding(days', d) == if d == last + 1 then n else RunEnding(days, d)
    {
      RunWithNewDay(days, last + 1, d);
    }
    assert LongestNew(days, days', n) by {
      assert last + 1 in days' - days && RunEnding(days', last + 1) == n;
    }
    LongestAfter(days, days', t, n);
  }

  lemma {:induction false} RecordedAfter(days: set<Day>, visits: seq<Day>, gap: Day)
    requires forall k | 0 <= k < |visits| :: gap < visits[k]
    ensures days <= Recorded(days, visits) && forall d | d in Recorded(days, visits) - days :: gap < d
    decreases |visits|
  {
    if visits != [] {
      var now, rest := days + {visits[0]}, visits[1..];
      RecordedAfter(now, rest, gap);
      forall d | d in Recorded(days, visits) - days
        ensures gap < d
      {
        assert d in Recorded(now, rest) - now || d == visits[0];
      }
    }
  }

  /** Some run ending after `last` has at least `n` days. */
  ghost predicate ReachesAfter(days: set<Day>, last: Day, n: int) {
    exists d :: d > last && RunEnding(days, d) >= n
  }

  lemma ReachesIff(days: set<Day>, c: Counters, visits: seq<Day>, n: int)
    requires c.last.Some? && IsLatest(days, c.last) && NonDecreasingFrom(days, visits) && GapFirst(c, visits) && n >= 1
    ensures Reaches(days, visits, n) <==> ReachesAfter(Recorded(days, visits), c.last.value, n)
  {
    var end := Recorded(days, visits);
    assert forall k | 0 <= k < |visits| :: c.last.value < visits[k];
    RecordedAfter(days, visits, c.last.value);
    forall d
      ensures d in end - days && RunEnding(end, d) >= n <==> d > c.last.value && RunEnding(end, d) >= n
    {
    }
  }

  /** What `m` further days in a row make of the record beside a streak, right or wrong. */
  function Raised(longest: int, current: int, m: int): int {
    if m <= 0 then longest else Max(longest, current + m)
  }

  /**
   What a wrong streak `current` beside a true one `streak` needs: some visit leaves a gap, and the record, as the wrong
   streak has left it by that gap, is right or reached together with the true one `t` by a run after the gap.
   */
  ghost predicate Heals(last: Day, current: int, longest: int, streak: int, t: int, visits: seq<Day>, end: set<Day>) {
    var m := Unbroken(last, visits);
    var stored, truth := Raised(longest, current, m), Raised(t, streak, m);
    LeavesGap(last, visits) && (stored == truth || ReachesAfter(end, last + m, Max(stored, truth)))
  }

  ghost predicate RecoversAsHealed(days: set<Day>, c: Counters, t: int, visits: seq<Day>) {
    && c.last.Some?
    && var streak, end := RunEnding(days, c.last.value), Recorded(days, visits);
       Truthful(end, Counted(days, c, visits)) <==> Heals(c.last.value, c.current, c.longest, streak, t, visits, end)
  }

  ghost predicate Before(days: set<Day>, c: Counters, t: int, visits: seq<Day>) {
    c.last.Some? && IsLatest(days, c.last) && IsLongest(days, t) && NonDecreasingFrom(days, visits)
  }

  /** With a gap first it is the condition of `RecoversIff`. */
  lemma HealsAtGap(days: set<Day>, c: Counters, t: int, visits: seq<Day>)
    requires Before(days, c, t, visits) && GapFirst(c, visits)
    ensures RecoversAsHealed(days, c, t, visits)
  {
    assert t >= RunEnding(days, c.last.value) >= 1;
    RecoversIff(days, c, t, visits);
    ReachesIff(days, c, visits, Max(c.longest, t));
  }

  lemma HealsAgain(days: set<Day>, c: Counters, t: int, visits: seq<Day>)
    requires Before(days, c, t, visits) && visits != [] && visits[0] == c.last.value
    requires RecoversAsHealed(days, c, t, visits[1..])
    ensures RecoversAsHealed(days, c, t, visits)
  {
    assert days + {visits[0]} == days;
  }

  /** A visit on the next day changes nothing in the condition. */
  lemma HealsNext(days: set<Day>, c: Counters, t: int, visits: seq<Day>)
    requires Before(days, c, t, visits) && visits != [] && visits[0] == c.last.value + 1
    requires var now, n := days + {visits[0]}, RunEnding(days, c.last.value) + 1;
             RunEnding(now, visits[0]) == n && RecoversAsHealed(now, Bumped(days, c, visits[0]), Max(t, n), visits[1..])
    ensures RecoversAsHealed(days, c, t, visits)
  {
    var last, rest := c.last.value, visits[1..];
    assert forall k | 0 <= k < |rest| :: rest[k] == visits[k + 1];
    UnbrokenNonNegative(last + 1, rest);
    assert Unbroken(last, visits) == 1 + Unbroken(last + 1, rest);
  }

  /** Recovery of a wrong streak over any later visits, with `t` the longest run before. */
  lemma {:induction false} WrongStreakRecoversIff(days: set<Day>, c: Counters, t: int, visits: seq<Day>)
    requires Before(days, c, t, visits) && c.current != RunEnding(days, c.last.value)
    ensures RecoversAsHealed(days, c, t, visits)
    decreases |visits|
  {
    var last := c.last.value;
    if visits == [] {
      return;
    }
    var today, rest := visits[0], visits[1..];
    assert forall k | 0 <= k < |rest| :: rest[k] == visits[k + 1];
    if today > last + 1 {
      HealsAtGap(days, c, t, visits);
    } else if today in days {
      WrongStreakRecoversIff(days, c, t, rest);
      HealsAgain(days, c, t, visits);
    } else {
      NextDay(days, t, last);
      WrongStreakRecoversIff(days + {today}, Bumped(days, c, today), Max(t, RunEnding(days, last) + 1), rest);
      HealsNext(days, c, t, visits);
    }
  }

  lemma {:induction false} UnbrokenNonNegative(last: Day, visits: seq<Day>)
    requires forall j, k | 0 <= j < k < |visits| :: visits[j] <= visits[k]
    requires visits != [] ==> last <= visits[0]
    ensures Unbroken(last, visits) >= 0
    decreases |visits|
  {
    if visits != [] && visits[0] <= last + 1 {
      var rest := visits[1..];
      assert forall k | 0 <= k < |rest| :: rest[k] == visits[k + 1];
      UnbrokenNonNegative(visits[0], rest);
    }
  }
}
