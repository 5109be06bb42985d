/**
 Tag resolution: `find_or_create_many` turns a list of names into tag rows under a
 case-insensitive collation.  The collation is a parameter: two names collide in the
 database exactly when it maps them to the same key.
 */
module Tags {
  import opened Options
  import opened Bytes

  type Name = ByteString

  type Collation = Name -> ByteString

  datatype TagRow = TagRow(id: int, name: Name)

  // ---- names --------------------------------------------------------------------------

  predicate IsBlank(b: Byte) {
    b == 32 || b == 9
  }

  function TrimStart(s: Name): Name {
    if s != [] && IsBlank(s[0]) then TrimStart(s[1..]) else s
  }

  function TrimEnd(s: Name): Name {
    if s != [] && IsBlank(s[|s| - 1]) then TrimEnd(s[..|s| - 1]) else s
  }

  function Trim(s: Name): Name {
    TrimEnd(TrimStart(s))
  }

  /** What remains is the part between the outer blanks, and only blanks were removed. */
  lemma {:induction false} TrimStartMeaning(s: Name) returns (n: nat)
    ensures n <= |s| && TrimStart(s) == s[n..]
    ensures forall k | 0 <= k < n :: IsBlank(s[k])
    ensures n < |s| ==> !IsBlank(s[n])
  {
    n := 0;
    if s != [] && IsBlank(s[0]) {
      var m := TrimStartMeaning(s[1..]);
      n := m + 1;
      assert forall k | 1 <= k < n :: s[k] == s[1..][k - 1];
    }
  }

  lemma {:induction false} TrimEndMeaning(s: Name) returns (n: nat)
    ensures n <= |s| && TrimEnd(s) == s[..n]
    ensures forall k | n <= k < |s| :: IsBlank(s[k])
    ensures n > 0 ==> !IsBlank(s[n - 1])
  {
    n := |s|;
    if s != [] && IsBlank(s[|s| - 1]) {
      n := TrimEndMeaning(s[..|s| - 1]);
    }
  }

  lemma TrimMeaning(s: Name) returns (begin: nat, end: nat)
    ensures begin <= end <= |s| && Trim(s) == s[begin..end]
    ensures forall k | 0 <= k < |s| && !(begin <= k < end) :: s[k] in {9, 32}
    ensures Trim(s) != [] ==> Trim(s)[0] !in {9, 32} && Trim(s)[|Trim(s)| - 1] !in {9, 32}
  {
    begin := TrimStartMeaning(s);
    var n := TrimEndMeaning(s[begin..]);
    end := begin + n;
    assert forall k | begin <= k < |s| :: s[k] == s[begin..][k - begin];
  }

  method TrimTagName(name: Name) returns (r: Name)
    ensures r == Trim(name)
  {
    var begin, end := 0, |name|;
    assert name[0..] == name;
    while begin < end && IsBlank(name[begin])
      invariant 0 <= begin <= end == |name|
      invariant TrimStart(name[begin..]) == TrimStart(name)
    {
      assert name[begin..][0] == name[begin] && name[begin..][1..] == name[begin + 1..];
      begin := begin + 1;
    }
    ghost var rest := name[begin..];
    assert rest == TrimStart(name);
    assert name[begin..end] == rest;
    while end > begin && IsBlank(name[end - 1])
      invariant begin <= end <= |name|
      invariant TrimEnd(name[begin..end]) == TrimEnd(rest)
    {
      ghost var left := name[begin..end];
      assert left[|left| - 1] == name[end - 1] && left[..|left| - 1] == name[begin..end - 1];
      end := end - 1;
    }
    r := name[begin..end];
  }

  predicate ValidTagName(s: Name) {
    && 1 <= |s| <= 50
    && !IsBlank(s[0]) && !IsBlank(s[|s| - 1])
    && forall k | 0 <= k < |s| :: s[k] >= 0x20 && s[k] != 0x7F
  }

  method ValidateTagName(s: Name) returns (ok: bool)
    ensures ok <==> ValidTagName(s)
    ensures ok <==> 1 <= |s| <= 50 && s[0] !in {9, 32} && s[|s| - 1] !in {9, 32} &&
                    forall k | 0 <= k < |s| :: s[k] >= 32 && s[k] != 127
  {
    if |s| < 1 || |s| > 50 {
      return false;
    }
    if s[0] == 32 || s[|s| - 1] == 32 || s[0] == 9 || s[|s| - 1] == 9 {
      return false;
    }
    for i := 0 to |s|
      invariant forall k | 0 <= k < i :: s[k] >= 0x20 && s[k] != 0x7F
    {
      if s[i] < 0x20 || s[i] == 0x7F {
        return false;
      }
    }
    ok := true;
  }

  // ---- the table ---------------------------------------------------------------------------

  predicate SameClass(fold: Collation, a: Name, b: Name) {
    fold(a) == fold(b)
  }

  ghost predicate OnePerClass(fold: Collation, rows: seq<TagRow>) {
    forall i, j | 0 <= i < j < |rows| :: !SameClass(fold, rows[i].name, rows[j].name)
  }

  ghost predicate FreshIds(rows: seq<TagRow>, nextId: int) {
    && (forall i | 0 <= i < |rows| :: rows[i].id < nextId)
    && (forall i, j | 0 <= i < j < |rows| :: rows[i].id != rows[j].id)
  }

  predicate HasClass(fold: Collation, rows: seq<TagRow>, name: Name) {
    exists i | 0 <= i < |rows| :: SameClass(fold, rows[i].name, name)
  }

  /** One name of an INSERT IGNORE: skipped when its class is taken. */
  function InsertedOne(fold: Collation, rows: seq<TagRow>, id: int, name: Name): seq<TagRow> {
    if HasClass(fold, rows, name) then rows else rows + [TagRow(id, name)]
  }

  /** One multi-row INSERT IGNORE. */
  function Inserted(fold: Collation, rows: seq<TagRow>, nextId: int, names: seq<Name>): seq<TagRow> {
    if names == [] then rows
    else
      var before := Inserted(fold, rows, nextId, names[..|names| - 1]);
      InsertedOne(fold, before, nextId + |before| - |rows|, names[|names| - 1])
  }

  /** The row at `k` was added for the first name of a class the table did not have. */
  ghost predicate AddedFor(fold: Collation, rows: seq<TagRow>, names: seq<Name>, row: TagRow, j: int) {
    && 0 <= j < |names| && row.name == names[j] && !HasClass(fold, rows, names[j])
    && forall i | 0 <= i < j :: !SameClass(fold, names[i], names[j])
  }

  ghost predicate AddedForSome(fold: Collation, rows: seq<TagRow>, names: seq<Name>, row: TagRow) {
    exists j | 0 <= j < |names| :: AddedFor(fold, rows, names, row, j)
  }

  lemma HasClassGrows(fold: Collation, rows: seq<TagRow>, more: seq<TagRow>, name: Name)
    requires rows <= more && HasClass(fold, rows, name)
    ensures HasClass(fold, more, name)
  {
    var i :| 0 <= i < |rows| && SameClass(fold, rows[i].name, name);
    assert more[i] == rows[i];
  }

  /** `after` is `rows` with exactly the missing classes of `names` added, the first spelling of each winning. */
  ghost predicate Completes(fold: Collation, rows: seq<TagRow>, names: seq<Name>, after: seq<TagRow>) {
    && rows <= after
    && OnePerClass(fold, after)
    && (forall j | 0 <= j < |names| :: HasClass(fold, after, names[j]))
    && (forall k | |rows| <= k < |after| :: AddedForSome(fold, rows, names, after[k]))
  }

  /** A class missing after the earlier names were inserted is none of theirs and none of the old ones. */
  lemma NewClass(fold: Collation, rows: seq<TagRow>, before: seq<TagRow>, earlier: seq<Name>, name: Name)
    requires rows <= before && !HasClass(fold, before, name)
    requires forall j | 0 <= j < |earlier| :: HasClass(fold, before, earlier[j])
    ensures !HasClass(fold, rows, name)
    ensures forall j | 0 <= j < |earlier| :: !SameClass(fold, earlier[j], name)
  {
    if HasClass(fold, rows, name) {
      HasClassGrows(fold, rows, before, name);
    }
    forall j | 0 <= j < |earlier|
      ensures !SameClass(fold, earlier[j], name)
    {
      var i :| 0 <= i < |before| && SameClass(fold, before[i].name, earlier[j]);
      assert !SameClass(fold, before[i].name, name);
    }
  }

  lemma SkipOne(fold: Collation, rows: seq<TagRow>, earlier: seq<Name>, name: Name, before: seq<TagRow>)
    requires Completes(fold, rows, earlier, before) && HasClass(fold, before, name)
    ensures Completes(fold, rows, earlier + [name], before)
  {
    var names := earlier + [name];
    forall k | |rows| <= k < |before|
      ensures AddedForSome(fold, rows, names, before[k])
    {
      AddedForMore(fold, rows, earlier, name, before[k]);
    }
  }

  lemma AddedForMore(fold: Collation, rows: seq<TagRow>, earlier: seq<Name>, name: Name, row: TagRow)
    requires AddedForSome(fold, rows, earlier, row)
    ensures AddedForSome(fold, rows, earlier + [name], row)
  {
    var j :| 0 <= j < |earlier| && AddedFor(fold, rows, earlier, row, j);
    assert AddedFor(fold, rows, earlier + [name], row, j);
  }

  lemma AddOne(fold: Collation, rows: seq<TagRow>, earlier: seq<Name>, name: Name, before: seq<TagRow>, row: TagRow)
    requires Completes(fold, rows, earlier, before) && !HasClass(fold, before, name) && row.name == name
    ensures Completes(fold, rows, earlier + [name], before + [row])
  {
    var names, after := earlier + [name], before + [row];
    forall j | 0 <= j < |names|
      ensures HasClass(fold, after, names[j])
    {
      if j < |earlier| {
        HasClassGrows(fold, before, after, names[j]);
      } else {
        assert SameClass(fold, after[|before|].name, name);
      }
    }
    forall k | |rows| <= k < |after|
      ensures AddedForSome(fold, rows, names, after[k])
    {
      if k < |before| {
        AddedForMore(fold, rows, earlier, name, before[k]);
      } else {
        NewClass(fold, rows, before, earlier, name);
        assert AddedFor(fold, rows, names, after[k], |earlier|);
      }
    }
  }

  lemma CompletesOneMore(fold: Collation, rows: seq<TagRow>, earlier: seq<Name>, name: Name, before: seq<TagRow>,
                         id: int,
                         names: seq<Name>, after: seq<TagRow>)
    requires Completes(fold, rows, earlier, before)
    requires names == earlier + [name] && after == InsertedOne(fold, before, id, name)
    ensures Completes(fold, rows, names, after)
  {
    if HasClass(fold, before, name) {
      SkipOne(fold, rows, earlier, name, before);
    } else {
      AddOne(fold, rows, earlier, name, before, TagRow(id, name));
    }
  }

  /** Inserting completes the table, never renaming or renumbering an old row. */
  lemma {:induction false} InsertedCompletes(fold: Collation, rows: seq<TagRow>, nextId: int, names: seq<Name>,
                                             after: seq<TagRow>)
    requires OnePerClass(fold, rows) && after == Inserted(fold, rows, nextId, names)
    ensures Completes(fold, rows, names, after)
  {
    if names != [] {
      var earlier, name := names[..|names| - 1], names[|names| - 1];
      var before := Inserted(fold, rows, nextId, earlier);
      InsertedCompletes(fold, rows, nextId, earlier, before);
      CompletesOneMore(fold, rows, earlier, name, before, nextId + |before| - |rows|, names, after);
    }
  }

  // ---- the resolver --------------------------------------------------------------------------

  datatype Resolution = Resolved(rows: seq<TagRow>) | BadName(index: nat) | Unresolvable(index: nat)

  function TrimAll(names: seq<Name>): seq<Name> {
    seq(|names|, k requires 0 <= k < |names| => Trim(names[k]))
  }

  ghost predicate AllValid(names: seq<Name>) {
    forall k | 0 <= k < |names| :: ValidTagName(Trim(names[k]))
  }

  /** The spelling the table holds for the name's class is the name itself. */
  predicate Canonical(fold: Collation, rows: seq<TagRow>, name: Name) {
    exists i | 0 <= i < |rows| :: SameClass(fold, rows[i].name, name) && rows[i].name == name
  }

  /** The name's class is asked for. */
  predicate Asked(fold: Collation, names: seq<Name>, name: Name) {
    exists j | 0 <= j < |names| :: SameClass(fold, name, names[j])
  }

  /** `i` is the first name that is not valid. */
  ghost predicate FirstBad(names: seq<Name>, i: nat) {
    i < |names| && !ValidTagName(Trim(names[i])) && AllValid(names[..i])
  }

  /** `i` is the first name whose class is stored under another spelling. */
  ghost predicate FirstForeign(fold: Collation, rows: seq<TagRow>, names: seq<Name>, i: nat) {
    i < |names| && !Canonical(fold, rows, names[i]) && forall k | 0 <= k < i :: Canonical(fold, rows, names[k])
  }

  /**
   What decides, before the call, whether a name of the batch will be resolved: the table has its class
   under this very spelling, or it has not got the class and the batch spells it no other way.
   */
  predicate WillResolve(fold: Collation, rows: seq<TagRow>, names: seq<Name>, name: Name) {
    if HasClass(fold, rows, name) then Canonical(fold, rows, name)
    else forall j | 0 <= j < |names| && SameClass(fold, names[j], name) :: names[j] == name
  }

  ghost predicate AllCanonical(fold: Collation, rows: seq<TagRow>, names: seq<Name>) {
    forall k | 0 <= k < |names| :: Canonical(fold, rows, names[k])
  }

  ghost predicate AllWillResolve(fold: Collation, rows: seq<TagRow>, names: seq<Name>) {
    forall k | 0 <= k < |names| :: WillResolve(fold, rows, names, names[k])
  }

  class TagTable {
    const fold: Collation
    var rows: seq<TagRow>
    var nextId: int

    constructor (fold: Collation)
      ensures this.fold == fold && rows == [] && Valid()
    {
      this.fold, rows, nextId := fold, [], 1;
    }

    ghost predicate Valid()
      reads this
    {
      OnePerClass(fold, rows) && FreshIds(rows, nextId)
    }

    method InsertOne(name: Name)
      requires Valid()
      modifies this
      ensures Valid() && rows == old(rows) + if HasClass(fold, old(rows), name) then [] else [TagRow(old(nextId), name)]
      ensures nextId == old(nextId) + |rows| - |old(rows)|
    {
      if !HasClass(fold, rows, name) {
        rows := rows + [TagRow(nextId, name)];
        nextId := nextId + 1;
      }
    }

    method InsertIgnore(names: seq<Name>)
      requires Valid()
      modifies this
      ensures Valid()
      ensures rows == Inserted(fold, old(rows), old(nextId), names)
    {
      ghost var base, first := rows, nextId;
      assert names[..0] == [];
      for i := 0 to |names|
        invariant rows == Inserted(fold, base, first, names[..i]) && nextId == first + |rows| - |base|
        invariant Valid()
      {
        InsertedNext(fold, base, first, names, i);
        InsertOne(names[i]);
      }
      assert names[..|names|] == names;
    }

    /** `SELECT ... WHERE name IN (...)`, keyed by stored spelling. */
    method SelectByName(names: seq<Name>) returns (byName: map<Name, TagRow>)
      requires Valid()
      ensures forall n | n in byName :: byName[n] in rows && byName[n].name == n && Asked(fold, names, n)
      ensures forall i | 0 <= i < |rows| && Asked(fold, names, rows[i].name) :: rows[i].name in byName
    {
      byName := map[];
      for i := 0 to |rows|
        invariant forall n | n in byName :: byName[n] in rows && byName[n].name == n && Asked(fold, names, n)
        invariant forall k | 0 <= k < i && Asked(fold, names, rows[k].name) :: rows[k].name in byName
      {
        if Asked(fold, names, rows[i].name) && rows[i].name !in byName {
          byName := byName[rows[i].name := rows[i]];
        }
      }
    }

    /** The rows for the names in input order, or the first name whose spelling is not the stored one. */
    method Collect(trimmed: seq<Name>, byName: map<Name, TagRow>) returns (r: Resolution)
      requires Valid()
      requires forall n | n in byName :: byName[n] in rows && byName[n].name == n
      requires forall i | 0 <= i < |rows| && Asked(fold, trimmed, rows[i].name) :: rows[i].name in byName
      ensures !r.BadName? && (r.Unresolvable? ==> FirstForeign(fold, rows, trimmed, r.index))
      ensures r.Resolved? <==> AllCanonical(fold, rows, trimmed)
      ensures r.Resolved? ==>
                && |r.rows| == |trimmed|
                && forall k | 0 <= k < |trimmed| :: r.rows[k] in rows && r.rows[k].name == trimmed[k]
    {
      var out: seq<TagRow> := [];
      for i := 0 to |trimmed|
        invariant |out| == i
        invariant forall k | 0 <= k < i :: out[k] in rows && out[k].name == trimmed[k] &&
                    Canonical(fold, rows, trimmed[k])
      {
        var n := trimmed[i];
        if n !in byName {
          assert SameClass(fold, n, trimmed[i]) && Asked(fold, trimmed, n);
          assert !Canonical(fold, rows, n);
          return Unresolvable(i);
        }
        assert Canonical(fold, rows, n) by {
          var k :| 0 <= k < |rows| && rows[k] == byName[n];
          assert SameClass(fold, rows[k].name, n);
        }
        out := out + [byName[n]];
      }
      r := Resolved(out);
    }

    /**
     Either an invalid name rejects the whole batch and the table is untouched, or the missing classes
     are added, and the call succeeds exactly when every trimmed name is its class's stored spelling.
     */
    method FindOrCreateMany(names: seq<Name>) returns (r: Resolution)
      requires Valid()
      modifies this
      ensures Valid()
      ensures r.BadName? <==> !AllValid(names)
      ensures r.BadName? ==> rows == old(rows) && FirstBad(names, r.index)
      ensures r.Unresolvable? ==> FirstForeign(fold, rows, TrimAll(names), r.index)
      ensures !r.BadName? ==> Completes(fold, old(rows), TrimAll(names), rows)
      ensures r.Resolved? <==> AllValid(names) && AllCanonical(fold, rows, TrimAll(names))
      ensures r.Resolved? <==> AllValid(names) && AllWillResolve(fold, old(rows), TrimAll(names))
      ensures r.Resolved? ==>
                && |r.rows| == |names|
                && forall k | 0 <= k < |names| :: r.rows[k] in rows && r.rows[k].name == TrimAll(names)[k]
    {
      var trimmed, bad := TrimAndValidate(names);
      if bad.Some? {
        return BadName(bad.value);
      }
      InsertIgnore(trimmed);
      InsertedCompletes(fold, old(rows), old(nextId), trimmed, rows);
      ResolvedIff(fold, old(rows), trimmed, rows);
      var byName := SelectByName(trimmed);
      r := Collect(trimmed, byName);
    }
  }

  method TrimAndValidate(names: seq<Name>) returns (trimmed: seq<Name>, bad: Option<nat>)
    ensures bad.Some? <==> !AllValid(names)
    ensures bad.Some? ==> FirstBad(names, bad.value)
    ensures bad.None? ==> trimmed == TrimAll(names)
  {
    trimmed, bad := [], None;
    for i := 0 to |names|
      invariant trimmed == TrimAll(names)[..i]
      invariant forall k | 0 <= k < i :: ValidTagName(Trim(names[k]))
    {
      var t := TrimTagName(names[i]);
      var ok := ValidateTagName(t);
      if !ok {
        bad := Some(i);
        return;
      }
      trimmed := trimmed + [t];
    }
  }

  lemma InsertedNext(fold: Collation, rows: seq<TagRow>, nextId: int, names: seq<Name>, i: nat)
    requires i < |names|
    ensures var before := Inserted(fold, rows, nextId, names[..i]);
            Inserted(fold, rows, nextId, names[..i + 1]) ==
            InsertedOne(fold, before, nextId + |before| - |rows|, names[i])
  {
    assert names[..i + 1][..i] == names[..i];
  }

  /** The one row a class has decides which of its spellings is canonical. */
  lemma CanonicalIs(fold: Collation, rows: seq<TagRow>, name: Name, i: nat)
    requires OnePerClass(fold, rows) && i < |rows| && SameClass(fold, rows[i].name, name)
    ensures Canonical(fold, rows, name) <==> rows[i].name == name
  {
    if Canonical(fold, rows, name) {
      var k :| 0 <= k < |rows| && SameClass(fold, rows[k].name, name) && rows[k].name == name;
      assert k == i;
    }
  }

  /** A class the table had keeps its spelling. */
  lemma OldClassKept(fold: Collation, rows: seq<TagRow>, names: seq<Name>, after: seq<TagRow>, name: Name)
    requires OnePerClass(fold, rows) && Completes(fold, rows, names, after) && HasClass(fold, rows, name)
    ensures Canonical(fold, after, name) <==> Canonical(fold, rows, name)
  {
    var i :| 0 <= i < |rows| && SameClass(fold, rows[i].name, name);
    assert after[i] == rows[i];
    CanonicalIs(fold, rows, name, i);
    CanonicalIs(fold, after, name, i);
  }

  /** A class the table had not got is stored under one of the batch's spellings. */
  lemma NewClassStored(fold: Collation, rows: seq<TagRow>, names: seq<Name>, after: seq<TagRow>, k: nat)
    returns (i: nat, j: nat)
    requires Completes(fold, rows, names, after) && k < |names| && !HasClass(fold, rows, names[k])
    ensures i < |after| && j < |names| && after[i].name == names[j] && SameClass(fold, names[j], names[k])
  {
    assert forall i | 0 <= i < |rows| :: rows[i] == after[i];
    assert HasClass(fold, after, names[k]);
    var r :| 0 <= r < |after| && SameClass(fold, after[r].name, names[k]);
    assert AddedForSome(fold, rows, names, after[r]);
    var a :| 0 <= a < |names| && AddedFor(fold, rows, names, after[r], a);
    i, j := r, a;
  }

  /** Exactly which batches are resolved, told from the table and the batch before the call. */
  lemma ResolvedIff(fold: Collation, rows: seq<TagRow>, names: seq<Name>, after: seq<TagRow>)
    requires OnePerClass(fold, rows) && Completes(fold, rows, names, after)
    ensures AllCanonical(fold, after, names) <==> AllWillResolve(fold, rows, names)
  {
    forall k | 0 <= k < |names|
      ensures AllCanonical(fold, after, names) ==> WillResolve(fold, rows, names, names[k])
      ensures AllWillResolve(fold, rows, names) ==> Canonical(fold, after, names[k])
    {
      if HasClass(fold, rows, names[k]) {
        OldClassKept(fold, rows, names, after, names[k]);
      } else {
        var i, j := NewClassStored(fold, rows, names, after, k);
        CanonicalIs(fold, after, names[k], i);
        assert AllWillResolve(fold, rows, names) ==> WillResolve(fold, rows, names, names[k]);
        forall m | 0 <= m < |names| && SameClass(fold, names[m], names[k])
          ensures AllCanonical(fold, after, names) ==> names[m] == names[k]
        {
          CanonicalIs(fold, after, names[m], i);
        }
      }
    }
  }

  /** Two spellings of a class not stored yet: the first is stored, and the call fails on the second. */
  lemma TwoSpellingsFail(fold: Collation, a: Name, b: Name, after: seq<TagRow>)
    requires SameClass(fold, a, b) && a != b && Completes(fold, [], [a, b], after)
    ensures FirstForeign(fold, after, [a, b], 1)
  {
    var i, j := NewClassStored(fold, [], [a, b], after, 0);
    assert AddedForSome(fold, [], [a, b], after[i]);
    var m :| 0 <= m < 2 && AddedFor(fold, [], [a, b], after[i], m);
    CanonicalIs(fold, after, a, i);
    CanonicalIs(fold, after, b, i);
  }

  /** A name whose class was already stored under another spelling is never resolved, and adds nothing. */
  lemma OtherSpellingFails(fold: Collation, rows: seq<TagRow>, names: seq<Name>, after: seq<TagRow>, name: Name, i: nat)
    requires OnePerClass(fold, rows) && Completes(fold, rows, names, after)
    requires i < |rows| && SameClass(fold, rows[i].name, name) && rows[i].name != name
    ensures !Canonical(fold, after, name)
  {
    assert after[i] == rows[i];
  }
}
