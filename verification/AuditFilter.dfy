/**
 The audit log's filter compiler: an optional-field filter becomes WHERE text plus bind lists, and
 the text is given back its meaning by a small reader of SQL conditions.  Then counting and paging.
 A string's characters stand for bytes.
 */
module AuditFilter {
  import opened Options
  import opened Sequences

  /** `limit` and `offset` as the caller gave them. */
  datatype Filter = Filter(
    adminId: Option<int>, action: Option<string>, targetType: Option<string>, targetId: Option<string>,
    since: Option<string>, until: Option<string>, limit: int, offset: int)

  /** A row's nullable columns are options; `createdAt` counts seconds. */
  datatype Row = Row(
    id: int, adminId: Option<int>, action: string, targetType: Option<string>, targetId: Option<string>, createdAt: int)

  /** What the database decides: which texts its collation equates, and which texts it reads as times. */
  datatype Db = Db(fold: string -> string, time: string -> Option<int>)

  datatype Value = IntValue(i: int) | StrValue(s: string)

  datatype WhereClause = WhereClause(text: string, boundInt: seq<int>, boundStr: seq<string>)

  /** A time failed the shape check, or the database could not read it. */
  datatype Error = Misshapen(field: string) | Unreadable

  datatype Result<T> = Ok(value: T) | Err(error: Error)

  // ---- the meaning of a condition ---------------------------------------------------------

  datatype Column = AdminId | Action | TargetType | TargetId | CreatedAt

  datatype Op = Equal | AtLeast | Below

  datatype Condition = Condition(column: Column, op: Op)

  /** The length of the word at the front of a text. */
  function WordLength(t: string): (n: nat)
    ensures n <= |t|
    ensures t != "" && t[0] != ' ' ==> n > 0
  {
    if t == "" || t[0] == ' ' then 0 else 1 + WordLength(t[1..])
  }

  /** The words of a text. */
  function Words(t: string): seq<string>
    decreases |t|
  {
    if t == "" then []
    else if t[0] == ' ' then Words(t[1..])
    else [t[..WordLength(t)]] + Words(t[WordLength(t)..])
  }

  function ColumnNamed(word: string): Option<Column> {
    match word
    case "admin_id" => Some(AdminId)
    case "action" => Some(Action)
    case "target_type" => Some(TargetType)
    case "target_id" => Some(TargetId)
    case "created_at" => Some(CreatedAt)
    case _ => None
  }

  function OpNamed(word: string): Option<Op> {
    match word
    case "=" => Some(Equal)
    case ">=" => Some(AtLeast)
    case "<" => Some(Below)
    case _ => None
  }

  /** Reads `WHERE column op ? AND column op ? ...`; no words are no condition. */
  function ReadWhere(words: seq<string>): Option<seq<Condition>> {
    if words == [] then Some([])
    else if |words| < 4 then None
    else
      var n := |words| - 4;
      var before := ReadWhere(words[..n]);
      var column := ColumnNamed(words[n + 1]);
      var op := OpNamed(words[n + 2]);
      if before.Some? && words[n] == (if n == 0 then "WHERE" else "AND") && column.Some? && op.Some? &&
        words[n + 3] == "?"
      then Some(before.value + [Condition(column.value, op.value)])
      else None
  }

  /** The database can compare this column so with this value. */
  predicate Comparable(db: Db, c: Condition, v: Value) {
    match c.column
    case AdminId => c.op == Equal && v.IntValue?
    case CreatedAt => v.StrValue? && db.time(v.s).Some?
    case _ => c.op == Equal && v.StrValue?
  }

  /** A comparison with NULL does not hold. */
  predicate Holds(db: Db, c: Condition, v: Value, row: Row)
    requires Comparable(db, c, v)
  {
    match c.column
    case AdminId => row.adminId == Some(v.i)
    case Action => db.fold(row.action) == db.fold(v.s)
    case TargetType => row.targetType.Some? && db.fold(row.targetType.value) == db.fold(v.s)
    case TargetId => row.targetId.Some? && db.fold(row.targetId.value) == db.fold(v.s)
    case CreatedAt =>
      var t := db.time(v.s).value;
      match c.op case Equal => row.createdAt == t case AtLeast => row.createdAt >= t case Below => row.createdAt < t
  }

  /** Every placeholder has a value it can be compared with. */
  predicate Bound(db: Db, conditions: seq<Condition>, values: seq<Value>) {
    |conditions| == |values| && forall k | 0 <= k < |conditions| :: Comparable(db, conditions[k], values[k])
  }

  predicate HoldsAll(db: Db, conditions: seq<Condition>, values: seq<Value>, row: Row)
    requires Bound(db, conditions, values)
  {
    forall k | 0 <= k < |conditions| :: Holds(db, conditions[k], values[k], row)
  }

  // ---- what a filter asks for -------------------------------------------------------------

  predicate TimeWithin(db: Db, f: Filter, t: int)
    requires TimesReadable(db, f)
  {
    && (f.since.Some? ==> t >= db.time(f.since.value).value)
    && (f.until.Some? ==> t < db.time(f.until.value).value)
  }

  predicate TimesReadable(db: Db, f: Filter) {
    && (f.since.Some? ==> db.time(f.since.value).Some?)
    && (f.until.Some? ==> db.time(f.until.value).Some?)
  }

  predicate SameText(db: Db, wanted: Option<string>, stored: Option<string>) {
    wanted.Some? ==> stored.Some? && db.fold(stored.value) == db.fold(wanted.value)
  }

  predicate Meets(db: Db, f: Filter, row: Row)
    requires TimesReadable(db, f)
  {
    && (f.adminId.Some? ==> row.adminId == f.adminId)
    && SameText(db, f.action, Some(row.action))
    && SameText(db, f.targetType, row.targetType)
    && SameText(db, f.targetId, row.targetId)
    && TimeWithin(db, f, row.createdAt)
  }

  const MIN_DATETIME := 10
  const MAX_DATETIME := 19

  predicate ControlFree(s: string) {
    forall k | 0 <= k < |s| :: 0x20 <= s[k] as int && s[k] as int != 0x7F
  }

  predicate DatetimeShaped(s: string) {
    MIN_DATETIME <= |s| <= MAX_DATETIME && ControlFree(s)
  }

  predicate Acceptable(f: Filter) {
    (f.since.Some? ==> DatetimeShaped(f.since.value)) && (f.until.Some? ==> DatetimeShaped(f.until.value))
  }

  method ValidateDatetime(s: string) returns (ok: bool)
    ensures ok <==> DatetimeShaped(s)
    ensures ok <==> 10 <= |s| <= 19 && forall k | 0 <= k < |s| :: s[k] as int >= 32 && s[k] as int != 127
  {
    if |s| < MIN_DATETIME || |s| > MAX_DATETIME {
      return false;
    }
    for i := 0 to |s|
      invariant forall k | 0 <= k < i :: 0x20 <= s[k] as int && s[k] as int != 0x7F
    {
      if s[i] as int < 0x20 || s[i] as int == 0x7F {
        return false;
      }
    }
    return true;
  }

  // ---- the compiler -----------------------------------------------------------------------

  function When<T>(o: Option<T>, c: Condition): seq<Condition> {
    if o.Some? then [c] else []
  }

  function Conditions(f: Filter): seq<Condition> {
    When(f.adminId, Condition(AdminId, Equal)) + When(f.action, Condition(Action, Equal))
    + When(f.targetType, Condition(TargetType, Equal)) + When(f.targetId, Condition(TargetId, Equal))
    + When(f.since, Condition(CreatedAt, AtLeast)) + When(f.until, Condition(CreatedAt, Below))
  }

  function OptInt(o: Option<int>): seq<Value> {
    if o.Some? then [IntValue(o.value)] else []
  }

  function OptStr(o: Option<string>): seq<Value> {
    if o.Some? then [StrValue(o.value)] else []
  }

  /** The values in the order of the conditions they belong to. */
  function Values(f: Filter): seq<Value> {
    OptInt(f.adminId) + OptStr(f.action) + OptStr(f.targetType) + OptStr(f.targetId) + OptStr(f.since) + OptStr(f.until)
  }

  /** The order the statements bind in: all ints, then all strings. */
  function BindOrder(w: WhereClause): seq<Value> {
    seq(|w.boundInt|, i requires 0 <= i < |w.boundInt| => IntValue(w.boundInt[i]))
    + seq(|w.boundStr|, i requires 0 <= i < |w.boundStr| => StrValue(w.boundStr[i]))
  }

  /** The text written so far reads back as these conditions, and binding gives these values. */
  ghost predicate Compiled(w: WhereClause, first: bool, conditions: seq<Condition>, values: seq<Value>) {
    && (first <==> conditions == [])
    && ReadWhere(Words(w.text)) == Some(conditions)
    && BindOrder(w) == values
  }

  lemma {:induction false} WordsSpace(a: string, b: string)
    ensures Words(a + " " + b) == Words(a) + Words(b)
    decreases |a|
  {
    var t := a + " " + b;
    if a == "" {
      assert t[1..] == b;
    } else if a[0] == ' ' {
      assert t[1..] == a[1..] + " " + b;
      WordsSpace(a[1..], b);
    } else {
      var n := WordLength(a);
      WordLengthSpace(a, b);
      assert t[..n] == a[..n] && t[n..] == a[n..] + " " + b;
      WordsSpace(a[n..], b);
    }
  }

  lemma {:induction false} WordLengthSpace(a: string, b: string)
    ensures WordLength(a + " " + b) == WordLength(a)
  {
    var t := a + " " + b;
    if a != "" && a[0] != ' ' {
      assert t[1..] == a[1..] + " " + b;
      WordLengthSpace(a[1..], b);
    }
  }

  lemma {:induction false} OneWord(w: string)
    requires w != "" && ' ' !in w
    ensures WordLength(w) == |w| && Words(w) == [w]
  {
    if |w| > 1 {
      OneWord(w[1..]);
    }
    assert WordLength(w[1..]) == |w| - 1;
    assert w[..|w|] == w && w[|w|..] == "";
  }

  /** Three words as they stand in a clause. */
  lemma ThreeWords(column: string, op: string, gap: string)
    requires column != "" && ' ' !in column && op != "" && ' ' !in op
    requires gap == " " || gap == "  "
    ensures Words(column + " " + op + gap + "?") == [column, op, "?"]
  {
    OneWord(column);
    OneWord(op);
    OneWord("?");
    WordsSpace(column, op);
    var t := column + " " + op;
    if gap == " " {
      WordsSpace(t, "?");
    } else {
      assert t + gap + "?" == t + " " + " " + "?";
      WordsSpace(t + " ", "?");
      assert t + " " == t + " " + "";
      WordsSpace(t, "");
    }
  }

  lemma ReadAppended(words: seq<string>, more: seq<string>, conditions: seq<Condition>, c: Condition)
    requires ReadWhere(words) == Some(conditions) && |more| == 4
    requires more[0] == (if conditions == [] then "WHERE" else "AND")
    requires ColumnNamed(more[1]) == Some(c.column) && OpNamed(more[2]) == Some(c.op) && more[3] == "?"
    ensures ReadWhere(words + more) == Some(conditions + [c])
  {
    assert (words + more)[..|words|] == words;
  }

  /** The text after one more clause. */
  function Appended(text: string, first: bool, clause: string): string {
    text + (if first then " WHERE " else " AND ") + clause
  }

  lemma Respaced(text: string, sep: string, clause: string)
    ensures text + (" " + sep + " ") + clause == text + " " + (sep + " " + clause)
  {
  }

  lemma JoinedWords(text: string, sep: string, clause: string)
    requires sep != "" && ' ' !in sep
    ensures Words(text + (" " + sep + " ") + clause) == Words(text) + ([sep] + Words(clause))
  {
    OneWord(sep);
    WordsSpace(sep, clause);
    WordsSpace(text, sep + " " + clause);
    Respaced(text, sep, clause);
  }

  lemma AppendedReads(text: string, conditions: seq<Condition>, clause: string, column: string, op: string,
                      c: Condition)
    requires ReadWhere(Words(text)) == Some(conditions)
    requires Words(clause) == [column, op, "?"] && ColumnNamed(column) == Some(c.column) && OpNamed(op) == Some(c.op)
    ensures ReadWhere(Words(Appended(text, conditions == [], clause))) == Some(conditions + [c])
  {
    var sep := if conditions == [] then "WHERE" else "AND";
    assert " WHERE " == " " + "WHERE" + " " && " AND " == " " + "AND" + " ";
    JoinedWords(text, sep, clause);
    ReadAppended(Words(text), [sep] + Words(clause), conditions, c);
  }

  /** These words, one space and then `gap` between them and a placeholder, say this condition. */
  ghost predicate Says(column: string, op: string, gap: string, c: Condition) {
    && column != "" && ' ' !in column && ColumnNamed(column) == Some(c.column)
    && op != "" && ' ' !in op && OpNamed(op) == Some(c.op)
    && (gap == " " || gap == "  ")
  }

  lemma ClauseAdded(w: WhereClause, first: bool, cs: seq<Condition>, vs: seq<Value>,
                    column: string, op: string, gap: string, c: Condition)
    requires Compiled(w, first, cs, vs) && Says(column, op, gap, c)
    ensures ReadWhere(Words(Appended(w.text, first, column + " " + op + gap + "?"))) == Some(cs + [c])
  {
    ThreeWords(column, op, gap);
    AppendedReads(w.text, cs, column + " " + op + gap + "?", column, op, c);
  }

  lemma StringBound(w: WhereClause, text: string, s: string)
    ensures BindOrder(WhereClause(text, w.boundInt, w.boundStr + [s])) == BindOrder(w) + [StrValue(s)]
  {
  }

  /** Adds a predicate on a string column if the filter has it. */
  method AddString(w: WhereClause, first: bool, column: string, op: string, gap: string, o: Option<string>,
                   ghost cs: seq<Condition>, ghost vs: seq<Value>, ghost c: Condition)
    returns (w': WhereClause, first': bool)
    requires Compiled(w, first, cs, vs) && Says(column, op, gap, c)
    ensures Compiled(w', first', cs + When(o, c), vs + OptStr(o))
  {
    w', first' := w, first;
    if o.Some? {
      ClauseAdded(w, first, cs, vs, column, op, gap, c);
      var text := Appended(w.text, first, column + " " + op + gap + "?");
      StringBound(w, text, o.value);
      w', first' := WhereClause(text, w.boundInt, w.boundStr + [o.value]), false;
    } else {
      assert cs + [] == cs && vs + [] == vs;
    }
  }

  /** The same for the one integer column, which comes first. */
  method AddInt(w: WhereClause, first: bool, column: string, op: string, gap: string, o: Option<int>,
                ghost cs: seq<Condition>, ghost vs: seq<Value>, ghost c: Condition)
    returns (w': WhereClause, first': bool)
    requires Compiled(w, first, cs, vs) && Says(column, op, gap, c) && w.boundStr == []
    ensures Compiled(w', first', cs + When(o, c), vs + OptInt(o))
  {
    w', first' := w, first;
    if o.Some? {
      ClauseAdded(w, first, cs, vs, column, op, gap, c);
      var text := Appended(w.text, first, column + " " + op + gap + "?");
      w', first' := WhereClause(text, w.boundInt + [o.value], w.boundStr), false;
    } else {
      assert cs + [] == cs && vs + [] == vs;
    }
  }

  lemma EqualitiesSay()
    ensures Says("admin_id", "=", " ", Condition(AdminId, Equal))
    ensures Says("action", "=", " ", Condition(Action, Equal))
    ensures Says("target_type", "=", " ", Condition(TargetType, Equal))
    ensures Says("target_id", "=", " ", Condition(TargetId, Equal))
  {
  }

  /** The equality predicates, which cannot fail. */
  method AddEqualities(f: Filter) returns (w: WhereClause, first: bool)
    ensures Compiled(w, first,
              When(f.adminId, Condition(AdminId, Equal)) + When(f.action, Condition(Action, Equal))
              + When(f.targetType, Condition(TargetType, Equal)) + When(f.targetId, Condition(TargetId, Equal)),
              OptInt(f.adminId) + OptStr(f.action) + OptStr(f.targetType) + OptStr(f.targetId))
  {
    EqualitiesSay();
    w, first := WhereClause("", [], []), true;
    w, first := AddInt(w, first, "admin_id", "=", " ", f.adminId, [], [], Condition(AdminId, Equal));
    ghost var cs, vs := When(f.adminId, Condition(AdminId, Equal)), OptInt(f.adminId);
    assert [] + cs == cs && [] + vs == vs;
    w, first := AddString(w, first, "action", "=", " ", f.action, cs, vs, Condition(Action, Equal));
    cs, vs := cs + When(f.action, Condition(Action, Equal)), vs + OptStr(f.action);
    w, first := AddString(w, first, "target_type", "=", " ", f.targetType, cs, vs, Condition(TargetType, Equal));
    cs, vs := cs + When(f.targetType, Condition(TargetType, Equal)), vs + OptStr(f.targetType);
    w, first := AddString(w, first, "target_id", "=", " ", f.targetId, cs, vs, Condition(TargetId, Equal));
  }

  method TimeOk(o: Option<string>) returns (ok: bool)
    ensures ok <==> (o.Some? ==> DatetimeShaped(o.value))
  {
    ok := true;
    if o.Some? {
      ok := ValidateDatetime(o.value);
    }
  }

  /**
   The compiler.  It fails exactly on a misshapen time, naming the first; otherwise its text reads
   back as the filter's conditions and binding all ints before all strings gives each its own value.
   */
  method BuildWhereClause(f: Filter) returns (r: Result<WhereClause>)
    ensures r.Ok? <==> Acceptable(f)
    ensures r.Ok? ==> ReadWhere(Words(r.value.text)) == Some(Conditions(f)) && BindOrder(r.value) == Values(f)
    ensures r.Err? ==>
              r.error == Misshapen(if f.since.Some? && !DatetimeShaped(f.since.value) then "since" else "until")
  {
    var w, first := AddEqualities(f);
    ghost var cs :=
      When(f.adminId, Condition(AdminId, Equal)) + When(f.action, Condition(Action, Equal))
      + When(f.targetType, Condition(TargetType, Equal)) + When(f.targetId, Condition(TargetId, Equal));
    ghost var vs := OptInt(f.adminId) + OptStr(f.action) + OptStr(f.targetType) + OptStr(f.targetId);
    var sinceOk := TimeOk(f.since);
    if !sinceOk {
      return Err(Misshapen("since"));
    }
    w, first := AddString(w, first, "created_at", ">=", " ", f.since, cs, vs, Condition(CreatedAt, AtLeast));
    cs, vs := cs + When(f.since, Condition(CreatedAt, AtLeast)), vs + OptStr(f.since);
    var untilOk := TimeOk(f.until);
    if !untilOk {
      return Err(Misshapen("until"));
    }
    w, first := AddString(w, first, "created_at", "<", "  ", f.until, cs, vs, Condition(CreatedAt, Below));
    return Ok(w);
  }

  // ---- the statements -----------------------------------------------------------------------

  /** The rows in storage order for which all conditions hold. */
  function Kept(db: Db, conditions: seq<Condition>, values: seq<Value>, rows: seq<Row>): seq<Row>
    requires Bound(db, conditions, values)
  {
    if rows == [] then []
    else (if HoldsAll(db, conditions, values, rows[0]) then [rows[0]] else []) + Kept(db, conditions, values, rows[1..])
  }

  /** What the database selects for this text, its placeholders filled from left to right. */
  function Select(db: Db, text: string, values: seq<Value>, rows: seq<Row>): Option<seq<Row>> {
    var conditions := ReadWhere(Words(text));
    if conditions.Some? && Bound(db, conditions.value, values) then Some(Kept(db, conditions.value, values, rows))
      else None
  }

  /** The rows meeting a filter. */
  function Matching(db: Db, f: Filter, rows: seq<Row>): seq<Row>
    requires TimesReadable(db, f)
  {
    if rows == [] then [] else (if Meets(db, f, rows[0]) then [rows[0]] else []) + Matching(db, f, rows[1..])
  }

  /** The conditions hold of a row when all are comparable and hold, as one fact. */
  predicate Satisfied(db: Db, cs: seq<Condition>, vs: seq<Value>, row: Row) {
    Bound(db, cs, vs) && HoldsAll(db, cs, vs, row)
  }

  /** One more condition, for a part that may be absent. */
  lemma PartAdded<T>(db: Db, cs: seq<Condition>, vs: seq<Value>, o: Option<T>, c: Condition, v: Value, row: Row)
    requires |cs| == |vs|
    ensures var cs', vs' := cs + When(o, c), vs + (if o.Some? then [v] else []);
            && |cs'| == |vs'|
            && (Bound(db, cs', vs') <==> Bound(db, cs, vs) && (o.Some? ==> Comparable(db, c, v)))
            && (Satisfied(db, cs', vs', row) <==>
              Satisfied(db, cs, vs, row) && (o.Some? ==> Comparable(db, c, v) && Holds(db, c, v, row)))
  {
    if o.Some? {
      var cs', vs' := cs + [c], vs + [v];
      assert forall k | 0 <= k < |cs| :: cs'[k] == cs[k] && vs'[k] == vs[k];
      assert cs'[|cs|] == c && vs'[|cs|] == v;
    } else {
      assert cs + [] == cs && vs + [] == vs;
    }
  }

  lemma StringPart(db: Db, cs: seq<Condition>, vs: seq<Value>, o: Option<string>, c: Condition, row: Row)
    requires |cs| == |vs|
    ensures var cs', vs' := cs + When(o, c), vs + OptStr(o);
            && |cs'| == |vs'|
            && (Bound(db, cs', vs') <==> Bound(db, cs, vs) && (o.Some? ==> Comparable(db, c, StrValue(o.value))))
            && (Satisfied(db, cs', vs', row) <==>
                Satisfied(db, cs, vs, row) &&
                  (o.Some? ==> Comparable(db, c, StrValue(o.value)) && Holds(db, c, StrValue(o.value), row)))
  {
    PartAdded(db, cs, vs, o, c, StrValue(if o.Some? then o.value else ""), row);
  }

  lemma EqualitiesMean(db: Db, f: Filter, row: Row, cs: seq<Condition>, vs: seq<Value>)
    requires cs == When(f.adminId, Condition(AdminId, Equal)) + When(f.action, Condition(Action, Equal))
                   + When(f.targetType, Condition(TargetType, Equal)) + When(f.targetId, Condition(TargetId, Equal))
    requires vs == OptInt(f.adminId) + OptStr(f.action) + OptStr(f.targetType) + OptStr(f.targetId)
    ensures |cs| == |vs| && Bound(db, cs, vs)
    ensures Satisfied(db, cs, vs, row) <==>
            && (f.adminId.Some? ==> row.adminId == f.adminId)
            && SameText(db, f.action, Some(row.action))
            && SameText(db, f.targetType, row.targetType)
            && SameText(db, f.targetId, row.targetId)
  {
    var c1, v1 := When(f.adminId, Condition(AdminId, Equal)), OptInt(f.adminId);
    var c2, v2 := c1 + When(f.action, Condition(Action, Equal)), v1 + OptStr(f.action);
    var c3, v3 := c2 + When(f.targetType, Condition(TargetType, Equal)), v2 + OptStr(f.targetType);
    PartAdded(db, [], [], f.adminId, Condition(AdminId, Equal),
      IntValue(if f.adminId.Some? then f.adminId.value else 0), row);
    assert [] + c1 == c1 && [] + v1 == v1;
    StringPart(db, c1, v1, f.action, Condition(Action, Equal), row);
    StringPart(db, c2, v2, f.targetType, Condition(TargetType, Equal), row);
    StringPart(db, c3, v3, f.targetId, Condition(TargetId, Equal), row);
  }

  lemma ConditionsMean(db: Db, f: Filter, row: Row)
    ensures Bound(db, Conditions(f), Values(f)) <==> TimesReadable(db, f)
    ensures Satisfied(db, Conditions(f), Values(f), row) <==> TimesReadable(db, f) && Meets(db, f, row)
  {
    var cs := When(f.adminId, Condition(AdminId, Equal)) + When(f.action, Condition(Action, Equal))
              + When(f.targetType, Condition(TargetType, Equal)) + When(f.targetId, Condition(TargetId, Equal));
    var vs := OptInt(f.adminId) + OptStr(f.action) + OptStr(f.targetType) + OptStr(f.targetId);
    EqualitiesMean(db, f, row, cs, vs);
    StringPart(db, cs, vs, f.since, Condition(CreatedAt, AtLeast), row);
    StringPart(db, cs + When(f.since, Condition(CreatedAt, AtLeast)), vs + OptStr(f.since), f.until,
      Condition(CreatedAt, Below), row);
  }

  lemma {:induction false} KeptIsMatching(db: Db, f: Filter, rows: seq<Row>)
    requires TimesReadable(db, f) && Bound(db, Conditions(f), Values(f))
    ensures Kept(db, Conditions(f), Values(f), rows) == Matching(db, f, rows)
  {
    if rows != [] {
      ConditionsMean(db, f, rows[0]);
      KeptIsMatching(db, f, rows[1..]);
    }
  }

  /** The compiled text and bind lists select exactly the rows that meet the filter, or fail on an unreadable time. */
  lemma WhereSelectsExactly(db: Db, f: Filter, w: WhereClause, rows: seq<Row>)
    requires ReadWhere(Words(w.text)) == Some(Conditions(f)) && BindOrder(w) == Values(f)
    ensures Select(db, w.text, BindOrder(w), rows) == if TimesReadable(db, f) then Some(Matching(db, f, rows)) else None
  {
    ConditionsMean(db, f, Row(0, None, "", None, None, 0));
    if TimesReadable(db, f) {
      KeptIsMatching(db, f, rows);
    }
  }

  const DEFAULT_LIMIT := 20
  const MAX_LIMIT := 100

  function ClampedLimit(limit: int): (r: int)
    ensures (1 <= limit <= 100 ==> r == limit) && (limit <= 0 ==> r == 20) && (limit > 100 ==> r == 100)
  {
    if limit <= 0 then DEFAULT_LIMIT else if limit > MAX_LIMIT then MAX_LIMIT else limit
  }

  method ClampListFilter(f: Filter) returns (g: Filter)
    ensures g == f.(limit := ClampedLimit(f.limit), offset := if f.offset < 0 then 0 else f.offset)
    ensures g.limit == (if f.limit <= 0 then 20 else if f.limit <= 100 then f.limit else 100)
  {
    g := f;
    if g.limit <= 0 {
      g := g.(limit := DEFAULT_LIMIT);
    }
    if g.limit > MAX_LIMIT {
      g := g.(limit := MAX_LIMIT);
    }
    if g.offset < 0 {
      g := g.(offset := 0);
    }
  }

  /** COUNT(*) over the filter's rows. */
  method Count(db: Db, rows: seq<Row>, filter: Filter) returns (r: Result<nat>)
    ensures r.Ok? <==> Acceptable(filter) && TimesReadable(db, filter)
    ensures r.Ok? ==> r.value == |Matching(db, filter, rows)|
    ensures r.Err? ==> (r.error.Misshapen? <==> !Acceptable(filter))
  {
    var f := ClampListFilter(filter);
    var w := BuildWhereClause(f);
    if w.Err? {
      return Err(w.error);
    }
    WhereSelectsExactly(db, filter, w.value, rows);
    var rs := Select(db, w.value.text, BindOrder(w.value), rows);
    return if rs.Some? then Ok(|rs.value|) else Err(Unreadable);
  }

  // ---- order and pages --------------------------------------------------------------------------

  predicate Newer(a: Row, b: Row) {
    a.createdAt > b.createdAt || (a.createdAt == b.createdAt && a.id > b.id)
  }

  ghost predicate Descending(rows: seq<Row>) {
    forall i, j | 0 <= i < j < |rows| :: Newer(rows[i], rows[j])
  }

  /** `out` is what ORDER BY created_at DESC, id DESC may return for these rows. */
  ghost predicate NewestFirst(out: seq<Row>, rows: seq<Row>) {
    multiset(out) == multiset(rows) && Descending(out)
  }

  /** `id` is the primary key. */
  ghost predicate Keyed(rows: seq<Row>) {
    forall i, j | 0 <= i < j < |rows| :: rows[i].id != rows[j].id
  }

  function Placed(row: Row, sorted: seq<Row>): seq<Row> {
    if sorted == [] || Newer(row, sorted[0]) then [row] + sorted else [sorted[0]] + Placed(row, sorted[1..])
  }

  function Sorted(rows: seq<Row>): seq<Row> {
    if rows == [] then [] else Placed(rows[0], Sorted(rows[1..]))
  }

  lemma {:induction false} PlacedBag(row: Row, sorted: seq<Row>)
    ensures multiset(Placed(row, sorted)) == multiset{row} + multiset(sorted)
  {
    if sorted != [] && !Newer(row, sorted[0]) {
      PlacedBag(row, sorted[1..]);
      assert sorted == [sorted[0]] + sorted[1..];
    }
  }

  lemma {:induction false} PlacedOk(row: Row, sorted: seq<Row>)
    requires Descending(sorted) && (forall k | 0 <= k < |sorted| :: sorted[k].id != row.id)
    ensures Descending(Placed(row, sorted))
  {
    if sorted != [] && !Newer(row, sorted[0]) {
      PlacedOk(row, sorted[1..]);
      var rest := Placed(row, sorted[1..]);
      PlacedBag(row, sorted[1..]);
      forall k | 0 <= k < |rest|
        ensures Newer(sorted[0], rest[k])
      {
        assert rest[k] in multiset(rest);
      }
    }
  }

  lemma {:induction false} SortedOk(rows: seq<Row>)
    requires Keyed(rows)
    ensures NewestFirst(Sorted(rows), rows)
  {
    if rows != [] {
      SortedOk(rows[1..]);
      var rest := Sorted(rows[1..]);
      forall k | 0 <= k < |rest|
        ensures rest[k].id != rows[0].id
      {
        assert rest[k] in multiset(rows[1..]);
      }
      PlacedOk(rows[0], rest);
      PlacedBag(rows[0], rest);
      assert rows == [rows[0]] + rows[1..];
    }
  }

  lemma SameNewest(a: seq<Row>, b: seq<Row>)
    requires Descending(a) && Descending(b) && multiset(a) == multiset(b) && a != [] && b != []
    ensures a[0] == b[0]
  {
    assert a[0] in multiset(b) && b[0] in multiset(a);
    var i :| 0 <= i < |b| && b[i] == a[0];
    var j :| 0 <= j < |a| && a[j] == b[0];
  }

  lemma TailBag(a: seq<Row>)
    requires a != []
    ensures multiset(a[1..]) == multiset(a) - multiset{a[0]}
  {
    assert a == [a[0]] + a[1..];
  }

  /** The id tie-break leaves the database no choice of order. */
  lemma {:induction false} OrderIsUnique(a: seq<Row>, b: seq<Row>)
    requires Descending(a) && Descending(b) && multiset(a) == multiset(b)
    ensures a == b
  {
    assert |multiset(a)| == |a| && |multiset(b)| == |b|;
    if a != [] {
      SameNewest(a, b);
      TailBag(a);
      TailBag(b);
      OrderIsUnique(a[1..], b[1..]);
      assert a == [a[0]] + a[1..] && b == [b[0]] + b[1..];
    }
  }

  function Min(a: int, b: int): int {
    if a < b then a else b
  }

  /** LIMIT and OFFSET. */
  function Page(rows: seq<Row>, offset: nat, limit: nat): seq<Row> {
    rows[Min(offset, |rows|)..Min(offset + limit, |rows|)]
  }

  ghost predicate IsPage(items: seq<Row>, rows: seq<Row>, offset: nat, limit: nat) {
    exists ordered :: NewestFirst(ordered, rows) && items == Page(ordered, offset, limit)
  }

  datatype Listing = Listing(items: seq<Row>, total: nat, limit: nat, offset: nat)

  lemma {:induction false} PagingIgnored(db: Db, f: Filter, g: Filter, rows: seq<Row>)
    requires TimesReadable(db, f) && g == f.(limit := g.limit, offset := g.offset)
    ensures Matching(db, g, rows) == Matching(db, f, rows)
  {
    if rows != [] {
      PagingIgnored(db, f, g, rows[1..]);
    }
  }

  /** A page is no longer than asked for and keeps the order: newest first, the larger id first within one moment. */
  lemma PageOrdered(ordered: seq<Row>, offset: nat, limit: nat)
    requires Descending(ordered)
    ensures var items := Page(ordered, offset, limit);
            && |items| <= limit
            && forall i, j | 0 <= i < j < |items| ::
                 items[i].createdAt > items[j].createdAt ||
                 (items[i].createdAt == items[j].createdAt && items[i].id > items[j].id)
  {
    var from := Min(offset, |ordered|);
    assert forall k | 0 <= k < |Page(ordered, offset, limit)| :: Page(ordered, offset, limit)[k] == ordered[from + k];
  }

  /** The table may change between the counting statement and the page statement. */
  method List(db: Db, atCount: seq<Row>, atPage: seq<Row>, filter: Filter) returns (r: Result<Listing>)
    requires Keyed(atPage)
    ensures r.Ok? <==> Acceptable(filter) && TimesReadable(db, filter)
    ensures r.Ok? ==>
              && r.value.limit == ClampedLimit(filter.limit)
              && r.value.limit == (if filter.limit <= 0 then 20 else if filter.limit <= 100 then filter.limit else 100)
              && r.value.offset == (if filter.offset < 0 then 0 else filter.offset)
              && r.value.total == |Matching(db, filter, atCount)|
              && IsPage(r.value.items, Matching(db, filter, atPage), r.value.offset, r.value.limit)
    ensures r.Ok? ==> |r.value.items| <= r.value.limit
    ensures r.Ok? ==> var items := r.value.items;
                      forall i, j | 0 <= i < j < |items| ::
                        items[i].createdAt > items[j].createdAt ||
                        (items[i].createdAt == items[j].createdAt && items[i].id > items[j].id)
  {
    var f := ClampListFilter(filter);
    var total := Count(db, atCount, f);
    if total.Err? {
      return Err(total.error);
    }
    // Past the count, neither the compiler nor the database can fail on the same filter.
    var w := BuildWhereClause(f);
    PagingIgnored(db, filter, f, atCount);
    WhereSelectsExactly(db, filter, w.value, atPage);
    var rs := Select(db, w.value.text, BindOrder(w.value), atPage);
    MatchingKeyed(db, filter, atPage);
    SortedOk(rs.value);
    PageOrdered(Sorted(rs.value), f.offset, f.limit);
    return Ok(Listing(Page(Sorted(rs.value), f.offset, f.limit), total.value, f.limit, f.offset));
  }

  /**
   Which rows match, column by column: an absent filter field asks nothing, texts are compared under the collation.
   */
  lemma {:induction false} MatchingMeans(db: Db, f: Filter, rows: seq<Row>, row: Row)
    requires TimesReadable(db, f)
    ensures row in Matching(db, f, rows) <==>
            && row in rows
            && (f.adminId.None? || row.adminId == f.adminId)
            && (f.action.None? || db.fold(row.action) == db.fold(f.action.value))
            && (f.targetType.None? ||
                (row.targetType.Some? && db.fold(row.targetType.value) == db.fold(f.targetType.value)))
            && (f.targetId.None? || (row.targetId.Some? && db.fold(row.targetId.value) == db.fold(f.targetId.value)))
            && (f.since.None? || db.time(f.since.value).value <= row.createdAt)
            && (f.until.None? || row.createdAt < db.time(f.until.value).value)
  {
    if rows != [] {
      MatchingMeans(db, f, rows[1..], row);
    }
  }

  lemma {:induction false} MatchingKeyed(db: Db, f: Filter, rows: seq<Row>)
    requires TimesReadable(db, f) && Keyed(rows)
    ensures Keyed(Matching(db, f, rows))
    ensures forall row :: row in Matching(db, f, rows) <==> row in rows && Meets(db, f, row)
  {
    if rows != [] {
      MatchingKeyed(db, f, rows[1..]);
      var rest := Matching(db, f, rows[1..]);
      assert forall k | 0 <= k < |rest| :: rest[k] in rows[1..];
    }
  }

  lemma PageAfter(ordered: seq<Row>, offset: nat, limit: nat)
    ensures ordered[..Min(offset, |ordered|)] + Page(ordered, offset, limit) ==
              ordered[..Min(offset + limit, |ordered|)]
  {
  }

  lemma OnePage(rows: seq<Row>, ordered: seq<Row>, offset: nat, limit: nat, items: seq<Row>)
    requires NewestFirst(ordered, rows) && IsPage(items, rows, offset, limit)
    ensures items == Page(ordered, offset, limit)
  {
    var o :| NewestFirst(o, rows) && items == Page(o, offset, limit);
    OrderIsUnique(o, ordered);
  }

  lemma OneMore(n: nat, limit: nat)
    ensures (n + 1) * limit == n * limit + limit
  {
  }

  lemma {:induction false} PagesSoFar(rows: seq<Row>, ordered: seq<Row>, limit: nat, pages: seq<seq<Row>>)
    requires NewestFirst(ordered, rows)
    requires forall k | 0 <= k < |pages| :: IsPage(pages[k], rows, k * limit, limit)
    ensures Concat(pages) == ordered[..Min(|pages| * limit, |ordered|)]
  {
    if pages != [] {
      var n := |pages| - 1;
      PagesSoFar(rows, ordered, limit, pages[..n]);
      OnePage(rows, ordered, n * limit, limit, pages[n]);
      OneMore(n, limit);
      PageAfter(ordered, n * limit, limit);
    }
  }

  /**
   Stepping the offset by the clamped limit, each page read by its own statement: the pages, one
   after another, are the matching rows newest first, none missing and none twice.
   */
  lemma PagesTile(db: Db, f: Filter, table: seq<Row>, pages: seq<seq<Row>>)
    requires TimesReadable(db, f) && Keyed(table)
    requires forall k | 0 <= k < |pages| ::
               IsPage(pages[k], Matching(db, f, table), k * ClampedLimit(f.limit), ClampedLimit(f.limit))
    requires |pages| * ClampedLimit(f.limit) >= |Matching(db, f, table)|
    ensures NewestFirst(Concat(pages), Matching(db, f, table))
  {
    var rows := Matching(db, f, table);
    MatchingKeyed(db, f, table);
    SortedOk(rows);
    PagesSoFar(rows, Sorted(rows), ClampedLimit(f.limit), pages);
    assert |multiset(Sorted(rows))| == |Sorted(rows)| && |multiset(rows)| == |rows|;
    assert Sorted(rows)[..|rows|] == Sorted(rows);
  }
}
