/**
 The one-shot result channel.  A subscribe and an unsubscribe are one critical section each; a publish is one
 that takes the callbacks out and, outside the lock, one step per invocation.  A callback is identified by the
 handle `subscribe` returned for it.
 */
module Notifier {
  import opened Options
  import opened Submissions

  type Handle = nat

  /** The published row, as far as the channel looks at it. */
  datatype Result = Result(id: int, status: Status)

  type Subscriptions = map<int, seq<Handle>>

  function Waiting(subs: Subscriptions, id: int): seq<Handle> {
    if id in subs then subs[id] else []
  }

  /** `unsubscribe` as written: the newest callback goes, whatever the handle. */
  function PopNewest(subs: Subscriptions, id: int): Subscriptions {
    if id !in subs then subs
    else if |subs[id]| <= 1 then subs - {id}
    else subs[id := subs[id][..|subs[id]| - 1]]
  }

  class JudgeNotifier {
    var subs: Subscriptions
    var nextId: nat

    constructor ()
      ensures subs == map[] && nextId == 0
    {
      subs, nextId := map[], 0;
    }

    /** Throws on an empty callback. */
    method Subscribe(id: int, callable: bool) returns (handle: Option<Handle>)
      modifies this
      ensures handle == if callable then Some(old(nextId) + 1) else None
      ensures handle.None? ==> subs == old(subs) && nextId == old(nextId)
      ensures handle.Some? ==>
                nextId == handle.value && subs == old(subs)[id := Waiting(old(subs), id) + [handle.value]]
    {
      if !callable {
        return None;
      }
      nextId := nextId + 1;
      var vec := if id in subs then subs[id] else [];
      subs := subs[id := vec + [nextId]];
      handle := Some(nextId);
    }

    /** The critical section of `publish`: the callbacks are taken out of the map. */
    method Take(row: Result) returns (snapshot: seq<Handle>)
      modifies this`subs
      ensures snapshot == Waiting(old(subs), row.id)
      ensures subs == old(subs) - {row.id}
    {
      if row.id !in subs {
        assert subs - {row.id} == subs;
        return [];
      }
      snapshot := subs[row.id];
      subs := subs - {row.id};
    }

    /** Takes the callbacks for the row and then, outside the lock, invokes them in order; `fired` are those invoked. */
    method Publish(row: Result) returns (fired: seq<Handle>)
      modifies this`subs
      ensures fired == Waiting(old(subs), row.id)
      ensures subs == old(subs) - {row.id}
    {
      var snapshot := Take(row);
      fired := [];
      for i := 0 to |snapshot|
        invariant fired == snapshot[..i]
      {
        fired := fired + [snapshot[i]];
      }
    }

    method Unsubscribe(id: int, handle: Handle)
      modifies this`subs
      ensures subs == PopNewest(old(subs), id)
    {
      if id !in subs {
        return;
      }
      var vec := subs[id];
      if vec == [] {
        subs := subs - {id};
        return;
      }
      vec := vec[..|vec| - 1];
      subs := if vec == [] then subs - {id} else subs[id := vec];
    }
  }

  // ---- runs -----------------------------------------------------------------------------

  type Publisher = nat

  /**
   `publish` is two kinds of steps: one that takes the callbacks out under the lock, and one per
   invocation, outside it.
   */
  datatype Op =
    | Subscribe(id: int)
    | Take(pub: Publisher, row: Result)
    | Invoke(pub: Publisher)
    | Unsubscribe(id: int, handle: Handle)

  /** What one call of `publish` has taken, and how many of those it has invoked. */
  datatype Batch = Batch(row: Result, handles: seq<Handle>, done: nat)

  /** An invocation: which callback, with which row, by which publisher and as its how manieth. */
  datatype Fired = Fired(handle: Handle, row: Result, pub: Publisher, place: nat)

  /** `registry` remembers what each handle was subscribed to, `fired` every invocation so far. */
  datatype State = State(subs: Subscriptions, nextId: nat, registry: map<Handle, int>, taken: map<Publisher, Batch>,
                         fired: seq<Fired>)

  function Init(): State {
    State(map[], 0, map[], map[], [])
  }

  function Invoked(s: State, pub: Publisher): State {
    if pub !in s.taken || s.taken[pub].done >= |s.taken[pub].handles| then s
    else
      var b := s.taken[pub];
      s.(taken := s.taken[pub := b.(done := b.done + 1)],
        fired := s.fired + [Fired(b.handles[b.done], b.row, pub, b.done)])
  }

  /** A step that is not possible, such as an invocation with nothing left to invoke, changes nothing. */
  function Apply(s: State, op: Op): State {
    match op
    case Subscribe(id) =>
      var h := s.nextId + 1;
      s.(subs := s.subs[id := Waiting(s.subs, id) + [h]], nextId := h, registry := s.registry[h := id])
    case Take(pub, row) =>
      if pub in s.taken then s
      else s.(subs := s.subs - {row.id}, taken := s.taken[pub := Batch(row, Waiting(s.subs, row.id), 0)])
    case Invoke(pub) => Invoked(s, pub)
    case Unsubscribe(id, _) => s.(subs := PopNewest(s.subs, id))
  }

  function Exec(s: State, run: seq<Op>): State {
    if run == [] then s else Apply(Exec(s, run[..|run| - 1]), run[|run| - 1])
  }

  ghost predicate HasFired(s: State, h: Handle) {
    exists k | 0 <= k < |s.fired| :: s.fired[k].handle == h
  }

  ghost predicate Increasing(hs: seq<Handle>) {
    forall j, k | 0 <= j < k < |hs| :: hs[j] < hs[k]
  }

  ghost predicate AllFor(registry: map<Handle, int>, hs: seq<Handle>, id: int) {
    forall k | 0 <= k < |hs| :: hs[k] in registry && registry[hs[k]] == id
  }

  /** A list of callbacks of one submission, in subscription order. */
  ghost predicate ListOk(registry: map<Handle, int>, hs: seq<Handle>, id: int) {
    Increasing(hs) && AllFor(registry, hs, id)
  }

  ghost predicate SubsOk(s: State) {
    && (forall h | h in s.registry :: h <= s.nextId)
    && forall id | id in s.subs :: s.subs[id] != [] && ListOk(s.registry, s.subs[id], id)
  }

  ghost predicate BatchesOk(s: State) {
    forall pub | pub in s.taken ::
      var b := s.taken[pub]; b.done <= |b.handles| && ListOk(s.registry, b.handles, b.row.id)
  }

  /** No callback is both waiting and taken, or taken twice. */
  ghost predicate Apart(s: State) {
    && (forall id, pub | id in s.subs && pub in s.taken :: forall h | h in s.subs[id] :: h !in s.taken[pub].handles)
    && (forall p, q | p in s.taken && q in s.taken && p != q ::
          forall h | h in s.taken[p].handles :: h !in s.taken[q].handles)
  }

  ghost predicate Logged(s: State, e: Fired) {
    && e.pub in s.taken && e.place < s.taken[e.pub].done <= |s.taken[e.pub].handles|
    && e.handle == s.taken[e.pub].handles[e.place] && e.row == s.taken[e.pub].row
  }

  ghost predicate LoggedBySome(s: State, pub: Publisher, place: nat) {
    exists k | 0 <= k < |s.fired| :: s.fired[k].pub == pub && s.fired[k].place == place
  }

  /** The log is exactly what the publishers have invoked. */
  ghost predicate LogOk(s: State) {
    && (forall k | 0 <= k < |s.fired| :: Logged(s, s.fired[k]))
    && (forall j, k | 0 <= j < k < |s.fired| ::
          s.fired[j].pub != s.fired[k].pub || s.fired[j].place != s.fired[k].place)
    && (forall pub, place: nat | pub in s.taken && place < s.taken[pub].done :: LoggedBySome(s, pub, place))
  }

  ghost predicate Inv(s: State) {
    SubsOk(s) && BatchesOk(s) && Apart(s) && LogOk(s)
  }

  lemma SubscribeKeeps(s: State, id: int)
    requires Inv(s)
    ensures Inv(Apply(s, Subscribe(id)))
  {
    var s', h := Apply(s, Subscribe(id)), s.nextId + 1;
    assert h !in s.registry;
    forall i | i in s'.subs
      ensures s'.subs[i] != [] && ListOk(s'.registry, s'.subs[i], i)
    {
      assert i != id ==> ListOk(s.registry, s.subs[i], i);
    }
    forall pub | pub in s'.taken
      ensures ListOk(s'.registry, s'.taken[pub].handles, s'.taken[pub].row.id) && h !in s'.taken[pub].handles
    {
      assert ListOk(s.registry, s.taken[pub].handles, s.taken[pub].row.id);
    }
    SameLog(s, s');
  }

  /** A step that adds no invocation keeps the log right if the old batches stay. */
  lemma SameLog(s: State, s': State)
    requires LogOk(s) && s'.fired == s.fired
    requires forall pub | pub in s.taken :: pub in s'.taken && s'.taken[pub] == s.taken[pub]
    requires forall pub | pub in s'.taken && pub !in s.taken :: s'.taken[pub].done == 0
    ensures LogOk(s')
  {
    forall k | 0 <= k < |s'.fired|
      ensures Logged(s', s'.fired[k])
    {
      assert Logged(s, s.fired[k]);
    }
    forall pub, place: nat | pub in s'.taken && place < s'.taken[pub].done
      ensures LoggedBySome(s', pub, place)
    {
      assert LoggedBySome(s, pub, place);
      var k :| 0 <= k < |s.fired| && s.fired[k].pub == pub && s.fired[k].place == place;
      assert s'.fired[k].pub == pub;
    }
  }

  lemma TakeKeeps(s: State, pub: Publisher, row: Result)
    requires Inv(s)
    ensures Inv(Apply(s, Take(pub, row)))
  {
    if pub !in s.taken {
      var s' := Apply(s, Take(pub, row));
      forall id | id in s'.subs
        ensures forall h | h in s'.subs[id] :: h !in Waiting(s.subs, row.id)
      {
        assert ListOk(s.registry, s.subs[id], id);
      }
      SameLog(s, s');
    }
  }

  lemma InvokeLog(s: State, pub: Publisher, s': State)
    requires LogOk(s) && s' == Invoked(s, pub) && s' != s
    ensures LogOk(s')
  {
    var b, n := s.taken[pub], |s.fired|;
    forall k | 0 <= k < |s'.fired|
      ensures Logged(s', s'.fired[k])
      ensures k < n ==> s'.fired[k].pub != pub || s'.fired[k].place < b.done
    {
      assert k < n ==> Logged(s, s.fired[k]);
    }
    forall q, place: nat | q in s'.taken && place < s'.taken[q].done
      ensures LoggedBySome(s', q, place)
    {
      if q == pub && place == b.done {
        assert s'.fired[n].pub == q && s'.fired[n].place == place;
      } else {
        assert LoggedBySome(s, q, place);
        var k :| 0 <= k < n && s.fired[k].pub == q && s.fired[k].place == place;
        assert s'.fired[k] == s.fired[k];
      }
    }
  }

  lemma InvokeKeeps(s: State, pub: Publisher)
    requires Inv(s)
    ensures Inv(Apply(s, Invoke(pub)))
  {
    if Invoked(s, pub) != s {
      InvokeLog(s, pub, Invoked(s, pub));
    }
  }

  lemma UnsubscribeKeeps(s: State, id: int, handle: Handle)
    requires Inv(s)
    ensures Inv(Apply(s, Unsubscribe(id, handle)))
  {
    var s' := Apply(s, Unsubscribe(id, handle));
    forall i | i in s'.subs
      ensures s'.subs[i] != [] && ListOk(s'.registry, s'.subs[i], i) && forall h | h in s'.subs[i] :: h in s.subs[i]
    {
      assert ListOk(s.registry, s.subs[i], i);
    }
    SameLog(s, s');
  }

  lemma OpKeepsInv(s: State, op: Op)
    requires Inv(s)
    ensures Inv(Apply(s, op))
  {
    match op {
      case Subscribe(id) => SubscribeKeeps(s, id);
      case Take(pub, row) => TakeKeeps(s, pub, row);
      case Invoke(pub) => InvokeKeeps(s, pub);
      case Unsubscribe(id, h) => UnsubscribeKeeps(s, id, h);
    }
  }

  lemma {:induction false} RunKeepsInv(s: State, run: seq<Op>)
    requires Inv(s)
    ensures Inv(Exec(s, run))
  {
    if run != [] {
      RunKeepsInv(s, run[..|run| - 1]);
      OpKeepsInv(Exec(s, run[..|run| - 1]), run[|run| - 1]);
    }
  }

  lemma LoggedApart(s: State, j: nat, k: nat)
    requires Inv(s) && j < k < |s.fired|
    ensures s.fired[j].handle != s.fired[k].handle
  {
    assert Logged(s, s.fired[j]) && Logged(s, s.fired[k]);
    var a, b := s.taken[s.fired[j].pub].handles, s.taken[s.fired[k].pub].handles;
    if s.fired[j].pub == s.fired[k].pub {
      assert ListOk(s.registry, a, s.taken[s.fired[j].pub].row.id);
    } else {
      assert s.fired[j].handle in a && s.fired[k].handle in b;
    }
  }

  /** In every run each callback fires at most once, and only with a row of the submission it subscribed to. */
  lemma FiresAtMostOnce(run: seq<Op>)
    ensures var s := Exec(Init(), run);
            && (forall j, k | 0 <= j < |s.fired| && 0 <= k < |s.fired| ::
                  s.fired[j].handle == s.fired[k].handle ==> j == k)
            && (forall k | 0 <= k < |s.fired| ::
                  s.fired[k].handle in s.registry && s.registry[s.fired[k].handle] == s.fired[k].row.id)
  {
    RunKeepsInv(Init(), run);
    var s := Exec(Init(), run);
    forall j, k | 0 <= j < k < |s.fired|
      ensures s.fired[j].handle != s.fired[k].handle
    {
      LoggedApart(s, j, k);
    }
    forall k | 0 <= k < |s.fired|
      ensures s.fired[k].handle in s.registry && s.registry[s.fired[k].handle] == s.fired[k].row.id
    {
      assert Logged(s, s.fired[k]);
    }
  }

  /** The invocations of one publisher, in the order they happened. */
  function FiredBy(fired: seq<Fired>, pub: Publisher): seq<Handle> {
    if fired == [] then []
    else
      var last := fired[|fired| - 1];
      FiredBy(fired[..|fired| - 1], pub) + if last.pub == pub then [last.handle] else []
  }

  /** What a publisher has invoked. */
  function DoneBy(s: State, pub: Publisher): seq<Handle> {
    if pub in s.taken && s.taken[pub].done <= |s.taken[pub].handles|
    then s.taken[pub].handles[..s.taken[pub].done]
    else []
  }

  lemma FiredByStep(s: State, op: Op, pub: Publisher)
    requires LogOk(s) && FiredBy(s.fired, pub) == DoneBy(s, pub)
    ensures FiredBy(Apply(s, op).fired, pub) == DoneBy(Apply(s, op), pub)
  {
    if op.Invoke? && Apply(s, op) != s {
      var s' := Apply(s, op);
      assert s'.fired[..|s.fired|] == s.fired;
    }
  }

  /**
   In every interleaving a publisher has invoked exactly the first so many of the callbacks it took, in subscription
   order.
   */
  lemma {:induction false} PublisherInOrder(run: seq<Op>, pub: Publisher)
    ensures var s := Exec(Init(), run);
            && (pub in s.taken ==> s.taken[pub].done <= |s.taken[pub].handles|)
            && FiredBy(s.fired, pub) == if pub in s.taken then s.taken[pub].handles[..s.taken[pub].done] else []
  {
    RunKeepsInv(Init(), run);
    if run != [] {
      var m := Exec(Init(), run[..|run| - 1]);
      PublisherInOrder(run[..|run| - 1], pub);
      RunKeepsInv(Init(), run[..|run| - 1]);
      FiredByStep(m, run[|run| - 1], pub);
    }
  }

  /**
   A publication takes exactly the callbacks waiting for that submission, in subscription order, and leaves all
   others waiting.
   */
  lemma PublishDeliversWaiting(run: seq<Op>, pub: Publisher, row: Result)
    requires pub !in Exec(Init(), run).taken
    ensures var s := Exec(Init(), run); var s' := Apply(s, Take(pub, row));
            && s'.taken[pub] == Batch(row, Waiting(s.subs, row.id), 0) && Increasing(s'.taken[pub].handles)
            && (forall id :: Waiting(s'.subs, id) == if id == row.id then [] else Waiting(s.subs, id))
            && (forall h :: h in Waiting(s.subs, row.id) ==> !HasFired(s, h))
  {
    RunKeepsInv(Init(), run);
    var s := Exec(Init(), run);
    forall k | 0 <= k < |s.fired|
      ensures s.fired[k].handle !in Waiting(s.subs, row.id)
    {
      assert Logged(s, s.fired[k]);
    }
  }

  // ---- against a handle-keyed channel --------------------------------------------------------

  function Without(hs: seq<Handle>, h: Handle): seq<Handle> {
    if hs == [] then []
    else Without(hs[..|hs| - 1], h) + if hs[|hs| - 1] == h then [] else [hs[|hs| - 1]]
  }

  /** What `unsubscribe` is documented to do: drop the callback the handle names, if it is still waiting. */
  function RemoveHandle(subs: Subscriptions, id: int, h: Handle): Subscriptions {
    if id !in subs then subs
    else
      var rest := Without(subs[id], h);
      if rest == [] then subs - {id} else subs[id := rest]
  }

  function RefApply(s: State, op: Op): State {
    if op.Unsubscribe? then s.(subs := RemoveHandle(s.subs, op.id, op.handle)) else Apply(s, op)
  }

  function RefExec(s: State, run: seq<Op>): State {
    if run == [] then s else RefApply(RefExec(s, run[..|run| - 1]), run[|run| - 1])
  }

  lemma {:induction false} WithoutAbsent(hs: seq<Handle>, h: Handle)
    requires h !in hs
    ensures Without(hs, h) == hs
  {
    if hs != [] {
      WithoutAbsent(hs[..|hs| - 1], h);
    }
  }

  lemma WithoutLast(hs: seq<Handle>)
    requires hs != [] && Increasing(hs)
    ensures Without(hs, hs[|hs| - 1]) == hs[..|hs| - 1]
  {
    var last := |hs| - 1;
    assert hs[last] !in hs[..last];
    WithoutAbsent(hs[..last], hs[last]);
  }

  lemma LastDiffers(id: int, a: Subscriptions, b: Subscriptions, last: Handle)
    requires id in b && b[id] != [] && b[id][|b[id]| - 1] == last
    requires id in a ==> a[id] != [] && a[id][|a[id]| - 1] != last
    ensures a != b
  {
  }

  /**
   `unsubscribe` does what its handle asks exactly when nothing waits for the submission or the handle is the newest
   waiting.
   */
  lemma UnsubscribeHonestIff(s: State, id: int, h: Handle)
    requires Inv(s)
    ensures PopNewest(s.subs, id) == RemoveHandle(s.subs, id, h) <==>
            id !in s.subs || (s.subs[id] != [] && s.subs[id][|s.subs[id]| - 1] == h)
  {
    if id in s.subs {
      assert ListOk(s.registry, s.subs[id], id);
      var hs := s.subs[id];
      if hs[|hs| - 1] == h {
        WithoutLast(hs);
      } else {
        LastDiffers(id, PopNewest(s.subs, id), RemoveHandle(s.subs, id, h), hs[|hs| - 1]);
      }
    }
  }

  /**
   The windows still open after a run in which subscribe-to-unsubscribe windows of one submission
   never overlap, and every unsubscribe closes its own; `None` for any other run.
   */
  function OpenWindows(run: seq<Op>): Option<map<int, Handle>> {
    if run == [] then Some(map[])
    else
      var before, op := run[..|run| - 1], run[|run| - 1];
      match OpenWindows(before)
      case None => None
      case Some(open) =>
        match op
        case Subscribe(id) => if id in open then None else Some(open[id := Exec(Init(), before).nextId + 1])
        case Take(_, _) => Some(open)
        case Invoke(_) => Some(open)
        case Unsubscribe(id, h) => if id in open && open[id] == h then Some(open - {id}) else None
  }

  /** Only callbacks with an open window wait, each alone. */
  ghost predicate WindowsHold(subs: Subscriptions, open: map<int, Handle>) {
    forall id | id in subs :: id in open && subs[id] == [open[id]]
  }

  lemma ClosingHolds(s: State, open: map<int, Handle>, id: int, h: Handle)
    requires Inv(s) && WindowsHold(s.subs, open) && id in open && open[id] == h
    ensures WindowsHold(PopNewest(s.subs, id), open - {id}) && PopNewest(s.subs, id) == RemoveHandle(s.subs, id, h)
  {
    UnsubscribeHonestIff(s, id, h);
  }

  /** One step of a run whose windows do not overlap. */
  lemma WindowStep(before: seq<Op>, s: State, op: Op, open: map<int, Handle>, open': map<int, Handle>)
    requires Inv(s) && s == Exec(Init(), before) && WindowsHold(s.subs, open)
    requires OpenWindows(before) == Some(open) && OpenWindows(before + [op]) == Some(open')
    ensures Apply(s, op) == RefApply(s, op) && WindowsHold(Apply(s, op).subs, open')
  {
    assert (before + [op])[..|before|] == before;
    match op
    case Unsubscribe(id, h) => ClosingHolds(s, open, id, h);
    case _ =>
  }

  /** Where windows do not overlap, the channel behaves as the documented, handle-keyed one. */
  lemma {:induction false} RefinesHandleKeyed(run: seq<Op>)
    requires OpenWindows(run).Some?
    ensures Exec(Init(), run) == RefExec(Init(), run)
    ensures WindowsHold(Exec(Init(), run).subs, OpenWindows(run).value)
  {
    if run != [] {
      var before, op := run[..|run| - 1], run[|run| - 1];
      RefinesHandleKeyed(before);
      RunKeepsInv(Init(), before);
      assert before + [op] == run;
      WindowStep(before, Exec(Init(), before), op, OpenWindows(before).value, OpenWindows(run).value);
    }
  }

  /** Two subscribers, and the first one leaves. */
  lemma FirstOfTwoLeaves(id: int) returns (run: seq<Op>, s: State)
    ensures run == [Subscribe(id), Subscribe(id), Unsubscribe(id, 1)] && s == Exec(Init(), run)
    ensures s.subs == map[id := [1]] && s.taken == map[] && s.fired == []
  {
    run, s := Extend([], Init(), Subscribe(id));
    assert s.subs[id] == [1] && s.subs.Keys == {id};
    run, s := Extend(run, s, Subscribe(id));
    assert s.subs[id] == [1, 2] && s.subs.Keys == {id};
    run, s := Extend(run, s, Unsubscribe(id, 1));
  }

  /** Overlapping windows: the first subscriber leaves, and the second one is dropped in its place. */
  lemma UnsubscribeDropsAnother(row: Result) returns (run: seq<Op>, s: State)
    ensures run == [Subscribe(row.id), Subscribe(row.id), Unsubscribe(row.id, 1), Take(0, row), Invoke(0)]
    ensures s == Exec(Init(), run) && s.fired == [Fired(1, row, 0, 0)] && s.subs == map[]
  {
    run, s := FirstOfTwoLeaves(row.id);
    run, s := Extend(run, s, Take(0, row));
    assert s.subs == map[];
    run, s := Extend(run, s, Invoke(0));
  }

  lemma Extend(run: seq<Op>, s: State, op: Op) returns (run': seq<Op>, s': State)
    requires s == Exec(Init(), run)
    ensures run' == run + [op] && s' == Apply(s, op) && s' == Exec(Init(), run')
  {
    run', s' := run + [op], Apply(s, op);
    assert run'[..|run|] == run;
  }

  // ---- callbacks after their unsubscribe ------------------------------------------------------

  /** A publisher has taken the callback and not come to it yet. */
  ghost predicate InFlight(s: State, h: Handle) {
    exists pub | pub in s.taken :: FliesWith(s.taken[pub], h)
  }

  ghost predicate FliesWith(b: Batch, h: Handle) {
    b.done <= |b.handles| && h in b.handles[b.done..]
  }

  ghost predicate Waits(s: State, h: Handle) {
    exists id | id in s.subs :: h in s.subs[id]
  }

  /** The callback is out of reach: subscribed once, neither waiting nor taken, and not fired. */
  ghost predicate Silent(s: State, h: Handle) {
    h in s.registry && !Waits(s, h) && !InFlight(s, h) && !HasFired(s, h)
  }

  lemma SilentStep(s: State, op: Op, h: Handle)
    requires Inv(s) && Silent(s, h)
    ensures Silent(Apply(s, op), h)
  {
    var s' := Apply(s, op);
    assert h <= s.nextId;
    forall id | id in s'.subs
      ensures h !in s'.subs[id]
    {
      assert id in s.subs ==> h !in s.subs[id];
    }
    forall pub | pub in s'.taken
      ensures !FliesWith(s'.taken[pub], h)
    {
      if pub in s.taken {
        assert !FliesWith(s.taken[pub], h);
      } else {
        assert op.row.id in s.subs ==> h !in s.subs[op.row.id];
      }
    }
    if op.Invoke? && s' != s {
      var b := s.taken[op.pub];
      assert !FliesWith(b, h) && b.handles[b.done] == b.handles[b.done..][0];
    }
  }

  /** Once out of reach, a callback never fires. */
  lemma {:induction false} SilentForever(s: State, run: seq<Op>, h: Handle)
    requires Inv(s) && Silent(s, h)
    ensures Silent(Exec(s, run), h)
  {
    if run != [] {
      SilentForever(s, run[..|run| - 1], h);
      RunKeepsInv(s, run[..|run| - 1]);
      SilentStep(Exec(s, run[..|run| - 1]), run[|run| - 1], h);
    }
  }

  function Invokes(pub: Publisher, n: nat): seq<Op> {
    if n == 0 then [] else Invokes(pub, n - 1) + [Invoke(pub)]
  }

  /** A publisher invokes the next of its callbacks. */
  lemma InvokeAdvances(s: State, pub: Publisher, b: Batch, s': State)
    requires pub in s.taken && s.taken[pub] == b && b.done < |b.handles| && s' == Apply(s, Invoke(pub))
    ensures pub in s'.taken && s'.taken[pub] == b.(done := b.done + 1) && HasFired(s', b.handles[b.done])
  {
    assert s'.fired[|s.fired|].handle == b.handles[b.done];
  }

  lemma InvokesMore(s: State, pub: Publisher, n: nat)
    ensures Exec(s, Invokes(pub, n + 1)) == Apply(Exec(s, Invokes(pub, n)), Invoke(pub))
  {
    var r := Invokes(pub, n);
    assert (r + [Invoke(pub)])[..|r|] == r;
  }

  /** A publisher goes on invoking. */
  lemma {:induction false} InvokesAdvance(s: State, pub: Publisher, b: Batch, n: nat, s': State)
    requires pub in s.taken && s.taken[pub] == b && b.done + n <= |b.handles| && s' == Exec(s, Invokes(pub, n))
    ensures pub in s'.taken && s'.taken[pub] == b.(done := b.done + n)
    ensures n > 0 ==> HasFired(s', b.handles[b.done + n - 1])
  {
    if n > 0 {
      var m := Exec(s, Invokes(pub, n - 1));
      InvokesAdvance(s, pub, b, n - 1, m);
      InvokesMore(s, pub, n - 1);
      InvokeAdvances(m, pub, b.(done := b.done + n - 1), s');
    }
  }

  ghost predicate FiresIn(s: State, run: seq<Op>, h: Handle) {
    HasFired(Exec(s, run), h)
  }

  /** Some continuation fires the callback. */
  ghost predicate CanFire(s: State, h: Handle) {
    exists run :: FiresIn(s, run, h)
  }

  lemma FlightFires(s: State, h: Handle) returns (run: seq<Op>)
    requires InFlight(s, h)
    ensures FiresIn(s, run, h)
  {
    var pub :| pub in s.taken && FliesWith(s.taken[pub], h);
    var b := s.taken[pub];
    var k :| 0 <= k < |b.handles[b.done..]| && b.handles[b.done..][k] == h;
    run := Invokes(pub, k + 1);
    InvokesAdvance(s, pub, b, k + 1, Exec(s, run));
  }

  lemma {:induction false} UnusedPublisher(used: set<Publisher>) returns (pub: Publisher)
    ensures forall p | p in used :: p < pub
  {
    pub := 0;
    if used != {} {
      var p :| p in used;
      var q := UnusedPublisher(used - {p});
      pub := if p < q then q else p + 1;
      assert forall r | r in used :: r == p || r in used - {p};
    }
  }

  lemma {:induction false} ExecConcat(s: State, r1: seq<Op>, r2: seq<Op>)
    ensures Exec(s, r1 + r2) == Exec(Exec(s, r1), r2)
  {
    if r2 == [] {
      assert r1 + r2 == r1;
    } else {
      var last := |r2| - 1;
      ExecConcat(s, r1, r2[..last]);
      assert (r1 + r2)[..|r1| + last] == r1 + r2[..last];
    }
  }

  lemma WaitingFires(s: State, h: Handle) returns (run: seq<Op>)
    requires Waits(s, h)
    ensures FiresIn(s, run, h)
  {
    var id :| id in s.subs && h in s.subs[id];
    var pub := UnusedPublisher(s.taken.Keys);
    var first := [Take(pub, Result(id, Ac))];
    var m := Apply(s, first[0]);
    assert first[..0] == [] && Exec(s, first) == m;
    assert m.taken[pub].handles[0..] == s.subs[id] && FliesWith(m.taken[pub], h);
    var rest := FlightFires(m, h);
    ExecConcat(s, first, rest);
    run := first + rest;
  }

  /** After its own unsubscribe the callback still waits, or is still in flight. */
  lemma LeftBehind(s: State, id: int, h: Handle)
    requires Inv(s) && h in s.registry && s.registry[h] == id
    ensures var s' := Apply(s, Unsubscribe(id, h));
            && (InFlight(s', h) <==> InFlight(s, h))
            && (Waits(s', h) <==> id in s.subs && h in s.subs[id] && s.subs[id][|s.subs[id]| - 1] != h)
  {
    var s' := Apply(s, Unsubscribe(id, h));
    if InFlight(s, h) {
      var pub :| pub in s.taken && FliesWith(s.taken[pub], h);
      assert FliesWith(s'.taken[pub], h);
    }
    if Waits(s', h) {
      var i :| i in s'.subs && h in s'.subs[i];
      assert ListOk(s.registry, s.subs[i], i);
    }
    if id in s.subs && h in s.subs[id] {
      var hs := s.subs[id];
      assert ListOk(s.registry, hs, id);
      var k :| 0 <= k < |hs| && hs[k] == h;
      if k < |hs| - 1 {
        assert s'.subs[id][k] == h;
      }
    }
  }

  /**
   When a callback can still run after its own `unsubscribe` has returned: exactly when a publisher
   had already taken it, or when a newer callback of the submission was dropped in its place.
   */
  lemma FiresAfterUnsubscribeIff(s: State, id: int, h: Handle)
    requires Inv(s) && h in s.registry && s.registry[h] == id && !HasFired(s, h)
    ensures var s' := Apply(s, Unsubscribe(id, h));
            CanFire(s', h) <==>
            InFlight(s, h) || (id in s.subs && h in s.subs[id] && s.subs[id][|s.subs[id]| - 1] != h)
  {
    var s' := Apply(s, Unsubscribe(id, h));
    OpKeepsInv(s, Unsubscribe(id, h));
    LeftBehind(s, id, h);
    assert !HasFired(s', h);
    if InFlight(s', h) {
      var run := FlightFires(s', h);
    } else if Waits(s', h) {
      var run := WaitingFires(s', h);
    } else {
      forall run
        ensures !FiresIn(s', run, h)
      {
        SilentForever(s', run, h);
      }
    }
  }

  /** A waiter times out between the snapshot and its invocation: its callback runs after it has unsubscribed. */
  lemma CallbackAfterReturn(row: Result) returns (run: seq<Op>, s: State)
    ensures run == [Subscribe(row.id), Take(0, row), Unsubscribe(row.id, 1)] && s == Exec(Init(), run)
    ensures !HasFired(s, 1) && Apply(s, Invoke(0)).fired == [Fired(1, row, 0, 0)]
  {
    run, s := Extend([], Init(), Subscribe(row.id));
    assert Waiting(s.subs, row.id) == [1];
    run, s := Extend(run, s, Take(0, row));
    run, s := Extend(run, s, Unsubscribe(row.id, 1));
  }

  // ---- wait_for ------------------------------------------------------------------------------

  /**
   What `wait_for` returns, given the row its caller already has and what its callback received before the deadline.
   */
  function WaitResult(s: State, existing: Option<Result>, h: Handle): Option<Result> {
    if existing.Some? && IsTerminalStatus(existing.value.status) then existing else Delivered(s.fired, h)
  }

  function Delivered(fired: seq<Fired>, h: Handle): Option<Result> {
    if fired == [] then None
    else if fired[|fired| - 1].handle == h then Some(fired[|fired| - 1].row)
    else Delivered(fired[..|fired| - 1], h)
  }

  lemma {:induction false} DeliveredFired(fired: seq<Fired>, h: Handle)
    ensures Delivered(fired, h).Some? <==> exists k | 0 <= k < |fired| :: fired[k].handle == h
    ensures Delivered(fired, h).Some? ==>
              exists k | 0 <= k < |fired| :: fired[k].handle == h && fired[k].row == Delivered(fired, h).value
  {
    if fired != [] {
      var last := |fired| - 1;
      DeliveredFired(fired[..last], h);
      if fired[last].handle != h && Delivered(fired[..last], h).Some? {
        var k :| 0 <= k < last && fired[..last][k].handle == h && fired[..last][k].row == Delivered(fired, h).value;
        assert fired[k].handle == h && fired[k].row == Delivered(fired, h).value;
      }
    }
  }

  /**
   A waiter that subscribed for `id` gets a published row exactly when its callback fired before it
   looked, and the row is then one of its own submission.
   */
  lemma WaitForOwnSubmission(run: seq<Op>, id: int, h: Handle, existing: Option<Result>)
    requires var s := Exec(Init(), run); h in s.registry && s.registry[h] == id
    requires existing.Some? ==> !IsTerminalStatus(existing.value.status)
    ensures var s := Exec(Init(), run);
            && (WaitResult(s, existing, h).Some? <==> HasFired(s, h))
            && (WaitResult(s, existing, h).Some? ==> WaitResult(s, existing, h).value.id == id)
  {
    var s := Exec(Init(), run);
    FiresAtMostOnce(run);
    DeliveredFired(s.fired, h);
  }
}
