/**
 A monitor over the Docker calls a judge makes.  It is written independently of
 the callers: it accepts a call log exactly when each container is made once,
 started at most once, touched only while up, and nothing follows its removal.
 */
module Containers {
  import opened Options

  type Cid = nat

  /**
   `Handed` is a container the warm pool made and gave away; `Orphan` is one whose create took effect and lost its
   reply.
   */
  datatype Op = Create(cid: Cid) | Handed(cid: Cid) | Orphan(cid: Cid) | Start(cid: Cid) | Wait(cid: Cid)
              | Kill(cid: Cid) | Logs(cid: Cid) | Remove(cid: Cid) | RemoveFailed(cid: Cid)

  /** `Left` is a container whose removal was attempted and failed, `Lost` one nobody knows of. */
  datatype Life = Made | Up | Gone | Left | Lost

  /** How a create turns out: the reply may also be lost after it took effect. */
  datatype CreateReply = Created(cid: Cid) | NotCreated | ReplyLost(cid: Cid)

  /** The id Docker used up. */
  function NewId(r: CreateReply): Option<Cid> {
    if r.NotCreated? then None else Some(r.cid)
  }

  /** The id the caller learns. */
  function KnownId(r: CreateReply): Option<Cid> {
    if r.Created? then Some(r.cid) else None
  }

  function CreateCall(r: CreateReply): Option<Op> {
    match r
    case Created(c) => Some(Create(c))
    case NotCreated => None
    case ReplyLost(c) => Some(Orphan(c))
  }

  function RemoveCall(c: Cid, ok: bool): Op {
    if ok then Remove(c) else RemoveFailed(c)
  }

  /** The id is new to Docker. */
  predicate FreshReply(b: Boxes, r: CreateReply) {
    NewId(r).Some? ==> NewId(r).value !in b
  }

  type Boxes = map<Cid, Life>

  /** The container exists and somebody knows of it. */
  predicate Standing(b: Boxes, c: Cid) {
    c in b && (b[c] == Made || b[c] == Up)
  }

  predicate Allowed(b: Boxes, op: Op) {
    match op
    case Create(c) => c !in b
    case Handed(c) => c !in b
    case Orphan(c) => c !in b
    case Start(c) => c in b && b[c] == Made
    case Wait(c) => c in b && b[c] == Up
    case Kill(c) => c in b && b[c] == Up
    case Logs(c) => c in b && b[c] == Up
    case Remove(c) => Standing(b, c)
    case RemoveFailed(c) => Standing(b, c)
  }

  function After(b: Boxes, op: Op): Boxes {
    match op
    case Create(c) => b[c := Made]
    case Handed(c) => b[c := Made]
    case Orphan(c) => b[c := Lost]
    case Start(c) => b[c := Up]
    case Wait(_) => b
    case Kill(_) => b
    case Logs(_) => b
    case Remove(c) => b[c := Gone]
    case RemoveFailed(c) => b[c := Left]
  }

  /** Every Docker call so far and the containers' lives they amount to. */
  datatype Docker = Docker(calls: seq<Op>, boxes: Boxes)

  function NextDocker(d: Docker, call: Option<Op>): Docker {
    if call.Some? then Docker(d.calls + [call.value], After(d.boxes, call.value)) else d
  }

  /** The containers' lives after a log, or `None` when the monitor objects. */
  function Replay(log: seq<Op>): Option<Boxes> {
    if log == [] then Some(map[])
    else
      var last := |log| - 1;
      match Replay(log[..last])
      case None => None
      case Some(b) => if Allowed(b, log[last]) then Some(After(b, log[last])) else None
  }

  /** How often a removal was attempted. */
  function Removals(log: seq<Op>, c: Cid): nat {
    multiset(log)[Remove(c)] + multiset(log)[RemoveFailed(c)]
  }

  lemma ReplayExtends(log: seq<Op>, op: Op)
    requires Replay(log).Some? && Allowed(Replay(log).value, op)
    ensures Replay(log + [op]) == Some(After(Replay(log).value, op))
  {
    assert (log + [op])[..|log|] == log;
  }

  /** What acceptance means for one container, in terms of the log alone. */
  lemma {:induction false} AcceptedMeansOneRemoval(log: seq<Op>, c: Cid)
    requires Replay(log).Some?
    ensures var b := Replay(log).value;
            && (Removals(log, c) == if c in b && (b[c] == Gone || b[c] == Left) then 1 else 0)
            && (c !in b ==> forall k | 0 <= k < |log| :: log[k].cid != c)
  {
    if log != [] {
      var last := |log| - 1;
      AcceptedMeansOneRemoval(log[..last], c);
      assert log == log[..last] + [log[last]];
    }
  }

  /** Nothing is done to a container once its removal was attempted, so no start follows. */
  lemma {:induction false} AcceptedMeansNothingAfterRemoval(log: seq<Op>, i: nat, j: nat)
    requires Replay(log).Some?
    requires i < j < |log|
    requires log[i].Remove? || log[i].RemoveFailed?
    ensures log[j].cid != log[i].cid
  {
    var last := |log| - 1;
    if j < last {
      AcceptedMeansNothingAfterRemoval(log[..last], i, j);
    } else {
      AcceptedMeansOneRemoval(log[..last], log[i].cid);
      assert log[..last][i] == log[i];
    }
  }

  /**
   The containers Docker ever had are those some create or handover in the log brought; the lost ones are those whose
   reply was lost, the gone ones those it removed and the ones left those whose removal failed.
   */
  lemma {:induction false} AcceptedMeansBrought(log: seq<Op>, c: Cid)
    requires Replay(log).Some?
    ensures var b := Replay(log).value;
            && (c in b <==> Create(c) in log || Handed(c) in log || Orphan(c) in log)
            && (c in b && b[c] == Lost <==> Orphan(c) in log)
            && (c in b && b[c] == Gone <==> Remove(c) in log)
            && (c in b && b[c] == Left <==> RemoveFailed(c) in log)
  {
    if log != [] {
      var last := |log| - 1;
      AcceptedMeansBrought(log[..last], c);
      AcceptedMeansOneRemoval(log[..last], c);
      assert log == log[..last] + [log[last]];
    }
  }

  /** A log that ends with its only attempt to remove `c`. */
  lemma LastRemoval(front: seq<Op>, last: Op, c: Cid)
    requires Remove(c) !in front && RemoveFailed(c) !in front && (last == Remove(c) || last == RemoveFailed(c))
    ensures Removals(front + [last], c) == 1
    ensures forall op :: op in front + [last] <==> op in front || op == last
  {
    assert multiset(front)[Remove(c)] == 0 && multiset(front)[RemoveFailed(c)] == 0;
    assert multiset(front + [last]) == multiset(front) + multiset{last};
  }
}
