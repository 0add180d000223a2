/**
 The planner: which step each room needs, and which of those steps one pass may take.
 */
module Planner {
  import opened Rooms

  const START_DEADLINE: int := 300
  const STOP_DEADLINE: int := 90
  const VANISH_GRACE: int := 60
  const DEGRADED_SWEEPS: nat := 3
  const MAX_REAPS_PER_TICK: nat := 1

  // ---------------------------------------------------------------- one room

  /** Whether a room has been quiet for long enough to be taken down. */
  predicate ShouldReap(room: RoomView, now: Time, idleTimeout: int) {
    && idleTimeout > 0
    && !room.pinned
    && room.idleSince.Some?
    && now - room.idleSince.value > idleTimeout
  }

  /** The transition table. */
  function StepFor(room: RoomView, deployment: Option<Deployment>, now: Time, idleTimeout: int): Option<Step> {
    if room.desired == WantDeleted then Some(Delete)
    else
      match room.state
      case Provisioning => Some(Provision)
      case IntegrityFault => None
      case Deleting => None
      case Idle =>
        if room.desired != WantRunning then None
        else if deployment.Some? && deployment.value.deleting then None
        else Some(Start)
      case Failed =>
        if room.desired != WantRunning then None
        else if && room.desiredSpecHash.Some? && room.specHash.Some?
                && room.desiredSpecHash != room.specHash then Some(Retry)
        else if room.retryAfter.Some? && room.retryAfter.value <= now then Some(Retry)
        else None
      case Stopping =>
        if deployment.None? then Some(MarkIdle(StopComplete))
        else if now - room.stateChangedAt > STOP_DEADLINE then Some(Stop)
        else None
      case Starting | Running | Degraded => LiveStep(room, deployment, now, idleTimeout)
  }

  /** The transition table's arm for a room that has a Deployment recorded. */
  function LiveStep(room: RoomView, deployment: Option<Deployment>, now: Time, idleTimeout: int): Option<Step> {
    if room.desired.IsAtRest() then Some(Stop)
    else if deployment.None? then
      if now - room.stateChangedAt > VANISH_GRACE then Some(MarkIdle(DeploymentGone)) else None
    else if room.redeployRequestedAt.Some? then Some(Recreate)
    else if room.state == Running && ShouldReap(room, now, idleTimeout) then Some(Reap)
    else if deployment.value.specHash != room.specHash then Some(Recreate)
    else if deployment.value.readyReplicas >= 1 then
      if room.state == Running && room.notReadySweeps == 0 then None else Some(MarkRunning)
    else if room.state == Starting then
      if now - room.stateChangedAt > START_DEADLINE then Some(FailStart) else None
    else if room.state == Running then
      if room.notReadySweeps + 1 >= DEGRADED_SWEEPS then Some(MarkDegraded) else Some(NotReady)
    else None
  }

  // ---------------------------------------------------------------- the whole fleet

  /** A Deployment as a snapshot lists it; its label may name no room. */
  datatype Listed = Listed(room: Option<RoomId>, deployment: Deployment)

  type Snapshot = seq<Listed>

  datatype Candidate = Candidate(room: RoomView, step: Step)

  datatype Action = Action(room: RoomId, step: Step)

  function DeploymentOf(cluster: Snapshot, id: RoomId): Option<Deployment> {
    if cluster == [] then None
    else if cluster[0].room == Some(id) then Some(cluster[0].deployment)
    else DeploymentOf(cluster[1..], id)
  }

  ghost predicate DistinctIds(rooms: seq<RoomView>) {
    forall i, j :: 0 <= i < j < |rooms| ==> rooms[i].id != rooms[j].id
  }

  /** The step a pass of this kind would consider for a room, before any cap. */
  function Considered(room: RoomView, cluster: Snapshot, now: Time, idleTimeout: int, kind: TickKind): Option<Step> {
    var step := StepFor(room, DeploymentOf(cluster, room.id), now, idleTimeout);
    if kind == Converge && step.Some? && step.value.IsPaced() then None else step
  }

  /** Every room with something to consider, in the order the rows were read. */
  function Candidates(rooms: seq<RoomView>, cluster: Snapshot, now: Time, idleTimeout: int, kind: TickKind)
    : (planned: seq<Candidate>)
    ensures |planned| <= |rooms|
    ensures forall c :: c in planned ==> c.room in rooms
                                         && Considered(c.room, cluster, now, idleTimeout, kind) == Some(c.step)
  {
    if rooms == [] then []
    else
      var step := Considered(rooms[0], cluster, now, idleTimeout, kind);
      (if step.Some? then [Candidate(rooms[0], step.value)] else [])
      + Candidates(rooms[1..], cluster, now, idleTimeout, kind)
  }

  // -- the order in which capped steps are served

  /** Absent before present, earlier before later, and the smaller id first of two that are equal. */
  predicate IsEarlier(a: Option<Time>, aId: RoomId, b: Option<Time>, bId: RoomId) {
    match (a, b)
    case (None, None) => aId < bId
    case (None, Some(_)) => true
    case (Some(_), None) => false
    case (Some(x), Some(y)) => x < y || (x == y && aId < bId)
  }

  /** Reference meaning of the order: a recreate by when it was asked for, a reap by how long the room was quiet. */
  predicate IsServedBefore(step: Step, a: RoomView, b: RoomView) {
    if step == Recreate then IsEarlier(a.redeployRequestedAt, a.id, b.redeployRequestedAt, b.id)
    else IsEarlier(a.idleSince, a.id, b.idleSince, b.id)
  }

  datatype Key = Key(at: Option<Time>, id: RoomId)

  /** Strictly earlier. An absent time sorts before every present one; ids break ties. */
  predicate Precedes(a: Key, b: Key) {
    if a.at == b.at then a.id < b.id
    else a.at.None? || (b.at.Some? && a.at.value < b.at.value)
  }

  function KeyOf(c: Candidate): Key {
    Key(if c.step == Recreate then c.room.redeployRequestedAt else c.room.idleSince, c.room.id)
  }

  ghost predicate DistinctRooms(planned: seq<Candidate>) {
    forall i, j :: 0 <= i < j < |planned| ==> planned[i].room.id != planned[j].room.id
  }

  /** The candidates for the same step that are served before candidate `i`. */
  ghost function Ahead(planned: seq<Candidate>, i: nat): set<nat>
    requires i < |planned|
  {
    set j: nat | j < |planned| && planned[j].step == planned[i].step
                 && IsServedBefore(planned[i].step, planned[j].room, planned[i].room)
  }

  /** Reference meaning of the caps: a capped step is taken when fewer than `cap` stand ahead of it. */
  ghost predicate Kept(planned: seq<Candidate>, maxRecreates: nat, i: nat)
    requires i < |planned|
  {
    && (planned[i].step == Recreate ==> |Ahead(planned, i)| < maxRecreates)
    && (planned[i].step == Reap ==> |Ahead(planned, i)| < MAX_REAPS_PER_TICK)
  }

  /** Reference meaning of a pass: every kept candidate, in order. */
  ghost function Selection(planned: seq<Candidate>, maxRecreates: nat, from: nat := 0): (actions: seq<Action>)
    requires from <= |planned|
    decreases |planned| - from
  {
    if from == |planned| then []
    else
      var rest := Selection(planned, maxRecreates, from + 1);
      if Kept(planned, maxRecreates, from) then [Action(planned[from].room.id, planned[from].step)] + rest else rest
  }

  // -- sorting indices by key

  ghost predicate IsSorted(planned: seq<Candidate>, order: seq<nat>) {
    && (forall p :: 0 <= p < |order| ==> order[p] < |planned|)
    && (forall p, q :: 0 <= p < q < |order| ==> Precedes(KeyOf(planned[order[p]]), KeyOf(planned[order[q]])))
  }

  /** One index put in its place among indices already in key order. */
  function Insert(planned: seq<Candidate>, order: seq<nat>, i: nat): (r: seq<nat>)
    requires i < |planned| && forall p :: 0 <= p < |order| ==> order[p] < |planned|
    ensures multiset(r) == multiset(order) + multiset{i}
    ensures forall p :: 0 <= p < |r| ==> r[p] == i || r[p] in order
  {
    if order == [] then [i]
    else if Precedes(KeyOf(planned[i]), KeyOf(planned[order[0]])) then
      [i] + order
    else
      assert order == [order[0]] + order[1..];
      [order[0]] + Insert(planned, order[1..], i)
  }

  /** Indices in key order, as the standard library's stable sort leaves them. */
  function SortByKey(planned: seq<Candidate>, indices: seq<nat>): (order: seq<nat>)
    requires forall p :: 0 <= p < |indices| ==> indices[p] < |planned|
    ensures multiset(order) == multiset(indices)
    ensures forall p :: 0 <= p < |order| ==> order[p] < |planned|
  {
    if indices == [] then []
    else
      assert indices == [indices[0]] + indices[1..];
      Insert(planned, SortByKey(planned, indices[1..]), indices[0])
  }

  lemma {:induction false} FirstThenSorted(planned: seq<Candidate>, first: nat, rest: seq<nat>)
    requires first < |planned| && IsSorted(planned, rest)
    requires forall p :: 0 <= p < |rest| ==> Precedes(KeyOf(planned[first]), KeyOf(planned[rest[p]]))
    ensures IsSorted(planned, [first] + rest)
  {
  }

  lemma {:induction false} InsertSorts(planned: seq<Candidate>, order: seq<nat>, i: nat)
    requires DistinctRooms(planned) && IsSorted(planned, order)
    requires i < |planned| && i !in order
    ensures IsSorted(planned, Insert(planned, order, i))
  {
    if order == [] {
    } else if Precedes(KeyOf(planned[i]), KeyOf(planned[order[0]])) {
    } else {
      var first, rest := planned[order[0]], Insert(planned, order[1..], i);
      InsertSorts(planned, order[1..], i);
      assert Precedes(KeyOf(first), KeyOf(planned[i]));
      forall p | 0 <= p < |rest| ensures Precedes(KeyOf(first), KeyOf(planned[rest[p]])) {
        if rest[p] != i {
          var k :| 1 <= k < |order| && order[k] == rest[p];
        }
      }
      FirstThenSorted(planned, order[0], rest);
      assert Insert(planned, order, i) == [order[0]] + rest;
    }
  }

  lemma {:induction false} SortSorts(planned: seq<Candidate>, indices: seq<nat>)
    requires DistinctRooms(planned)
    requires forall p :: 0 <= p < |indices| ==> indices[p] < |planned|
    requires forall p, q :: 0 <= p < q < |indices| ==> indices[p] != indices[q]
    ensures IsSorted(planned, SortByKey(planned, indices))
  {
    if indices != [] {
      SortSorts(planned, indices[1..]);
      var rest := SortByKey(planned, indices[1..]);
      assert forall x :: x in rest ==> x in multiset(rest);
      assert indices[0] !in rest;
      InsertSorts(planned, rest, indices[0]);
    }
  }

  /** The sort key orders the candidates for one step as they are to be served. */
  lemma {:induction false} KeysServe(a: Candidate, b: Candidate)
    requires a.step == b.step
    ensures Precedes(KeyOf(a), KeyOf(b)) <==> IsServedBefore(a.step, a.room, b.room)
  {
  }

  /** In key order, the candidate at position `p` has exactly `p` candidates ahead of it. */
  lemma {:induction false} PositionIsRank(planned: seq<Candidate>, order: seq<nat>, p: nat)
    requires IsSorted(planned, order) && p < |order|
    requires forall x: nat :: x in order <==> x < |planned| && planned[x].step == planned[order[p]].step
    ensures |Ahead(planned, order[p])| == p
  {
    var front := set k: nat | k < p :: order[k];
    assert Ahead(planned, order[p]) == front by {
      forall j | j in Ahead(planned, order[p])
        ensures j in front
      {
        var k :| 0 <= k < |order| && order[k] == j;
        KeysServe(planned[order[k]], planned[order[p]]);
        assert !(p < k);
      }
      forall k: nat | k < p
        ensures order[k] in Ahead(planned, order[p])
      {
        assert order[k] in order;
        KeysServe(planned[order[k]], planned[order[p]]);
      }
    }
    PrefixSize(order, p);
  }

  lemma {:induction false} PrefixSize(order: seq<nat>, p: nat)
    requires p <= |order|
    requires forall a, b :: 0 <= a < b < |order| ==> order[a] != order[b]
    ensures |set k: nat | k < p :: order[k]| == p
  {
    if p > 0 {
      PrefixSize(order, p - 1);
      var shorter := set k: nat | k < p - 1 :: order[k];
      assert (set k: nat | k < p :: order[k]) == shorter + {order[p - 1]};
    }
  }

  // ---------------------------------------------------------------- the pass

  /** The indices of the candidates for one step, in the caller's order. */
  function IndicesOf(planned: seq<Candidate>, step: Step, from: nat := 0): (indices: seq<nat>)
    requires from <= |planned|
    ensures forall p :: 0 <= p < |indices| ==> from <= indices[p] < |planned| && planned[indices[p]].step == step
    ensures forall i: nat :: from <= i < |planned| && planned[i].step == step ==> i in indices
    ensures forall p, q :: 0 <= p < q < |indices| ==> indices[p] < indices[q]
    decreases |planned| - from
  {
    if from == |planned| then []
    else
      var rest := IndicesOf(planned, step, from + 1);
      if planned[from].step == step then [from] + rest else rest
  }

  /** The candidates for one step, in the order they are served. */
  function ServingOrder(planned: seq<Candidate>, step: Step): seq<nat> {
    SortByKey(planned, IndicesOf(planned, step))
  }

  lemma {:induction false} ServingOrderIsSorted(planned: seq<Candidate>, step: Step)
    requires DistinctRooms(planned)
    ensures IsSorted(planned, ServingOrder(planned, step))
    ensures forall i: nat :: i in ServingOrder(planned, step) <==> i < |planned| && planned[i].step == step
  {
    var indices := IndicesOf(planned, step);
    SortSorts(planned, indices);
    forall i: nat
      ensures i in ServingOrder(planned, step) <==> i < |planned| && planned[i].step == step
    {
      assert i in ServingOrder(planned, step) <==> i in multiset(ServingOrder(planned, step));
      assert i in indices <==> i in multiset(indices);
    }
  }

  /** The indices of one capped step that its cap defers to a later pass. */
  function DeferredBy(planned: seq<Candidate>, step: Step, cap: nat): seq<nat> {
    var order := ServingOrder(planned, step);
    if |order| <= cap then [] else order[cap..]
  }

  /** Sorting and skipping the first `cap` defers exactly the candidates with `cap` or more ahead. */
  lemma {:induction false} DeferredIffCrowded(planned: seq<Candidate>, step: Step, cap: nat, i: nat)
    requires DistinctRooms(planned) && i < |planned|
    ensures i in DeferredBy(planned, step, cap) <==> planned[i].step == step && |Ahead(planned, i)| >= cap
  {
    var order := ServingOrder(planned, step);
    ServingOrderIsSorted(planned, step);
    if planned[i].step == step {
      var p :| 0 <= p < |order| && order[p] == i;
      PositionIsRank(planned, order, p);
      if p >= cap {
        assert order[cap..][p - cap] == i;
      }
    }
  }

  /** Everything one pass defers, recreates before reaps. */
  function Deferred(planned: seq<Candidate>, maxRecreates: nat): seq<nat> {
    DeferredBy(planned, Recreate, maxRecreates) + DeferredBy(planned, Reap, MAX_REAPS_PER_TICK)
  }

  lemma {:induction false} DeferredIffNotKept(planned: seq<Candidate>, maxRecreates: nat, i: nat)
    requires DistinctRooms(planned) && i < |planned|
    ensures i in Deferred(planned, maxRecreates) <==> !Kept(planned, maxRecreates, i)
  {
    DeferredIffCrowded(planned, Recreate, maxRecreates, i);
    DeferredIffCrowded(planned, Reap, MAX_REAPS_PER_TICK, i);
  }

  lemma {:induction false} CandidatesAreDistinct(rooms: seq<RoomView>, cluster: Snapshot, now: Time,
        idleTimeout: int, kind: TickKind)
    requires DistinctIds(rooms)
    ensures DistinctRooms(Candidates(rooms, cluster, now, idleTimeout, kind))
  {
    if rooms != [] {
      CandidatesAreDistinct(rooms[1..], cluster, now, idleTimeout, kind);
      var rest := Candidates(rooms[1..], cluster, now, idleTimeout, kind);
      forall k | 0 <= k < |rest|
        ensures rest[k].room.id != rooms[0].id
      {
        assert rest[k] in rest;
      }
    }
  }

  function ActionOf(c: Candidate): Action {
    Action(c.room.id, c.step)
  }

  /** The deferred candidates, looked up by index. */
  ghost predicate DefersRightly(planned: seq<Candidate>, maxRecreates: nat, deferred: seq<nat>) {
    forall i: nat :: i < |planned| ==> (i in deferred <==> !Kept(planned, maxRecreates, i))
  }

  method Defer(planned: seq<Candidate>, maxRecreates: nat) returns (deferred: seq<nat>)
    requires DistinctRooms(planned)
    ensures DefersRightly(planned, maxRecreates, deferred)
  {
    deferred := Deferred(planned, maxRecreates);
    forall i: nat | i < |planned| ensures i in deferred <==> !Kept(planned, maxRecreates, i) {
      DeferredIffNotKept(planned, maxRecreates, i);
    }
  }

  /** Skipping the deferred candidate or taking the others is what the selection does too. */
  lemma {:induction false} OneMoreCandidate(planned: seq<Candidate>, maxRecreates: nat, deferred: seq<nat>,
        index: nat, actions: seq<Action>)
    requires DefersRightly(planned, maxRecreates, deferred) && index < |planned|
    ensures actions + Selection(planned, maxRecreates, index)
            == (if index in deferred then actions else actions + [ActionOf(planned[index])])
               + Selection(planned, maxRecreates, index + 1)
  {
    assert Kept(planned, maxRecreates, index) <==> index !in deferred;
  }

  /** One pass over the fleet. */
  method Plan(rooms: seq<RoomView>, cluster: Snapshot, now: Time, maxRecreates: nat, idleTimeout: int, kind: TickKind)
    returns (actions: seq<Action>)
    requires DistinctIds(rooms)
    ensures actions == Selection(Candidates(rooms, cluster, now, idleTimeout, kind), maxRecreates)
  {
    var planned := Candidates(rooms, cluster, now, idleTimeout, kind);
    CandidatesAreDistinct(rooms, cluster, now, idleTimeout, kind);

    var deferred := Defer(planned, maxRecreates);
    ghost var whole := Selection(planned, maxRecreates);

    actions := [];
    for index := 0 to |planned|
      invariant actions + Selection(planned, maxRecreates, index) == whole
    {
      OneMoreCandidate(planned, maxRecreates, deferred, index, actions);
      if index !in deferred {
        actions := actions + [ActionOf(planned[index])];
      }
    }
  }
}
