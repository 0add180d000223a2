/**
 What the planner promises about whole passes and sequences of passes.
 */
module PlannerProperties {
  import opened Rooms
  import opened Planner

  // ---------------------------------------------------------------- selection

  /** The actions a list of candidates would become if nothing were capped. */
  function ActionsOf(planned: seq<Candidate>): seq<Action> {
    if planned == [] then [] else [Action(planned[0].room.id, planned[0].step)] + ActionsOf(planned[1..])
  }

  function CountOf(actions: seq<Action>, step: Step): nat {
    if actions == [] then 0 else (if actions[0].step == step then 1 else 0) + CountOf(actions[1..], step)
  }

  ghost predicate IsKeptFor(planned: seq<Candidate>, maxRecreates: nat, step: Step, i: nat)
    requires i < |planned|
  {
    planned[i].step == step && Kept(planned, maxRecreates, i)
  }

  /** Which candidates are kept for one step, place by place. */
  ghost function KeptFlags(planned: seq<Candidate>, maxRecreates: nat, step: Step): seq<bool> {
    seq(|planned|, i requires 0 <= i < |planned| => IsKeptFor(planned, maxRecreates, step, i))
  }

  ghost function Raised(flags: seq<bool>, from: nat := 0): set<nat> {
    set i: nat | from <= i < |flags| && flags[i]
  }

  ghost function CountRaised(flags: seq<bool>, from: nat): nat
    requires from <= |flags|
    decreases |flags| - from
  {
    if from == |flags| then 0 else (if flags[from] then 1 else 0) + CountRaised(flags, from + 1)
  }

  lemma {:induction false} RaisedSize(flags: seq<bool>, from: nat)
    requires from <= |flags|
    ensures CountRaised(flags, from) == |Raised(flags, from)|
    decreases |flags| - from
  {
    if from < |flags| {
      RaisedSize(flags, from + 1);
      assert Raised(flags, from) == Raised(flags, from + 1) + (if flags[from] then {from} else {});
    } else {
      assert Raised(flags, from) == {};
    }
  }

  /** The kept candidates for one step. */
  ghost function KeptFor(planned: seq<Candidate>, maxRecreates: nat, step: Step): set<nat> {
    Raised(KeptFlags(planned, maxRecreates, step))
  }

  lemma {:induction false} CountIsKept(planned: seq<Candidate>, maxRecreates: nat, step: Step, from: nat)
    requires from <= |planned|
    ensures CountOf(Selection(planned, maxRecreates, from), step) == CountRaised(KeptFlags(planned, maxRecreates,
              step), from)
    decreases |planned| - from
  {
    if from < |planned| {
      CountIsKept(planned, maxRecreates, step, from + 1);
      var rest := Selection(planned, maxRecreates, from + 1);
      if Kept(planned, maxRecreates, from) {
        var all := Selection(planned, maxRecreates, from);
        assert all[1..] == rest;
      }
    }
  }

  function AtMost(n: nat, cap: nat): nat {
    if n <= cap then n else cap
  }

  function CapOf(maxRecreates: nat, step: Step): nat {
    if step == Recreate then maxRecreates else MAX_REAPS_PER_TICK
  }

  /** The kept candidates of a capped step are the first ones in serving order. */
  lemma {:induction false} KeptIffInFront(planned: seq<Candidate>, maxRecreates: nat, step: Step, i: nat)
    requires DistinctRooms(planned) && (step == Recreate || step == Reap) && i < |planned|
    ensures var order := ServingOrder(planned, step);
            IsKeptFor(planned, maxRecreates, step, i) <==> i in order[..AtMost(|order|, CapOf(maxRecreates, step))]
  {
    var order := ServingOrder(planned, step);
    var m := AtMost(|order|, CapOf(maxRecreates, step));
    ServingOrderIsSorted(planned, step);
    if planned[i].step == step {
      var p :| 0 <= p < |order| && order[p] == i;
      PositionIsRank(planned, order, p);
      if p < m {
        assert order[..m][p] == i;
      }
    }
  }

  ghost function Elements(order: seq<nat>): set<nat> {
    set i: nat | i in order
  }

  lemma {:induction false} SizeOfDistinct(order: seq<nat>)
    requires forall a, b :: 0 <= a < b < |order| ==> order[a] != order[b]
    ensures |Elements(order)| == |order|
  {
    if order != [] {
      SizeOfDistinct(order[1..]);
      assert Elements(order) == Elements(order[1..]) + {order[0]};
    }
  }

  /** The kept candidates of a capped step are the front of the serving order. */
  lemma {:induction false} KeptIsFront(planned: seq<Candidate>, maxRecreates: nat, step: Step)
    requires DistinctRooms(planned) && (step == Recreate || step == Reap)
    ensures var order := ServingOrder(planned, step);
            KeptFor(planned, maxRecreates, step) == Elements(order[..AtMost(|order|, CapOf(maxRecreates, step))])
  {
    var order := ServingOrder(planned, step);
    var m := AtMost(|order|, CapOf(maxRecreates, step));
    ServingOrderIsSorted(planned, step);
    forall i: nat
      ensures i in KeptFor(planned, maxRecreates, step) <==> i in order[..m]
    {
      if i < |planned| {
        KeptIffInFront(planned, maxRecreates, step, i);
      }
    }
  }

  /** How many candidates of a capped step are kept: all of them, or as many as the cap allows. */
  lemma {:induction false} KeptSize(planned: seq<Candidate>, maxRecreates: nat, step: Step)
    requires DistinctRooms(planned) && (step == Recreate || step == Reap)
    ensures |KeptFor(planned, maxRecreates, step)| == AtMost(|ServingOrder(planned, step)|, CapOf(maxRecreates, step))
  {
    var order := ServingOrder(planned, step);
    KeptIsFront(planned, maxRecreates, step);
    ServingOrderIsSorted(planned, step);
    SizeOfDistinct(order[..AtMost(|order|, CapOf(maxRecreates, step))]);
  }

  /** A pass recreates exactly as many rooms as its cap allows and reaps at most one, whatever the fleet. */
  lemma {:induction false} CapsAreExact(planned: seq<Candidate>, maxRecreates: nat, step: Step)
    requires DistinctRooms(planned) && (step == Recreate || step == Reap)
    ensures CountOf(Selection(planned, maxRecreates), step)
            == AtMost(|IndicesOf(planned, step)|, CapOf(maxRecreates, step))
  {
    CountIsKept(planned, maxRecreates, step, 0);
    RaisedSize(KeptFlags(planned, maxRecreates, step), 0);
    KeptSize(planned, maxRecreates, step);
    assert |multiset(ServingOrder(planned, step))| == |multiset(IndicesOf(planned, step))|;
  }

  /** Some kept candidate at or after `from` became this action. */
  ghost predicate ComesFrom(planned: seq<Candidate>, maxRecreates: nat, from: nat, a: Action) {
    exists i: nat :: from <= i < |planned| && Kept(planned, maxRecreates, i) && a == ActionOf(planned[i])
  }

  /** Exactly the kept candidates are acted on. */
  lemma {:induction false} SelectedIffKept(planned: seq<Candidate>, maxRecreates: nat, from: nat, a: Action)
    requires from <= |planned|
    ensures a in Selection(planned, maxRecreates, from) <==> ComesFrom(planned, maxRecreates, from, a)
    decreases |planned| - from
  {
    if from < |planned| {
      SelectedIffKept(planned, maxRecreates, from + 1, a);
      if Kept(planned, maxRecreates, from) && a == ActionOf(planned[from]) {
        assert ComesFrom(planned, maxRecreates, from, a);
      } else {
        assert ComesFrom(planned, maxRecreates, from, a) <==> ComesFrom(planned, maxRecreates, from + 1, a);
      }
    }
  }

  lemma {:induction false} KeptIsTaken(planned: seq<Candidate>, maxRecreates: nat, i: nat)
    requires i < |planned| && Kept(planned, maxRecreates, i)
    ensures ActionOf(planned[i]) in Selection(planned, maxRecreates)
  {
    assert ComesFrom(planned, maxRecreates, 0, ActionOf(planned[i]));
    SelectedIffKept(planned, maxRecreates, 0, ActionOf(planned[i]));
  }

  /** At most one action per room per pass. */
  lemma {:induction false} OneActionPerRoom(planned: seq<Candidate>, maxRecreates: nat, from: nat)
    requires DistinctRooms(planned) && from <= |planned|
    ensures forall p, q :: 0 <= p < q < |Selection(planned, maxRecreates, from)| ==>
              Selection(planned, maxRecreates, from)[p].room != Selection(planned, maxRecreates, from)[q].room
    decreases |planned| - from
  {
    if from < |planned| {
      OneActionPerRoom(planned, maxRecreates, from + 1);
      var rest := Selection(planned, maxRecreates, from + 1);
      forall q | 0 <= q < |rest|
        ensures rest[q].room != planned[from].room.id
      {
        SelectedIffKept(planned, maxRecreates, from + 1, rest[q]);
      }
    }
  }

  // ---------------------------------------------------------------- convergence passes

  function Unpaced(actions: seq<Action>): seq<Action> {
    if actions == [] then []
    else (if actions[0].step.IsPaced() then [] else [actions[0]]) + Unpaced(actions[1..])
  }

  function UnpacedCandidates(planned: seq<Candidate>): (r: seq<Candidate>)
    ensures forall c :: c in r ==> !c.step.IsPaced()
  {
    if planned == [] then []
    else (if planned[0].step.IsPaced() then [] else [planned[0]]) + UnpacedCandidates(planned[1..])
  }

  lemma {:induction false} ConvergeCandidates(rooms: seq<RoomView>, cluster: Snapshot, now: Time, idleTimeout: int)
    ensures Candidates(rooms, cluster, now, idleTimeout, Converge)
            == UnpacedCandidates(Candidates(rooms, cluster, now, idleTimeout, Reconcile))
  {
    if rooms != [] {
      ConvergeCandidates(rooms[1..], cluster, now, idleTimeout);
      var step := StepFor(rooms[0], DeploymentOf(cluster, rooms[0].id), now, idleTimeout);
      var rest := Candidates(rooms[1..], cluster, now, idleTimeout, Reconcile);
      var all := Candidates(rooms, cluster, now, idleTimeout, Reconcile);
      if step.Some? {
        assert all == [Candidate(rooms[0], step.value)] + rest;
        assert all[1..] == rest;
      } else {
        assert all == rest;
      }
    }
  }

  lemma {:induction false} NothingCapped(planned: seq<Candidate>, maxRecreates: nat, from: nat)
    requires from <= |planned| && forall c :: c in planned ==> !c.step.IsPaced()
    ensures Selection(planned, maxRecreates, from) == ActionsOf(planned[from..])
    decreases |planned| - from
  {
    if from < |planned| {
      NothingCapped(planned, maxRecreates, from + 1);
      assert planned[from] in planned;
      assert planned[from..][1..] == planned[from + 1..];
    }
  }

  lemma {:induction false} UnpacedOneMore(a: Action, rest: seq<Action>)
    ensures Unpaced([a] + rest) == (if a.step.IsPaced() then [] else [a]) + Unpaced(rest)
  {
    assert ([a] + rest)[1..] == rest;
  }

  lemma {:induction false} ActionsOneMore(c: Candidate, rest: seq<Candidate>)
    ensures ActionsOf([c] + rest) == [Action(c.room.id, c.step)] + ActionsOf(rest)
  {
    assert ([c] + rest)[1..] == rest;
  }

  lemma {:induction false} UnpacedIsKept(planned: seq<Candidate>, maxRecreates: nat, i: nat)
    requires i < |planned| && !planned[i].step.IsPaced()
    ensures Kept(planned, maxRecreates, i)
  {
  }

  lemma {:induction false} UnpacedSelection(planned: seq<Candidate>, maxRecreates: nat, from: nat)
    requires from <= |planned|
    ensures Unpaced(Selection(planned, maxRecreates, from)) == ActionsOf(UnpacedCandidates(planned[from..]))
    decreases |planned| - from
  {
    if from < |planned| {
      UnpacedSelection(planned, maxRecreates, from + 1);
      var tail := planned[from..];
      assert tail[0] == planned[from] && tail[1..] == planned[from + 1..];
      var later := UnpacedCandidates(planned[from + 1..]);
      var head := Action(planned[from].room.id, planned[from].step);
      var rest := Selection(planned, maxRecreates, from + 1);
      UnpacedOneMore(head, rest);
      if planned[from].step.IsPaced() {
        assert UnpacedCandidates(tail) == [] + later == later;
        assert Unpaced([head] + rest) == [] + Unpaced(rest) == Unpaced(rest);
      } else {
        UnpacedIsKept(planned, maxRecreates, from);
        ActionsOneMore(planned[from], later);
        assert UnpacedCandidates(tail) == [planned[from]] + later;
      }
    }
  }

  /** A convergence pass is the full pass with the paced steps taken out, and nothing else changes. */
  lemma {:induction false} ConvergeIsUnpacedFull(rooms: seq<RoomView>, cluster: Snapshot, now: Time,
        maxRecreates: nat, idleTimeout: int)
    ensures Selection(Candidates(rooms, cluster, now, idleTimeout, Converge), maxRecreates)
            == Unpaced(Selection(Candidates(rooms, cluster, now, idleTimeout, Reconcile), maxRecreates))
  {
    var full := Candidates(rooms, cluster, now, idleTimeout, Reconcile);
    var short := Candidates(rooms, cluster, now, idleTimeout, Converge);
    ConvergeCandidates(rooms, cluster, now, idleTimeout);
    NothingCapped(short, maxRecreates, 0);
    UnpacedSelection(full, maxRecreates, 0);
    assert full[0..] == full && short[0..] == short;
  }

  // ---------------------------------------------------------------- no starvation

  /** The rooms whose recreate is served before room `id`'s in this pass. */
  ghost function RoomsAhead(planned: seq<Candidate>, i: nat): set<RoomId>
    requires i < |planned|
  {
    set j: nat | j in Ahead(planned, i) :: planned[j].room.id
  }

  lemma {:induction false} SameSize(planned: seq<Candidate>, indices: set<nat>, ids: set<RoomId>)
    requires DistinctRooms(planned)
    requires forall j :: j in indices ==> j < |planned|
    requires ids == set j: nat | j in indices :: planned[j].room.id
    ensures |ids| == |indices|
  {
    if indices != {} {
      var j :| j in indices;
      SameSize(planned, indices - {j}, ids - {planned[j].room.id});
      forall k | k in indices && k != j
        ensures planned[k].room.id != planned[j].room.id
      {
        assert if k < j then planned[k].room.id != planned[j].room.id else planned[j].room.id != planned[k].room.id;
      }
      assert ids - {planned[j].room.id} == set k: nat | k in indices - {j} :: planned[k].room.id;
    }
  }

  /** Everything taken before a deferred candidate was ahead of it, and there are exactly `cap` of those. */
  lemma {:induction false} DeferralServesTheCap(planned: seq<Candidate>, maxRecreates: nat, i: nat)
    requires DistinctRooms(planned)
    requires i < |planned| && planned[i].step == Recreate && !Kept(planned, maxRecreates, i)
    ensures KeptFor(planned, maxRecreates, Recreate) <= Ahead(planned, i)
    ensures |KeptFor(planned, maxRecreates, Recreate)| == maxRecreates
  {
    var order := ServingOrder(planned, Recreate);
    ServingOrderIsSorted(planned, Recreate);
    KeptSize(planned, maxRecreates, Recreate);
    var p :| 0 <= p < |order| && order[p] == i;
    PositionIsRank(planned, order, p);
    forall j | j in KeptFor(planned, maxRecreates, Recreate)
      ensures j in Ahead(planned, i)
    {
      KeptIffInFront(planned, maxRecreates, Recreate, j);
    }
  }

  /** The rooms a full pass recreates. */
  ghost function Served(planned: seq<Candidate>, maxRecreates: nat): set<RoomId> {
    set j: nat | j in KeptFor(planned, maxRecreates, Recreate) :: planned[j].room.id
  }

  lemma {:induction false} DeferralShortensTheQueue(planned: seq<Candidate>, maxRecreates: nat, i: nat)
    requires DistinctRooms(planned)
    requires i < |planned| && planned[i].step == Recreate && !Kept(planned, maxRecreates, i)
    ensures |RoomsAhead(planned, i) - Served(planned, maxRecreates)| == |RoomsAhead(planned, i)| - maxRecreates
  {
    var kept := KeptFor(planned, maxRecreates, Recreate);
    DeferralServesTheCap(planned, maxRecreates, i);
    SameSize(planned, kept, Served(planned, maxRecreates));
    assert Served(planned, maxRecreates) <= RoomsAhead(planned, i);
  }

  /** Another room's request is later than ours: made after it, or just then by a room with a larger id. */
  predicate AsksLater(ours: RoomView, other: RoomView) {
    || (other.redeployRequestedAt.Some?
        && (ours.redeployRequestedAt.None? || ours.redeployRequestedAt.value < other.redeployRequestedAt.value))
    || (other.redeployRequestedAt == ours.redeployRequestedAt && ours.id < other.id)
  }

  /** The same request of the same room. */
  predicate IsSameRequest(a: RoomView, b: RoomView) {
    a.id == b.id && a.redeployRequestedAt == b.redeployRequestedAt
  }

  /** Candidate `j` of a pass was waiting in the one before, with the same request, and was not served. */
  ghost predicate IsCarried(before: seq<Candidate>, after: seq<Candidate>, maxRecreates: nat, j: nat)
    requires j < |after|
  {
    exists i: nat ::
      && i < |before| && before[i].step == Recreate && !Kept(before, maxRecreates, i)
      && IsSameRequest(before[i].room, after[j].room)
  }

  /**
   From one full pass to the next: our room keeps the request it waits with, and every other recreate has either
   waited since the pass before without being served, or is a later request than ours. A room served has
   had its request consumed, so it can be back only with a later one.
   */
  ghost predicate OnlyLaterOnes(before: seq<Candidate>, ours: nat, after: seq<Candidate>, ours': nat, maxRecreates: nat)
    requires ours < |before| && ours' < |after|
  {
    && IsSameRequest(before[ours].room, after[ours'].room)
    && forall j: nat :: j < |after| && j != ours' && after[j].step == Recreate ==>
         IsCarried(before, after, maxRecreates, j) || AsksLater(after[ours'].room, after[j].room)
  }

  /** What is kept is served; no other candidate of its room is in the same pass. */
  lemma {:induction false} UnkeptIsUnserved(planned: seq<Candidate>, maxRecreates: nat, i: nat)
    requires DistinctRooms(planned) && i < |planned| && planned[i].step == Recreate && !Kept(planned, maxRecreates, i)
    ensures planned[i].room.id !in Served(planned, maxRecreates)
  {
    forall j: nat | j in KeptFor(planned, maxRecreates, Recreate) ensures planned[j].room.id != planned[i].room.id {
      assert j != i;
    }
  }

  /** A recreate ahead of ours was waiting ahead of it already. */
  lemma {:induction false} AheadWasAhead(before: seq<Candidate>, ours: nat, after: seq<Candidate>, ours': nat,
        maxRecreates: nat, j: nat)
    requires DistinctRooms(before) && ours < |before| && ours' < |after| && j in Ahead(after, ours')
    requires before[ours].step == Recreate && after[ours'].step == Recreate
    requires OnlyLaterOnes(before, ours, after, ours', maxRecreates)
    ensures after[j].room.id in RoomsAhead(before, ours) - Served(before, maxRecreates)
  {
    assert IsCarried(before, after, maxRecreates, j);
    var i: nat :| && i < |before| && before[i].step == Recreate && !Kept(before, maxRecreates, i)
                  && IsSameRequest(before[i].room, after[j].room);
    assert i in Ahead(before, ours);
    UnkeptIsUnserved(before, maxRecreates, i);
  }

  /** The queue ahead of our room loses what was served and gains nothing. */
  lemma {:induction false} QueueIsCarried(before: seq<Candidate>, ours: nat, after: seq<Candidate>, ours': nat,
        maxRecreates: nat)
    requires DistinctRooms(before) && ours < |before| && ours' < |after|
    requires before[ours].step == Recreate && after[ours'].step == Recreate
    requires OnlyLaterOnes(before, ours, after, ours', maxRecreates)
    ensures RoomsAhead(after, ours') <= RoomsAhead(before, ours) - Served(before, maxRecreates)
  {
    forall j | j in Ahead(after, ours')
      ensures after[j].room.id in RoomsAhead(before, ours) - Served(before, maxRecreates)
    {
      AheadWasAhead(before, ours, after, ours', maxRecreates, j);
    }
  }

  /**
   Full passes over a changing fleet, watched by one room at `place[t]` in pass `t` that keeps waiting to be
   recreated.
   */
  ghost predicate OnlyLaterRequests(passes: seq<seq<Candidate>>, place: seq<nat>, maxRecreates: nat) {
    && |place| == |passes|
    && (forall t :: 0 <= t < |passes| ==>
          && DistinctRooms(passes[t])
          && place[t] < |passes[t]|
          && passes[t][place[t]].step == Recreate)
    && (forall t :: 0 < t < |passes| ==> passes[t][place[t]].room.id == passes[0][place[0]].room.id)
    && (forall t, next :: 0 <= t < next < |passes| && next == t + 1 ==>
          OnlyLaterOnes(passes[t], place[t], passes[next], place[next], maxRecreates))
  }

  lemma {:induction false} QueueShrinksOnce(passes: seq<seq<Candidate>>, place: seq<nat>, maxRecreates: nat, t: nat)
    requires OnlyLaterRequests(passes, place, maxRecreates) && t < |passes| - 1
    requires !Kept(passes[t], maxRecreates, place[t])
    ensures |RoomsAhead(passes[t + 1], place[t + 1])| + maxRecreates <= |RoomsAhead(passes[t], place[t])|
  {
    DeferralShortensTheQueue(passes[t], maxRecreates, place[t]);
    QueueIsCarried(passes[t], place[t], passes[t + 1], place[t + 1], maxRecreates);
    Subset(RoomsAhead(passes[t + 1], place[t + 1]), RoomsAhead(passes[t], place[t]) - Served(passes[t], maxRecreates));
  }

  lemma {:induction false} SizesShrink(sizes: seq<nat>, cap: nat)
    requires |sizes| > 0 && forall t :: 0 <= t < |sizes| - 1 ==> sizes[t + 1] + cap <= sizes[t]
    ensures sizes[|sizes| - 1] + (|sizes| - 1) * cap <= sizes[0]
  {
    if |sizes| > 1 {
      SizesShrink(sizes[..|sizes| - 1], cap);
    }
  }

  lemma {:induction false} QueueShrinks(passes: seq<seq<Candidate>>, place: seq<nat>, maxRecreates: nat, t: nat)
    requires OnlyLaterRequests(passes, place, maxRecreates) && t < |passes|
    requires forall u: nat :: u < t ==> !Kept(passes[u], maxRecreates, place[u])
    ensures |RoomsAhead(passes[t], place[t])| + t * maxRecreates <= |RoomsAhead(passes[0], place[0])|
  {
    var sizes := seq(t + 1, u requires 0 <= u <= t => |RoomsAhead(passes[u], place[u])|);
    forall u | 0 <= u < t
      ensures sizes[u + 1] + maxRecreates <= sizes[u]
    {
      QueueShrinksOnce(passes, place, maxRecreates, u);
    }
    SizesShrink(sizes, maxRecreates);
  }

  lemma {:induction false} Subset(a: set<RoomId>, b: set<RoomId>)
    requires a <= b
    ensures |a| <= |b|
  {
    if a != {} {
      var x :| x in a;
      Subset(a - {x}, b - {x});
    }
  }

  ghost predicate IsServed(passes: seq<seq<Candidate>>, place: seq<nat>, maxRecreates: nat, t: nat) {
    t < |passes| && t < |place| && place[t] < |passes[t]| && Kept(passes[t], maxRecreates, place[t])
  }

  lemma {:induction false} ServedIsTaken(passes: seq<seq<Candidate>>, place: seq<nat>, maxRecreates: nat, t: nat)
    requires OnlyLaterRequests(passes, place, maxRecreates) && IsServed(passes, place, maxRecreates, t)
    ensures Action(passes[0][place[0]].room.id, Recreate) in Selection(passes[t], maxRecreates)
  {
    assert ActionOf(passes[t][place[t]]) == Action(passes[0][place[0]].room.id, Recreate);
    KeptIsTaken(passes[t], maxRecreates, place[t]);
  }

  /** Deferred for `r / cap` passes, the room has fewer than `cap` ahead of it in the next. */
  lemma {:induction false} ServedAtLast(passes: seq<seq<Candidate>>, place: seq<nat>, maxRecreates: nat, r: nat,
        last: nat)
    requires OnlyLaterRequests(passes, place, maxRecreates) && maxRecreates > 0 && |passes| > last
    requires r == |RoomsAhead(passes[0], place[0])| && last == r / maxRecreates
    requires forall t: nat :: t < last ==> !IsServed(passes, place, maxRecreates, t)
    ensures IsServed(passes, place, maxRecreates, last)
  {
    forall u: nat | u < last ensures !Kept(passes[u], maxRecreates, place[u]) {
      assert !IsServed(passes, place, maxRecreates, u);
    }
    QueueShrinks(passes, place, maxRecreates, last);
    SameSize(passes[last], Ahead(passes[last], place[last]), RoomsAhead(passes[last], place[last]));
    assert r - last * maxRecreates == r % maxRecreates < maxRecreates;
  }

  /**
   With `r` rooms ahead of it and only later requests arriving, a room is recreated by pass `r / cap`, counting
   from 0.
   */
  lemma {:induction false} NoStarvation(passes: seq<seq<Candidate>>, place: seq<nat>, maxRecreates: nat)
    requires OnlyLaterRequests(passes, place, maxRecreates) && maxRecreates > 0 && |passes| > 0
    requires |passes| > |RoomsAhead(passes[0], place[0])| / maxRecreates
    ensures exists t: nat :: t <= |RoomsAhead(passes[0], place[0])| / maxRecreates
                             && Action(passes[0][place[0]].room.id, Recreate) in Selection(passes[t], maxRecreates)
  {
    var r := |RoomsAhead(passes[0], place[0])|;
    var last := r / maxRecreates;
    if forall t: nat :: t < last ==> !IsServed(passes, place, maxRecreates, t) {
      ServedAtLast(passes, place, maxRecreates, r, last);
    }
    var t: nat :| t <= last && IsServed(passes, place, maxRecreates, t);
    ServedIsTaken(passes, place, maxRecreates, t);
  }

  // ---------------------------------------------------------------- quiescence

  /** Whether the loop is waiting on this room. */
  predicate IsConverging(room: RoomView) {
    || room.desired == WantDeleted
    || room.state.Provisioning? || room.state.Starting? || room.state.Stopping?
    || (room.state == Idle && room.desired == WantRunning)
  }

  function ConvergingRooms(rooms: seq<RoomView>): nat {
    if rooms == [] then 0 else (if IsConverging(rooms[0]) then 1 else 0) + ConvergingRooms(rooms[1..])
  }

  function Draining(cluster: Snapshot): nat {
    if cluster == [] then 0
    else (if cluster[0].deployment.deleting && cluster[0].room.Some? then 1 else 0) + Draining(cluster[1..])
  }

  /** How many rooms the loop is waiting on, as the views and the cluster describe them. */
  function Converging(rooms: seq<RoomView>, cluster: Snapshot): nat {
    if ConvergingRooms(rooms) >= Draining(cluster) then ConvergingRooms(rooms) else Draining(cluster)
  }

  /** Whether a pass that took these actions should be followed by a convergence pass. */
  predicate WantsConvergence(rooms: seq<RoomView>, cluster: Snapshot, actions: seq<Action>) {
    || Converging(rooms, cluster) > 0
    || exists a :: a in actions && a.step.LeavesWorkPending()
  }

  /**
   The view of a room after a pass that left no work pending took this step on it and the step
   succeeded. Bringing a room up changes when it started, so its idle reading may be anything.
   */
  ghost predicate Settled(before: RoomView, step: Option<Step>, after: RoomView) {
    match step
    case None => after == before
    case Some(MarkRunning) =>
      && after.state == Running && after.notReadySweeps == 0 && after.retryAfter.None?
      && after == before.(state := Running, notReadySweeps := 0, retryAfter := None,
                          stateChangedAt := after.stateChangedAt, idleSince := after.idleSince)
    case Some(MarkDegraded) =>
      after == before.(state := Degraded, notReadySweeps := before.notReadySweeps + 1,
                       stateChangedAt := after.stateChangedAt)
    // No other step is taken by a pass that leaves no work pending and waits on no room.
    case Some(_) => true
  }

  lemma {:induction false} NoneConverging(rooms: seq<RoomView>, i: nat)
    requires ConvergingRooms(rooms) == 0 && i < |rooms|
    ensures !IsConverging(rooms[i])
  {
    if i > 0 { NoneConverging(rooms[1..], i - 1); }
  }

  lemma {:induction false} CandidateOf(rooms: seq<RoomView>, cluster: Snapshot, now: Time, idleTimeout: int,
        kind: TickKind, i: nat)
    requires i < |rooms| && Considered(rooms[i], cluster, now, idleTimeout, kind).Some?
    ensures Candidate(rooms[i], Considered(rooms[i], cluster, now, idleTimeout, kind).value)
            in Candidates(rooms, cluster, now, idleTimeout, kind)
  {
    if i > 0 { CandidateOf(rooms[1..], cluster, now, idleTimeout, kind, i - 1); }
  }

  lemma {:induction false} NothingToConsider(rooms: seq<RoomView>, cluster: Snapshot, now: Time, idleTimeout: int,
        kind: TickKind)
    requires forall i :: 0 <= i < |rooms| ==> Considered(rooms[i], cluster, now, idleTimeout, kind).None?
    ensures Candidates(rooms, cluster, now, idleTimeout, kind) == []
  {
    if rooms != [] { NothingToConsider(rooms[1..], cluster, now, idleTimeout, kind); }
  }

  /** What one settled room needs of the next convergence pass: nothing. */
  lemma {:induction false} SettledRoomRests(before: RoomView, after: RoomView, cluster: Snapshot, now: Time,
        idleTimeout: int)
    requires !IsConverging(before)
    requires var step := Considered(before, cluster, now, idleTimeout, Converge);
             (step.Some? ==> !step.value.LeavesWorkPending()) && Settled(before, step, after)
    ensures Considered(after, cluster, now, idleTimeout, Converge).None?
  {
  }

  /**
   If a convergence pass whose steps all succeeded asks for no further convergence, planning
   another one on the rows it left, at the same instant, yields no action at all.
   */
  lemma {:induction false} QuietPassesStayQuiet(
    rooms: seq<RoomView>, next: seq<RoomView>, cluster: Snapshot, now: Time, maxRecreates: nat, idleTimeout: int)
    requires DistinctIds(rooms) && |next| == |rooms|
    requires var actions := Selection(Candidates(rooms, cluster, now, idleTimeout, Converge), maxRecreates);
             !WantsConvergence(rooms, cluster, actions)
    requires forall i :: 0 <= i < |rooms| ==>
               Settled(rooms[i], Considered(rooms[i], cluster, now, idleTimeout, Converge), next[i])
    ensures Selection(Candidates(next, cluster, now, idleTimeout, Converge), maxRecreates) == []
  {
    var planned := Candidates(rooms, cluster, now, idleTimeout, Converge);
    forall i | 0 <= i < |rooms|
      ensures Considered(next[i], cluster, now, idleTimeout, Converge).None?
    {
      NoneConverging(rooms, i);
      var step := Considered(rooms[i], cluster, now, idleTimeout, Converge);
      if step.Some? {
        CandidateOf(rooms, cluster, now, idleTimeout, Converge, i);
        var k :| 0 <= k < |planned| && planned[k] == Candidate(rooms[i], step.value);
        SelectedIffKept(planned, maxRecreates, 0, Action(rooms[i].id, step.value));
        assert Kept(planned, maxRecreates, k);
      }
      SettledRoomRests(rooms[i], next[i], cluster, now, idleTimeout);
    }
    NothingToConsider(next, cluster, now, idleTimeout, Converge);
  }
}
