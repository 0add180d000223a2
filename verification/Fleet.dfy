/**
 What one pass plans for a fleet, said of the rooms' own columns: exactly which actions it contains, which rooms it
 serves before which, and in what order it lists them.
 */
module Fleet {
  import opened Rooms
  import opened Planner
  import opened PlannerProperties

  // ---------------------------------------------------------------- what one room needs

  /** Live, wanted running, and its Deployment is there. */
  predicate IsServing(room: RoomView, d: Option<Deployment>) {
    room.state in {Starting, Running, Degraded} && room.desired == WantRunning && d.Some?
  }

  /** Running, and quiet for longer than the timeout with nothing to hold it up. */
  predicate IsQuiet(room: RoomView, now: Time, idleTimeout: int) {
    && room.state == Running && idleTimeout > 0 && !room.pinned
    && room.idleSince.Some? && room.idleSince.value + idleTimeout < now
  }

  /** Serving on the spec its row records, with nobody asking for a restart and no reap due. */
  predicate IsSound(room: RoomView, d: Option<Deployment>, now: Time, idleTimeout: int) {
    && IsServing(room, d) && room.redeployRequestedAt.None? && d.value.specHash == room.specHash
    && !IsQuiet(room, now, idleTimeout)
  }

  /** The transition table read the other way round: for each step, exactly the rows and readings that need it. */
  lemma {:induction false} EachStepIff(room: RoomView, d: Option<Deployment>, now: Time, idleTimeout: int)
    // whatever its state
    ensures StepFor(room, d, now, idleTimeout) == Some(Delete) <==> room.desired == WantDeleted
    // on its way up
    ensures StepFor(room, d, now, idleTimeout) == Some(Provision) <==>
            room.state == Provisioning && room.desired != WantDeleted
    ensures StepFor(room, d, now, idleTimeout) == Some(Start) <==>
            room.state == Idle && room.desired == WantRunning && (d.Some? ==> !d.value.deleting)
    ensures StepFor(room, d, now, idleTimeout) == Some(Retry) <==>
            && room.state == Failed && room.desired == WantRunning
            && ((room.retryAfter.Some? && room.retryAfter.value <= now)
                || (room.desiredSpecHash.Some? && room.specHash.Some?
                    && room.desiredSpecHash.value != room.specHash.value))
    ensures StepFor(room, d, now, idleTimeout) == Some(FailStart) <==>
            && IsSound(room, d, now, idleTimeout) && d.value.readyReplicas == 0
            && room.state == Starting && room.stateChangedAt + 300 < now
    ensures StepFor(room, d, now, idleTimeout) == Some(MarkRunning) <==>
            && IsSound(room, d, now, idleTimeout) && d.value.readyReplicas > 0
            && (room.state in {Starting, Degraded} || room.notReadySweeps > 0)
    // while it is up
    ensures StepFor(room, d, now, idleTimeout) == Some(NotReady) <==>
            && IsSound(room, d, now, idleTimeout) && d.value.readyReplicas == 0
            && room.state == Running && room.notReadySweeps < 2
    ensures StepFor(room, d, now, idleTimeout) == Some(MarkDegraded) <==>
            && IsSound(room, d, now, idleTimeout) && d.value.readyReplicas == 0
            && room.state == Running && room.notReadySweeps >= 2
    ensures StepFor(room, d, now, idleTimeout) == Some(Recreate) <==>
            && IsServing(room, d)
            && (room.redeployRequestedAt.Some?
                || (d.value.specHash != room.specHash && !IsQuiet(room, now, idleTimeout)))
    ensures StepFor(room, d, now, idleTimeout) == Some(Reap) <==>
            IsServing(room, d) && room.redeployRequestedAt.None? && IsQuiet(room, now, idleTimeout)
    // on its way down
    ensures StepFor(room, d, now, idleTimeout) == Some(Stop) <==>
            || (room.state in {Starting, Running, Degraded} && room.desired in {WantStopped, WantClosed})
            || (room.state == Stopping && room.desired != WantDeleted && d.Some? && room.stateChangedAt + 90 < now)
    ensures StepFor(room, d, now, idleTimeout) == Some(MarkIdle(StopComplete)) <==>
            room.state == Stopping && room.desired != WantDeleted && d.None?
    ensures StepFor(room, d, now, idleTimeout) == Some(MarkIdle(DeploymentGone)) <==>
            && room.state in {Starting, Running, Degraded} && room.desired == WantRunning && d.None?
            && room.stateChangedAt + 60 < now
  {
  }

  // ---------------------------------------------------------------- what the planner reads

  /** A room's Deployment is the first one listed under its id, and there is none if none is listed. */
  lemma {:induction false} DeploymentIsFirstListed(cluster: Snapshot, id: RoomId)
    ensures match DeploymentOf(cluster, id)
            case None => forall k :: 0 <= k < |cluster| ==> cluster[k].room != Some(id)
            case Some(d) => exists k :: && 0 <= k < |cluster| && cluster[k] == Listed(Some(id), d)
                                        && forall j :: 0 <= j < k ==> cluster[j].room != Some(id)
    decreases |cluster|
  {
    if cluster != [] && cluster[0].room != Some(id) {
      DeploymentIsFirstListed(cluster[1..], id);
      var rest := cluster[1..];
      assert forall k :: 0 < k < |cluster| ==> cluster[k] == rest[k - 1];
      if DeploymentOf(rest, id).Some? {
        var d := DeploymentOf(rest, id).value;
        var k :| && 0 <= k < |rest| && rest[k] == Listed(Some(id), d)
                 && forall j :: 0 <= j < k ==> rest[j].room != Some(id);
        assert cluster[k + 1] == Listed(Some(id), d);
      }
    }
  }

  /** The transition table gives room `q` this step. */
  predicate Needs(rooms: seq<RoomView>, cluster: Snapshot, now: Time, idleTimeout: int, q: nat, step: Step) {
    q < |rooms| && StepFor(rooms[q], DeploymentOf(cluster, rooms[q].id), now, idleTimeout) == Some(step)
  }

  /** The rooms in need of the same step that are served before room `p`. */
  ghost function IdsBefore(rooms: seq<RoomView>, cluster: Snapshot, now: Time, idleTimeout: int, p: nat, step: Step)
    : set<RoomId>
    requires p < |rooms|
  {
    set q: nat | && q < |rooms| && Needs(rooms, cluster, now, idleTimeout, q, step)
                 && IsServedBefore(step, rooms[q], rooms[p]) :: rooms[q].id
  }

  lemma {:induction false} CandidatesAreRooms(rooms: seq<RoomView>, cluster: Snapshot, now: Time, idleTimeout: int,
        kind: TickKind, i: nat) returns (q: nat)
    requires i < |Candidates(rooms, cluster, now, idleTimeout, kind)|
    ensures q < |rooms| && Candidates(rooms, cluster, now, idleTimeout, kind)[i].room == rooms[q]
    ensures Needs(rooms, cluster, now, idleTimeout, q, Candidates(rooms, cluster, now, idleTimeout, kind)[i].step)
    ensures kind == Converge ==> !Candidates(rooms, cluster, now, idleTimeout, kind)[i].step.IsPaced()
  {
    var planned := Candidates(rooms, cluster, now, idleTimeout, kind);
    assert planned[i] in planned;
    q :| q < |rooms| && rooms[q] == planned[i].room;
  }

  lemma {:induction false} RoomsAreCandidates(rooms: seq<RoomView>, cluster: Snapshot, now: Time, idleTimeout: int,
        kind: TickKind, q: nat, step: Step) returns (i: nat)
    requires Needs(rooms, cluster, now, idleTimeout, q, step) && (kind == Converge ==> !step.IsPaced())
    ensures var planned := Candidates(rooms, cluster, now, idleTimeout, kind);
            i < |planned| && planned[i] == Candidate(rooms[q], step)
  {
    var planned := Candidates(rooms, cluster, now, idleTimeout, kind);
    CandidateOf(rooms, cluster, now, idleTimeout, kind, q);
    i :| i < |planned| && planned[i] == Candidate(rooms[q], step);
  }

  /** The candidates ahead of one are the rooms served before it. */
  lemma {:induction false} AheadAreBefore(rooms: seq<RoomView>, cluster: Snapshot, now: Time, idleTimeout: int,
        kind: TickKind, p: nat, step: Step, i: nat)
    requires DistinctIds(rooms) && p < |rooms| && (kind == Converge ==> !step.IsPaced())
    requires var planned := Candidates(rooms, cluster, now, idleTimeout, kind);
             i < |planned| && planned[i] == Candidate(rooms[p], step)
    ensures |Ahead(Candidates(rooms, cluster, now, idleTimeout, kind), i)|
            == |IdsBefore(rooms, cluster, now, idleTimeout, p, step)|
  {
    var planned := Candidates(rooms, cluster, now, idleTimeout, kind);
    var before := IdsBefore(rooms, cluster, now, idleTimeout, p, step);
    forall j | j in Ahead(planned, i)
      ensures planned[j].room.id in before
    {
      var q := CandidatesAreRooms(rooms, cluster, now, idleTimeout, kind, j);
      assert rooms[q].id in before;
    }
    forall id | id in before
      ensures id in RoomsAhead(planned, i)
    {
      var q: nat :| q < |rooms| && rooms[q].id == id && Needs(rooms, cluster, now, idleTimeout, q, step)
                    && IsServedBefore(step, rooms[q], rooms[p]);
      var j := RoomsAreCandidates(rooms, cluster, now, idleTimeout, kind, q, step);
      assert j in Ahead(planned, i);
    }
    assert RoomsAhead(planned, i) == before;
    CandidatesAreDistinct(rooms, cluster, now, idleTimeout, kind);
    SameSize(planned, Ahead(planned, i), RoomsAhead(planned, i));
  }

  /** Everything a pass does about the fleet. */
  ghost function Planned(rooms: seq<RoomView>, cluster: Snapshot, now: Time, maxRecreates: nat, idleTimeout: int,
        kind: TickKind): seq<Action> {
    Selection(Candidates(rooms, cluster, now, idleTimeout, kind), maxRecreates)
  }

  lemma {:induction false} PlannedIfKept(rooms: seq<RoomView>, cluster: Snapshot, now: Time, maxRecreates: nat,
        idleTimeout: int, kind: TickKind, p: nat, step: Step, i: nat)
    requires DistinctIds(rooms) && p < |rooms|
    requires var planned := Candidates(rooms, cluster, now, idleTimeout, kind);
             i < |planned| && planned[i] == Candidate(rooms[p], step)
    ensures Action(rooms[p].id, step) in Planned(rooms, cluster, now, maxRecreates, idleTimeout, kind)
            <==> Kept(Candidates(rooms, cluster, now, idleTimeout, kind), maxRecreates, i)
  {
    var planned := Candidates(rooms, cluster, now, idleTimeout, kind);
    var a := Action(rooms[p].id, step);
    CandidatesAreDistinct(rooms, cluster, now, idleTimeout, kind);
    SelectedIffKept(planned, maxRecreates, 0, a);
    if ComesFrom(planned, maxRecreates, 0, a) {
      var j: nat :| j < |planned| && Kept(planned, maxRecreates, j) && a == ActionOf(planned[j]);
      assert j == i;
    }
  }

  /** A room whose action is in the plan is a candidate for it. */
  lemma {:induction false} PlannedIsCandidate(rooms: seq<RoomView>, cluster: Snapshot, now: Time, maxRecreates: nat,
        idleTimeout: int, kind: TickKind, p: nat, step: Step)
    requires DistinctIds(rooms) && p < |rooms|
    requires Action(rooms[p].id, step) in Planned(rooms, cluster, now, maxRecreates, idleTimeout, kind)
    ensures Needs(rooms, cluster, now, idleTimeout, p, step) && (kind == Converge ==> !step.IsPaced())
  {
    var planned := Candidates(rooms, cluster, now, idleTimeout, kind);
    var a := Action(rooms[p].id, step);
    SelectedIffKept(planned, maxRecreates, 0, a);
    var j: nat :| j < |planned| && Kept(planned, maxRecreates, j) && a == ActionOf(planned[j]);
    var q := CandidatesAreRooms(rooms, cluster, now, idleTimeout, kind, j);
    assert q == p;
  }

  /**
   Exactly which actions a pass contains: those the transition table gives a room, but for the paced ones on a
   convergence pass, the recreates with the cap's number of rooms served before them, and every reap but one.
   */
  lemma {:induction false} PlannedIff(rooms: seq<RoomView>, cluster: Snapshot, now: Time, maxRecreates: nat,
        idleTimeout: int, kind: TickKind, p: nat, step: Step)
    requires DistinctIds(rooms) && p < |rooms|
    ensures Action(rooms[p].id, step) in Planned(rooms, cluster, now, maxRecreates, idleTimeout, kind) <==>
            && Needs(rooms, cluster, now, idleTimeout, p, step)
            && (kind == Converge ==> step !in {Recreate, NotReady, Reap})
            && (step == Recreate ==> |IdsBefore(rooms, cluster, now, idleTimeout, p, step)| < maxRecreates)
            && (step == Reap ==> |IdsBefore(rooms, cluster, now, idleTimeout, p, step)| < 1)
  {
    if Needs(rooms, cluster, now, idleTimeout, p, step) && (kind == Converge ==> !step.IsPaced()) {
      var i := RoomsAreCandidates(rooms, cluster, now, idleTimeout, kind, p, step);
      AheadAreBefore(rooms, cluster, now, idleTimeout, kind, p, step, i);
      PlannedIfKept(rooms, cluster, now, maxRecreates, idleTimeout, kind, p, step, i);
    } else if Action(rooms[p].id, step) in Planned(rooms, cluster, now, maxRecreates, idleTimeout, kind) {
      PlannedIsCandidate(rooms, cluster, now, maxRecreates, idleTimeout, kind, p, step);
    }
  }

  // ---------------------------------------------------------------- who is served first

  /** A room not served before another has every room served before that one served before itself too. */
  lemma {:induction false} FewerBefore(rooms: seq<RoomView>, cluster: Snapshot, now: Time, idleTimeout: int,
        p: nat, q: nat, step: Step)
    requires p < |rooms| && q < |rooms| && !IsServedBefore(step, rooms[p], rooms[q])
    ensures IdsBefore(rooms, cluster, now, idleTimeout, q, step) <= IdsBefore(rooms, cluster, now, idleTimeout, p, step)
  {
    forall k: nat | k < |rooms| && IsServedBefore(step, rooms[k], rooms[q])
      ensures IsServedBefore(step, rooms[k], rooms[p])
    {
    }
  }

  /**
   Of two rooms to be recreated, one taken and one put off: the one taken was never asked about, or asked for no
   later than the other, and has the smaller id if both were asked for at once or neither was.
   */
  lemma {:induction false} TakenAskedFirst(rooms: seq<RoomView>, cluster: Snapshot, now: Time, maxRecreates: nat,
        idleTimeout: int, p: nat, q: nat)
    requires DistinctIds(rooms) && p < |rooms| && q < |rooms|
    requires Action(rooms[p].id, Recreate) in Planned(rooms, cluster, now, maxRecreates, idleTimeout, Reconcile)
    requires StepFor(rooms[q], DeploymentOf(cluster, rooms[q].id), now, idleTimeout) == Some(Recreate)
    requires Action(rooms[q].id, Recreate) !in Planned(rooms, cluster, now, maxRecreates, idleTimeout, Reconcile)
    ensures var taken, putOff := rooms[p], rooms[q];
            && (taken.redeployRequestedAt.None?
                || (putOff.redeployRequestedAt.Some?
                    && taken.redeployRequestedAt.value <= putOff.redeployRequestedAt.value))
            && (taken.redeployRequestedAt == putOff.redeployRequestedAt ==> taken.id < putOff.id)
  {
    PlannedIff(rooms, cluster, now, maxRecreates, idleTimeout, Reconcile, p, Recreate);
    PlannedIff(rooms, cluster, now, maxRecreates, idleTimeout, Reconcile, q, Recreate);
    if !IsServedBefore(Recreate, rooms[p], rooms[q]) {
      FewerBefore(rooms, cluster, now, idleTimeout, p, q, Recreate);
      Subset(IdsBefore(rooms, cluster, now, idleTimeout, q, Recreate),
             IdsBefore(rooms, cluster, now, idleTimeout, p, Recreate));
      assert false;
    }
  }

  /** The room that is reaped has been quiet for longest of all that could be, the smaller id first of two as quiet. */
  lemma {:induction false} ReapedQuietLongest(rooms: seq<RoomView>, cluster: Snapshot, now: Time, maxRecreates: nat,
        idleTimeout: int, p: nat, q: nat)
    requires DistinctIds(rooms) && p < |rooms| && q < |rooms| && p != q
    requires Action(rooms[p].id, Reap) in Planned(rooms, cluster, now, maxRecreates, idleTimeout, Reconcile)
    requires StepFor(rooms[q], DeploymentOf(cluster, rooms[q].id), now, idleTimeout) == Some(Reap)
    ensures rooms[p].idleSince.Some? && rooms[q].idleSince.Some?
            && rooms[p].idleSince.value <= rooms[q].idleSince.value
            && (rooms[p].idleSince.value == rooms[q].idleSince.value ==> rooms[p].id < rooms[q].id)
  {
    PlannedIff(rooms, cluster, now, maxRecreates, idleTimeout, Reconcile, p, Reap);
    assert Needs(rooms, cluster, now, idleTimeout, q, Reap);
    assert rooms[q].id !in IdsBefore(rooms, cluster, now, idleTimeout, p, Reap);
    assert rooms[p].id != rooms[q].id by {
      if p < q { assert rooms[p].id != rooms[q].id; } else { assert rooms[q].id != rooms[p].id; }
    }
  }

  // ---------------------------------------------------------------- in what order

  /** The rooms of a plan stand in it as they stood in the rows. */
  ghost predicate FollowsRows(rooms: seq<RoomView>, actions: seq<Action>, places: seq<nat>) {
    && |places| == |actions|
    && (forall a :: 0 <= a < |actions| ==> places[a] < |rooms| && rooms[places[a]].id == actions[a].room)
    && (forall a, b :: 0 <= a < b < |actions| ==> places[a] < places[b])
  }

  lemma {:induction false} SelectionFollows(planned: seq<Candidate>, maxRecreates: nat, from: nat)
    returns (places: seq<nat>)
    requires from <= |planned|
    ensures var actions := Selection(planned, maxRecreates, from);
            && |places| == |actions|
            && (forall a :: 0 <= a < |actions| ==> from <= places[a] < |planned|
                                                   && planned[places[a]].room.id == actions[a].room)
            && (forall a, b :: 0 <= a < b < |actions| ==> places[a] < places[b])
    decreases |planned| - from
  {
    if from == |planned| {
      places := [];
    } else {
      places := SelectionFollows(planned, maxRecreates, from + 1);
      if Kept(planned, maxRecreates, from) { places := [from] + places; }
    }
  }

  /** Candidate by candidate, where its row stands. */
  ghost predicate StandAt(rooms: seq<RoomView>, planned: seq<Candidate>, places: seq<nat>) {
    && |places| == |planned|
    && (forall i :: 0 <= i < |planned| ==> places[i] < |rooms| && planned[i].room == rooms[places[i]])
    && (forall i, j :: 0 <= i < j < |planned| ==> places[i] < places[j])
  }

  lemma {:induction false} OneRowEarlier(rooms: seq<RoomView>, planned: seq<Candidate>, later: seq<nat>)
    returns (places: seq<nat>)
    requires rooms != [] && StandAt(rooms[1..], planned, later)
    ensures StandAt(rooms, planned, places) && forall i :: 0 <= i < |places| ==> places[i] > 0
  {
    places := seq(|later|, i requires 0 <= i < |later| => later[i] + 1);
  }

  lemma {:induction false} FirstRow(rooms: seq<RoomView>, first: Candidate, planned: seq<Candidate>, places: seq<nat>)
    requires rooms != [] && first.room == rooms[0]
    requires StandAt(rooms, planned, places) && forall i :: 0 <= i < |places| ==> places[i] > 0
    ensures StandAt(rooms, [first] + planned, [0] + places)
  {
  }

  lemma {:induction false} CandidatesFollow(rooms: seq<RoomView>, cluster: Snapshot, now: Time, idleTimeout: int,
        kind: TickKind)
    returns (places: seq<nat>)
    ensures StandAt(rooms, Candidates(rooms, cluster, now, idleTimeout, kind), places)
  {
    if rooms == [] {
      places := [];
    } else {
      var planned := Candidates(rooms[1..], cluster, now, idleTimeout, kind);
      var step := Considered(rooms[0], cluster, now, idleTimeout, kind);
      places := CandidatesFollow(rooms[1..], cluster, now, idleTimeout, kind);
      places := OneRowEarlier(rooms, planned, places);
      if step.Some? {
        FirstRow(rooms, Candidate(rooms[0], step.value), planned, places);
        places := [0] + places;
      } else {
        assert Candidates(rooms, cluster, now, idleTimeout, kind) == [] + planned == planned;
      }
    }
  }

  /** A pass lists its actions in the order the rows were read, whichever of them the caps have put off. */
  lemma {:induction false} PlansFollowRows(rooms: seq<RoomView>, cluster: Snapshot, now: Time, maxRecreates: nat,
        idleTimeout: int, kind: TickKind)
    returns (places: seq<nat>)
    ensures FollowsRows(rooms, Planned(rooms, cluster, now, maxRecreates, idleTimeout, kind), places)
  {
    var among := CandidatesFollow(rooms, cluster, now, idleTimeout, kind);
    var chosen := SelectionFollows(Candidates(rooms, cluster, now, idleTimeout, kind), maxRecreates, 0);
    places := seq(|chosen|, a requires 0 <= a < |chosen| => among[chosen[a]]);
  }

  // ---------------------------------------------------------------- when the loop looks again

  lemma {:induction false} ConvergingRoomsIff(rooms: seq<RoomView>)
    ensures ConvergingRooms(rooms) > 0 <==> exists i :: 0 <= i < |rooms| && IsConverging(rooms[i])
  {
    if rooms != [] {
      ConvergingRoomsIff(rooms[1..]);
      var rest := rooms[1..];
      assert forall i :: 0 < i < |rooms| ==> rooms[i] == rest[i - 1];
      if ConvergingRooms(rest) > 0 {
        var i :| 0 <= i < |rest| && IsConverging(rest[i]);
        assert IsConverging(rooms[i + 1]);
      }
    }
  }

  predicate IsDraining(listed: Listed) {
    listed.room.Some? && listed.deployment.deleting
  }

  lemma {:induction false} DrainingIff(cluster: Snapshot)
    ensures Draining(cluster) > 0 <==> exists k :: 0 <= k < |cluster| && IsDraining(cluster[k])
  {
    if cluster != [] {
      DrainingIff(cluster[1..]);
      var rest := cluster[1..];
      assert forall k :: 0 < k < |cluster| ==> cluster[k] == rest[k - 1];
      if Draining(rest) > 0 {
        var k :| 0 <= k < |rest| && IsDraining(rest[k]);
        assert IsDraining(cluster[k + 1]);
      }
    }
  }

  /** Somebody waits for this room to move. */
  predicate IsInFlight(room: RoomView) {
    || room.desired == WantDeleted
    || room.state in {Provisioning, Starting, Stopping}
    || (room.state == Idle && room.desired == WantRunning)
  }

  predicate MovesOn(a: Action) {
    a.step !in {MarkRunning, NotReady, MarkDegraded, FailStart}
  }

  /**
   Exactly when a pass wants another look: some room is in flight, some room's Deployment is draining, or some step
   it took hands its room to a later pass.
   */
  lemma {:induction false} LooksAgainIff(rooms: seq<RoomView>, cluster: Snapshot, actions: seq<Action>)
    ensures WantsConvergence(rooms, cluster, actions) <==>
            || (exists i :: 0 <= i < |rooms| && IsInFlight(rooms[i]))
            || (exists k :: 0 <= k < |cluster| && IsDraining(cluster[k]))
            || (exists a :: a in actions && MovesOn(a))
  {
    ConvergingRoomsIff(rooms);
    DrainingIff(cluster);
    assert forall room: RoomView :: IsInFlight(room) <==> IsConverging(room);
    forall a | a in actions ensures MovesOn(a) <==> a.step.LeavesWorkPending() {
      match a.step
      case MarkIdle(reason) => assert a.step != MarkRunning;
      case _ =>
    }
  }
}
