/**
 A quiet pass over a whole fleet, each room taking its planned step through the protocol's own calls.
 */
module Quiescence {
  import opened Rooms
  import opened Planner
  import opened PlannerProperties
  import opened Protocol
  import C = Convergence

  /** What the planner is shown of room `id`, its spec last rendered as `wanted`. */
  function Shown(id: RoomId, w: World, wanted: Option<Hash>): RoomView
    requires w.row.Some?
  {
    View(w.row.value, w.now, wanted).(id := id)
  }

  /** Every room of the fleet with its row, at one instant. */
  predicate IsFleet(worlds: seq<World>, now: Time) {
    forall i :: 0 <= i < |worlds| ==> worlds[i].row.Some? && worlds[i].now == now
  }

  function ShownAll(worlds: seq<World>, wanted: nat -> Option<Hash>): (rooms: seq<RoomView>)
    requires forall i :: 0 <= i < |worlds| ==> worlds[i].row.Some?
    ensures |rooms| == |worlds|
    ensures forall i :: 0 <= i < |worlds| ==> rooms[i] == Shown(i, worlds[i], wanted(i))
  {
    seq(|worlds|, i requires 0 <= i < |worlds| => Shown(i, worlds[i], wanted(i)))
  }

  /** A room's world after the step a convergence pass considers for it, run to its end. */
  function Taken(site: Site, room: RoomView, w: World, cluster: Snapshot, a: Answers): World
    requires w.row.Some?
  {
    var step := Considered(room, cluster, w.now, site.idleTimeout, Converge);
    if step.None? then w else C.Finish(site, State(w, FirstCall(step.value, w.row.value, w, Converge)), a).world
  }

  /** Bringing a room up, or marking it degraded, leaves the view the planner expects of it. */
  lemma {:induction false} StatementsSettle(site: Site, id: RoomId, w: World, wanted: Option<Hash>, step: Step,
        a: Answers)
    requires w.row.Some? && (step == MarkRunning || step == MarkDegraded)
    ensures var w' := C.Finish(site, State(w, FirstCall(step, w.row.value, w, Converge)), a).world;
            && w'.row.Some? && w'.now == w.now
            && Settled(Shown(id, w, wanted), Some(step), Shown(id, w', wanted))
  {
    C.FinishOne(site, State(w, FirstCall(step, w.row.value, w, Converge)), a);
  }

  /** A room nobody waits on, whose step leaves no work pending, is settled by that step's own calls. */
  lemma {:induction false} TakenSettles(site: Site, id: RoomId, w: World, wanted: Option<Hash>, cluster: Snapshot,
        a: Answers)
    requires w.row.Some? && !IsConverging(Shown(id, w, wanted))
    requires var step := Considered(Shown(id, w, wanted), cluster, w.now, site.idleTimeout, Converge);
             step.Some? ==> !step.value.LeavesWorkPending()
    ensures var w' := Taken(site, Shown(id, w, wanted), w, cluster, a);
            && w'.row.Some? && w'.now == w.now
            && Settled(Shown(id, w, wanted),
                       Considered(Shown(id, w, wanted), cluster, w.now, site.idleTimeout, Converge),
                       Shown(id, w', wanted))
  {
    var step := Considered(Shown(id, w, wanted), cluster, w.now, site.idleTimeout, Converge);
    if step.Some? {
      OnlyTwoStepsAreLeft(Shown(id, w, wanted), cluster, w.now, site.idleTimeout);
      StatementsSettle(site, id, w, wanted, step.value, a);
    }
  }

  lemma {:induction false} OnlyTwoStepsAreLeft(room: RoomView, cluster: Snapshot, now: Time, idleTimeout: int)
    requires !IsConverging(room)
    requires var step := Considered(room, cluster, now, idleTimeout, Converge);
             step.Some? && !step.value.LeavesWorkPending()
    ensures var step := Considered(room, cluster, now, idleTimeout, Converge).value;
            step == MarkRunning || step == MarkDegraded
  {
  }

  /** A pass that wants no further convergence waits on no room, and none of its steps leaves work pending. */
  lemma {:induction false} QuietOfEach(rooms: seq<RoomView>, cluster: Snapshot, now: Time, maxRecreates: nat,
        idleTimeout: int, i: nat)
    requires DistinctIds(rooms) && i < |rooms|
    requires var actions := Selection(Candidates(rooms, cluster, now, idleTimeout, Converge), maxRecreates);
             !WantsConvergence(rooms, cluster, actions)
    ensures !IsConverging(rooms[i])
    ensures var step := Considered(rooms[i], cluster, now, idleTimeout, Converge);
            step.Some? ==> !step.value.LeavesWorkPending()
  {
    NoneConverging(rooms, i);
    var planned := Candidates(rooms, cluster, now, idleTimeout, Converge);
    var step := Considered(rooms[i], cluster, now, idleTimeout, Converge);
    if step.Some? {
      CandidateOf(rooms, cluster, now, idleTimeout, Converge, i);
      var k :| 0 <= k < |planned| && planned[k] == Candidate(rooms[i], step.value);
      SelectedIffKept(planned, maxRecreates, 0, Action(rooms[i].id, step.value));
      assert Kept(planned, maxRecreates, k);
    }
  }

  /**
   A convergence pass over any fleet that wants no further one, each room's step run to its end through the protocol's
   calls: planned again over the worlds those calls left, at the same instant, it yields no action at all.
   */
  lemma {:induction false} QuietFleetsStayQuiet(site: Site, worlds: seq<World>, next: seq<World>, now: Time,
        wanted: nat -> Option<Hash>, cluster: Snapshot, maxRecreates: nat, answers: nat -> Answers)
    requires IsFleet(worlds, now) && |next| == |worlds|
    requires forall i :: 0 <= i < |worlds| ==>
               next[i] == Taken(site, Shown(i, worlds[i], wanted(i)), worlds[i], cluster, answers(i))
    requires var rooms := ShownAll(worlds, wanted);
             var actions := Selection(Candidates(rooms, cluster, now, site.idleTimeout, Converge), maxRecreates);
             !WantsConvergence(rooms, cluster, actions)
    ensures IsFleet(next, now)
    ensures Selection(Candidates(ShownAll(next, wanted), cluster, now, site.idleTimeout, Converge), maxRecreates) == []
  {
    var rooms := ShownAll(worlds, wanted);
    forall i | 0 <= i < |worlds|
      ensures next[i].row.Some? && next[i].now == now
      ensures next[i].row.Some? ==>
                Settled(rooms[i], Considered(rooms[i], cluster, now, site.idleTimeout, Converge),
                        Shown(i, next[i], wanted(i)))
    {
      QuietOfEach(rooms, cluster, now, maxRecreates, site.idleTimeout, i);
      TakenSettles(site, i, worlds[i], wanted(i), cluster, answers(i));
    }
    QuietPassesStayQuiet(rooms, ShownAll(next, wanted), cluster, now, maxRecreates, site.idleTimeout);
  }
}
