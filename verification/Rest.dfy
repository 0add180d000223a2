/**
 Whole runs of rounds for a room nobody wants up: one asked to stop or closed comes down, one asked to be
 deleted is dropped from whatever state it is in. Passes see fresh readings and drains arrive after delays of
 the environment's choosing, as for a room that is coming up.
 */
module Rest {
  import opened Rooms
  import opened Planner
  import opened Protocol
  import opened Ownership
  import opened RowLaws
  import opened Convergence
  import opened Recovery
  import opened Reaching

  // ---------------------------------------------------------------- a rank every round lowers

  /** Round `j` keeps what holds and lowers the rank, until there is none of it left. */
  ghost predicate Lowers(holds: nat -> bool, phase: nat -> nat, left: nat -> nat, j: nat) {
    holds(j) ==>
      holds(j + 1) && if phase(j) == 0 then phase(j + 1) == 0
                      else phase(j + 1) < phase(j) || (phase(j + 1) == phase(j) && left(j + 1) < left(j))
  }

  /** Such a rank comes to nothing, and stays there. */
  lemma {:induction false} RunsOut(holds: nat -> bool, phase: nat -> nat, left: nat -> nat, k: nat) returns (n: nat)
    requires forall j: nat :: Lowers(holds, phase, left, j)
    requires holds(k)
    ensures forall m: nat :: m >= n ==> holds(m) && phase(m) == 0
    decreases phase(k), left(k)
  {
    assert Lowers(holds, phase, left, k);
    if phase(k) != 0 {
      n := RunsOut(holds, phase, left, k + 1);
    } else {
      n := k;
      forall m: nat | m >= n ensures holds(m) && phase(m) == 0 {
        StaysOut(holds, phase, left, n, m);
      }
    }
  }

  lemma {:induction false} StaysOut(holds: nat -> bool, phase: nat -> nat, left: nat -> nat, n: nat, m: nat)
    requires forall j: nat :: Lowers(holds, phase, left, j)
    requires n <= m && holds(n) && phase(n) == 0
    ensures holds(m) && phase(m) == 0
    decreases m - n
  {
    if n < m {
      assert Lowers(holds, phase, left, n);
      StaysOut(holds, phase, left, n + 1, m);
    }
  }

  // ---------------------------------------------------------------- a room nobody wants up

  /** A room somebody has asked to stop, or to close. */
  predicate IsAtRest(w: World) {
    w.row.Some? && w.row.value.desired.IsAtRest()
  }

  predicate IsAlive(c: Cluster) {
    c.deployment.Some? && !c.deployment.value.deleting
  }

  /** At rest with a Deployment that is not going away, in a state from which nothing is planned for it. */
  predicate Forgotten(w: World) {
    IsAtRest(w) && IsAlive(w.cluster) && !IsLive(w.row.value.state) && !w.row.value.state.Stopping?
  }

  /** Where a room at rest comes to rest. */
  function RestingState(state: RoomState): RoomState {
    match state
    case Provisioning | Starting | Running | Degraded | Stopping => Idle
    case _ => state
  }

  /** Down: no Deployment, and in the state such a room rests in. */
  predicate IsDown(w: World, state: RoomState) {
    IsAtRest(w) && w.row.value.state == RestingState(state) && w.cluster.deployment.None?
  }

  /** What is left of coming down; nothing, at 0. */
  function Phase(w: World): nat {
    if w.row.None? then 0
    else
      match w.row.value.state
      case Provisioning | Starting | Running | Degraded => 4
      case Stopping => if IsAlive(w.cluster) then 3 else if w.cluster.deployment.Some? then 2 else 1
      case _ => if w.cluster.deployment.Some? then 2 else 0
  }

  /** How long it still waits there: for the stop to be overdue, or for the drain. */
  function Wait(c: Chase): nat {
    var w := c.world;
    if Phase(w) == 3 && w.row.Some? then
      if w.now - w.row.value.stateChangedAt > STOP_DEADLINE then 0
      else STOP_DEADLINE + 1 - (w.now - w.row.value.stateChangedAt)
    else if Phase(w) == 2 then c.due
    else 0
  }

  /** A room at rest, not forgotten, that will rest in the state it would from `state`. */
  predicate Subsides(w: World, state: RoomState) {
    IsAtRest(w) && !Forgotten(w) && RestingState(w.row.value.state) == RestingState(state)
  }

  /** The call a pass over a room at rest starts with. */
  function CallAtRest(w: World): Call
    requires w.row.Some?
  {
    var r := w.row.value;
    if r.state.Provisioning? then ProvisionClaim
    else if IsLive(r.state) then StopDelete
    else if !r.state.Stopping? then Resting
    else if w.cluster.deployment.None? then Forget(None)
    else if w.now - r.stateChangedAt > STOP_DEADLINE then StopDelete
    else Resting
  }

  lemma {:induction false} AtRestChooses(site: Site, spec: Port -> Hash, w: World, kind: TickKind)
    requires IsAtRest(w)
    ensures Chosen(site, spec, w, kind) == CallAtRest(w)
  {
  }

  /** What one pass does about a room at rest. */
  lemma {:induction false} AtRestDecides(site: Site, spec: Port -> Hash, w: World, kind: TickKind, a: Answers)
    requires IsAtRest(w)
    ensures Decide(site, spec, w, kind, a) == Finish(site, State(w, CallAtRest(w)), a).world
  {
    AtRestChooses(site, spec, w, kind);
    DecideRunsTheChosen(site, spec, w, kind, a);
  }

  lemma {:induction false} FinishProvision(site: Site, w: World, a: Answers)
    requires w.row.Some? && w.row.value.state.Provisioning?
    ensures var t := Finish(site, State(w, ProvisionClaim), a).world;
            && t.now == w.now && t.cluster == w.cluster && t.reserved == w.reserved && t.row.Some?
            && t.row.value.state == Idle && t.row.value.desired == w.row.value.desired
  {
    FinishOne(site, State(w, ProvisionClaim), a);
  }

  /** What a pass leaves behind. */
  ghost predicate PassLeaves(w: World, t: World) {
    && IsAtRest(w) && t.now == w.now && t.row.Some? && t.row.value.desired == w.row.value.desired
    && var r := w.row.value;
       var stops := IsLive(r.state)
                    || (r.state.Stopping? && w.cluster.deployment.Some? && w.now - r.stateChangedAt > STOP_DEADLINE);
       && t.cluster == (if stops then AcceptDelete(w) else w).cluster
       && t.row.value.state == (if stops then Stopping
                                else if r.state.Provisioning? then Idle
                                else if r.state.Stopping? && w.cluster.deployment.None? then Idle
                                else r.state)
       && (t.row.value.state.Stopping? && !stops ==> t.row.value.stateChangedAt == r.stateChangedAt)
  }

  lemma {:induction false} CallLeaves(site: Site, w: World, a: Answers)
    requires IsAtRest(w)
    ensures PassLeaves(w, Finish(site, State(w, CallAtRest(w)), a).world)
  {
    match CallAtRest(w)
    case ProvisionClaim => FinishProvision(site, w, a);
    case StopDelete => FinishStop(site, w, a);
    case Forget(_) => FinishForget(site, w, a);
    case _ =>
  }

  lemma {:induction false} DecisionLeaves(site: Site, spec: Port -> Hash, w: World, kind: TickKind, a: Answers)
    requires IsAtRest(w)
    ensures PassLeaves(w, Decide(site, spec, w, kind, a))
  {
    AtRestDecides(site, spec, w, kind, a);
    CallLeaves(site, w, a);
  }

  lemma {:induction false} PassLeavesThat(site: Site, spec: Port -> Hash, w: World, kind: TickKind, a: Answers)
    requires IsAtRest(w)
    ensures PassLeaves(w, Pass(site, spec, w, kind, a))
  {
    DecisionLeaves(site, spec, Begun(w), kind, a);
    SameButCounted(w, Pass(site, spec, w, kind, a));
  }

  lemma {:induction false} SameButCounted(w: World, t: World)
    requires IsAtRest(w) && PassLeaves(Begun(w), t)
    ensures PassLeaves(w, t)
  {
  }

  /** What time brings: a drain if one was due, and nothing else that matters to a room at rest. */
  ghost predicate FoundAfter(c: Chase, elapsed: nat, w: World) {
    && c.world.row.Some? && w.row.Some? && SameButHeard(c.world.row.value, w.row.value)
    && w.now == c.world.now + elapsed && w.reserved == c.world.reserved
    && IsAlive(w.cluster) == IsAlive(c.world.cluster)
    && (c.world.cluster.deployment.None? ==> w.cluster.deployment.None?)
    && (c.world.cluster.deployment.Some? && c.world.cluster.deployment.value.deleting ==>
          w.cluster.deployment == if c.due <= elapsed then None else c.world.cluster.deployment)
    && (c.due > elapsed ==> w.cluster == c.world.cluster)
  }

  lemma {:induction false} TimeBringsThat(site: Site, c: Chase, t: Turn)
    requires c.world.row.Some?
    ensures FoundAfter(c, t.elapsed, Found(site, c, t))
  {
    var u, w := Later(site, c, t.elapsed), Found(site, c, t);
    assert w.cluster == u.cluster && w.now == u.now && w.reserved == u.reserved;
    assert u.row == c.world.row && SameButHeard(u.row.value, w.row.value);
    DeliveryDrains(site, c.world.(now := c.world.now + t.elapsed));
  }

  lemma {:induction false} DeliveryDrains(site: Site, w: World)
    ensures var u := Deliver(site, w);
            && u.row == w.row && u.now == w.now && u.reserved == w.reserved
            && IsAlive(u.cluster) == IsAlive(w.cluster)
            && (w.cluster.deployment.None? ==> u.cluster.deployment.None?)
            && (w.cluster.deployment.Some? && w.cluster.deployment.value.deleting ==> u.cluster.deployment.None?)
  {
  }

  /** While a Deployment drains the room stays as far from up as it is, so the wait for it only runs down. */
  lemma {:induction false} DrainingKeepsStage(site: Site, spec: Port -> Hash, before: World, after: World)
    requires before.row.Some? && after.row.Some? && Phase(before) == 2 && Phase(after) == 2
    requires before.row.value.state == after.row.value.state
    requires before.cluster.deployment == after.cluster.deployment && before.cluster.deployment.value.deleting
    ensures Stage(site, spec, before) == Stage(site, spec, after)
  {
  }

  /** Further down than it was, or down and staying so. */
  ghost predicate ComesCloser(c: Chase, next: Chase, state: RoomState) {
    && Subsides(next.world, state)
    && if Phase(c.world) == 0 then Phase(next.world) == 0
       else Phase(next.world) < Phase(c.world) || (Phase(next.world) == Phase(c.world) && Wait(next) < Wait(c))
  }

  lemma {:induction false} RoundSubsides(site: Site, spec: Port -> Hash, c: Chase, t: Turn, state: RoomState)
    requires Subsides(c.world, state) && t.elapsed > 0
    ensures ComesCloser(c, Round(site, spec, c, t), state)
  {
    var w, next := Found(site, c, t), Round(site, spec, c, t);
    TimeBringsThat(site, c, t);
    PassLeavesThat(site, spec, w, t.kind, Replies(spec, w, t));
    if Phase(c.world) == 2 && Phase(next.world) == 2 {
      DrainingKeepsStage(site, spec, c.world, next.world);
    }
  }

  /** The world after `n` rounds. */
  function WorldAfter(site: Site, spec: Port -> Hash, c: Chase, script: nat -> Turn, n: nat): World {
    Rounds(site, spec, c, script, n).world
  }

  /** `at` goes round by round. */
  ghost predicate GoesRound(site: Site, spec: Port -> Hash, script: nat -> Turn, at: nat -> Chase, j: nat) {
    at(j + 1) == Round(site, spec, at(j), script(j))
  }

  /** `at` is where the rounds have got to. */
  ghost predicate IsThere(site: Site, spec: Port -> Hash, c: Chase, script: nat -> Turn, at: nat -> Chase, j: nat) {
    at(j) == Rounds(site, spec, c, script, j)
  }

  lemma {:induction false} GoneRound(site: Site, spec: Port -> Hash, c: Chase, script: nat -> Turn)
    returns (at: nat -> Chase)
    ensures at(0) == c
    ensures forall j: nat :: GoesRound(site, spec, script, at, j)
    ensures forall j: nat :: IsThere(site, spec, c, script, at, j)
  {
    at := (k: nat) => Rounds(site, spec, c, script, k);
  }

  /** Round `j` brings the room further down. */
  ghost predicate SubsidesAt(at: nat -> Chase, state: RoomState, j: nat) {
    Subsides(at(j).world, state) ==> ComesCloser(at(j), at(j + 1), state)
  }

  lemma {:induction false} NextSubsides(site: Site, spec: Port -> Hash, script: nat -> Turn, at: nat -> Chase,
        state: RoomState, j: nat)
    requires KeepsMoving(script) && forall k: nat :: GoesRound(site, spec, script, at, k)
    ensures SubsidesAt(at, state, j)
  {
    assert GoesRound(site, spec, script, at, j) && Takes(script, j);
    if Subsides(at(j).world, state) { RoundSubsides(site, spec, at(j), script(j), state); }
  }

  lemma {:induction false} DownThere(site: Site, spec: Port -> Hash, c: Chase, script: nat -> Turn, at: nat -> Chase,
        state: RoomState, j: nat)
    requires forall k: nat :: IsThere(site, spec, c, script, at, k)
    requires IsDown(at(j).world, state)
    ensures IsDown(WorldAfter(site, spec, c, script, j), state)
  {
    assert IsThere(site, spec, c, script, at, j);
  }

  lemma {:induction false} NothingLeftIsDown(w: World, state: RoomState)
    requires Subsides(w, state) && Phase(w) == 0
    ensures IsDown(w, state)
  {
  }

  lemma {:induction false} SubsidingRunsOut(at: nat -> Chase, state: RoomState) returns (n: nat)
    requires Subsides(at(0).world, state) && forall j: nat :: SubsidesAt(at, state, j)
    ensures forall m: nat :: m >= n ==> IsDown(at(m).world, state)
  {
    var holds := (k: nat) => Subsides(at(k).world, state);
    var phase := (k: nat) => Phase(at(k).world);
    var left := (k: nat) => Wait(at(k));
    forall j: nat ensures Lowers(holds, phase, left, j) {
      assert SubsidesAt(at, state, j);
    }
    n := RunsOut(holds, phase, left, 0);
    forall m: nat | m >= n ensures IsDown(at(m).world, state) {
      assert holds(m) && phase(m) == 0;
      NothingLeftIsDown(at(m).world, state);
    }
  }

  /**
   A room asked to stop or to close comes down: after some number of rounds its Deployment is gone and it is
   at rest, and so it stays, whatever the kinds of pass, the times between them and the waits for the drains.
   */
  lemma {:induction false} ComesDown(site: Site, spec: Port -> Hash, c: Chase, script: nat -> Turn) returns (n: nat)
    requires IsAtRest(c.world) && !Forgotten(c.world) && KeepsMoving(script)
    ensures forall m: nat :: m >= n ==> IsDown(WorldAfter(site, spec, c, script, m), c.world.row.value.state)
  {
    var state := c.world.row.value.state;
    var at := GoneRound(site, spec, c, script);
    forall j: nat ensures SubsidesAt(at, state, j) {
      NextSubsides(site, spec, script, at, state, j);
    }
    n := SubsidingRunsOut(at, state);
    forall m: nat | m >= n ensures IsDown(WorldAfter(site, spec, c, script, m), state) {
      DownThere(site, spec, c, script, at, state, m);
    }
  }

  // ---------------------------------------------------------------- a room that is forgotten

  lemma {:induction false} RoundForgets(site: Site, spec: Port -> Hash, c: Chase, t: Turn)
    requires Forgotten(c.world)
    ensures Forgotten(Round(site, spec, c, t).world)
  {
    TimeBringsThat(site, c, t);
    var w := Found(site, c, t);
    PassLeavesThat(site, spec, w, t.kind, Replies(spec, w, t));
  }

  /** Its Deployment runs on, for as many rounds as one likes. */
  lemma {:induction false} StaysForgotten(site: Site, spec: Port -> Hash, c: Chase, script: nat -> Turn, n: nat)
    requires Forgotten(c.world)
    ensures Forgotten(WorldAfter(site, spec, c, script, n))
  {
    var holds := (k: nat) => Forgotten(Rounds(site, spec, c, script, k).world);
    forall k: nat | holds(k) ensures holds(k + 1) {
      RoundForgets(site, spec, Rounds(site, spec, c, script, k), script(k));
    }
    Persists(holds, (k: nat) => false, 0, n);
  }

  /** After `n` rounds and after any larger number of them there is no Deployment. */
  ghost predicate IsGoneFrom(site: Site, spec: Port -> Hash, c: Chase, script: nat -> Turn, n: nat) {
    forall m: nat :: m >= n ==> WorldAfter(site, spec, c, script, m).cluster.deployment.None?
  }

  /**
   Exactly when a room at rest loses its Deployment for good: unless it is one whose Deployment is not going
   away while the row, neither live nor stopping, does not know of it.
   */
  lemma {:induction false} ComesDownIff(site: Site, spec: Port -> Hash, c: Chase, script: nat -> Turn)
    requires IsAtRest(c.world) && KeepsMoving(script)
    ensures (exists n: nat :: IsGoneFrom(site, spec, c, script, n)) <==>
            !(&& c.world.cluster.deployment.Some? && !c.world.cluster.deployment.value.deleting
              && c.world.row.value.state !in {Starting, Running, Degraded, Stopping})
  {
    if Forgotten(c.world) {
      forall n: nat ensures !IsGoneFrom(site, spec, c, script, n) {
        StaysForgotten(site, spec, c, script, n);
        assert WorldAfter(site, spec, c, script, n).cluster.deployment.Some?;
      }
    } else {
      var n := ComesDown(site, spec, c, script);
      forall m: nat | m >= n ensures WorldAfter(site, spec, c, script, m).cluster.deployment.None? {
        assert IsDown(WorldAfter(site, spec, c, script, m), c.world.row.value.state);
      }
      assert IsGoneFrom(site, spec, c, script, n);
    }
  }

  /** From a new room, through any run and any crash: a room live or stopping that is then asked to stop comes down. */
  lemma {:induction false} StopsAreCarriedOut(site: Site, spec: Port -> Hash, s: State, labels: seq<Label>,
        desired: Desired, c: Chase, script: nat -> Turn)
    returns (n: nat)
    requires IsNewRoom(s) && desired.IsAtRest() && KeepsMoving(script)
    requires c.world == Next(site, Next(site, Run(site, s, labels), Interrupt), Ask(desired)).world
    requires c.world.row.Some? && (IsLive(c.world.row.value.state) || c.world.row.value.state.Stopping?)
    ensures forall m: nat :: m >= n ==>
      var w := WorldAfter(site, spec, c, script, m);
      w.row.Some? && w.row.value.state == Idle && w.cluster.deployment.None?
  {
    n := ComesDown(site, spec, c, script);
    forall m: nat | m >= n
      ensures var w := WorldAfter(site, spec, c, script, m);
              w.row.Some? && w.row.value.state == Idle && w.cluster.deployment.None?
    {
      assert IsDown(WorldAfter(site, spec, c, script, m), c.world.row.value.state);
    }
  }

  /**
   A start whose Service has no address yet leaves the room idle over a Deployment that runs; asked to stop just
   then, the room is forgotten. No process dies on the way.
   */
  lemma {:induction false} ARoomCanBeForgotten(site: Site, s: State) returns (t: State)
    requires IsNewRoom(s)
    ensures Reaches(site, s, t) && t.call == Resting && t.world.row.Some? && t.world.row.value.desired == WantStopped
    ensures Forgotten(t.world)
  {
    var a := Answers(Some(40000), Rendered(1), false);
    var d := Draft(40000, 1);
    t := NewRoomsCreate(site, s, d, a);
    t := CreatedRoomsWait(site, s, t, d, a);
    t := ReachesNext(site, s, t, Ask(WantStopped));
  }

  lemma {:induction false} NewRoomsCreate(site: Site, s: State, d: Draft, a: Answers) returns (t: State)
    requires IsNewRoom(s) && a.freshPort == Some(d.port) && a.rendering == Rendered(d.hash)
    ensures Reaches(site, s, t) && t.call == Record(d, 0) && t.world.cluster.service.None?
    ensures t.world.cluster.deployment == Some(Deployment(0, Some(d.hash), 0, false))
    ensures t.world.row.Some? && t.world.row.value.state.Idle?
  {
    t := NewRoomsGetReady(site, s, a);
    t := StartRenders(site, s, t, d.port, a);
    t := StartLooks(site, s, t, d, a);
    t := StartCreates(site, s, t, d, a);
  }

  /** The Service exists and has no address: the start ends there. */
  lemma {:induction false} CreatedRoomsWait(site: Site, s: State, t: State, d: Draft, a: Answers) returns (u: State)
    requires Reaches(site, s, t) && t.call == Record(d, 0) && t.world.cluster.service.None?
    requires t.world.row.Some? && t.world.row.value.state.Idle? && IsAlive(t.world.cluster)
    ensures Reaches(site, s, u) && u.call == Resting && u.world.row.Some? && u.world.row.value.state.Idle?
    ensures IsAlive(u.world.cluster)
  {
    u := Reaching.StartRecords(site, s, t, d, 0, a);
    u := Reaching.StartExposes(site, s, u, d, 0, a);
    u := AwaitsItsAddress(site, s, u, d, a);
  }

  lemma {:induction false} AwaitsItsAddress(site: Site, s: State, t: State, d: Draft, a: Answers) returns (u: State)
    requires Reaches(site, s, t) && t.call == ReadService(d, 0)
    requires t.world.cluster.service == Some(Service(0, d.port, Unanswered))
    ensures Reaches(site, s, u) && u == State(t.world, Resting)
  {
    u := ReachesNext(site, s, t, Do(a));
  }

  // ---------------------------------------------------------------- a room asked to be deleted

  /** Asked to be deleted, or already gone; `tidy` if no Service of another Deployment was there to begin with. */
  ghost predicate IsGoing(w: World, tidy: bool) {
    && (if w.row.Some? then w.row.value.desired == WantDeleted else IsErased(w))
    && (tidy ==> Tidy(w.cluster))
  }

  /** The row, the pair, the Deployment and the Secret are gone. */
  predicate IsErased(w: World) {
    w.row.None? && w.reserved.None? && w.cluster.deployment.None? && w.cluster.secret.None?
  }

  /** Nothing of the room is left; a Service only if one was there that none of its Deployments owned. */
  ghost predicate HasNothing(w: World, tidy: bool) {
    && w.row.None? && w.reserved.None? && w.cluster.deployment.None? && w.cluster.secret.None?
    && (tidy ==> w.cluster.service.None?)
  }

  /** What is left of the deletion; nothing, at 0. */
  function DeletionPhase(w: World): nat {
    if w.row.None? then 0
    else if w.cluster.deployment.None? then 1
    else if w.cluster.deployment.value.deleting && w.row.value.state.Deleting? then 2
    else 3
  }

  function DeletionWait(c: Chase): nat {
    if DeletionPhase(c.world) == 2 then c.due else 0
  }

  lemma {:induction false} TeardownReachesLook(site: Site, w: World, a: Answers)
    ensures Finish(site, State(w, TeardownDeployment), a)
            == Finish(site, State(AcceptDelete(w).(cluster := AcceptDelete(w).cluster.(secret := None)),
                                  LookBeforeTrash), a)
  {
    var s1 := Perform(site, State(w, TeardownDeployment), a);
    var s2 := Perform(site, s1, a);
    assert s1 == State(AcceptDelete(w), TeardownSecret);
    assert Finish(site, State(w, TeardownDeployment), a) == Finish(site, s1, a) == Finish(site, s2, a);
  }

  lemma {:induction false} FinishTrash(site: Site, w: World, a: Answers)
    requires w.row.Some?
    ensures var t := Finish(site, State(w, LookBeforeTrash), a).world;
            && t.now == w.now && t.cluster == w.cluster
            && if w.cluster.deployment.None? then t.row.None? && t.reserved.None?
               else t.row.Some? && t.row.value.state == Deleting && t.row.value.desired == w.row.value.desired
  {
    var s1 := Perform(site, State(w, LookBeforeTrash), a);
    assert s1.world == w && (s1.call == MarkDeleting || s1.call == DropRow);
    assert Finish(site, State(w, LookBeforeTrash), a) == Finish(site, s1, a);
    FinishOne(site, s1, a);
  }

  /** Deletion is planned from every state. */
  lemma {:induction false} DeletionIsChosen(site: Site, spec: Port -> Hash, w: World, kind: TickKind)
    requires w.row.Some? && w.row.value.desired == WantDeleted
    ensures Chosen(site, spec, w, kind) == TeardownDeployment
  {
  }

  /** What a pass over a room asked to be deleted leaves behind. */
  ghost predicate TornDown(w: World, t: World) {
    && t.now == w.now && t.cluster == AcceptDelete(w).cluster.(secret := None)
    && if w.cluster.deployment.None? then t.row.None? && t.reserved.None?
       else t.row.Some? && t.row.value.state == Deleting && t.row.value.desired == WantDeleted
  }

  lemma {:induction false} FinishTeardown(site: Site, w: World, a: Answers)
    requires w.row.Some? && w.row.value.desired == WantDeleted
    ensures TornDown(w, Finish(site, State(w, TeardownDeployment), a).world)
  {
    var u := AcceptDelete(w).(cluster := AcceptDelete(w).cluster.(secret := None));
    TeardownReachesLook(site, w, a);
    FinishTrash(site, u, a);
  }

  lemma {:induction false} DecisionTearsDown(site: Site, spec: Port -> Hash, w: World, kind: TickKind, a: Answers)
    requires w.row.Some? && w.row.value.desired == WantDeleted
    ensures TornDown(w, Decide(site, spec, w, kind, a))
  {
    DeletionIsChosen(site, spec, w, kind);
    DecideRunsTheChosen(site, spec, w, kind, a);
    FinishTeardown(site, w, a);
  }

  lemma {:induction false} PassTearsDown(site: Site, spec: Port -> Hash, w: World, kind: TickKind, a: Answers)
    requires w.row.Some? && w.row.value.desired == WantDeleted
    ensures TornDown(w, Pass(site, spec, w, kind, a))
  {
    DecisionTearsDown(site, spec, Begun(w), kind, a);
    AlsoCounted(w, Pass(site, spec, w, kind, a));
  }

  lemma {:induction false} AlsoCounted(w: World, t: World)
    requires TornDown(Begun(w), t)
    ensures TornDown(w, t)
  {
  }

  lemma {:induction false} TimeKeepsTidy(site: Site, c: Chase, t: Turn)
    requires Tidy(c.world.cluster)
    ensures Tidy(Found(site, c, t).cluster)
  {
    var u, w := Later(site, c, t.elapsed), Found(site, c, t);
    assert w.cluster == u.cluster;
  }

  /** Nothing comes back once the row is gone. */
  lemma {:induction false} ErasedStaysErased(site: Site, spec: Port -> Hash, c: Chase, t: Turn)
    requires IsErased(c.world)
    ensures IsErased(Round(site, spec, c, t).world)
    ensures Round(site, spec, c, t).world.cluster == Found(site, c, t).cluster
  {
    var u, w := Later(site, c, t.elapsed), Found(site, c, t);
    assert u.row.None? && w.row.None?;
    assert Pass(site, spec, w, t.kind, Replies(spec, w, t)) == w;
  }

  lemma {:induction false} DyingKeepsStage(site: Site, spec: Port -> Hash, before: World, after: World)
    requires before.row.Some? && after.row.Some?
    requires before.row.value.state == Deleting && after.row.value.state == Deleting
    ensures Stage(site, spec, before) == Stage(site, spec, after)
  {
  }

  /** Nearer gone than it was, or gone and staying so. */
  ghost predicate GoesCloser(c: Chase, next: Chase, tidy: bool) {
    && IsGoing(next.world, tidy)
    && if DeletionPhase(c.world) == 0 then DeletionPhase(next.world) == 0
       else DeletionPhase(next.world) < DeletionPhase(c.world)
            || (DeletionPhase(next.world) == DeletionPhase(c.world) && DeletionWait(next) < DeletionWait(c))
  }

  lemma {:induction false} RoundDeletes(site: Site, spec: Port -> Hash, c: Chase, t: Turn, tidy: bool)
    requires IsGoing(c.world, tidy) && t.elapsed > 0
    ensures GoesCloser(c, Round(site, spec, c, t), tidy)
  {
    var next := Round(site, spec, c, t);
    if tidy { TimeKeepsTidy(site, c, t); }
    if c.world.row.None? {
      ErasedStaysErased(site, spec, c, t);
    } else {
      var w := Found(site, c, t);
      TimeBringsThat(site, c, t);
      PassTearsDown(site, spec, w, t.kind, Replies(spec, w, t));
      if DeletionPhase(c.world) == 2 && DeletionPhase(next.world) == 2 {
        DyingKeepsStage(site, spec, c.world, next.world);
      }
    }
  }

  lemma {:induction false} NothingLeftIsGone(w: World, tidy: bool)
    requires IsGoing(w, tidy) && DeletionPhase(w) == 0
    ensures HasNothing(w, tidy)
  {
  }

  /** Round `j` brings the deletion further. */
  ghost predicate DeletesAt(at: nat -> Chase, tidy: bool, j: nat) {
    IsGoing(at(j).world, tidy) ==> GoesCloser(at(j), at(j + 1), tidy)
  }

  lemma {:induction false} NextDeletes(site: Site, spec: Port -> Hash, script: nat -> Turn, at: nat -> Chase,
        tidy: bool, j: nat)
    requires KeepsMoving(script) && forall k: nat :: GoesRound(site, spec, script, at, k)
    ensures DeletesAt(at, tidy, j)
  {
    assert GoesRound(site, spec, script, at, j) && Takes(script, j);
    if IsGoing(at(j).world, tidy) { RoundDeletes(site, spec, at(j), script(j), tidy); }
  }

  lemma {:induction false} NothingThere(site: Site, spec: Port -> Hash, c: Chase, script: nat -> Turn,
        at: nat -> Chase, tidy: bool, j: nat)
    requires forall k: nat :: IsThere(site, spec, c, script, at, k)
    requires HasNothing(at(j).world, tidy)
    ensures HasNothing(WorldAfter(site, spec, c, script, j), tidy)
  {
    assert IsThere(site, spec, c, script, at, j);
  }

  lemma {:induction false} DeletingRunsOut(at: nat -> Chase, tidy: bool) returns (n: nat)
    requires IsGoing(at(0).world, tidy) && forall j: nat :: DeletesAt(at, tidy, j)
    ensures forall m: nat :: m >= n ==> HasNothing(at(m).world, tidy)
  {
    var holds := (k: nat) => IsGoing(at(k).world, tidy);
    var phase := (k: nat) => DeletionPhase(at(k).world);
    var left := (k: nat) => DeletionWait(at(k));
    forall j: nat ensures Lowers(holds, phase, left, j) {
      assert DeletesAt(at, tidy, j);
    }
    n := RunsOut(holds, phase, left, 0);
    forall m: nat | m >= n ensures HasNothing(at(m).world, tidy) {
      assert holds(m) && phase(m) == 0;
      NothingLeftIsGone(at(m).world, tidy);
    }
  }

  /**
   A room asked to be deleted is deleted, whatever state it is in and whatever is in the cluster: after some number
   of rounds its row, its pair and its objects are gone, and they stay gone.
   */
  lemma {:induction false} EveryDeletionEnds(site: Site, spec: Port -> Hash, c: Chase, script: nat -> Turn)
    returns (n: nat)
    requires c.world.row.Some? && c.world.row.value.desired == WantDeleted && KeepsMoving(script)
    ensures forall m: nat :: m >= n ==> HasNothing(WorldAfter(site, spec, c, script, m), Tidy(c.world.cluster))
  {
    var tidy := Tidy(c.world.cluster);
    var at := GoneRound(site, spec, c, script);
    forall j: nat ensures DeletesAt(at, tidy, j) {
      NextDeletes(site, spec, script, at, tidy, j);
    }
    n := DeletingRunsOut(at, tidy);
    forall m: nat | m >= n ensures HasNothing(WorldAfter(site, spec, c, script, m), tidy) {
      NothingThere(site, spec, c, script, at, tidy, m);
    }
  }
}
