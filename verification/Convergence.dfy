/**
 A room that is wanted running gets there.

 Passes see fresh readings of the cluster, the spec renders the same way every time, and each thing
 the environment owes the room (a drain, an address, a ready pod) arrives after a delay of its own
 choosing, a pod's inside the start deadline. Whatever state a crash left the room in, every pass
 lowers a rank over row, cluster and clock until the room is running.
 */
module Convergence {
  import opened Rooms
  import opened Planner
  import opened Protocol
  import opened Ownership
  import opened RowLaws
  import opened Backoff

  // ---------------------------------------------------------------- a step run to its end

  /** How many calls a step still has at most. */
  function Remaining(call: Call): nat {
    match call
    case Resting => 0
    case FailRecord | Forget(_) | Advertise(_, _) | StopDelete | LookBeforeTrash => 2
    case FailDelete | RecreateDelete(_) | Replace(_) | TeardownSecret => 3
    case QuarantinePair(_, _) | TeardownDeployment => 4
    case Withdraw(_, _) => 5
    case ReadService(_, _) => 6
    case Expose(_, _) => 7
    case LookService(_, _) => 8
    case OwnSecret(_, _) => 9
    case Record(_, _) => 10
    case RereadDeployment(_) => 11
    case CreateDeployment(_) => 12
    case LookDeployment(_) => 13
    case ApplySecret(_) => 14
    case Render(_) => 15
    case Allocate => 16
    case _ => 1
  }

  /** A step carried out with nothing happening in between. */
  function Finish(site: Site, s: State, a: Answers): State
    decreases Remaining(s.call)
  {
    if s.call == Resting then s else Finish(site, Perform(site, s, a), a)
  }

  // ---------------------------------------------------------------- the hypotheses

  function PortFor(w: World, a: Answers): Port
    requires w.reserved.Some? || a.freshPort.Some?
  {
    if w.reserved.Some? then w.reserved.value else a.freshPort.value
  }

  /** Ports are to be had, the spec renders as `spec` says, and deletes are not lost. */
  ghost predicate Cooperative(spec: Port -> Hash, w: World, a: Answers) {
    a.freshPort.Some? && !a.deleteLost && a.rendering == Rendered(spec(PortFor(w, a)))
  }

  /** A Service is owned by the Deployment that exists. */
  ghost predicate Tidy(c: Cluster) {
    c.service.Some? ==> c.deployment.Some? && c.deployment.value.uid == c.service.value.owner
  }

  /**
   A failed room something will retry: a time to do so, or a spec that renders differently than it was last
   recorded.
   */
  predicate WillRetry(spec: Port -> Hash, r: Row, reserved: Option<Port>) {
    || r.retryAfter.Some?
    || (reserved.Some? && r.specHash.Some? && r.specHash.value != spec(reserved.value))
  }

  /** A room wanted running, in a state a crash can leave that still has a way forward. */
  ghost predicate Recoverable(site: Site, spec: Port -> Hash, w: World) {
    && w.row.Some? && w.row.value.desired == WantRunning
    && !w.row.value.state.Deleting? && !w.row.value.state.IntegrityFault?
    && (w.row.value.state.Failed? ==> WillRetry(spec, w.row.value, w.reserved))
    && Tidy(w.cluster)
    && (IsLive(w.row.value.state) && w.cluster.service.Some? ==> w.cluster.service.value.address == Assigned(site.lbIp))
    && (w.row.value.state.Stopping? && w.cluster.deployment.Some? ==> w.cluster.deployment.value.deleting)
  }

  /** The planner, shown this world, would have the room reaped. */
  predicate ReapDue(site: Site, w: World) {
    && w.row.Some?
    && StepFor(View(w.row.value, w.now, None), w.cluster.deployment, w.now, site.idleTimeout) == Some(Reap)
  }

  /** The room is up, on the spec its row describes, with nothing left to do. */
  predicate IsUp(w: World) {
    && w.row.Some? && w.row.value.state == Running && w.row.value.notReadySweeps == 0
    && w.row.value.redeployRequestedAt.None?
    && w.cluster.deployment.Some? && !w.cluster.deployment.value.deleting
    && w.cluster.deployment.value.readyReplicas >= 1
    && w.cluster.deployment.value.specHash == w.row.value.specHash
  }

  // ---------------------------------------------------------------- one pass

  datatype Owed = Nothing | ADrain | AnAddress | APod

  /** What the environment owes the room next. */
  function OwedTo(c: Cluster): Owed {
    if c.deployment.Some? && c.deployment.value.deleting then ADrain
    else if c.service.Some? && c.service.value.address.Unanswered? then AnAddress
    else if c.deployment.Some? && c.deployment.value.readyReplicas == 0 then APod
    else Nothing
  }

  function Deliver(site: Site, w: World): World {
    match OwedTo(w.cluster)
    case Nothing => w
    case ADrain => Environment(State(w, Resting), Drain)
    case AnAddress => Environment(State(w, Resting), Answer(Assigned(site.lbIp)))
    case APod => Environment(State(w, Resting), Ready(1))
  }

  /** The planner's decision from a fresh reading, carried out to its end. */
  function Decide(site: Site, spec: Port -> Hash, w: World, kind: TickKind, a: Answers): World {
    if w.row.None? then w
    else
      var step := StepFor(View(w.row.value, w.now, Wanted(spec, w, kind)), w.cluster.deployment, w.now,
            site.idleTimeout);
      if step.None? || (kind == Converge && step.value.IsPaced()) then w
      else Finish(site, State(w, FirstCall(step.value, w.row.value, w, kind)), a).world
  }

  /** The world a pass plans over. */
  function Begun(w: World): World {
    if w.row.Some? then w.(pass := w.pass + 1) else w
  }

  /** One pass of the loop over the room. */
  function Pass(site: Site, spec: Port -> Hash, w: World, kind: TickKind, a: Answers): World {
    Decide(site, spec, Begun(w), kind, a)
  }

  /** The hash a room's spec would have now: rendered on full passes, and only against a pair it still holds. */
  function Wanted(spec: Port -> Hash, w: World, kind: TickKind): Option<Hash> {
    if kind == Reconcile && w.reserved.Some? then Some(spec(w.reserved.value)) else None
  }

  /** The world, and how long until the environment delivers what it owes. */
  datatype Chase = Chase(world: World, due: nat)

  /** What a probe of the room found out. */
  datatype Hearing = Hearing(https: bool, lastCheckAt: Option<Time>)

  /**
   What varies from pass to pass: its kind, how long since the last one, the next wait, a free port,
   and what a probe has heard of the room meanwhile, if there was one.
   */
  datatype Turn = Turn(kind: TickKind, elapsed: nat, wait: nat, freshPort: Port, heard: Option<Hearing>)

  function Replies(spec: Port -> Hash, w: World, t: Turn): Answers {
    Answers(Some(t.freshPort), Rendered(spec(if w.reserved.Some? then w.reserved.value else t.freshPort)), false)
  }

  /** A probe, if there was one; it touches what is known of the room's activity and nothing else. */
  function Probed(w: World, heard: Option<Hearing>): World {
    if heard.None? then w
    else Environment(State(w, Resting), Probe(heard.value.https, heard.value.lastCheckAt))
  }

  /** The world later, with whatever had fallen due. */
  function Later(site: Site, c: Chase, elapsed: nat): World {
    var w := c.world.(now := c.world.now + elapsed);
    if c.due <= elapsed then Deliver(site, w) else w
  }

  /** The world as a pass finds it: later, and with what was last heard of the room. */
  function Found(site: Site, c: Chase, t: Turn): World {
    Probed(Later(site, c, t.elapsed), t.heard)
  }

  /** Time passes, what is due arrives, and the loop makes a pass. A new wait is chosen when one ends. */
  function Round(site: Site, spec: Port -> Hash, c: Chase, t: Turn): Chase {
    var w := Found(site, c, t);
    var w' := Pass(site, spec, w, t.kind, Replies(spec, w, t));
    Chase(w', if c.due <= t.elapsed || Stage(site, spec, w') < Stage(site, spec, c.world) then Within(w', t.wait)
              else c.due - t.elapsed)
  }

  /** The environment makes a starting room's pod ready inside the start deadline. */
  function Within(w: World, wait: nat): nat {
    if w.row.Some? && w.row.value.state == Starting && wait > START_DEADLINE then START_DEADLINE else wait
  }

  // ---------------------------------------------------------------- the rank

  /** How far from up the room is. Lower is closer; 0 is up. */
  function Stage(site: Site, spec: Port -> Hash, w: World): nat {
    if w.row.None? then 17
    else
      match w.row.value.state
      case Starting | Running | Degraded => LiveStage(w)
      case Idle => IdleStage(site, spec, w)
      case Failed => if RefusedAlive(w.cluster) then 10 else 8
      case Stopping => if w.cluster.deployment.None? then 11 else 12
      case Provisioning => 16
      case _ => 17
  }

  function LiveStage(w: World): nat
    requires w.row.Some?
  {
    var r := w.row.value;
    if w.cluster.deployment.None? then 13
    else
      var d := w.cluster.deployment.value;
      if d.deleting then 14
      else if r.redeployRequestedAt.Some? || d.specHash != r.specHash then 15
      else if d.readyReplicas >= 1 then if r.state == Running && r.notReadySweeps == 0 then 0 else 1
      else if r.state == Starting && w.now - r.stateChangedAt > START_DEADLINE then 15
      else 2
  }

  predicate RefusedAlive(c: Cluster) {
    c.deployment.Some? && !c.deployment.value.deleting && c.service.Some? && c.service.value.address.Refused?
  }

  function IdleStage(site: Site, spec: Port -> Hash, w: World): nat {
    if w.cluster.deployment.None? then 5
    else
      var d := w.cluster.deployment.value;
      if d.deleting then 6
      else if RefusedAlive(w.cluster) then 9
      else if w.reserved.None? || d.specHash != Some(spec(w.reserved.value)) then 7
      else if w.cluster.service.None? then 5
      else if w.cluster.service.value.address.Unanswered? then 4
      else if w.cluster.service.value.address == Assigned(site.lbIp) then 3
      else 7
  }

  /** How long the room still waits where it is: for a clock it can read, or for the environment. */
  function Left(site: Site, spec: Port -> Hash, c: Chase): nat {
    var w := c.world;
    var stage := Stage(site, spec, w);
    if w.row.Some? && stage == 13 then
      if w.now - w.row.value.stateChangedAt > VANISH_GRACE then 0
      else VANISH_GRACE + 1 - (w.now - w.row.value.stateChangedAt)
    else if w.row.Some? && (stage == 8 || stage == 10) then
      if w.row.value.retryAfter.None? || w.row.value.retryAfter.value <= w.now then 0
      else w.row.value.retryAfter.value - w.now
    else if stage == 15 then 0
    else c.due
  }

  /** A starting room's pod still has time to become ready. */
  ghost predicate Punctual(c: Chase) {
    var w := c.world;
    && w.row.Some? && w.row.value.state == Starting && w.now - w.row.value.stateChangedAt <= START_DEADLINE
    && w.cluster.deployment.Some? && !w.cluster.deployment.value.deleting
        && w.cluster.deployment.value.readyReplicas == 0
    ==> w.now - w.row.value.stateChangedAt + c.due <= START_DEADLINE
  }

  ghost predicate Lower(site: Site, spec: Port -> Hash, before: Chase, after: Chase) {
    || Stage(site, spec, after.world) < Stage(site, spec, before.world)
    || (&& Stage(site, spec, after.world) == Stage(site, spec, before.world)
        && Left(site, spec, after) < Left(site, spec, before))
  }

  // ---------------------------------------------------------------- what each step does, run to its end

  lemma {:induction false} FinishOne(site: Site, s: State, a: Answers)
    requires s.call != Resting && Perform(site, s, a).call == Resting
    ensures Finish(site, s, a) == Perform(site, s, a)
  {
  }

  lemma {:induction false} FinishFail(site: Site, w: World, a: Answers)
    requires w.row.Some? && !a.deleteLost
    ensures var t := Finish(site, State(w, FailDelete), a);
            && t.call == Resting && t.world.now == w.now && t.world.reserved == w.reserved
            && t.world.cluster == AcceptDelete(w).cluster
            && t.world.row.Some?
            && var r := t.world.row.value;
               && r.state == Failed && r.retryAfter.Some? && r.desired == w.row.value.desired
  {
    var s1 := Perform(site, State(w, FailDelete), a);
    var s2 := Perform(site, s1, a);
    assert s1 == State(AcceptDelete(w), FailRecord) && s2.call.FailSchedule?;
    assert Finish(site, s1, a) == Finish(site, s2, a);
    FinishOne(site, s2, a);
  }

  lemma {:induction false} FinishForget(site: Site, w: World, a: Answers)
    requires w.row.Some?
    ensures var t := Finish(site, State(w, Forget(None)), a);
            && t.call == Resting && t.world.now == w.now && t.world.reserved == w.reserved
                && t.world.cluster == w.cluster
            && t.world.row == Some(ClearedRow(w.row.value, w.now))
  {
    var s1 := Perform(site, State(w, Forget(None)), a);
    assert Finish(site, s1, a) == s1;
  }

  lemma {:induction false} FinishRecreate(site: Site, w: World, asked: bool, a: Answers)
    requires w.row.Some?
    ensures var t := Finish(site, State(w, RecreateDelete(asked)), a);
            && t.call == Resting && t.world.now == w.now && t.world.reserved == w.reserved
            && t.world.cluster == AcceptDelete(w).cluster
            && t.world.row == Some(ClearedRow(w.row.value, w.now).(redeployRequestedAt := None))
  {
    var s1 := Perform(site, State(w, RecreateDelete(asked)), a);
    var s2 := Perform(site, s1, a);
    assert s1 == State(AcceptDelete(w), Forget(Some(asked)));
    assert s2.call == ConsumeRequest(asked) && s2.world.row == Some(ClearedRow(w.row.value, w.now));
    assert Finish(site, s1, a) == Finish(site, s2, a);
    FinishOne(site, s2, a);
  }

  lemma {:induction false} FinishStop(site: Site, w: World, a: Answers)
    requires w.row.Some?
    ensures var t := Finish(site, State(w, StopDelete), a);
            && t.call == Resting && t.world.now == w.now && t.world.reserved == w.reserved
            && t.world.cluster == AcceptDelete(w).cluster
            && t.world.row == Some(w.row.value.(state := Stopping, stateChangedAt := w.now))
  {
    var s1 := Perform(site, State(w, StopDelete), a);
    var s2 := Perform(site, s1, a);
    assert Finish(site, s1, a) == Finish(site, s2, a) == s2;
  }

  /** A start as far as its live read of the Deployment. */
  lemma {:induction false} StartReachesLook(site: Site, spec: Port -> Hash, w: World, a: Answers)
    requires Cooperative(spec, w, a)
    ensures var p := PortFor(w, a);
            Finish(site, State(w, Allocate), a)
            == Finish(site, State(WithSecret(w.(reserved := Some(p)), None), LookDeployment(Draft(p, spec(p)))), a)
  {
    var p := PortFor(w, a);
    var s1 := Perform(site, State(w, Allocate), a);
    var s2 := Perform(site, s1, a);
    var s3 := Perform(site, s2, a);
    assert s1 == State(w.(reserved := Some(p)), Render(p));
    assert s2 == State(w.(reserved := Some(p)), ApplySecret(Draft(p, spec(p))));
    assert Finish(site, State(w, Allocate), a) == Finish(site, s1, a) == Finish(site, s2, a) == Finish(site, s3, a);
  }

  /** From a recorded Deployment to the Service: row and Secret agree with it. */
  lemma {:induction false} StartRecords(site: Site, w: World, d: Draft, uid: Uid, a: Answers) returns (v: World)
    requires w.row.Some?
    ensures Finish(site, State(w, Record(d, uid)), a) == Finish(site, State(v, LookService(d, uid)), a)
    ensures v.row == Some(w.row.value.(deploymentUid := Some(uid), specHash := Some(d.hash)))
    ensures v.cluster == w.cluster.(secret := Some(Secret(Some(uid)))) && v.reserved == w.reserved && v.now == w.now
  {
    var s1 := Perform(site, State(w, Record(d, uid)), a);
    var s2 := Perform(site, s1, a);
    assert s1.call == OwnSecret(d, uid) && s2.call == LookService(d, uid);
    assert Finish(site, State(w, Record(d, uid)), a) == Finish(site, s1, a) == Finish(site, s2, a);
    v := s2.world;
  }

  /** With no Service yet, a start creates one and waits for its address. */
  lemma {:induction false} StartExposes(site: Site, w: World, d: Draft, uid: Uid, a: Answers)
    requires w.cluster.service.None?
    ensures var t := Finish(site, State(w, LookService(d, uid)), a);
            && t.call == Resting && t.world.row == w.row && t.world.now == w.now && t.world.reserved == w.reserved
            && t.world.cluster == w.cluster.(service := Some(Service(uid, d.port, Unanswered)))
  {
    var s1 := Perform(site, State(w, LookService(d, uid)), a);
    var s2 := Perform(site, s1, a);
    var s3 := Perform(site, s2, a);
    assert s1.call == Expose(d, uid) && s2.call == ReadService(d, uid) && s3.call == Resting;
    assert Finish(site, s1, a) == Finish(site, s2, a) == Finish(site, s3, a) == s3;
  }

  /** With the configured address in hand, a start advertises the room. */
  lemma {:induction false} StartAdvertises(site: Site, w: World, d: Draft, uid: Uid, a: Answers)
    requires w.row.Some? && w.cluster.service.Some? && w.cluster.service.value.address == Assigned(site.lbIp)
    ensures var t := Finish(site, State(w, LookService(d, uid)), a);
            && t.call == Resting && t.world.now == w.now && t.world.reserved == w.reserved
                && t.world.cluster == w.cluster
            && t.world.row == Some(w.row.value.(state := Starting, stateChangedAt := w.now, advertised := Some(d.port),
                                                redeployRequestedAt := None))
  {
    var s1 := Perform(site, State(w, LookService(d, uid)), a);
    var s2 := Perform(site, s1, a);
    var s3 := Perform(site, s2, a);
    assert s1.call == Advertise(d, uid) && s2.call == ConsumeRequest(false) && s3.call == Resting;
    assert Finish(site, s1, a) == Finish(site, s2, a) == Finish(site, s3, a) == s3;
  }

  /** With a wrong address, a start withdraws the Deployment and leaves the room idle. */
  lemma {:induction false} StartWithdraws(site: Site, w: World, d: Draft, uid: Uid, a: Answers)
    requires w.row.Some? && w.cluster.service.Some? && w.cluster.service.value.address.Assigned?
    requires w.cluster.service.value.address != Assigned(site.lbIp)
    ensures var t := Finish(site, State(w, LookService(d, uid)), a);
            && t.call == Resting && t.world.now == w.now && t.world.cluster == AcceptDelete(w).cluster
            && t.world.row == Some(ClearedRow(w.row.value, w.now))
  {
    var s1 := Perform(site, State(w, LookService(d, uid)), a);
    var s2 := Perform(site, s1, a);
    var s3 := Perform(site, s2, a);
    assert s1.call == Withdraw(d, WrongAddress) && s2.call == QuarantinePair(d, WrongAddress)
           && s3.call == Forget(None);
    assert Finish(site, s1, a) == Finish(site, s2, a) == Finish(site, s3, a);
    FinishForget(site, s3.world, a);
  }

  /** With a refused address, a start withdraws the Deployment and fails the room with a time to retry. */
  lemma {:induction false} StartRefused(site: Site, w: World, d: Draft, uid: Uid, a: Answers)
    requires w.row.Some? && w.cluster.service.Some? && w.cluster.service.value.address.Refused? && !a.deleteLost
    requires w.cluster.deployment.Some?
    ensures var t := Finish(site, State(w, LookService(d, uid)), a);
            && t.call == Resting && t.world.now == w.now && t.world.cluster == AcceptDelete(w).cluster
            && t.world.row.Some?
            && var r := t.world.row.value;
               && r.state == Failed && r.retryAfter.Some? && r.desired == w.row.value.desired
  {
    var s1 := Perform(site, State(w, LookService(d, uid)), a);
    var s2 := Perform(site, s1, a);
    assert s1.call.Withdraw?;
    assert Finish(site, State(w, LookService(d, uid)), a) == Finish(site, s1, a) == Finish(site, s2, a);
    if s2.call.QuarantinePair? {
      var s3 := Perform(site, s2, a);
      assert s3.call == FailDelete;
      assert Finish(site, s2, a) == Finish(site, s3, a);
      FinishFail(site, s3.world, a);
    } else {
      FinishFail(site, s2.world, a);
    }
  }

  // ---------------------------------------------------------------- what one pass does, state by state

  /** The stages in which the room waits for the environment, or is up. */
  predicate IsWaiting(stage: nat) {
    stage == 0 || stage == 2 || stage == 4 || stage == 6 || stage == 12 || stage == 14
  }

  /** A pass brings the room closer, or leaves it waiting exactly as it was. */
  ghost predicate Advances(site: Site, spec: Port -> Hash, kind: TickKind, w: World, w': World) {
    var before, after := Stage(site, spec, w), Stage(site, spec, w');
    && w.row.Some? && Recoverable(site, spec, w') && w'.now == w.now
    && after <= before
    && (after == before ==>
          || IsWaiting(before)
          || (before == 15 && kind == Converge && w'.row == w.row && w'.cluster == w.cluster)
          || (w'.row == w.row && before == 13 && w.now - w.row.value.stateChangedAt <= VANISH_GRACE)
          || (w'.row == w.row && (before == 8 || before == 10)
              && if w.row.value.retryAfter.None? then kind == Converge else w.row.value.retryAfter.value > w.now))
    && (w'.row.value.state == Starting ==>
          if w.row.value.state != Starting then w'.row.value.stateChangedAt == w.now && after < before
          else w'.row.value.stateChangedAt == w.row.value.stateChangedAt && w'.cluster == w.cluster && after == before)
  }

  /** An idle room whose Deployment and Service are all in place waits for an address, or has just been given it. */
  lemma {:induction false} WaitingAdvances(site: Site, spec: Port -> Hash, kind: TickKind, w: World, t: World, d: Draft)
    requires Recoverable(site, spec, w) && w.row.value.state == Idle
    requires d.hash == spec(d.port) && (w.reserved.Some? ==> w.reserved.value == d.port)
    requires t.row.Some? && t.row.value.state == Idle && t.row.value.desired == WantRunning
    requires t.now == w.now && t.reserved == Some(d.port) && t.cluster.deployment.Some? && Tidy(t.cluster)
    requires t.cluster.deployment.value.specHash == Some(d.hash) && !t.cluster.deployment.value.deleting
    requires w.cluster.deployment == t.cluster.deployment || w.cluster.deployment.None?
    requires t.cluster.service.Some? && t.cluster.service.value.address.Unanswered?
    requires w.cluster.service.None? || w.cluster.service == t.cluster.service
    ensures Advances(site, spec, kind, w, t)
  {
  }

  /** A room advertised on the configured address is starting. */
  lemma {:induction false} AdvertisedAdvances(site: Site, spec: Port -> Hash, kind: TickKind, w: World, t: World,
        d: Draft)
    requires Recoverable(site, spec, w) && w.row.value.state == Idle && w.cluster.deployment.Some?
    requires d.hash == spec(d.port) && (w.reserved.Some? ==> w.reserved.value == d.port)
    requires t.row.Some? && t.row.value.state == Starting && t.row.value.stateChangedAt == t.now
    requires t.row.value.specHash == Some(d.hash) && t.row.value.redeployRequestedAt.None?
    requires t.row.value.desired == WantRunning
    requires t.now == w.now && t.cluster.deployment == w.cluster.deployment && t.cluster.service == w.cluster.service
    requires w.cluster.deployment.value.specHash == Some(d.hash) && !w.cluster.deployment.value.deleting
    requires w.cluster.service.Some? && w.cluster.service.value.address == Assigned(site.lbIp)
    ensures Advances(site, spec, kind, w, t)
  {
  }

  /** A Deployment withdrawn over its address drains, with the room idle again or failed with a time to retry. */
  lemma {:induction false} WithdrawnAdvances(site: Site, spec: Port -> Hash, kind: TickKind, w: World, t: World)
    requires Recoverable(site, spec, w) && w.row.value.state == Idle && w.cluster.deployment.Some?
    requires !w.cluster.deployment.value.deleting && w.cluster.service.Some?
    requires t.row.Some? && t.row.value.desired == WantRunning
    requires t.now == w.now && t.cluster.deployment == AcceptDelete(w).cluster.deployment
             && t.cluster.service == w.cluster.service
    requires if w.cluster.service.value.address.Refused? then t.row.value.state == Failed
             && t.row.value.retryAfter.Some?
             else && w.cluster.service.value.address.Assigned? && w.cluster.service.value.address != Assigned(site.lbIp)
                  && t.row.value.state == Idle
    ensures Advances(site, spec, kind, w, t)
  {
  }

  /** What a start has once it adopts or creates a Deployment carrying the rendered hash. */
  lemma {:induction false} StartContinues(site: Site, spec: Port -> Hash, kind: TickKind, w: World, w1: World,
        d: Draft, uid: Uid, a: Answers)
    requires Recoverable(site, spec, w) && w.row.value.state == Idle && Cooperative(spec, w, a)
    requires d == Draft(PortFor(w, a), spec(PortFor(w, a)))
    requires w1.row == w.row && w1.now == w.now && w1.reserved == Some(d.port)
             && w1.cluster.service == w.cluster.service
    requires w1.cluster.deployment.Some? && w1.cluster.deployment.value.uid == uid
    requires w1.cluster.deployment.value.specHash == Some(d.hash) && !w1.cluster.deployment.value.deleting
    requires w.cluster.deployment == w1.cluster.deployment || w.cluster.deployment.None?
    ensures Advances(site, spec, kind, w, Finish(site, State(w1, Record(d, uid)), a).world)
  {
    var v := StartRecords(site, w1, d, uid, a);
    var t := Finish(site, State(v, LookService(d, uid)), a).world;
    if v.cluster.service.None? {
      StartExposes(site, v, d, uid, a);
      WaitingAdvances(site, spec, kind, w, t, d);
    } else if v.cluster.service.value.address.Refused? {
      StartRefused(site, v, d, uid, a);
      WithdrawnAdvances(site, spec, kind, w, t);
    } else if v.cluster.service.value.address == Assigned(site.lbIp) {
      StartAdvertises(site, v, d, uid, a);
      AdvertisedAdvances(site, spec, kind, w, t, d);
    } else if v.cluster.service.value.address.Assigned? {
      StartWithdraws(site, v, d, uid, a);
      WithdrawnAdvances(site, spec, kind, w, t);
    } else {
      assert Finish(site, State(v, LookService(d, uid)), a) == State(v, Resting);
      WaitingAdvances(site, spec, kind, w, t, d);
    }
  }

  lemma {:induction false} PassOnIdle(site: Site, spec: Port -> Hash, w: World, kind: TickKind, a: Answers)
    requires Recoverable(site, spec, w) && w.row.value.state == Idle && Cooperative(spec, w, a)
    ensures Advances(site, spec, kind, w, Decide(site, spec, w, kind, a))
  {
    if w.cluster.deployment.Some? && w.cluster.deployment.value.deleting {
      assert Decide(site, spec, w, kind, a) == w;
    } else {
      assert Decide(site, spec, w, kind, a) == Finish(site, State(w, Allocate), a).world;
      StartReachesLook(site, spec, w, a);
      StartAfterLook(site, spec, w, kind, a);
    }
  }

  lemma {:induction false} StartAfterLook(site: Site, spec: Port -> Hash, w: World, kind: TickKind, a: Answers)
    requires Recoverable(site, spec, w) && w.row.value.state == Idle && Cooperative(spec, w, a)
    requires w.cluster.deployment.Some? ==> !w.cluster.deployment.value.deleting
    ensures var p := PortFor(w, a);
            var looked := State(WithSecret(w.(reserved := Some(p)), None), LookDeployment(Draft(p, spec(p))));
            Advances(site, spec, kind, w, Finish(site, looked, a).world)
  {
    var p := PortFor(w, a);
    var d := Draft(p, spec(p));
    var u := WithSecret(w.(reserved := Some(p)), None);
    var looked := Perform(site, State(u, LookDeployment(d)), a);
    assert Finish(site, State(u, LookDeployment(d)), a) == Finish(site, looked, a);
    if w.cluster.deployment.None? {
      var created := Perform(site, looked, a);
      assert Finish(site, looked, a) == Finish(site, created, a);
      StartContinues(site, spec, kind, w, created.world, d, w.cluster.nextUid, a);
    } else if w.cluster.deployment.value.specHash == Some(d.hash) {
      StartContinues(site, spec, kind, w, u, d, w.cluster.deployment.value.uid, a);
    } else {
      StartReplaces(site, spec, w, kind, u, d, a);
    }
  }

  lemma {:induction false} StartReplaces(site: Site, spec: Port -> Hash, w: World, kind: TickKind, u: World,
        d: Draft, a: Answers)
    requires Recoverable(site, spec, w) && w.row.value.state == Idle
    requires u == WithSecret(w.(reserved := Some(d.port)), None) && d.hash == spec(d.port)
    requires w.reserved.Some? ==> w.reserved.value == d.port
    requires w.cluster.deployment.Some? && !w.cluster.deployment.value.deleting
    requires w.cluster.deployment.value.specHash != Some(d.hash)
    ensures Advances(site, spec, kind, w, Finish(site, Perform(site, State(u, LookDeployment(d)), a), a).world)
  {
    var looked := Perform(site, State(u, LookDeployment(d)), a);
    var replaced := Perform(site, looked, a);
    assert looked == State(u, Replace(d)) && replaced == State(AcceptDelete(u), Forget(None));
    assert Finish(site, looked, a) == Finish(site, replaced, a);
    FinishForget(site, replaced.world, a);
  }

  /** A live room whose Deployment is gone is dropped to idle once that is believed. */
  lemma {:induction false} PassOnVanished(site: Site, spec: Port -> Hash, w: World, kind: TickKind, a: Answers)
    requires Recoverable(site, spec, w) && IsLive(w.row.value.state) && w.cluster.deployment.None?
    ensures Advances(site, spec, kind, w, Decide(site, spec, w, kind, a))
  {
    FinishForget(site, w, a);
  }

  lemma {:induction false} RecreatedAdvances(site: Site, spec: Port -> Hash, w: World, kind: TickKind, t: World)
    requires Recoverable(site, spec, w) && IsLive(w.row.value.state) && w.cluster.deployment.Some?
    requires w.row.value.redeployRequestedAt.Some? || w.cluster.deployment.value.specHash != w.row.value.specHash
    requires t.row == Some(ClearedRow(w.row.value, w.now).(redeployRequestedAt := None))
    requires t.now == w.now && t.cluster == AcceptDelete(w).cluster
    ensures Advances(site, spec, kind, w, t)
  {
  }

  lemma {:induction false} StaleIsRecreated(site: Site, spec: Port -> Hash, w: World, kind: TickKind, a: Answers)
    requires Recoverable(site, spec, w) && !ReapDue(site, w) && IsLive(w.row.value.state) && w.cluster.deployment.Some?
    requires w.row.value.redeployRequestedAt.Some? || w.cluster.deployment.value.specHash != w.row.value.specHash
    ensures Decide(site, spec, w, kind, a)
            == if kind == Converge then w
               else Finish(site, State(w, RecreateDelete(w.row.value.redeployRequestedAt.Some?)), a).world
  {
    assert StepFor(View(w.row.value, w.now, Wanted(spec, w, kind)), w.cluster.deployment, w.now,
             site.idleTimeout) == Some(Recreate);
  }

  lemma {:induction false} LeftStaleAdvances(site: Site, spec: Port -> Hash, w: World)
    requires Recoverable(site, spec, w) && IsLive(w.row.value.state) && w.cluster.deployment.Some?
    requires w.row.value.redeployRequestedAt.Some? || w.cluster.deployment.value.specHash != w.row.value.specHash
    ensures Advances(site, spec, Converge, w, w)
  {
  }

  /** A live room asked to restart, or off its recorded spec, is recreated by the next full pass. */
  lemma {:induction false} PassOnStale(site: Site, spec: Port -> Hash, w: World, kind: TickKind, a: Answers)
    requires Recoverable(site, spec, w) && !ReapDue(site, w) && IsLive(w.row.value.state) && w.cluster.deployment.Some?
    requires w.row.value.redeployRequestedAt.Some? || w.cluster.deployment.value.specHash != w.row.value.specHash
    ensures Advances(site, spec, kind, w, Decide(site, spec, w, kind, a))
  {
    StaleIsRecreated(site, spec, w, kind, a);
    if kind == Converge {
      LeftStaleAdvances(site, spec, w);
    } else {
      var asked := w.row.value.redeployRequestedAt.Some?;
      FinishRecreate(site, w, asked, a);
      RecreatedAdvances(site, spec, w, kind, Finish(site, State(w, RecreateDelete(asked)), a).world);
    }
  }

  /** A step that only rewrites the live room's row, run from the planner's decision to its end. */
  lemma {:induction false} PassIsOneStatement(site: Site, spec: Port -> Hash, w: World, kind: TickKind, step: Step,
        a: Answers)
    requires w.row.Some?
    requires StepFor(View(w.row.value, w.now, Wanted(spec, w, kind)), w.cluster.deployment, w.now,
               site.idleTimeout) == Some(step)
    requires step == MarkRunning || (step == NotReady && kind == Reconcile) || step == MarkDegraded
    ensures var w' := Decide(site, spec, w, kind, a);
            && w'.cluster == w.cluster && w'.reserved == w.reserved && w'.now == w.now && w'.row.Some?
            && var r := w.row.value;
               w'.row.value == if step == MarkRunning then RunningRow(r, w.now)
                               else if step == NotReady then r.(notReadySweeps := r.notReadySweeps + 1)
                               else r.(state := Degraded, stateChangedAt := w.now,
                                       notReadySweeps := r.notReadySweeps + 1)
  {
    var s := State(w, FirstCall(step, w.row.value, w, kind));
    FinishOne(site, s, a);
  }

  ghost predicate IsCurrent(w: World) {
    && w.row.Some? && IsLive(w.row.value.state) && w.cluster.deployment.Some?
    && w.row.value.redeployRequestedAt.None? && w.cluster.deployment.value.specHash == w.row.value.specHash
  }

  /** A live room on its recorded spec with a ready replica is up, or is marked so. */
  lemma {:induction false} PassOnReady(site: Site, spec: Port -> Hash, w: World, kind: TickKind, a: Answers)
    requires Recoverable(site, spec, w) && !ReapDue(site, w)
    requires IsCurrent(w) && w.cluster.deployment.value.readyReplicas >= 1
    ensures Advances(site, spec, kind, w, Decide(site, spec, w, kind, a))
  {
    var r := w.row.value;
    if r.state == Running && r.notReadySweeps == 0 {
      assert StepFor(View(r, w.now, Wanted(spec, w, kind)), w.cluster.deployment, w.now, site.idleTimeout) == None;
    } else {
      PassIsOneStatement(site, spec, w, kind, MarkRunning, a);
    }
  }

  lemma {:induction false} PassOnFaltering(site: Site, spec: Port -> Hash, w: World, kind: TickKind, a: Answers)
    requires Recoverable(site, spec, w) && !ReapDue(site, w)
    requires IsCurrent(w) && w.cluster.deployment.value.readyReplicas == 0
    requires w.row.value.state == Running
    ensures Advances(site, spec, kind, w, Decide(site, spec, w, kind, a))
  {
    var step := if w.row.value.notReadySweeps + 1 >= DEGRADED_SWEEPS then MarkDegraded else NotReady;
    if step == MarkDegraded || kind == Reconcile {
      PassIsOneStatement(site, spec, w, kind, step, a);
    } else {
      assert Decide(site, spec, w, kind, a) == w;
    }
  }

  lemma {:induction false} OverdueIsFailed(site: Site, spec: Port -> Hash, w: World, kind: TickKind, a: Answers)
    requires IsCurrent(w) && w.cluster.deployment.value.readyReplicas == 0 && w.row.value.desired == WantRunning
    requires w.row.value.state == Starting && w.now - w.row.value.stateChangedAt > START_DEADLINE
    ensures Decide(site, spec, w, kind, a) == Finish(site, State(w, FailDelete), a).world
  {
    assert StepFor(View(w.row.value, w.now, Wanted(spec, w, kind)), w.cluster.deployment, w.now,
             site.idleTimeout) == Some(FailStart);
  }

  lemma {:induction false} PassOnOverdue(site: Site, spec: Port -> Hash, w: World, kind: TickKind, a: Answers)
    requires Recoverable(site, spec, w) && !a.deleteLost
    requires IsCurrent(w) && w.cluster.deployment.value.readyReplicas == 0
    requires w.row.value.state == Starting && w.now - w.row.value.stateChangedAt > START_DEADLINE
    ensures Advances(site, spec, kind, w, Decide(site, spec, w, kind, a))
  {
    OverdueIsFailed(site, spec, w, kind, a);
    FinishFail(site, w, a);
    OverdueIsLate(site, spec, w);
    GivenUp(site, spec, w, kind, Finish(site, State(w, FailDelete), a).world);
  }

  lemma {:induction false} OverdueIsLate(site: Site, spec: Port -> Hash, w: World)
    requires IsCurrent(w) && w.cluster.deployment.value.readyReplicas == 0
    requires w.row.value.state == Starting && w.now - w.row.value.stateChangedAt > START_DEADLINE
    ensures Stage(site, spec, w) == 15 || Stage(site, spec, w) == 14
  {
  }

  /** A start given up on leaves a failed room with a time to retry and its Deployment on the way out. */
  lemma {:induction false} GivenUp(site: Site, spec: Port -> Hash, w: World, kind: TickKind, w': World)
    requires Recoverable(site, spec, w) && w.cluster.deployment.Some? && (Stage(site, spec, w) == 15
             || Stage(site, spec, w) == 14)
    requires w'.now == w.now && w'.cluster == AcceptDelete(w).cluster && w'.row.Some?
    requires w'.row.value.state == Failed && w'.row.value.retryAfter.Some?
    requires w'.row.value.desired == w.row.value.desired
    ensures Advances(site, spec, kind, w, w')
  {
  }

  lemma {:induction false} PassOnUnready(site: Site, spec: Port -> Hash, w: World, kind: TickKind, a: Answers)
    requires Recoverable(site, spec, w) && !ReapDue(site, w) && IsCurrent(w)
             && w.cluster.deployment.value.readyReplicas == 0 && !a.deleteLost
    ensures Advances(site, spec, kind, w, Decide(site, spec, w, kind, a))
  {
    if w.row.value.state == Running {
      PassOnFaltering(site, spec, w, kind, a);
    } else if w.row.value.state == Starting && w.now - w.row.value.stateChangedAt > START_DEADLINE {
      PassOnOverdue(site, spec, w, kind, a);
    } else {
      assert Decide(site, spec, w, kind, a) == w;
    }
  }

  lemma {:induction false} PassOnLive(site: Site, spec: Port -> Hash, w: World, kind: TickKind, a: Answers)
    requires Recoverable(site, spec, w) && !ReapDue(site, w) && IsLive(w.row.value.state) && !a.deleteLost
    ensures Advances(site, spec, kind, w, Decide(site, spec, w, kind, a))
  {
    var c := w.cluster.deployment;
    if c.None? {
      PassOnVanished(site, spec, w, kind, a);
    } else if w.row.value.redeployRequestedAt.Some? || c.value.specHash != w.row.value.specHash {
      PassOnStale(site, spec, w, kind, a);
    } else if c.value.readyReplicas >= 1 {
      PassOnReady(site, spec, w, kind, a);
    } else {
      PassOnUnready(site, spec, w, kind, a);
    }
  }

  lemma {:induction false} PassOnFailed(site: Site, spec: Port -> Hash, w: World, kind: TickKind, a: Answers)
    requires Recoverable(site, spec, w) && w.row.value.state == Failed
    ensures Advances(site, spec, kind, w, Decide(site, spec, w, kind, a))
  {
    var step := StepFor(View(w.row.value, w.now, Wanted(spec, w, kind)), w.cluster.deployment, w.now, site.idleTimeout);
    if step == Some(Retry) {
      FinishOne(site, State(w, RetryMark), a);
      assert Decide(site, spec, w, kind, a) == Perform(site, State(w, RetryMark), a).world;
    } else {
      assert Decide(site, spec, w, kind, a) == w;
    }
  }

  lemma {:induction false} PassOnStopped(site: Site, spec: Port -> Hash, w: World, kind: TickKind, a: Answers)
    requires Recoverable(site, spec, w) && w.row.value.state == Stopping && w.cluster.deployment.None?
    ensures Advances(site, spec, kind, w, Decide(site, spec, w, kind, a))
  {
    assert Decide(site, spec, w, kind, a) == Finish(site, State(w, Forget(None)), a).world;
    FinishForget(site, w, a);
  }

  /** A stop that has not finished is asked for again once it is overdue; either way the room keeps stopping. */
  lemma {:induction false} DrainingIsStoppedOrLeft(site: Site, spec: Port -> Hash, w: World, kind: TickKind, a: Answers)
    requires w.row.Some? && w.row.value.desired == WantRunning && w.row.value.state == Stopping
             && w.cluster.deployment.Some?
    ensures Decide(site, spec, w, kind, a)
            == if w.now - w.row.value.stateChangedAt > STOP_DEADLINE then Finish(site, State(w, StopDelete), a).world
               else w
  {
  }

  lemma {:induction false} StoppingStays(site: Site, spec: Port -> Hash, w: World, kind: TickKind, t: World)
    requires Recoverable(site, spec, w) && w.row.value.state == Stopping && w.cluster.deployment.Some?
    requires t.now == w.now && t.cluster == w.cluster && t.row.Some? && t.row.value.state == Stopping
    requires t.row.value.desired == WantRunning
    ensures Advances(site, spec, kind, w, t)
  {
  }

  lemma {:induction false} PassOnDraining(site: Site, spec: Port -> Hash, w: World, kind: TickKind, a: Answers)
    requires Recoverable(site, spec, w) && w.row.value.state == Stopping && w.cluster.deployment.Some?
    ensures Advances(site, spec, kind, w, Decide(site, spec, w, kind, a))
  {
    DrainingIsStoppedOrLeft(site, spec, w, kind, a);
    FinishStop(site, w, a);
    StoppingStays(site, spec, w, kind, Decide(site, spec, w, kind, a));
  }

  lemma {:induction false} PassOnProvisioning(site: Site, spec: Port -> Hash, w: World, kind: TickKind, a: Answers)
    requires Recoverable(site, spec, w) && w.row.value.state == Provisioning
    ensures Advances(site, spec, kind, w, Decide(site, spec, w, kind, a))
  {
    FinishOne(site, State(w, ProvisionClaim), a);
    assert Decide(site, spec, w, kind, a) == Perform(site, State(w, ProvisionClaim), a).world;
  }

  lemma {:induction false} DecideAdvances(site: Site, spec: Port -> Hash, w: World, kind: TickKind, a: Answers)
    requires Recoverable(site, spec, w) && !ReapDue(site, w) && Cooperative(spec, w, a)
    ensures Advances(site, spec, kind, w, Decide(site, spec, w, kind, a))
  {
    if w.row.value.state == Idle {
      PassOnIdle(site, spec, w, kind, a);
    } else if IsLive(w.row.value.state) {
      PassOnLive(site, spec, w, kind, a);
    } else if w.row.value.state == Failed {
      PassOnFailed(site, spec, w, kind, a);
    } else if w.row.value.state == Stopping {
      if w.cluster.deployment.None? {
        PassOnStopped(site, spec, w, kind, a);
      } else {
        PassOnDraining(site, spec, w, kind, a);
      }
    } else {
      PassOnProvisioning(site, spec, w, kind, a);
    }
  }

  /** Which pass it is decides nothing about the room. */
  lemma {:induction false} CountingIsNothing(site: Site, spec: Port -> Hash, w: World, kind: TickKind, w': World)
    requires Advances(site, spec, kind, w.(pass := w.pass + 1), w')
    ensures Advances(site, spec, kind, w, w')
  {
  }

  lemma {:induction false} PassAdvances(site: Site, spec: Port -> Hash, w: World, kind: TickKind, a: Answers)
    requires Recoverable(site, spec, w) && !ReapDue(site, w) && Cooperative(spec, w, a)
    ensures Advances(site, spec, kind, w, Pass(site, spec, w, kind, a))
  {
    DecideAdvances(site, spec, w.(pass := w.pass + 1), kind, a);
    CountingIsNothing(site, spec, w, kind, Pass(site, spec, w, kind, a));
  }

  // ---------------------------------------------------------------- one round

  /** The same row but for what is known of the room's activity. */
  predicate SameButHeard(a: Row, b: Row) {
    b == a.(probedAt := b.probedAt, probeIsHttps := b.probeIsHttps, lastCheckAt := b.lastCheckAt)
  }

  /** Time and what it brings never take the room further away, and what it waited for brings it closer. */
  ghost predicate IsNoFurther(site: Site, spec: Port -> Hash, c: Chase, elapsed: nat, w: World) {
    && Recoverable(site, spec, w) && c.world.row.Some? && SameButHeard(c.world.row.value, w.row.value)
    && w.now == c.world.now + elapsed
    && Stage(site, spec, w) <= Stage(site, spec, c.world)
    && (c.due <= elapsed && IsWaiting(Stage(site, spec, c.world)) && Stage(site, spec, c.world) != 0 ==>
          Stage(site, spec, w) < Stage(site, spec, c.world))
    && (c.due > elapsed ==> w.cluster == c.world.cluster && Stage(site, spec, w) == Stage(site, spec, c.world))
    && (c.due <= elapsed && IsLive(w.row.value.state) ==> HasNothingToAwait(w.cluster))
  }

  lemma {:induction false} WaitingIsNoFurther(site: Site, spec: Port -> Hash, c: Chase, elapsed: nat)
    requires Recoverable(site, spec, c.world) && Punctual(c) && c.due > elapsed
    ensures IsNoFurther(site, spec, c, elapsed, Later(site, c, elapsed))
  {
  }

  lemma {:induction false} DeliveryIsNoFurther(site: Site, spec: Port -> Hash, c: Chase, elapsed: nat)
    requires Recoverable(site, spec, c.world) && Punctual(c) && c.due <= elapsed
    ensures IsNoFurther(site, spec, c, elapsed, Later(site, c, elapsed))
  {
    if OwedTo(c.world.cluster) == ADrain {
      assert Later(site, c, elapsed).cluster.deployment.None?;
    }
  }

  /** What is heard of a room does not change how far it is from up. */
  lemma {:induction false} ProbesMoveNothing(site: Site, spec: Port -> Hash, c: Chase, t: Turn)
    requires IsNoFurther(site, spec, c, t.elapsed, Later(site, c, t.elapsed))
    ensures IsNoFurther(site, spec, c, t.elapsed, Found(site, c, t))
  {
    var u, w := Later(site, c, t.elapsed), Found(site, c, t);
    assert w.cluster == u.cluster && w.reserved == u.reserved && w.now == u.now;
    assert SameButHeard(u.row.value, w.row.value);
    assert Stage(site, spec, w) == Stage(site, spec, u);
  }

  lemma {:induction false} FoundIsNoFurther(site: Site, spec: Port -> Hash, c: Chase, t: Turn)
    requires Recoverable(site, spec, c.world) && Punctual(c)
    ensures IsNoFurther(site, spec, c, t.elapsed, Found(site, c, t))
  {
    if c.due > t.elapsed {
      WaitingIsNoFurther(site, spec, c, t.elapsed);
    } else {
      DeliveryIsNoFurther(site, spec, c, t.elapsed);
    }
    ProbesMoveNothing(site, spec, c, t);
  }

  /** No ready pod is still to come: one is there, or its Deployment is gone or going. */
  predicate HasNothingToAwait(c: Cluster) {
    c.deployment.Some? && !c.deployment.value.deleting ==> c.deployment.value.readyReplicas > 0
  }

  lemma {:induction false} RoundIsPunctual(site: Site, spec: Port -> Hash, c: Chase, t: Turn)
    requires Recoverable(site, spec, c.world) && Punctual(c)
    requires Advances(site, spec, t.kind, Found(site, c, t), Round(site, spec, c, t).world)
    ensures Punctual(Round(site, spec, c, t))
  {
    var w, next := Found(site, c, t), Round(site, spec, c, t);
    FoundIsNoFurther(site, spec, c, t);
    if next.world.row.value.state == Starting && w.row.value.state == Starting && c.due > t.elapsed {
      assert next.due == c.due - t.elapsed;
    }
  }

  /**
   Every round that finds no reap due lowers the rank, except that a convergence pass may leave a recreate to the
   next full one.
   */
  lemma {:induction false} RoundLowers(site: Site, spec: Port -> Hash, c: Chase, t: Turn)
    requires Recoverable(site, spec, c.world) && Punctual(c) && t.elapsed > 0 && !ReapDue(site, Found(site, c, t))
    ensures var next := Round(site, spec, c, t);
            && Recoverable(site, spec, next.world) && Punctual(next)
            && if Stage(site, spec, c.world) == 0 then Stage(site, spec, next.world) == 0
               else Lower(site, spec, c, next)
                    || (t.kind == Converge && Stage(site, spec, next.world) == Stage(site, spec, c.world)
                        && Left(site, spec, next) == Left(site, spec, c))
  {
    var w := Found(site, c, t);
    FoundIsNoFurther(site, spec, c, t);
    PassAdvances(site, spec, w, t.kind, Replies(spec, w, t));
    RoundIsPunctual(site, spec, c, t);
  }

  // ---------------------------------------------------------------- rounds are runs of the machine

  function Repeat(l: Label, n: nat): (ls: seq<Label>)
    ensures |ls| == n
  {
    if n == 0 then [] else [l] + Repeat(l, n - 1)
  }

  lemma {:induction false} RunConcat(site: Site, s: State, first: seq<Label>, second: seq<Label>)
    ensures Run(site, s, first + second) == Run(site, Run(site, s, first), second)
    decreases |first|
  {
    if first == [] {
      assert first + second == second;
    } else {
      assert (first + second)[1..] == first[1..] + second;
      RunConcat(site, Next(site, s, first[0]), first[1..], second);
    }
  }

  /** A step finishes within as many calls as it has remaining. */
  lemma {:induction false} FinishIsARun(site: Site, s: State, a: Answers, n: nat)
    requires n >= Remaining(s.call)
    ensures Run(site, s, Repeat(Do(a), n)) == Finish(site, s, a)
    ensures Finish(site, s, a).call == Resting
    decreases n
  {
    if n > 0 {
      var t := Perform(site, s, a);
      OneCallFewer(site, s, a);
      FinishIsARun(site, t, a, n - 1);
      assert Repeat(Do(a), n)[1..] == Repeat(Do(a), n - 1);
      assert Next(site, s, Do(a)) == t;
    }
  }

  lemma {:induction false} OneCallFewer(site: Site, s: State, a: Answers)
    ensures var t := Perform(site, s, a);
            && (if s.call == Resting then t == s else Remaining(t.call) < Remaining(s.call))
            && Finish(site, s, a) == Finish(site, t, a)
  {
  }

  /** The clock, a delivery if one falls due, and a probe if there was one. */
  function Waiting(site: Site, c: Chase, t: Turn): seq<Label> {
    [Tick(t.elapsed),
     if c.due > t.elapsed then Tick(0)
     else match OwedTo(c.world.cluster)
          case Nothing => Tick(0)
          case ADrain => Drain
          case AnAddress => Answer(Assigned(site.lbIp))
          case APod => Ready(1),
     if t.heard.None? then Tick(0) else Probe(t.heard.value.https, t.heard.value.lastCheckAt)]
  }

  /** A plan from a fresh reading, and the calls of whatever it chose. */
  function Passing(spec: Port -> Hash, w: World, t: Turn): seq<Label> {
    [Plan(t.kind, w.cluster.deployment, Wanted(spec, w, t.kind))] + Repeat(Do(Replies(spec, w, t)), 16)
  }

  lemma {:induction false} WaitingIsARun(site: Site, c: Chase, t: Turn)
    ensures Run(site, State(c.world, Resting), Waiting(site, c, t)) == State(Found(site, c, t), Resting)
  {
    var l := Waiting(site, c, t);
    var s1 := Next(site, State(c.world, Resting), l[0]);
    var s2 := Next(site, s1, l[1]);
    var s3 := Next(site, s2, l[2]);
    assert s1 == State(c.world.(now := c.world.now + t.elapsed), Resting);
    assert s3 == State(Found(site, c, t), Resting);
    assert l[1..][1..][1..] == [];
    assert Run(site, State(c.world, Resting), l) == Run(site, s1, l[1..]) == Run(site, s2, l[1..][1..])
           == Run(site, s3, l[1..][1..][1..]);
  }

  /** The call a pass over this room starts with, if it starts anything. */
  function Chosen(site: Site, spec: Port -> Hash, w: World, kind: TickKind): Call {
    if w.row.None? then Resting
    else
      var step := StepFor(View(w.row.value, w.now, Wanted(spec, w, kind)), w.cluster.deployment, w.now,
            site.idleTimeout);
      if step.None? || (kind == Converge && step.value.IsPaced()) then Resting
      else FirstCall(step.value, w.row.value, w, kind)
  }

  lemma {:induction false} DecideRunsTheChosen(site: Site, spec: Port -> Hash, w: World, kind: TickKind, a: Answers)
    ensures Decide(site, spec, w, kind, a) == Finish(site, State(w, Chosen(site, spec, w, kind)), a).world
  {
  }

  /** Planning writes nothing but the pass it belongs to. */
  lemma {:induction false} PlanChooses(site: Site, spec: Port -> Hash, w: World, kind: TickKind)
    ensures Next(site, State(w, Resting), Plan(kind, w.cluster.deployment, Wanted(spec, w, kind)))
            == State(Begun(w), Chosen(site, spec, Begun(w), kind))
  {
  }

  lemma {:induction false} PassRunsTheChosen(site: Site, spec: Port -> Hash, w: World, kind: TickKind, a: Answers)
    ensures Finish(site, State(Begun(w), Chosen(site, spec, Begun(w), kind)), a).world == Pass(site, spec, w, kind, a)
  {
    DecideRunsTheChosen(site, spec, Begun(w), kind, a);
  }

  lemma {:induction false} PassIsARun(site: Site, spec: Port -> Hash, w: World, t: Turn)
    ensures Run(site, State(w, Resting), Passing(spec, w, t))
            == State(Pass(site, spec, w, t.kind, Replies(spec, w, t)), Resting)
  {
    var a, l := Replies(spec, w, t), Passing(spec, w, t);
    var s := State(Begun(w), Chosen(site, spec, Begun(w), t.kind));
    PlanChooses(site, spec, w, t.kind);
    assert Next(site, State(w, Resting), l[0]) == s && l[1..] == Repeat(Do(a), 16);
    FinishIsARun(site, s, a, 16);
    PassRunsTheChosen(site, spec, w, t.kind, a);
  }

  /**
   What `Round` computes is a run of the machine: the clock, a delivery, a plan from a fresh reading, and its
   calls.
   */
  lemma {:induction false} RoundIsARun(site: Site, spec: Port -> Hash, c: Chase, t: Turn)
    ensures Run(site, State(c.world, Resting), Waiting(site, c, t) + Passing(spec, Found(site, c, t), t))
            == State(Round(site, spec, c, t).world, Resting)
  {
    RunConcat(site, State(c.world, Resting), Waiting(site, c, t), Passing(spec, Found(site, c, t), t));
    WaitingIsARun(site, c, t);
    PassIsARun(site, spec, Found(site, c, t), t);
  }
}
