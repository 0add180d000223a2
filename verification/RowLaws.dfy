/**
 What every run keeps about the room's row: what it may advertise, and what its state implies.
 */
module RowLaws {
  import opened Rooms
  import opened Planner
  import opened Protocol
  import opened Ownership

  predicate IsLive(state: RoomState) {
    state.Starting? || state.Running? || state.Degraded?
  }

  /** What each state of a room says about the other columns. */
  ghost predicate RowFits(r: Row) {
    && (r.state.Provisioning? || r.state.Idle? || r.state.Failed? ==> r.advertised.None? && r.startedAt.None?)
    && (IsLive(r.state) || r.state.Stopping? ==> r.deploymentUid.Some? && r.specHash.Some? && r.advertised.Some?)
    && (r.state.Starting? ==> r.startedAt.None?)
    && (r.state.Running? || r.state.Degraded? ==> r.startedAt.Some?)
  }

  /** While a room advertises, its Service, if there is one, answers on the configured address. */
  ghost predicate AdvertisesTruly(site: Site, w: World) {
    w.row.Some? && w.row.value.advertised.Some? && w.cluster.service.Some? ==>
      w.cluster.service.value.address == Assigned(site.lbIp)
  }

  /** The states a room may be in while each call is in flight. */
  ghost predicate CallMatchesRow(r: Row, call: Call) {
    if IsStartCall(call) then r.state == Idle
    else
      match call
      case FailDelete | FailRecord => r.state.Idle? || r.state.Starting?
      case FailSchedule(_) => r.state.Failed?
      case RecreateDelete(_) | RaiseRunning => IsLive(r.state)
      case CountNotReady(_, _) | Degrade(_) | ReapMark(_) => r.state.Running?
      case StopDelete | StopMark => IsLive(r.state) || r.state.Stopping?
      case RetryMark => r.state.Failed?
      case _ => true
  }

  ghost predicate Lawful(site: Site, s: State) {
    && AdvertisesTruly(site, s.world)
    && (s.world.row.Some? ==> RowFits(s.world.row.value) && CallMatchesRow(s.world.row.value, s.call))
    && (match s.call
        case OwnSecret(d, uid) => HasRecord(s.world)
        case LookService(d, uid) => HasRecord(s.world)
        case Expose(d, uid) => HasRecord(s.world)
        case ReadService(d, uid) => HasRecord(s.world)
        case Advertise(d, uid) =>
          HasRecord(s.world)
          && (s.world.cluster.service.Some? ==> s.world.cluster.service.value.address == Assigned(site.lbIp))
        case _ => true)
  }

  ghost predicate HasRecord(w: World) {
    w.row.Some? ==> w.row.value.deploymentUid.Some? && w.row.value.specHash.Some?
  }

  lemma {:induction false} StartKeepsLawful(site: Site, s: State, a: Answers)
    requires Lawful(site, s) && IsStartCall(s.call)
    ensures Lawful(site, DoStart(site, s.world, s.call, a))
  {
  }

  /** The calls that touch only the row. */
  predicate IsStatement(call: Call) {
    || call.ProvisionClaim? || call.Forget? || call.ConsumeRequest? || call.FailRecord? || call.FailSchedule?
    || call.RaiseRunning? || call.CountNotReady? || call.Degrade? || call.StopMark? || call.RetryMark?
    || call.ReapMark? || call.MarkDeleting?
  }

  lemma {:induction false} StatementsKeepLawful(site: Site, s: State, a: Answers)
    requires Lawful(site, s) && IsStatement(s.call)
    ensures Lawful(site, DoOther(site, s.world, s.call, a))
  {
    var w' := DoOther(site, s.world, s.call, a).world;
    assert w'.cluster == s.world.cluster;
    if s.world.row.Some? {
      assert RowFits(w'.row.value);
    }
  }

  lemma {:induction false} ClusterCallsKeepLawful(site: Site, s: State, a: Answers)
    requires Lawful(site, s) && !IsStartCall(s.call) && !IsStatement(s.call)
    ensures Lawful(site, DoOther(site, s.world, s.call, a))
  {
  }

  lemma {:induction false} OtherKeepsLawful(site: Site, s: State, a: Answers)
    requires Lawful(site, s) && !IsStartCall(s.call)
    ensures Lawful(site, DoOther(site, s.world, s.call, a))
  {
    if IsStatement(s.call) { StatementsKeepLawful(site, s, a); } else { ClusterCallsKeepLawful(site, s, a); }
  }

  lemma {:induction false} EnvironmentKeepsLawful(site: Site, s: State, l: Label)
    requires Lawful(site, s)
    ensures Lawful(site, State(Environment(s, l), s.call))
  {
  }

  /** The step planned from a lawful row starts with a call that row may be in. */
  lemma {:induction false} PlannedCallMatches(site: Site, w: World, kind: TickKind, seen: Option<Deployment>,
        wanted: Option<Hash>)
    requires w.row.Some?
    ensures var step := StepFor(View(w.row.value, w.now, wanted), seen, w.now, site.idleTimeout);
            step.Some? ==> CallMatchesRow(w.row.value, FirstCall(step.value, w.row.value, w, kind))
  {
  }

  lemma {:induction false} PlanKeepsLawful(site: Site, s: State, kind: TickKind, seen: Option<Deployment>,
        wanted: Option<Hash>)
    requires Lawful(site, s)
    ensures Lawful(site, PlanNext(site, s, kind, seen, wanted))
  {
    var t := PlanNext(site, s, kind, seen, wanted);
    if t != s {
      assert t.world == s.world.(pass := s.world.pass + 1);
      PlannedCallMatches(site, t.world, kind, seen, wanted);
    }
  }

  lemma {:induction false} NextKeepsLawful(site: Site, s: State, l: Label)
    requires Lawful(site, s)
    ensures Lawful(site, Next(site, s, l))
  {
    match l
    case Plan(kind, seen, wanted) => PlanKeepsLawful(site, s, kind, seen, wanted);
    case Do(a) =>
      if IsStartCall(s.call) { StartKeepsLawful(site, s, a); } else { OtherKeepsLawful(site, s, a); }
    case FatalError =>
    case Interrupt =>
    case _ => EnvironmentKeepsLawful(site, s, l);
  }

  /** Every run, whatever crashes, stale snapshots and requests it meets, keeps the row lawful. */
  lemma {:induction false} RunsKeepLawful(site: Site, s: State, labels: seq<Label>)
    requires Lawful(site, s)
    ensures Lawful(site, Run(site, s, labels))
    decreases |labels|
  {
    if labels != [] {
      NextKeepsLawful(site, s, labels[0]);
      RunsKeepLawful(site, Next(site, s, labels[0]), labels[1..]);
    }
  }

  /** The row invariant, from a new room through any run at all. */
  lemma {:induction false} EveryRowIsLawful(site: Site, s: State, labels: seq<Label>)
    requires IsNewRoom(s)
    ensures var w := Run(site, s, labels).world;
            && AdvertisesTruly(site, w)
            && (w.row.Some? ==> RowFits(w.row.value))
  {
    RunsKeepLawful(site, s, labels);
  }

  /** A stopping room's Deployment, if it is still there, is on its way out. */
  ghost predicate StopsDrain(s: State) {
    s.world.row.Some? && s.world.row.value.state.Stopping? && s.world.cluster.deployment.Some? ==>
      s.world.cluster.deployment.value.deleting
  }

  lemma {:induction false} CallsKeepStopsDrain(site: Site, s: State, a: Answers)
    requires StopsDrain(s) && Lawful(site, s) && Owned(site, s)
    ensures StopsDrain(Perform(site, s, a))
  {
  }

  lemma {:induction false} NextKeepsStopsDrain(site: Site, s: State, l: Label)
    requires StopsDrain(s) && Lawful(site, s) && Owned(site, s)
    ensures StopsDrain(Next(site, s, l))
  {
    if l.Do? { CallsKeepStopsDrain(site, s, l.answers); }
  }

  lemma {:induction false} RunsKeepStopsDrain(site: Site, s: State, labels: seq<Label>)
    requires StopsDrain(s) && Lawful(site, s) && Owned(site, s)
    ensures StopsDrain(Run(site, s, labels))
    decreases |labels|
  {
    if labels != [] {
      NextKeepsStopsDrain(site, s, labels[0]);
      NextKeepsLawful(site, s, labels[0]);
      NextKeepsOwned(site, s, labels[0]);
      RunsKeepStopsDrain(site, Next(site, s, labels[0]), labels[1..]);
    }
  }
}
