/**
 What every run keeps about each column of the room's row: which event it was last written by, and what may change
 it. The pair a room is advertised on is the pair it holds, and the one its Service is published on.
 */
module Columns {
  import opened Rooms
  import opened Planner
  import opened Protocol
  import opened Ownership
  import opened RowLaws
  import opened Trails

  // ---------------------------------------------------------------- columns the trail tells

  /** The uid last recorded, if it has not been cleared since. */
  function RecordedUid(trail: seq<Event>): Option<Uid> {
    if trail == [] then None
    else
      match trail[|trail| - 1]
      case Recorded(uid) => Some(uid)
      case Cleared => None
      case _ => RecordedUid(trail[..|trail| - 1])
  }

  /** How often the room was found not ready since it last came up or was cleared. */
  function Sweeps(trail: seq<Event>): nat {
    if trail == [] then 0
    else
      match trail[|trail| - 1]
      case WentUp(_) | Cleared => 0
      case CountedNotReady(_, _) | WasDegraded(_) => Sweeps(trail[..|trail| - 1]) + 1
      case _ => Sweeps(trail[..|trail| - 1])
  }

  /** The time last scheduled for a retry. */
  function RetryTime(trail: seq<Event>): Option<Time> {
    if trail == [] then None
    else if trail[|trail| - 1].Scheduled? then Some(trail[|trail| - 1].retryAt)
    else RetryTime(trail[..|trail| - 1])
  }

  /** The row's columns, against what has happened to it. */
  ghost predicate RowTells(r: Row, trail: seq<Event>) {
    && r.deploymentUid == RecordedUid(trail) && (r.specHash.Some? <==> r.deploymentUid.Some?)
    && r.notReadySweeps == Sweeps(trail)
    && (r.retryAfter.Some? ==> r.retryAfter == RetryTime(trail))
    && (r.provisionedAt.None? ==> r.state.Provisioning? || r.state.Deleting?)
  }

  ghost predicate Told(s: State) {
    s.world.row.Some? ==>
      && RowTells(s.world.row.value, s.world.trail)
      && (s.call.Forget? ==>
            var state := s.world.row.value.state; state.Idle? || IsLive(state) || state.Stopping?)
  }

  lemma {:induction false} ColumnsGrow(trail: seq<Event>, e: Event)
    ensures RecordedUid(trail + [e]) == match e
                                        case Recorded(uid) => Some(uid)
                                        case Cleared => None
                                        case _ => RecordedUid(trail)
    ensures Sweeps(trail + [e]) == match e
                                   case WentUp(_) | Cleared => 0
                                   case CountedNotReady(_, _) | WasDegraded(_) => Sweeps(trail) + 1
                                   case _ => Sweeps(trail)
    ensures RetryTime(trail + [e]) == if e.Scheduled? then Some(e.retryAt) else RetryTime(trail)
  {
    var longer := trail + [e];
    assert longer[..|longer| - 1] == trail;
  }

  lemma {:induction false} RecordingTells(site: Site, s: State, a: Answers)
    requires Told(s) && Lawful(site, s) && s.call.Record?
    ensures Told(DoStart(site, s.world, s.call, a))
  {
    ColumnsGrow(s.world.trail, Recorded(s.call.uid));
  }

  /** The rest of a start leaves alone what the trail tells. */
  lemma {:induction false} StartsLeaveColumns(site: Site, s: State, a: Answers)
    requires s.world.row.Some? && IsStartCall(s.call) && !s.call.Record?
    ensures var t := DoStart(site, s.world, s.call, a);
            && t.world.row.Some?
            && (|t.world.trail| > |s.world.trail| ==> !t.world.trail[|s.world.trail|].Recorded?)
            && var r, r' := s.world.row.value, t.world.row.value;
               && r' == r.(state := r'.state, stateChangedAt := r'.stateChangedAt, advertised := r'.advertised)
               && (r'.state == r.state || r'.state == Starting) && (t.call.Forget? ==> r'.state == r.state)
  {
  }

  lemma {:induction false} StartsTell(site: Site, s: State, a: Answers)
    requires Told(s) && Lawful(site, s) && IsStartCall(s.call) && s.world.row.Some?
    ensures Told(DoStart(site, s.world, s.call, a))
  {
    if s.call.Record? {
      RecordingTells(site, s, a);
    } else {
      StartsLeaveColumns(site, s, a);
      if DoStart(site, s.world, s.call, a).world.trail != s.world.trail {
        var e := StartsNoteOneEvent(site, s, a);
        assert DoStart(site, s.world, s.call, a).world.trail[|s.world.trail|] == e;
        ColumnsGrow(s.world.trail, e);
      }
    }
  }

  lemma {:induction false} OthersNoteOneEvent(site: Site, s: State, a: Answers) returns (e: Event)
    requires !IsStartCall(s.call) && DoOther(site, s.world, s.call, a).world.trail != s.world.trail
    ensures DoOther(site, s.world, s.call, a).world.trail == s.world.trail + [e]
  {
    e := DoOther(site, s.world, s.call, a).world.trail[|s.world.trail|];
  }

  /** The statements nothing is noted of. */
  predicate IsQuiet(call: Call) {
    call.ProvisionClaim? || call == ConsumeRequest(false) || call.StopMark? || call.RetryMark? || call.MarkDeleting?
  }

  lemma {:induction false} QuietStatementsTell(site: Site, s: State, a: Answers)
    requires Told(s) && Lawful(site, s) && IsQuiet(s.call)
    ensures Told(DoOther(site, s.world, s.call, a))
  {
  }

  /** A statement that is noted, and what the row tells after it. */
  lemma {:induction false} NotedStatementsTell(site: Site, s: State, a: Answers, e: Event)
    requires Told(s) && Lawful(site, s) && IsStatement(s.call) && !IsQuiet(s.call) && s.world.row.Some?
    requires DoOther(site, s.world, s.call, a).world.trail == s.world.trail + [e]
    ensures Told(DoOther(site, s.world, s.call, a))
  {
    ColumnsGrow(s.world.trail, e);
    var w, t := s.world, DoOther(site, s.world, s.call, a);
    match s.call
    case Forget(next) => assert e == Cleared && t.world.row == Some(ClearedRow(w.row.value, w.now));
    case FailRecord => assert e == FailedOnce;
    case FailSchedule(failures) => assert e.Scheduled?;
    case RaiseRunning => assert e.WentUp?;
    case CountNotReady(pass, kind) => assert e.CountedNotReady?;
    case Degrade(pass) => assert e.WasDegraded?;
    case _ =>
  }

  lemma {:induction false} StatementsTell(site: Site, s: State, a: Answers)
    requires Told(s) && Lawful(site, s) && IsStatement(s.call) && s.world.row.Some?
    ensures Told(DoOther(site, s.world, s.call, a))
  {
    var trail := DoOther(site, s.world, s.call, a).world.trail;
    if IsQuiet(s.call) {
      QuietStatementsTell(site, s, a);
    } else if trail != s.world.trail {
      var e := OthersNoteOneEvent(site, s, a);
      NotedStatementsTell(site, s, a, e);
    }
  }

  /** A row that is gone stays gone. */
  lemma {:induction false} RowlessIsTold(site: Site, s: State, a: Answers)
    requires s.world.row.None?
    ensures Told(Perform(site, s, a))
  {
    if IsStartCall(s.call) {
      assert DoStart(site, s.world, s.call, a).world.row.None?;
    } else {
      assert DoOther(site, s.world, s.call, a).world.row.None?;
    }
  }

  lemma {:induction false} ClusterCallsTell(site: Site, s: State, a: Answers)
    requires Told(s) && Lawful(site, s) && !IsStartCall(s.call) && !IsStatement(s.call)
    ensures Told(DoOther(site, s.world, s.call, a))
  {
  }

  lemma {:induction false} EnvironmentTells(site: Site, s: State, l: Label)
    requires Told(s)
    ensures Told(State(Environment(s, l), s.call))
  {
    ColumnsGrow(s.world.trail, RedeployAsked);
  }

  lemma {:induction false} NextTells(site: Site, s: State, l: Label)
    requires Told(s) && Lawful(site, s)
    ensures Told(Next(site, s, l))
  {
    match l
    case Plan(kind, seen, wanted) =>
    case Do(a) =>
      if s.world.row.None? { RowlessIsTold(site, s, a); }
      else if IsStartCall(s.call) { StartsTell(site, s, a); }
      else if IsStatement(s.call) { StatementsTell(site, s, a); }
      else { ClusterCallsTell(site, s, a); }
    case FatalError =>
    case Interrupt => ColumnsGrow(s.world.trail, Interrupted);
    case _ => EnvironmentTells(site, s, l);
  }

  lemma {:induction false} RunsTell(site: Site, s: State, labels: seq<Label>)
    requires Told(s) && Lawful(site, s)
    ensures Told(Run(site, s, labels))
    decreases |labels|
  {
    if labels != [] {
      NextTells(site, s, labels[0]);
      NextKeepsLawful(site, s, labels[0]);
      RunsTell(site, Next(site, s, labels[0]), labels[1..]);
    }
  }

  /**
   Over every run: the uid on the row is the one last recorded unless it has been cleared since, and the hash is there
   exactly with it; the sweeps are those counted since the room came up or was cleared; a time to retry is the one last
   scheduled; and only a room still being provisioned, or deleted, has no time it was provisioned at.
   */
  lemma {:induction false} EveryRowTells(site: Site, s: State, labels: seq<Label>)
    requires IsNewRoom(s)
    ensures Told(Run(site, s, labels))
  {
    RunsTell(site, s, labels);
  }

  // ---------------------------------------------------------------- what may change a column

  /** One transition of the room's row and its pair, whatever it was. */
  ghost predicate Moves(s: State, t: State) {
    s.world.row.Some? && t.world.row.Some? ==>
      var r, r' := s.world.row.value, t.world.row.value;
      && (r'.state != r.state ==> r'.stateChangedAt == s.world.now)
      && (r'.stateChangedAt != r.stateChangedAt ==> r'.stateChangedAt == s.world.now)
      && (r'.provisionedAt != r.provisionedAt ==> r.provisionedAt.None? && r'.provisionedAt == Some(s.world.now))
      && (t.world.reserved != s.world.reserved ==> s.world.reserved.None? || t.world.reserved.None?)
      && (s.call.ProvisionClaim? && r'.state != r.state ==> r.state.Provisioning?)
      && (s.call.RetryMark? && r'.state != r.state ==> r.state.Failed?)
  }

  lemma {:induction false} StartsMove(site: Site, s: State, a: Answers)
    requires IsStartCall(s.call)
    ensures Moves(s, DoStart(site, s.world, s.call, a))
  {
  }

  lemma {:induction false} StatementsMove(site: Site, s: State, a: Answers)
    requires IsStatement(s.call)
    ensures Moves(s, DoOther(site, s.world, s.call, a))
  {
    var w' := DoOther(site, s.world, s.call, a).world;
    assert w'.reserved == s.world.reserved;
  }

  lemma {:induction false} ClusterCallsMove(site: Site, s: State, a: Answers)
    requires !IsStartCall(s.call) && !IsStatement(s.call)
    ensures Moves(s, DoOther(site, s.world, s.call, a))
  {
  }

  /**
   Every deadline is counted from the last change of state: whatever happens, a row whose state changes is stamped
   with the time, and no other time is ever stamped. The time a room was provisioned at is written once, and a pair is
   never exchanged for another without being given up.
   */
  lemma {:induction false} EveryMoveIsStamped(site: Site, s: State, l: Label)
    ensures Moves(s, Next(site, s, l))
  {
    if l.Do? {
      if IsStartCall(s.call) { StartsMove(site, s, l.answers); }
      else if IsStatement(s.call) { StatementsMove(site, s, l.answers); }
      else { ClusterCallsMove(site, s, l.answers); }
    }
  }

  lemma {:induction false} StatementsLeaveWishes(site: Site, s: State, a: Answers)
    requires s.world.row.Some? && !IsStartCall(s.call)
    ensures var t := DoOther(site, s.world, s.call, a);
            t.world.row.Some? && t.world.row.value.desired != s.world.row.value.desired ==>
              s.call.ReapMark? && s.world.row.value.desired == WantRunning && t.world.row.value.desired == WantStopped
  {
  }

  lemma {:induction false} StartsLeaveWishes(site: Site, s: State, a: Answers)
    requires s.world.row.Some? && IsStartCall(s.call)
    ensures var t := DoStart(site, s.world, s.call, a);
            t.world.row.Some? && t.world.row.value.desired == s.world.row.value.desired
  {
  }

  /** Nobody's wish is overwritten: what is wanted changes when it is asked to, or from running to stopped by a reap. */
  lemma {:induction false} WishesStand(site: Site, s: State, l: Label)
    requires s.world.row.Some? && Next(site, s, l).world.row.Some?
    ensures var was, now := s.world.row.value.desired, Next(site, s, l).world.row.value.desired;
            now != was ==> l == Ask(now) || (s.call.ReapMark? && was == WantRunning && now == WantStopped)
  {
    if l.Do? {
      if IsStartCall(s.call) { StartsLeaveWishes(site, s, l.answers); }
      else { StatementsLeaveWishes(site, s, l.answers); }
    }
  }

  // ---------------------------------------------------------------- the pair

  /** What a start is about to apply tells the port it was rendered against, and that is the port held. */
  ghost predicate DraftTells(portOf: Hash -> Port, w: World, d: Draft) {
    portOf(d.hash) == d.port && w.reserved == Some(d.port)
  }

  ghost predicate CallTells(portOf: Hash -> Port, w: World, call: Call) {
    match call
    case Render(port) => w.reserved == Some(port)
    case ApplySecret(d) => DraftTells(portOf, w, d)
    case LookDeployment(d) => DraftTells(portOf, w, d)
    case CreateDeployment(d) => DraftTells(portOf, w, d)
    case RereadDeployment(d) => DraftTells(portOf, w, d)
    case Record(d, _) => DraftTells(portOf, w, d)
    case OwnSecret(d, _) => DraftTells(portOf, w, d)
    case LookService(d, _) => DraftTells(portOf, w, d)
    case Expose(d, _) => DraftTells(portOf, w, d)
    case ReadService(d, _) => DraftTells(portOf, w, d)
    case Advertise(d, _) => DraftTells(portOf, w, d)
    case _ => true
  }

  /** A Service is published on the port its Deployment's hash tells. */
  ghost predicate ServiceTells(portOf: Hash -> Port, c: Cluster) {
    c.service.Some? && c.deployment.Some? ==>
      c.deployment.value.specHash.Some? && portOf(c.deployment.value.specHash.value) == c.service.value.basePort
  }

  /** A live room is advertised on the pair it holds, and any room on the one its Service is published on. */
  ghost predicate IsServedThere(w: World) {
    w.row.Some? ==>
      var r := w.row.value;
      && (IsLive(r.state) ==> r.advertised.Some? && r.advertised == w.reserved)
      && (r.advertised.Some? && w.cluster.service.Some? ==> w.cluster.service.value.basePort == r.advertised.value)
  }

  ghost predicate Published(portOf: Hash -> Port, s: State) {
    CallTells(portOf, s.world, s.call) && ServiceTells(portOf, s.world.cluster) && IsServedThere(s.world)
  }

  /** A rendering against a port has a hash that tells the port. */
  ghost predicate RendersTellingly(portOf: Hash -> Port, s: State, l: Label) {
    l.Do? && s.call.Render? && l.answers.rendering.Rendered? ==> portOf(l.answers.rendering.hash) == s.call.port
  }

  ghost predicate AllRenderTellingly(site: Site, portOf: Hash -> Port, s: State, labels: seq<Label>)
    decreases |labels|
  {
    labels != [] ==>
      RendersTellingly(portOf, s, labels[0]) && AllRenderTellingly(site, portOf, Next(site, s, labels[0]), labels[1..])
  }

  lemma {:induction false} StartsPublish(site: Site, portOf: Hash -> Port, s: State, a: Answers)
    requires Published(portOf, s) && Lawful(site, s) && Owned(site, s) && IsStartCall(s.call)
    requires RendersTellingly(portOf, s, Do(a))
    ensures Published(portOf, DoStart(site, s.world, s.call, a))
  {
  }

  lemma {:induction false} StatementsPublish(site: Site, portOf: Hash -> Port, s: State, a: Answers)
    requires Published(portOf, s) && Lawful(site, s) && IsStatement(s.call)
    ensures Published(portOf, DoOther(site, s.world, s.call, a))
  {
    var w' := DoOther(site, s.world, s.call, a).world;
    assert w'.cluster == s.world.cluster && w'.reserved == s.world.reserved;
  }

  lemma {:induction false} ClusterCallsPublish(site: Site, portOf: Hash -> Port, s: State, a: Answers)
    requires Published(portOf, s) && Owned(site, s) && !IsStartCall(s.call) && !IsStatement(s.call)
    ensures Published(portOf, DoOther(site, s.world, s.call, a))
  {
  }

  lemma {:induction false} EnvironmentPublishes(site: Site, portOf: Hash -> Port, s: State, l: Label)
    requires Published(portOf, s) && Owned(site, s)
    ensures Published(portOf, State(Environment(s, l), s.call))
  {
  }

  lemma {:induction false} PlansPublish(site: Site, portOf: Hash -> Port, s: State, kind: TickKind,
        seen: Option<Deployment>, wanted: Option<Hash>)
    requires Published(portOf, s)
    ensures Published(portOf, PlanNext(site, s, kind, seen, wanted))
  {
    var t := PlanNext(site, s, kind, seen, wanted);
    assert t.world == s.world || t.world == s.world.(pass := s.world.pass + 1);
  }

  lemma {:induction false} NextPublishes(site: Site, portOf: Hash -> Port, s: State, l: Label)
    requires Published(portOf, s) && Lawful(site, s) && Owned(site, s) && RendersTellingly(portOf, s, l)
    ensures Published(portOf, Next(site, s, l))
  {
    match l
    case Plan(kind, seen, wanted) => PlansPublish(site, portOf, s, kind, seen, wanted);
    case Do(a) =>
      if IsStartCall(s.call) { StartsPublish(site, portOf, s, a); }
      else if IsStatement(s.call) { StatementsPublish(site, portOf, s, a); }
      else { ClusterCallsPublish(site, portOf, s, a); }
    case FatalError =>
    case Interrupt =>
    case _ => EnvironmentPublishes(site, portOf, s, l);
  }

  lemma {:induction false} RunsPublish(site: Site, portOf: Hash -> Port, s: State, labels: seq<Label>)
    requires Published(portOf, s) && Lawful(site, s) && Owned(site, s)
    requires AllRenderTellingly(site, portOf, s, labels)
    ensures Published(portOf, Run(site, s, labels))
    decreases |labels|
  {
    if labels != [] {
      NextPublishes(site, portOf, s, labels[0]);
      NextKeepsLawful(site, s, labels[0]);
      NextKeepsOwned(site, s, labels[0]);
      RunsPublish(site, portOf, Next(site, s, labels[0]), labels[1..]);
    }
  }

  /**
   However often the spec changes, as long as the hash of a rendering tells the port it was rendered against: in every
   run a live room is advertised on the pair it holds, and a room advertised with a Service in place is advertised on
   the very port that Service is published on.
   */
  lemma {:induction false} AdvertisedIsPublished(site: Site, portOf: Hash -> Port, s: State, labels: seq<Label>)
    requires IsNewRoom(s) && AllRenderTellingly(site, portOf, s, labels)
    ensures IsServedThere(Run(site, s, labels).world)
  {
    RunsPublish(site, portOf, s, labels);
  }
}
