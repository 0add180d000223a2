/**
 Whole-run claims about pacing: what the trail of a run says about the reaper, about a room called
 degraded, about redeploy requests and about failures.

 Each claim reads one column of the row as a summary of the trail, shows that every transition
 keeps the two equal, and then argues about trails alone.
 */
module Trails {
  import opened Rooms
  import opened Planner
  import opened Protocol
  import opened RowLaws
  import opened Backoff

  // ---------------------------------------------------------------- summaries of a trail

  /** When the room last came up, if its Deployment has not been cleared since. */
  function UpSince(trail: seq<Event>): Option<Time> {
    if trail == [] then None
    else
      var before := UpSince(trail[..|trail| - 1]);
      match trail[|trail| - 1]
      case Cleared => None
      case WentUp(at) => if before.Some? then before else Some(at)
      case _ => before
  }

  /** The passes that counted the room not ready since it last came up or was cleared. */
  function Counted(trail: seq<Event>): seq<nat> {
    if trail == [] then []
    else
      var before := Counted(trail[..|trail| - 1]);
      match trail[|trail| - 1]
      case Cleared | WentUp(_) => []
      case CountedNotReady(pass, _) => before + [pass]
      case _ => before
  }

  /** Failures since the room last came up. */
  function Failures(trail: seq<Event>): nat {
    if trail == [] then 0
    else
      var before := Failures(trail[..|trail| - 1]);
      match trail[|trail| - 1]
      case WentUp(_) => 0
      case FailedOnce => before + 1
      case _ => before
  }

  function Asked(trail: seq<Event>): nat {
    if trail == [] then 0
    else Asked(trail[..|trail| - 1]) + if trail[|trail| - 1] == RedeployAsked then 1 else 0
  }

  function Honoured(trail: seq<Event>): nat {
    if trail == [] then 0
    else Honoured(trail[..|trail| - 1]) + if trail[|trail| - 1] == Redeployed then 1 else 0
  }

  predicate AllBelow(passes: seq<nat>, bound: nat) {
    forall i :: 0 <= i < |passes| ==> passes[i] < bound
  }

  // ---------------------------------------------------------------- what each event was allowed to do

  /** The last event of a trail, against everything before it. */
  ghost predicate EventFits(site: Site, before: seq<Event>, e: Event) {
    match e
    case Reaped(plannedAt) => UpSince(before).Some? && plannedAt - UpSince(before).value > site.idleTimeout
    case CountedNotReady(pass, kind) => kind == Reconcile && AllBelow(Counted(before), pass)
    case WasDegraded(pass) => |Counted(before)| + 1 >= DEGRADED_SWEEPS
    case Scheduled(at, failures, retryAt) =>
      failures == Failures(before) && retryAt == at + RetryDelay(failures, site.lastByte)
    case _ => true
  }

  ghost predicate EventFitsAt(site: Site, trail: seq<Event>, j: nat)
    requires j < |trail|
  {
    EventFits(site, trail[..j], trail[j])
  }

  ghost predicate TrailFits(site: Site, trail: seq<Event>) {
    forall j :: 0 <= j < |trail| ==> EventFitsAt(site, trail, j)
  }

  lemma {:induction false} TrailGrows(site: Site, trail: seq<Event>, e: Event)
    requires TrailFits(site, trail) && EventFits(site, trail, e)
    ensures TrailFits(site, trail + [e])
  {
    var longer := trail + [e];
    forall j | 0 <= j < |longer|
      ensures EventFitsAt(site, longer, j)
    {
      if j < |trail| {
        assert EventFitsAt(site, trail, j);
        assert longer[..j] == trail[..j];
      } else {
        assert longer[..j] == trail;
      }
    }
  }

  // ---------------------------------------------------------------- the row is the summary

  /** The row's columns are the trail's summaries. */
  ghost predicate RowSummarizes(r: Row, trail: seq<Event>) {
    && r.startedAt == UpSince(trail)
    && r.failureCount == Failures(trail)
    && (r.state.Running? ==> r.notReadySweeps == |Counted(trail)|)
    && Honoured(trail) + (if r.redeployRequestedAt.Some? then 1 else 0) <= Asked(trail)
  }

  /** What the call in flight knows about the row it was planned from. */
  ghost predicate CallKnows(site: Site, w: World, r: Row, call: Call) {
    match call
    case ReapMark(plannedAt) => r.startedAt.Some? && plannedAt - r.startedAt.value > site.idleTimeout
    case CountNotReady(pass, kind) => kind == Reconcile && pass == w.pass && AllBelow(Counted(w.trail), pass)
    case Degrade(pass) => r.notReadySweeps + 1 >= DEGRADED_SWEEPS
    case FailSchedule(failures) => failures == r.failureCount
    case RecreateDelete(asked) => asked ==> r.redeployRequestedAt.Some?
    case Forget(next) => next == Some(true) ==> r.redeployRequestedAt.Some?
    case ConsumeRequest(redeployed) => redeployed ==> r.redeployRequestedAt.Some?
    case _ => true
  }

  /** Everything a run keeps for the claims below. */
  ghost predicate Faithful(site: Site, s: State) {
    && TrailFits(site, s.world.trail)
    && AllBelow(Counted(s.world.trail), s.world.pass + 1)
    && Honoured(s.world.trail) <= Asked(s.world.trail)
    && (s.world.row.None? ==> s.call == Resting)
    && (s.world.row.Some? ==>
          && RowSummarizes(s.world.row.value, s.world.trail)
          && CallKnows(site, s.world, s.world.row.value, s.call))
  }

  /** One event further, each summary is the old one with that event applied. */
  lemma {:induction false} SummariesGrow(trail: seq<Event>, e: Event)
    ensures UpSince(trail + [e]) ==
            if e.Cleared? then None else if e.WentUp? && UpSince(trail).None? then Some(e.at) else UpSince(trail)
    ensures Counted(trail + [e]) ==
            if e.Cleared? || e.WentUp? then []
            else if e.CountedNotReady? then Counted(trail) + [e.pass] else Counted(trail)
    ensures Failures(trail + [e]) ==
            if e.WentUp? then 0 else if e.FailedOnce? then Failures(trail) + 1 else Failures(trail)
    ensures Asked(trail + [e]) == Asked(trail) + (if e == RedeployAsked then 1 else 0)
    ensures Honoured(trail + [e]) == Honoured(trail) + (if e == Redeployed then 1 else 0)
  {
    var longer := trail + [e];
    assert longer[..|longer| - 1] == trail;
  }

  /** The row and the call in flight agree with the trail; nothing about how the trail came to be. */
  ghost predicate Current(site: Site, s: State) {
    && s.world.row.Some?
    && CallMatchesRow(s.world.row.value, s.call)
    && RowSummarizes(s.world.row.value, s.world.trail)
    && CallKnows(site, s.world, s.world.row.value, s.call)
  }

  lemma {:induction false} QuietStatementsStayCurrent(site: Site, s: State, a: Answers)
    requires Current(site, s) && IsStatement(s.call)
    requires DoOther(site, s.world, s.call, a).world.trail == s.world.trail
    ensures var t := DoOther(site, s.world, s.call, a);
            && (t.world.row.None? ==> t.call == Resting)
            && (t.world.row.Some? ==>
                  && RowSummarizes(t.world.row.value, t.world.trail)
                  && CallKnows(site, t.world, t.world.row.value, t.call))
            && t.world.pass == s.world.pass
  {
  }

  lemma {:induction false} ClusterCallsStayCurrent(site: Site, s: State, a: Answers)
    requires Current(site, s) && !IsStartCall(s.call) && !IsStatement(s.call)
    requires DoOther(site, s.world, s.call, a).world.trail == s.world.trail
    ensures var t := DoOther(site, s.world, s.call, a);
            && (t.world.row.None? ==> t.call == Resting)
            && (t.world.row.Some? ==>
                  && RowSummarizes(t.world.row.value, t.world.trail)
                  && CallKnows(site, t.world, t.world.row.value, t.call))
            && t.world.pass == s.world.pass
  {
  }

  lemma {:induction false} QuietCallsStayCurrent(site: Site, s: State, a: Answers)
    requires Current(site, s) && !IsStartCall(s.call)
    requires DoOther(site, s.world, s.call, a).world.trail == s.world.trail
    ensures var t := DoOther(site, s.world, s.call, a);
            && (t.world.row.None? ==> t.call == Resting)
            && (t.world.row.Some? ==>
                  && RowSummarizes(t.world.row.value, t.world.trail)
                  && CallKnows(site, t.world, t.world.row.value, t.call))
            && t.world.pass == s.world.pass
  {
    if IsStatement(s.call) { QuietStatementsStayCurrent(site, s, a); } else { ClusterCallsStayCurrent(site, s, a); }
  }

  /** What a call that notes an event leaves, having noted it. */
  ghost predicate NotesCurrently(site: Site, w: World, t: State, e: Event) {
    && t.world.trail == w.trail + [e] && EventFits(site, w.trail, e)
    && t.world.row.Some?
    && RowSummarizes(t.world.row.value, t.world.trail)
    && CallKnows(site, t.world, t.world.row.value, t.call)
    && t.world.pass == w.pass && (e.CountedNotReady? ==> e.pass == w.pass)
  }

  lemma {:induction false} NotedFailuresStayCurrent(site: Site, s: State, a: Answers, e: Event)
    requires Current(site, s) && (s.call.FailRecord? || s.call.FailSchedule?)
    requires var t := DoOther(site, s.world, s.call, a).world;
             t.trail != s.world.trail && e == t.trail[|s.world.trail|]
    ensures NotesCurrently(site, s.world, DoOther(site, s.world, s.call, a), e)
  {
    SummariesGrow(s.world.trail, e);
  }

  lemma {:induction false} NotedSweepsStayCurrent(site: Site, s: State, a: Answers, e: Event)
    requires Current(site, s) && (s.call.CountNotReady? || s.call.Degrade?)
    requires var t := DoOther(site, s.world, s.call, a).world;
             t.trail != s.world.trail && e == t.trail[|s.world.trail|]
    ensures NotesCurrently(site, s.world, DoOther(site, s.world, s.call, a), e)
  {
    SummariesGrow(s.world.trail, e);
  }

  predicate IsFailureOrSweep(call: Call) {
    call.FailRecord? || call.FailSchedule? || call.CountNotReady? || call.Degrade?
  }

  lemma {:induction false} NotedStatementsStayCurrent(site: Site, s: State, a: Answers, e: Event)
    requires Current(site, s) && !IsStartCall(s.call) && !IsFailureOrSweep(s.call)
    requires var t := DoOther(site, s.world, s.call, a).world;
             t.trail != s.world.trail && e == t.trail[|s.world.trail|]
    ensures NotesCurrently(site, s.world, DoOther(site, s.world, s.call, a), e)
  {
    SummariesGrow(s.world.trail, e);
  }

  lemma {:induction false} NotedCallsStayCurrent(site: Site, s: State, a: Answers, e: Event)
    requires Current(site, s) && !IsStartCall(s.call)
    requires var t := DoOther(site, s.world, s.call, a).world;
             t.trail != s.world.trail && e == t.trail[|s.world.trail|]
    ensures NotesCurrently(site, s.world, DoOther(site, s.world, s.call, a), e)
  {
    if s.call.FailRecord? || s.call.FailSchedule? {
      NotedFailuresStayCurrent(site, s, a, e);
    } else if s.call.CountNotReady? || s.call.Degrade? {
      NotedSweepsStayCurrent(site, s, a, e);
    } else {
      NotedStatementsStayCurrent(site, s, a, e);
    }
  }

  /** Having noted one event that fits, the row still the summary of the longer trail. */
  lemma {:induction false} NotingKeepsFaithful(site: Site, s: State, t: State, e: Event)
    requires Faithful(site, s) && NotesCurrently(site, s.world, t, e)
    ensures Faithful(site, t)
  {
    SummariesGrow(s.world.trail, e);
    TrailGrows(site, s.world.trail, e);
  }

  /** A call planned from nothing the trail says. */
  predicate KnowsNothing(call: Call) {
    IsStartCall(call) || call == Resting || call == FailDelete || call == Forget(None) || call == ConsumeRequest(false)
  }

  /** A start touches none of the columns the trail is summed up in. */
  lemma {:induction false} StartsLeaveSummaries(site: Site, s: State, a: Answers)
    requires s.world.row.Some? && IsStartCall(s.call)
    ensures var t := DoStart(site, s.world, s.call, a);
            && t.world.row.Some? && t.world.pass == s.world.pass && KnowsNothing(t.call)
            && var r, r' := s.world.row.value, t.world.row.value;
               && r'.startedAt == r.startedAt && r'.failureCount == r.failureCount
                   && r'.notReadySweeps == r.notReadySweeps
               && r'.redeployRequestedAt == r.redeployRequestedAt && (r'.state.Running? ==> r.state.Running?)
  {
  }

  /** A start notes a recording, an exposure, a refusal or a wrong address, one at a time. */
  lemma {:induction false} StartsNoteOneEvent(site: Site, s: State, a: Answers) returns (e: Event)
    requires IsStartCall(s.call) && DoStart(site, s.world, s.call, a).world.trail != s.world.trail
    ensures DoStart(site, s.world, s.call, a).world.trail == s.world.trail + [e]
    ensures e.Recorded? || e.Exposed? || e.Misallocated? || e == Quarantined(s.world.now)
    ensures e.Quarantined? ==>
              var t := DoStart(site, s.world, s.call, a); t.call == FailDelete && t.world.reserved.None?
  {
    e := DoStart(site, s.world, s.call, a).world.trail[|s.world.trail|];
  }

  lemma {:induction false} StartKeepsFaithful(site: Site, s: State, a: Answers)
    requires Faithful(site, s) && IsStartCall(s.call)
    ensures Faithful(site, DoStart(site, s.world, s.call, a))
  {
    StartsLeaveSummaries(site, s, a);
    if DoStart(site, s.world, s.call, a).world.trail != s.world.trail {
      var e := StartsNoteOneEvent(site, s, a);
      SummariesGrow(s.world.trail, e);
      TrailGrows(site, s.world.trail, e);
    }
  }

  lemma {:induction false} OtherKeepsFaithful(site: Site, s: State, a: Answers)
    requires Faithful(site, s) && Lawful(site, s) && !IsStartCall(s.call)
    ensures Faithful(site, DoOther(site, s.world, s.call, a))
  {
    if s.call != Resting {
      if DoOther(site, s.world, s.call, a).world.trail == s.world.trail {
        QuietCallsStayCurrent(site, s, a);
      } else {
        var e := DoOther(site, s.world, s.call, a).world.trail[|s.world.trail|];
        NotedCallsStayCurrent(site, s, a, e);
        NotingKeepsFaithful(site, s, DoOther(site, s.world, s.call, a), e);
      }
    }
  }

  /** What a planned step says about the row it was planned from. */
  lemma {:induction false} PlannedCallKnows(site: Site, w: World, kind: TickKind, seen: Option<Deployment>,
        wanted: Option<Hash>)
    requires w.row.Some? && RowFits(w.row.value) && AllBelow(Counted(w.trail), w.pass)
    requires var step := StepFor(View(w.row.value, w.now, wanted), seen, w.now, site.idleTimeout);
             step.Some? && !(kind == Converge && step.value.IsPaced())
    ensures var step := StepFor(View(w.row.value, w.now, wanted), seen, w.now, site.idleTimeout);
            CallKnows(site, w, w.row.value, FirstCall(step.value, w.row.value, w, kind))
  {
  }

  lemma {:induction false} PlanKeepsFaithful(site: Site, s: State, kind: TickKind, seen: Option<Deployment>,
        wanted: Option<Hash>)
    requires Faithful(site, s) && Lawful(site, s)
    ensures Faithful(site, PlanNext(site, s, kind, seen, wanted))
  {
    var t := PlanNext(site, s, kind, seen, wanted);
    if t.call != s.call {
      var w := s.world.(pass := s.world.pass + 1);
      PlannedCallKnows(site, w, kind, seen, wanted);
      assert t.world == w;
    }
  }

  lemma {:induction false} EnvironmentKeepsFaithful(site: Site, s: State, l: Label)
    requires Faithful(site, s)
    ensures Faithful(site, State(Environment(s, l), s.call))
  {
    SummariesGrow(s.world.trail, RedeployAsked);
    TrailGrows(site, s.world.trail, RedeployAsked);
  }

  lemma {:induction false} NextKeepsFaithful(site: Site, s: State, l: Label)
    requires Faithful(site, s) && Lawful(site, s)
    ensures Faithful(site, Next(site, s, l))
  {
    match l
    case Plan(kind, seen, wanted) => PlanKeepsFaithful(site, s, kind, seen, wanted);
    case Do(a) =>
      if IsStartCall(s.call) { StartKeepsFaithful(site, s, a); } else { OtherKeepsFaithful(site, s, a); }
    case FatalError =>
    case Interrupt =>
      SummariesGrow(s.world.trail, Interrupted);
      TrailGrows(site, s.world.trail, Interrupted);
    case _ => EnvironmentKeepsFaithful(site, s, l);
  }

  lemma {:induction false} RunsKeepFaithful(site: Site, s: State, labels: seq<Label>)
    requires Faithful(site, s) && Lawful(site, s)
    ensures Faithful(site, Run(site, s, labels))
    decreases |labels|
  {
    if labels != [] {
      NextKeepsFaithful(site, s, labels[0]);
      NextKeepsLawful(site, s, labels[0]);
      RunsKeepFaithful(site, Next(site, s, labels[0]), labels[1..]);
    }
  }

  lemma {:induction false} NewRoomsAreFaithful(site: Site, s: State)
    requires IsNewRoom(s)
    ensures Faithful(site, s) && Lawful(site, s)
  {
  }

  // ---------------------------------------------------------------- the reaper

  predicate Older(t: Option<Time>, now: Time, age: int) {
    t.Some? ==> now - t.value > age
  }

  /** Exactly when the planner reaps a room. */
  lemma {:induction false} ReapIff(row: Row, seen: Option<Deployment>, now: Time, wanted: Option<Hash>,
        idleTimeout: int)
    ensures StepFor(View(row, now, wanted), seen, now, idleTimeout) == Some(Reap) <==>
            && row.state == Running && row.desired == WantRunning && seen.Some? && row.redeployRequestedAt.None?
            && idleTimeout > 0 && !row.pinned
            && row.probedAt.Some? && now - row.probedAt.value <= 300 && row.probeIsHttps
            && (row.lastCheckAt.Some? || row.startedAt.Some?)
            && Older(row.lastCheckAt, now, idleTimeout) && Older(row.startedAt, now, idleTimeout)
  {
  }

  lemma {:induction false} UpSinceHappened(trail: seq<Event>) returns (m: nat)
    requires UpSince(trail).Some?
    ensures m < |trail| && trail[m] == WentUp(UpSince(trail).value)
    ensures forall k :: m <= k < |trail| ==> !trail[k].Cleared?
  {
    var last := |trail| - 1;
    if UpSince(trail[..last]).Some? {
      m := UpSinceHappened(trail[..last]);
      assert forall k :: 0 <= k < last ==> trail[..last][k] == trail[k];
    } else {
      m := last;
    }
  }

  /**
   Once a room's Deployment has been cleared, it is not reaped again until it has been up for longer
   than the timeout since a later event that brought it up, whatever its activity columns still say.
   */
  lemma {:induction false} ReapNeedsUptime(site: Site, s: State, labels: seq<Label>, c: nat, r: nat)
    requires IsNewRoom(s)
    requires var trail := Run(site, s, labels).world.trail; c < r < |trail| && trail[c].Cleared? && trail[r].Reaped?
    ensures var trail := Run(site, s, labels).world.trail;
            exists m :: c < m < r && trail[m].WentUp? && trail[r].plannedAt - trail[m].at > site.idleTimeout
                        && forall k :: m <= k < r ==> !trail[k].Cleared?
  {
    NewRoomsAreFaithful(site, s);
    RunsKeepFaithful(site, s, labels);
    var trail := Run(site, s, labels).world.trail;
    assert EventFitsAt(site, trail, r);
    var m := UpSinceHappened(trail[..r]);
    assert forall k :: 0 <= k < r ==> trail[..r][k] == trail[k];
  }

  // ---------------------------------------------------------------- degraded rooms

  predicate Resets(e: Event) {
    e.Cleared? || e.WentUp?
  }

  lemma {:induction false} LastCounted(trail: seq<Event>) returns (i: nat)
    requires Counted(trail) != []
    ensures i < |trail| && trail[i].CountedNotReady? && trail[i].pass in Counted(trail)
    ensures forall k :: i <= k < |trail| ==> !Resets(trail[k])
  {
    var last := |trail| - 1;
    if trail[last].CountedNotReady? {
      i := last;
      assert Counted(trail)[|Counted(trail)| - 1] == trail[last].pass;
    } else {
      i := LastCounted(trail[..last]);
      assert forall k :: 0 <= k < last ==> trail[..last][k] == trail[k];
    }
  }

  lemma {:induction false} LastTwoCounted(site: Site, trail: seq<Event>) returns (i: nat, j: nat)
    requires TrailFits(site, trail) && |Counted(trail)| >= 2
    ensures i < j < |trail| && trail[i].CountedNotReady? && trail[j].CountedNotReady? && trail[i].pass < trail[j].pass
    ensures forall k :: i <= k < |trail| ==> !Resets(trail[k])
  {
    var last := |trail| - 1;
    var before := trail[..last];
    assert forall k :: 0 <= k < last ==> before[k] == trail[k];
    assert EventFitsAt(site, trail, last);
    if trail[last].CountedNotReady? {
      i := LastCounted(before);
      j := last;
    } else {
      assert TrailFits(site, before) by {
        forall k | 0 <= k < |before| ensures EventFitsAt(site, before, k) {
          assert EventFitsAt(site, trail, k);
          assert before[..k] == trail[..k];
        }
      }
      i, j := LastTwoCounted(site, before);
    }
  }

  lemma {:induction false} FitsSoFar(site: Site, trail: seq<Event>, d: nat)
    requires TrailFits(site, trail) && d <= |trail|
    ensures TrailFits(site, trail[..d])
  {
    forall k | 0 <= k < d ensures EventFitsAt(site, trail[..d], k) {
      assert EventFitsAt(site, trail, k);
      assert trail[..d][..k] == trail[..k];
    }
  }

  /** Two full passes counted the room not ready, one after the other, and nothing since brought it up or cleared it. */
  ghost predicate CountedTwice(trail: seq<Event>, i: nat, j: nat, d: nat) {
    && i < j < d <= |trail|
    && trail[i].CountedNotReady? && trail[i].kind == Reconcile
    && trail[j].CountedNotReady? && trail[j].kind == Reconcile
    && trail[i].pass < trail[j].pass
    && forall k :: i <= k < d ==> !Resets(trail[k])
  }

  lemma {:induction false} DegradedWasCountedTwice(site: Site, trail: seq<Event>, d: nat) returns (i: nat, j: nat)
    requires TrailFits(site, trail) && d < |trail| && trail[d].WasDegraded?
    ensures CountedTwice(trail, i, j, d)
  {
    assert EventFitsAt(site, trail, d);
    FitsSoFar(site, trail, d);
    i, j := LastTwoCounted(site, trail[..d]);
    assert forall k :: 0 <= k < d ==> trail[..d][k] == trail[k];
    assert EventFitsAt(site, trail, i) && EventFitsAt(site, trail, j);
  }

  /**
   A room is called degraded only after two separate full passes counted it not ready, with nothing
   in between having brought it up or cleared it.
   */
  lemma {:induction false} DegradedNeedsTwoFullPasses(site: Site, s: State, labels: seq<Label>, d: nat)
    requires IsNewRoom(s)
    requires var trail := Run(site, s, labels).world.trail; d < |trail| && trail[d].WasDegraded?
    ensures exists i, j :: CountedTwice(Run(site, s, labels).world.trail, i, j, d)
  {
    NewRoomsAreFaithful(site, s);
    RunsKeepFaithful(site, s, labels);
    var i, j := DegradedWasCountedTwice(site, Run(site, s, labels).world.trail, d);
  }

  // ---------------------------------------------------------------- redeploys

  /** Over any run, recreates done for a request never outnumber the requests made. */
  lemma {:induction false} RequestsAreConsumedOnce(site: Site, s: State, labels: seq<Label>)
    requires IsNewRoom(s)
    ensures var w := Run(site, s, labels).world;
            Honoured(w.trail) + (if w.row.Some? && w.row.value.redeployRequestedAt.Some? then 1 else 0)
            <= Asked(w.trail)
  {
    NewRoomsAreFaithful(site, s);
    RunsKeepFaithful(site, s, labels);
  }

  // ---------------------------------------------------------------- backoff

  lemma {:induction false} FailuresPile(trail: seq<Event>, k: nat)
    requires k <= |trail| && forall i :: k <= i < |trail| ==> !trail[i].WentUp?
    ensures Failures(trail[..k]) <= Failures(trail)
    decreases |trail|
  {
    if k < |trail| {
      var last := |trail| - 1;
      FailuresPile(trail[..last], k);
      assert trail[..last][..k] == trail[..k];
    } else {
      assert trail[..k] == trail;
    }
  }

  /**
   Within one stretch without a successful start the recorded waits never shrink, and all lie in 12 to 720
   seconds.
   */
  lemma {:induction false} WaitsNeverShrink(site: Site, s: State, labels: seq<Label>, j: nat, k: nat)
    requires IsNewRoom(s) && site.lastByte <= 255
    requires var trail := Run(site, s, labels).world.trail;
             && j < k < |trail| && trail[j].Scheduled? && trail[k].Scheduled?
             && forall i :: j <= i < k ==> !trail[i].WentUp?
    ensures var trail := Run(site, s, labels).world.trail;
            && 12 <= trail[j].retryAt - trail[j].at <= trail[k].retryAt - trail[k].at <= 720
            && (trail[j].failures >= 7 ==> trail[j].retryAt - trail[j].at == trail[k].retryAt - trail[k].at)
  {
    NewRoomsAreFaithful(site, s);
    RunsKeepFaithful(site, s, labels);
    var trail := Run(site, s, labels).world.trail;
    assert EventFitsAt(site, trail, j) && EventFitsAt(site, trail, k);
    FailuresPile(trail[..k], j);
    assert trail[..k][..j] == trail[..j];
    DelayGrows(trail[j].failures, trail[k].failures, site.lastByte);
    DelayBounds(trail[j].failures, site.lastByte);
    DelayBounds(trail[k].failures, site.lastByte);
  }
}
