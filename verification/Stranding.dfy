/**
 Failures that are never retried: exactly which failed rooms can still return to idle, how a crash between the
 two statements of a failure leaves one that cannot, and runs from a new room that get there.
 */
module Stranding {
  import opened Rooms
  import opened Planner
  import opened Protocol
  import opened RowLaws
  import opened Reaching

  /** A failed room between steps that is wanted running. */
  predicate IsFailed(s: State) {
    && s.call == Resting && s.world.row.Some?
    && s.world.row.value.state.Failed? && s.world.row.value.desired == WantRunning
  }

  /** A time to retry at, or both a pair to render the spec against and a recorded hash to compare it with. */
  predicate CanRetry(w: World)
    requires w.row.Some?
  {
    w.row.value.retryAfter.Some? || (w.reserved.Some? && w.row.value.specHash.Some?)
  }

  /** A run without a request for its deletion that takes the room back to idle. */
  ghost predicate Returns(site: Site, s: State, labels: seq<Label>) {
    && HasNoDeletion(labels)
    && var w := Run(site, s, labels).world; w.row.Some? && w.row.value.state.Idle?
  }

  // ---------------------------------------------------------------- which failed rooms can return

  /** Failed with nothing that could plan a retry, or worse. */
  ghost predicate Stranded(s: State) {
    && s.call == Resting && s.world.row.Some?
    && s.world.row.value.desired != WantDeleted
    && ((s.world.row.value.state.Failed? && !CanRetry(s.world)) || s.world.row.value.state.IntegrityFault?)
  }

  lemma {:induction false} NextKeepsStranded(site: Site, s: State, l: Label)
    requires Stranded(s) && l != Ask(WantDeleted)
    ensures Stranded(Next(site, s, l))
  {
  }

  /** Nothing short of asking for its deletion ever moves a stranded room again. */
  lemma {:induction false} StrandedForever(site: Site, s: State, labels: seq<Label>)
    requires Stranded(s) && HasNoDeletion(labels)
    ensures Stranded(Run(site, s, labels))
    decreases |labels|
  {
    if labels != [] {
      NextKeepsStranded(site, s, labels[0]);
      StrandedForever(site, Next(site, s, labels[0]), labels[1..]);
    }
  }

  lemma {:induction false} RunOfThree(site: Site, s: State, a: Label, b: Label, c: Label)
    ensures Run(site, s, [a, b, c]) == Next(site, Next(site, Next(site, s, a), b), c)
  {
    var s1 := Next(site, s, a);
    var s2 := Next(site, s1, b);
    assert [a, b, c][1..] == [b, c] && [b, c][1..] == [c] && [c][1..] == [];
    assert Run(site, s, [a, b, c]) == Run(site, s1, [b, c]) == Run(site, s2, [c]) == Run(site, Next(site, s2, c), []);
  }

  /** The time to retry comes, or the spec comes to render differently; the next full pass plans the retry. */
  lemma {:induction false} RetryReturns(site: Site, s: State) returns (labels: seq<Label>)
    requires IsFailed(s) && CanRetry(s.world)
    ensures Returns(site, s, labels)
  {
    var r := s.world.row.value;
    var wait: nat := if r.retryAfter.Some? && r.retryAfter.value > s.world.now
                     then r.retryAfter.value - s.world.now else 0;
    var wanted := if r.retryAfter.Some? then None else Some(r.specHash.value + 1);
    var tick, plan, retry := Tick(wait), Plan(Reconcile, None, wanted), Do(Answers(None, NothingToRender, false));
    var s1 := Next(site, s, tick);
    var s2 := Next(site, s1, plan);
    assert s2.call == RetryMark;
    RunOfThree(site, s, tick, plan, retry);
    labels := [tick, plan, retry];
  }

  /**
   A failed room can return to idle without being deleted if and only if it has a time to retry at, or still
   holds a pair and has a recorded hash.
   */
  lemma {:induction false} ReturnsIff(site: Site, s: State)
    requires IsFailed(s)
    ensures CanRetry(s.world) <==> exists labels: seq<Label> :: Returns(site, s, labels)
  {
    if CanRetry(s.world) {
      var labels := RetryReturns(site, s);
    } else {
      forall labels: seq<Label> ensures !Returns(site, s, labels) {
        if HasNoDeletion(labels) { StrandedForever(site, s, labels); }
      }
    }
  }

  // ---------------------------------------------------------------- dying between the two statements

  /** Only a failed room has a time to retry at, and not before it has been scheduled. */
  ghost predicate RetryFits(s: State) {
    s.world.row.Some? ==>
      var r := s.world.row.value;
      && (r.retryAfter.Some? ==> r.state.Failed? || r.state.Deleting? || r.state.IntegrityFault?)
      && (s.call.FailSchedule? ==> r.retryAfter.None?)
      && (s.call.Forget? ==> r.state.Idle? || IsLive(r.state) || r.state.Stopping?)
  }

  lemma {:induction false} StartsKeepRetryFits(site: Site, s: State, a: Answers)
    requires RetryFits(s) && Lawful(site, s) && IsStartCall(s.call)
    ensures RetryFits(DoStart(site, s.world, s.call, a))
  {
  }

  lemma {:induction false} StatementsKeepRetryFits(site: Site, s: State, a: Answers)
    requires RetryFits(s) && Lawful(site, s) && IsStatement(s.call)
    ensures RetryFits(DoOther(site, s.world, s.call, a))
  {
  }

  lemma {:induction false} OthersKeepRetryFits(site: Site, s: State, a: Answers)
    requires RetryFits(s) && Lawful(site, s) && !IsStartCall(s.call)
    ensures RetryFits(DoOther(site, s.world, s.call, a))
  {
    if IsStatement(s.call) { StatementsKeepRetryFits(site, s, a); }
  }

  lemma {:induction false} PlansKeepRetryFits(site: Site, s: State, kind: TickKind, seen: Option<Deployment>,
        wanted: Option<Hash>)
    requires RetryFits(s)
    ensures RetryFits(PlanNext(site, s, kind, seen, wanted))
  {
  }

  lemma {:induction false} NextKeepsRetryFits(site: Site, s: State, l: Label)
    requires RetryFits(s) && Lawful(site, s)
    ensures RetryFits(Next(site, s, l))
  {
    match l
    case Plan(kind, seen, wanted) => PlansKeepRetryFits(site, s, kind, seen, wanted);
    case Do(a) =>
      if IsStartCall(s.call) { StartsKeepRetryFits(site, s, a); } else { OthersKeepRetryFits(site, s, a); }
    case _ =>
  }

  lemma {:induction false} RunsKeepRetryFits(site: Site, s: State, labels: seq<Label>)
    requires RetryFits(s) && Lawful(site, s)
    ensures RetryFits(Run(site, s, labels)) && Lawful(site, Run(site, s, labels))
    decreases |labels|
  {
    if labels != [] {
      NextKeepsRetryFits(site, s, labels[0]);
      NextKeepsLawful(site, s, labels[0]);
      RunsKeepRetryFits(site, Next(site, s, labels[0]), labels[1..]);
    }
  }

  /**
   In every run, dying between the statement that fails a room and the one that schedules its retry leaves a room
   that only its deletion can move if and only if it has lost its pair or never had its hash recorded.
   */
  lemma {:induction false} CutShortStrandsIff(site: Site, s: State, labels: seq<Label>)
    requires IsNewRoom(s)
    requires var t := Run(site, s, labels);
             t.call.FailSchedule? && t.world.row.Some? && t.world.row.value.desired == WantRunning
    ensures var t := Run(site, s, labels);
            var cut := Next(site, t, Interrupt);
            && IsFailed(cut)
            && ((forall more: seq<Label> :: !Returns(site, cut, more)) <==>
                t.world.reserved.None? || t.world.row.value.specHash.None?)
  {
    RunsKeepRetryFits(site, s, labels);
    var cut := Next(site, Run(site, s, labels), Interrupt);
    ReturnsIff(site, cut);
  }

  // ---------------------------------------------------------------- runs that strand a room

  /** A failure recorded, and a crash before its retry is scheduled. */
  lemma {:induction false} FailureIsCutShort(site: Site, s: State, t: State, a: Answers) returns (u: State)
    requires Reaches(site, s, t) && t.call == FailDelete && t.world.row.Some?
    ensures Reaches(site, s, u) && u.call == Resting && u.world.reserved == t.world.reserved
    ensures u.world.row == Some(FailedRow(t.world.row.value, t.world.now)) && t.world.trail <= u.world.trail
  {
    u := ReachesNext(site, s, t, Do(a));
    assert u.call == FailRecord && u.world.row == t.world.row && u.world.trail == t.world.trail;
    u := ReachesNext(site, s, u, Do(a));
    assert u.call.FailSchedule?;
    u := ReachesNext(site, s, u, Interrupt);
  }

  /** A new room whose spec will not render. */
  lemma {:induction false} NewRoomsCanBeUnrenderable(site: Site, s: State, port: Port, a: Answers) returns (t: State)
    requires IsNewRoom(s) && a.freshPort == Some(port) && a.rendering == Unrenderable
    ensures Reaches(site, s, t) && t.call == FailDelete && t.world.reserved == Some(port) && t.world.row.Some?
    ensures var r := t.world.row.value; r.desired == WantRunning && r.retryAfter.None? && r.specHash.None?
  {
    t := NewRoomsGetReady(site, s, a);
    t := StartRenders(site, s, t, port, a);
    t := ReachesNext(site, s, t, Do(a));
  }

  /** A spec that will not render, and a crash before the retry is scheduled: the pair is kept, no hash was recorded. */
  lemma {:induction false} AnUnrenderableRoomCanBeStranded(site: Site, s: State) returns (t: State)
    requires IsNewRoom(s)
    ensures Reaches(site, s, t) && IsFailed(t) && Stranded(t)
    ensures t.world.reserved.Some? && t.world.row.value.specHash.None?
  {
    var a := Answers(Some(40000), Unrenderable, false);
    t := NewRoomsCanBeUnrenderable(site, s, 40000, a);
    t := FailureIsCutShort(site, s, t, a);
  }

  /** The load balancer refuses the Service's address, and the start reads it. */
  lemma {:induction false} AddressIsRefused(site: Site, s: State, t: State, d: Draft, a: Answers) returns (u: State)
    requires Reaches(site, s, t) && t.call == ReadService(d, 0)
    requires t.world.cluster.service == Some(Service(0, d.port, Unanswered))
    ensures Reaches(site, s, u) && u.call == Withdraw(d, PortTaken) && u.world.row == t.world.row
  {
    u := ReachesNext(site, s, t, Answer(Refused(true)));
    assert u.call == ReadService(d, 0) && u.world.cluster.service.value.address == Refused(true);
    u := ReachesNext(site, s, u, Do(a));
  }

  /** A start over a refused pair withdraws the Deployment and quarantines the pair. */
  lemma {:induction false} StartIsRefused(site: Site, s: State, t: State, d: Draft, a: Answers) returns (u: State)
    requires Reaches(site, s, t) && t.call == Withdraw(d, PortTaken)
    ensures Reaches(site, s, u) && u.call == FailDelete && u.world.row == t.world.row && u.world.reserved.None?
    ensures |u.world.trail| > 0 && u.world.trail[|u.world.trail| - 1].Quarantined?
  {
    u := ReachesNext(site, s, t, Do(a));
    assert u.call == QuarantinePair(d, PortTaken);
    u := ReachesNext(site, s, u, Do(a));
  }

  /** A new room whose first start is refused. */
  lemma {:induction false} NewRoomsCanBeRefused(site: Site, s: State, d: Draft, a: Answers) returns (t: State)
    requires IsNewRoom(s) && a.freshPort == Some(d.port) && a.rendering == Rendered(d.hash)
    ensures Reaches(site, s, t) && t.call == FailDelete && t.world.reserved.None? && t.world.row.Some?
    ensures var r := t.world.row.value; r.desired == WantRunning && r.retryAfter.None? && r.specHash.Some?
    ensures |t.world.trail| > 0 && t.world.trail[|t.world.trail| - 1].Quarantined?
  {
    t := NewRoomsGetReady(site, s, a);
    t := StartRenders(site, s, t, d.port, a);
    t := StartLooks(site, s, t, d, a);
    t := StartCreates(site, s, t, d, a);
    t := StartRecords(site, s, t, d, 0, a);
    t := StartExposes(site, s, t, d, 0, a);
    t := AddressIsRefused(site, s, t, d, a);
    t := StartIsRefused(site, s, t, d, a);
  }

  /** A refused pair, and a crash before the retry is scheduled: the hash is recorded, the pair quarantined. */
  lemma {:induction false} ARefusedRoomCanBeStranded(site: Site, s: State) returns (t: State)
    requires IsNewRoom(s)
    ensures Reaches(site, s, t) && IsFailed(t) && Stranded(t)
    ensures t.world.reserved.None? && t.world.row.value.specHash.Some?
    ensures exists i :: 0 <= i < |t.world.trail| && t.world.trail[i].Quarantined?
  {
    var a := Answers(Some(40000), Rendered(1), false);
    t := NewRoomsCanBeRefused(site, s, Draft(40000, 1), a);
    var n := |t.world.trail| - 1;
    t := FailureIsCutShort(site, s, t, a);
    assert t.world.trail[n].Quarantined?;
  }
}
