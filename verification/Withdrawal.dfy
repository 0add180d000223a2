/**
 What follows a start that withdraws its Deployment over the address its Service was given: exactly when the room is
 planned again, and a run from a new room in which that is at once.
 */
module Withdrawal {
  import opened Rooms
  import opened Planner
  import opened Backoff
  import opened Protocol
  import opened Reaching
  import C = Convergence

  /** The start run to its end, the Deployment drained some time later, and the room planned over. */
  function PlannedAgain(site: Site, s: State, a: Answers, wait: nat, kind: TickKind, wanted: Option<Hash>): State {
    var ended := C.Finish(site, s, a);
    var later := Next(site, ended, Tick(wait));
    var drained := Next(site, later, Drain);
    Next(site, drained, Plan(kind, drained.world.cluster.deployment, wanted))
  }

  /** A world that has ended a withdrawn start at `began`, its Deployment on its way out. */
  predicate IsWithdrawn(s: State, began: Time) {
    && s.call == Resting && s.world.now == began
    && s.world.row.Some? && s.world.row.value.desired == WantRunning
    && s.world.cluster.deployment.Some? && s.world.cluster.deployment.value.deleting
  }

  // ---------------------------------------------------------------- how each verdict ends

  /** Failed at `at` with one failure more on its row and its wait recorded. */
  predicate FailedAs(site: Site, r: Row, reserved: Option<Port>, at: Time, t: State) {
    && IsWithdrawn(t, at) && t.world.reserved == reserved
    && t.world.row.value.state == Failed && t.world.row.value.specHash == r.specHash
    && t.world.row.value.retryAfter == Some(at + RetryDelay(r.failureCount + 1, site.lastByte))
  }

  lemma {:induction false} FailuresEnd(site: Site, w: World, a: Answers)
    requires w.row.Some? && w.row.value.desired == WantRunning
    requires w.cluster.deployment.Some? && w.cluster.deployment.value.deleting
    ensures FailedAs(site, w.row.value, w.reserved, w.now, C.Finish(site, State(w, FailDelete), a))
  {
    var s1 := Perform(site, State(w, FailDelete), a);
    var s2 := Perform(site, s1, a);
    assert s1 == State(w, FailRecord) && s2.call == FailSchedule(w.row.value.failureCount + 1);
    assert C.Finish(site, State(w, FailDelete), a) == C.Finish(site, s1, a) == C.Finish(site, s2, a);
    C.FinishOne(site, s2, a);
  }

  /**
   What a withdrawn start leaves: idle with its pair gone after a wrong address, failed with a wait after a
   refusal.
   */
  ghost predicate EndsAs(site: Site, w: World, verdict: Verdict, t: State)
    requires w.row.Some?
  {
    if verdict == WrongAddress then
      && IsWithdrawn(t, w.now) && t.world.reserved.None?
      && t.world.row.value.state == Idle && Misallocated(w.now) in t.world.trail
    else FailedAs(site, w.row.value, if verdict == Unsatisfiable then w.reserved else None, w.now, t)
  }

  lemma {:induction false} MismatchesEnd(site: Site, w: World, d: Draft, a: Answers)
    requires w.row.Some? && w.row.value.desired == WantRunning
    requires w.cluster.deployment.Some? && w.cluster.deployment.value.deleting
    ensures EndsAs(site, w, WrongAddress, C.Finish(site, State(w, QuarantinePair(d, WrongAddress)), a))
  {
    var s1 := Perform(site, State(w, QuarantinePair(d, WrongAddress)), a);
    assert s1.call == Forget(None) && s1.world.trail == w.trail + [Misallocated(w.now)];
    C.FinishForget(site, s1.world, a);
    var t := Perform(site, s1, a);
    C.FinishOne(site, s1, a);
    assert t.world.trail[|w.trail|] == Misallocated(w.now);
  }

  lemma {:induction false} RefusalsEnd(site: Site, w: World, d: Draft, a: Answers)
    requires w.row.Some? && w.row.value.desired == WantRunning
    requires w.cluster.deployment.Some? && w.cluster.deployment.value.deleting
    ensures EndsAs(site, w, PortTaken, C.Finish(site, State(w, QuarantinePair(d, PortTaken)), a))
  {
    var u := Log(w.(reserved := None), Quarantined(w.now));
    assert C.Finish(site, State(w, QuarantinePair(d, PortTaken)), a) == C.Finish(site, State(u, FailDelete), a) by {
      assert Perform(site, State(w, QuarantinePair(d, PortTaken)), a) == State(u, FailDelete);
    }
    FailuresEnd(site, u, a);
  }

  lemma {:induction false} WithdrawalsEnd(site: Site, w: World, d: Draft, verdict: Verdict, a: Answers)
    requires w.row.Some? && w.row.value.desired == WantRunning && w.cluster.deployment.Some?
    ensures EndsAs(site, w, verdict, C.Finish(site, State(w, Withdraw(d, verdict)), a))
  {
    var u := AcceptDelete(w);
    var s1 := State(u, if verdict == Unsatisfiable then FailDelete else QuarantinePair(d, verdict));
    assert Perform(site, State(w, Withdraw(d, verdict)), a) == s1;
    assert u.row == w.row && u.now == w.now && u.reserved == w.reserved;
    if verdict == WrongAddress {
      MismatchesEnd(site, u, d, a);
    } else if verdict == PortTaken {
      RefusalsEnd(site, u, d, a);
    } else {
      FailuresEnd(site, u, a);
    }
  }

  // ---------------------------------------------------------------- exactly when it is planned again

  /** The spec renders differently than it was last recorded. */
  predicate IsChanged(w: World, wanted: Option<Hash>) {
    w.row.Some? && w.row.value.specHash.Some? && wanted.Some? && wanted != w.row.value.specHash
  }

  /** Some time later, with its Deployment gone. */
  lemma {:induction false} Drains(site: Site, t: State, began: Time, wait: nat)
    requires IsWithdrawn(t, began)
    ensures Next(site, Next(site, t, Tick(wait)), Drain)
            == State(t.world.(now := began + wait, cluster := Collect(t.world.cluster)), Resting)
    ensures Collect(t.world.cluster).deployment.None?
  {
    assert Next(site, t, Tick(wait)) == State(t.world.(now := began + wait), Resting);
  }

  /** What is planned over a room left idle, or failed with a wait, once its Deployment has gone. */
  lemma {:induction false} IdleIsStarted(site: Site, s: State, kind: TickKind)
    requires s.call == Resting && s.world.cluster.deployment.None? && s.world.row.Some?
    requires s.world.row.value.state == Idle && s.world.row.value.desired == WantRunning
    ensures Next(site, s, Plan(kind, None, None)) == State(s.world.(pass := s.world.pass + 1), Allocate)
  {
  }

  lemma {:induction false} FailedIsRetried(site: Site, s: State, kind: TickKind, wanted: Option<Hash>)
    requires s.call == Resting && s.world.row.Some? && (wanted.Some? ==> s.world.reserved.Some?)
    requires s.world.row.value.state == Failed && s.world.row.value.desired == WantRunning
    requires s.world.row.value.retryAfter.Some?
    ensures Next(site, s, Plan(kind, None, wanted)).call
            == if IsChanged(s.world, wanted) || s.world.row.value.retryAfter.value <= s.world.now then RetryMark
               else Resting
  {
  }

  /** What a pass plans for a room so left, its Deployment drained. */
  lemma {:induction false} LeftIsPlanned(site: Site, w: World, verdict: Verdict, t: State, wait: nat, kind: TickKind,
        wanted: Option<Hash>)
    requires w.row.Some? && EndsAs(site, w, verdict, t) && (wanted.Some? ==> t.world.reserved.Some?)
    ensures var drained := Next(site, Next(site, t, Tick(wait)), Drain);
            var planned := Next(site, drained, Plan(kind, drained.world.cluster.deployment, wanted));
            planned.call == if verdict == WrongAddress then Allocate
                            else if IsChanged(w, wanted)
                                    || wait >= RetryDelay(w.row.value.failureCount + 1, site.lastByte) then RetryMark
                            else Resting
  {
    Drains(site, t, w.now, wait);
    var drained := State(t.world.(now := w.now + wait, cluster := Collect(t.world.cluster)), Resting);
    if verdict == WrongAddress {
      IdleIsStarted(site, drained, kind);
    } else {
      FailedIsRetried(site, drained, kind, wanted);
    }
  }

  /** Planning leaves the clock, the pair and the trail as they were. */
  lemma {:induction false} PlanningWritesNothing(site: Site, t: State, kind: TickKind, seen: Option<Deployment>,
        wanted: Option<Hash>)
    ensures var planned := Next(site, t, Plan(kind, seen, wanted));
            && planned.world.now == t.world.now && planned.world.reserved == t.world.reserved
            && planned.world.trail == t.world.trail
  {
  }

  /**
   However long after a withdrawn start its Deployment has drained, the next pass starts the room again if the address
   was a wrong one; after a refusal it plans a retry once the recorded wait is over or the spec has changed,
   and nothing before. A hash is only ever rendered against a pair the room still holds.
   */
  lemma {:induction false} PlannedAgainExactly(site: Site, w: World, d: Draft, verdict: Verdict, a: Answers, wait: nat,
        kind: TickKind, wanted: Option<Hash>)
    requires w.row.Some? && w.row.value.desired == WantRunning && w.cluster.deployment.Some?
    requires wanted.Some? ==> verdict == Unsatisfiable && w.reserved.Some?
    ensures PlannedAgain(site, State(w, Withdraw(d, verdict)), a, wait, kind, wanted).call
            == if verdict == WrongAddress then Allocate
               else if IsChanged(w, wanted)
                       || wait >= RetryDelay(w.row.value.failureCount + 1, site.lastByte) then RetryMark
               else Resting
  {
    WithdrawalsEnd(site, w, d, verdict, a);
    LeftIsPlanned(site, w, verdict, C.Finish(site, State(w, Withdraw(d, verdict)), a), wait, kind, wanted);
  }

  /**
   Only refusals back off: a withdrawn room is started again at the very instant its start ended if and only if the
   address was a wrong one, and then on another pair; nothing else is planned for it then but the retry of a
   changed spec.
   */
  lemma {:induction false} UnpacedIff(site: Site, w: World, d: Draft, verdict: Verdict, a: Answers, kind: TickKind,
        wanted: Option<Hash>)
    requires site.lastByte <= 255
    requires w.row.Some? && w.row.value.desired == WantRunning && w.cluster.deployment.Some?
    requires wanted.Some? ==> verdict == Unsatisfiable && w.reserved.Some?
    ensures var planned := PlannedAgain(site, State(w, Withdraw(d, verdict)), a, 0, kind, wanted);
            && (planned.call != Resting <==> verdict == WrongAddress || IsChanged(w, wanted))
            && (planned.call == Allocate <==> verdict == WrongAddress)
            && (verdict == WrongAddress ==>
                  && planned.world.reserved.None? && planned.world.now == w.now
                  && Misallocated(w.now) in planned.world.trail)
  {
    DelayBounds(w.row.value.failureCount + 1, site.lastByte);
    WithdrawalsEnd(site, w, d, verdict, a);
    var ended := C.Finish(site, State(w, Withdraw(d, verdict)), a);
    LeftIsPlanned(site, w, verdict, ended, 0, kind, wanted);
    Drains(site, ended, w.now, 0);
    PlanningWritesNothing(site, Next(site, Next(site, ended, Tick(0)), Drain), kind, None, wanted);
  }

  // ---------------------------------------------------------------- a run that gets there

  /** A Service given another address than the configured one, and the start that reads it. */
  lemma {:induction false} AddressIsWrong(site: Site, s: State, t: State, d: Draft, a: Answers) returns (u: State)
    requires Reaches(site, s, t) && t.call == ReadService(d, 0)
    requires t.world.cluster.service == Some(Service(0, d.port, Unanswered))
    ensures Reaches(site, s, u) && u.call == Withdraw(d, WrongAddress) && u.world.row == t.world.row
    ensures u.world.cluster.deployment == t.world.cluster.deployment && u.world.now == t.world.now
  {
    u := ReachesNext(site, s, t, Answer(Assigned(site.lbIp + 1)));
    assert u.call == ReadService(d, 0) && u.world.cluster.service.value.address == Assigned(site.lbIp + 1);
    u := ReachesNext(site, s, u, Do(a));
  }

  /** A new room, provisioned and started, whose Service was given a wrong address. */
  lemma {:induction false} NewRoomsCanBeMisallocated(site: Site, s: State, d: Draft, a: Answers) returns (t: State)
    requires IsNewRoom(s) && a.freshPort == Some(d.port) && a.rendering == Rendered(d.hash)
    ensures Reaches(site, s, t) && t.call == Withdraw(d, WrongAddress)
    ensures t.world.row.Some? && t.world.row.value.desired == WantRunning && t.world.cluster.deployment.Some?
  {
    t := NewRoomsGetReady(site, s, a);
    t := StartRenders(site, s, t, d.port, a);
    t := StartLooks(site, s, t, d, a);
    t := StartCreates(site, s, t, d, a);
    t := StartRecords(site, s, t, d, 0, a);
    t := StartExposes(site, s, t, d, 0, a);
    t := AddressIsWrong(site, s, t, d, a);
  }

  /** From there to the next start without the clock moving. */
  lemma {:induction false} MisallocatedStartsAgain(site: Site, s: State, t: State, d: Draft, a: Answers, kind: TickKind)
    returns (u: State)
    requires Reaches(site, s, t) && t.call == Withdraw(d, WrongAddress)
    requires t.world.row.Some? && t.world.row.value.desired == WantRunning && t.world.cluster.deployment.Some?
    ensures Reaches(site, s, u) && u.call == Allocate && u.world.reserved.None?
    ensures u.world.now == t.world.now && Misallocated(u.world.now) in u.world.trail
  {
    WithdrawalsEnd(site, t.world, d, WrongAddress, a);
    var ended := ReachesFinish(site, s, t, a);
    LeftIsPlanned(site, t.world, WrongAddress, ended, 0, kind, None);
    Drains(site, ended, t.world.now, 0);
    u := ReachesNext(site, s, ended, Tick(0));
    u := ReachesNext(site, s, u, Drain);
    PlanningWritesNothing(site, u, kind, None, None);
    u := ReachesNext(site, s, u, Plan(kind, u.world.cluster.deployment, None));
  }

  /** A step run to its end is reached. */
  lemma {:induction false} ReachesFinish(site: Site, s: State, t: State, a: Answers) returns (u: State)
    requires Reaches(site, s, t)
    ensures u == C.Finish(site, t, a) && Reaches(site, s, u)
    decreases C.Remaining(t.call)
  {
    if t.call == Resting {
      u := t;
    } else {
      C.OneCallFewer(site, t, a);
      var next := ReachesNext(site, s, t, Do(a));
      u := ReachesFinish(site, s, next, a);
    }
  }

  /**
   From a new room: provisioned, started, its Service given a wrong address, withdrawn, drained, and planned to start
   again on another pair at the same instant.
   */
  lemma {:induction false} MismatchIsUnpaced(site: Site, s: State, kind: TickKind) returns (t: State)
    requires IsNewRoom(s)
    ensures Reaches(site, s, t) && t.call == Allocate && t.world.reserved.None?
    ensures Misallocated(t.world.now) in t.world.trail
  {
    var a := Answers(Some(40000), Rendered(1), false);
    t := NewRoomsCanBeMisallocated(site, s, Draft(40000, 1), a);
    t := MisallocatedStartsAgain(site, s, t, Draft(40000, 1), a, kind);
  }
}
