/**
 Refusals by the load balancer over whole runs: how often one room may quarantine a port pair.
 */
module Pacing {
  import opened Rooms
  import opened Planner
  import opened Protocol
  import opened RowLaws
  import opened Trails
  import opened Backoff

  /** After a refusal: whether its failure is still to be recorded, and until when the room is held back. */
  datatype Cooldown = Cooldown(spent: bool, until: Option<Time>)

  function CoolingAfter(c: Cooldown, e: Event): Cooldown {
    match e
    case Quarantined(at) => Cooldown(true, Some(at))
    case Scheduled(_, _, retryAt) => if c.spent then Cooldown(false, Some(retryAt)) else c
    case Interrupted => Cooldown(false, c.until)
    case _ => c
  }

  function CoolingOf(trail: seq<Event>): Cooldown {
    if trail == [] then Cooldown(false, None)
    else CoolingAfter(CoolingOf(trail[..|trail| - 1]), trail[|trail| - 1])
  }

  /** What a refusal and the failure recorded for it require of everything before them. */
  ghost predicate RefusalFits(before: seq<Event>, e: Event) {
    var c := CoolingOf(before);
    match e
    case Quarantined(at) => !c.spent && (c.until.Some? ==> c.until.value <= at)
    case Scheduled(at, _, retryAt) => c.spent ==> c.until.Some? && c.until.value <= at
    case _ => true
  }

  ghost predicate RefusalFitsAt(trail: seq<Event>, j: nat)
    requires j < |trail|
  {
    RefusalFits(trail[..j], trail[j])
  }

  ghost predicate RefusalsFit(trail: seq<Event>) {
    forall j :: 0 <= j < |trail| ==> RefusalFitsAt(trail, j)
  }

  lemma {:induction false} RefusalsGrow(trail: seq<Event>, e: Event)
    requires RefusalsFit(trail) && RefusalFits(trail, e)
    ensures RefusalsFit(trail + [e])
    ensures CoolingOf(trail + [e]) == CoolingAfter(CoolingOf(trail), e)
  {
    var longer := trail + [e];
    assert longer[..|longer| - 1] == trail;
    forall j | 0 <= j < |longer|
      ensures RefusalFitsAt(longer, j)
    {
      if j < |trail| {
        assert RefusalFitsAt(trail, j);
        assert longer[..j] == trail[..j];
      } else {
        assert longer[..j] == trail;
      }
    }
  }

  predicate IsFailCall(call: Call) {
    call.FailDelete? || call.FailRecord? || call.FailSchedule?
  }

  predicate IsDeleteCall(call: Call) {
    call.TeardownDeployment? || call.TeardownSecret? || call.LookBeforeTrash? || call.MarkDeleting? || call.DropRow?
  }

  /** A refused room that is still held back: nothing but its deletion can move it. */
  ghost predicate HeldBack(s: State, until: Time) {
    && s.world.reserved.None?
    && (s.call == Resting || IsDeleteCall(s.call))
    && (s.world.row.Some? ==>
          || (s.world.row.value.state.Failed? && s.world.row.value.retryAfter == Some(until))
          || s.world.row.value.state.Deleting?
          || s.world.row.value.state.IntegrityFault?)
  }

  ghost predicate Paced(s: State) {
    var c := CoolingOf(s.world.trail);
    && RefusalsFit(s.world.trail)
    && (c.spent ==> IsFailCall(s.call) && s.world.reserved.None? && c.until.Some?)
    && (c.until.Some? && c.until.value > s.world.now ==> !c.spent && HeldBack(s, c.until.value))
  }

  /** Until a refused room's failure is recorded, only its fail calls are made, and the pair stays gone. */
  lemma {:induction false} SpentIsKept(site: Site, s: State, a: Answers)
    requires IsFailCall(s.call) && s.world.reserved.None? && Perform(site, s, a).world.trail == s.world.trail
    ensures var t := Perform(site, s, a); IsFailCall(t.call) && t.world.reserved.None? && t.world.now == s.world.now
  {
  }

  lemma {:induction false} HoldingIsKept(site: Site, s: State, a: Answers, until: Time)
    requires HeldBack(s, until)
    ensures var t := Perform(site, s, a);
            HeldBack(t, until) && t.world.trail == s.world.trail && t.world.now == s.world.now
  {
  }

  lemma {:induction false} CallsTakeNoTime(site: Site, s: State, a: Answers)
    ensures Perform(site, s, a).world.now == s.world.now
  {
  }

  /** Calls that note nothing leave the cooldown as it was. */
  lemma {:induction false} QuietCallsKeepPaced(site: Site, s: State, a: Answers)
    requires Paced(s) && Perform(site, s, a).world.trail == s.world.trail
    ensures Paced(Perform(site, s, a))
  {
    var c := CoolingOf(s.world.trail);
    CallsTakeNoTime(site, s, a);
    if c.spent {
      SpentIsKept(site, s, a);
    } else if c.until.Some? && c.until.value > s.world.now {
      HoldingIsKept(site, s, a, c.until.value);
    }
  }

  lemma {:induction false} NotingStartsKeepPaced(site: Site, s: State, a: Answers)
    requires Paced(s) && IsStartCall(s.call)
    requires DoStart(site, s.world, s.call, a).world.trail != s.world.trail
    ensures Paced(DoStart(site, s.world, s.call, a))
  {
    var e := StartsNoteOneEvent(site, s, a);
    CallsTakeNoTime(site, s, a);
    var c := CoolingOf(s.world.trail);
    assert !c.spent && (c.until.Some? ==> c.until.value <= s.world.now);
    RefusalsGrow(s.world.trail, e);
  }

  /** Whatever the wait, recording it turns a refusal into a room held back until it is over. */
  lemma {:induction false} HoldingKeepsPaced(s: State, w': World, failures: int, retryAt: Time)
    requires Paced(s) && s.call.FailSchedule? && retryAt > s.world.now
    requires s.world.row.Some? ==> s.world.row.value.state.Failed?
    requires w'.trail == s.world.trail + [Scheduled(s.world.now, failures, retryAt)]
    requires w'.now == s.world.now && w'.reserved == s.world.reserved
    requires w'.row.Some? ==> w'.row.value.state.Failed? && w'.row.value.retryAfter == Some(retryAt)
    ensures Paced(State(w', Resting))
  {
    RefusalsGrow(s.world.trail, Scheduled(s.world.now, failures, retryAt));
  }

  lemma {:induction false} SchedulingKeepsPaced(site: Site, s: State, a: Answers)
    requires Paced(s) && Lawful(site, s) && site.lastByte <= 255 && s.call.FailSchedule?
    ensures Paced(DoOther(site, s.world, s.call, a))
  {
    DelayBounds(s.call.failures, site.lastByte);
    var t := DoOther(site, s.world, s.call, a);
    HoldingKeepsPaced(s, t.world, s.call.failures, s.world.now + RetryDelay(s.call.failures, site.lastByte));
  }

  /** An event that is no refusal, wait or interruption leaves the cooldown as it was. */
  lemma {:induction false} OtherEventsKeepPaced(s: State, t: State, e: Event)
    requires Paced(s) && t.world.trail == s.world.trail + [e] && t.world.now == s.world.now
    requires !e.Quarantined? && !e.Scheduled? && !e.Interrupted?
    requires var c := CoolingOf(s.world.trail);
             && (c.spent ==> IsFailCall(t.call) && t.world.reserved.None?)
             && (c.until.Some? && c.until.value > s.world.now ==> HeldBack(t, c.until.value))
    ensures Paced(t)
  {
    RefusalsGrow(s.world.trail, e);
  }

  lemma {:induction false} FailuresAndSweepsNoteOneEvent(site: Site, s: State, a: Answers) returns (e: Event)
    requires s.call.FailRecord? || s.call.CountNotReady? || s.call.Degrade?
    requires DoOther(site, s.world, s.call, a).world.trail != s.world.trail
    ensures DoOther(site, s.world, s.call, a).world.trail == s.world.trail + [e]
    ensures e.FailedOnce? || e.CountedNotReady? || e.WasDegraded?
  {
    e := DoOther(site, s.world, s.call, a).world.trail[|s.world.trail|];
  }

  lemma {:induction false} OthersNoteOneEvent(site: Site, s: State, a: Answers) returns (e: Event)
    requires !IsStartCall(s.call) && !IsFailureOrSweep(s.call)
    requires DoOther(site, s.world, s.call, a).world.trail != s.world.trail
    ensures DoOther(site, s.world, s.call, a).world.trail == s.world.trail + [e]
    ensures !e.Quarantined? && !e.Scheduled? && !e.Interrupted?
  {
    e := DoOther(site, s.world, s.call, a).world.trail[|s.world.trail|];
  }

  lemma {:induction false} NotingCallsNoteOneEvent(site: Site, s: State, a: Answers) returns (e: Event)
    requires !IsStartCall(s.call) && !s.call.FailSchedule?
    requires DoOther(site, s.world, s.call, a).world.trail != s.world.trail
    ensures DoOther(site, s.world, s.call, a).world.trail == s.world.trail + [e]
    ensures !e.Quarantined? && !e.Scheduled? && !e.Interrupted?
  {
    if IsFailureOrSweep(s.call) {
      e := FailuresAndSweepsNoteOneEvent(site, s, a);
    } else {
      e := OthersNoteOneEvent(site, s, a);
    }
  }

  /** Until a refused room's failure is recorded, its fail calls lead only to fail calls. */
  lemma {:induction false} NotingCallsHold(site: Site, s: State, a: Answers)
    requires !IsStartCall(s.call) && !s.call.FailSchedule? && s.call != Resting && !IsDeleteCall(s.call)
    ensures var t := DoOther(site, s.world, s.call, a);
            && (IsFailCall(s.call) && s.world.reserved.None? ==> IsFailCall(t.call) && t.world.reserved.None?)
            && t.world.now == s.world.now
  {
  }

  lemma {:induction false} NotingCallsKeepPaced(site: Site, s: State, a: Answers)
    requires Paced(s) && !IsStartCall(s.call) && !s.call.FailSchedule?
    requires DoOther(site, s.world, s.call, a).world.trail != s.world.trail
    ensures Paced(DoOther(site, s.world, s.call, a))
  {
    var t := DoOther(site, s.world, s.call, a);
    var e := NotingCallsNoteOneEvent(site, s, a);
    NotingCallsHold(site, s, a);
    OtherEventsKeepPaced(s, t, e);
  }

  lemma {:induction false} DoKeepsPaced(site: Site, s: State, a: Answers)
    requires Paced(s) && Lawful(site, s) && site.lastByte <= 255
    ensures Paced(Perform(site, s, a))
  {
    if Perform(site, s, a).world.trail == s.world.trail {
      QuietCallsKeepPaced(site, s, a);
    } else if IsStartCall(s.call) {
      NotingStartsKeepPaced(site, s, a);
    } else if s.call.FailSchedule? {
      SchedulingKeepsPaced(site, s, a);
    } else {
      NotingCallsKeepPaced(site, s, a);
    }
  }

  lemma {:induction false} PlanKeepsPaced(site: Site, s: State, kind: TickKind, seen: Option<Deployment>,
        wanted: Option<Hash>)
    requires Paced(s)
    ensures Paced(PlanNext(site, s, kind, seen, wanted))
  {
  }

  lemma {:induction false} AskingKeepsPaced(s: State)
    requires Paced(s)
    ensures Paced(State(Environment(s, AskRedeploy), s.call))
  {
    var t := State(Environment(s, AskRedeploy), s.call);
    if t.world != s.world {
      OtherEventsKeepPaced(s, t, RedeployAsked);
    }
  }

  lemma {:induction false} QuietEnvironmentKeepsPaced(s: State, l: Label)
    requires Paced(s) && !l.AskRedeploy?
    ensures Paced(State(Environment(s, l), s.call))
  {
    var w := Environment(s, l);
    assert w.trail == s.world.trail && w.now >= s.world.now;
    assert s.world.reserved.None? ==> w.reserved.None?;
  }

  lemma {:induction false} EnvironmentKeepsPaced(s: State, l: Label)
    requires Paced(s)
    ensures Paced(State(Environment(s, l), s.call))
  {
    if l.AskRedeploy? { AskingKeepsPaced(s); } else { QuietEnvironmentKeepsPaced(s, l); }
  }

  lemma {:induction false} CutsKeepPaced(site: Site, s: State, l: Label)
    requires Paced(s) && (l == Interrupt || l == FatalError)
    ensures Paced(Next(site, s, l))
  {
    RefusalsGrow(s.world.trail, Interrupted);
  }

  lemma {:induction false} NextKeepsPaced(site: Site, s: State, l: Label)
    requires Paced(s) && Lawful(site, s) && site.lastByte <= 255
    ensures Paced(Next(site, s, l))
  {
    if l.Plan? {
      PlanKeepsPaced(site, s, l.kind, l.seen, l.wanted);
    } else if l.Do? {
      DoKeepsPaced(site, s, l.answers);
    } else if l == Interrupt || l == FatalError {
      CutsKeepPaced(site, s, l);
    } else {
      EnvironmentKeepsPaced(s, l);
      assert Next(site, s, l) == State(Environment(s, l), s.call);
    }
  }

  lemma {:induction false} RunsKeepPaced(site: Site, s: State, labels: seq<Label>)
    requires Paced(s) && Lawful(site, s) && site.lastByte <= 255
    ensures Paced(Run(site, s, labels))
    decreases |labels|
  {
    if labels != [] {
      NextKeepsPaced(site, s, labels[0]);
      NextKeepsLawful(site, s, labels[0]);
      RunsKeepPaced(site, Next(site, s, labels[0]), labels[1..]);
    }
  }

  // ---------------------------------------------------------------- the bound

  function Refusals(trail: seq<Event>, from: nat): nat
    requires from <= |trail|
    decreases |trail|
  {
    if from == |trail| then 0
    else Refusals(trail[..|trail| - 1], from) + if trail[|trail| - 1].Quarantined? then 1 else 0
  }

  /** The process died, or an error ended the step, between a refusal and the record of its failure. */
  predicate IsCutShort(trail: seq<Event>, i: nat)
    requires i < |trail|
  {
    trail[i].Interrupted? && CoolingOf(trail[..i]).spent
  }

  function CutShorts(trail: seq<Event>, from: nat): nat
    requires from <= |trail|
    decreases |trail|
  {
    if from == |trail| then 0
    else CutShorts(trail[..|trail| - 1], from) + if IsCutShort(trail, |trail| - 1) then 1 else 0
  }

  /** Every wait recorded from an index on is at least `gap`. */
  ghost predicate WaitsAtLeast(trail: seq<Event>, from: nat, gap: int) {
    forall k :: from <= k < |trail| && trail[k].Scheduled? ==> trail[k].retryAt - trail[k].at >= gap
  }

  /** How far past `start` the horizon of a cooldown lies. */
  function Horizon(c: Cooldown, start: Time): nat {
    if c.until.Some? && c.until.value > start then c.until.value - start else 0
  }

  /** Each refusal in the window has either pushed the horizon by `gap` or was cut short. */
  lemma {:induction false} RefusalsPushTheHorizon(trail: seq<Event>, from: nat, gap: nat)
    requires RefusalsFit(trail) && from < |trail| && trail[from].Quarantined? && WaitsAtLeast(trail, from, gap)
    ensures var c := CoolingOf(trail);
            && c.until.Some? && c.until.value >= trail[from].at
            && gap * Refusals(trail, from)
               <= gap * CutShorts(trail, from) + (if c.spent then gap else 0) + Horizon(c, trail[from].at)
    decreases |trail|
  {
    var last := |trail| - 1;
    var before, e := trail[..last], trail[last];
    assert RefusalFitsAt(trail, last);
    if last == from {
      assert Refusals(before, from) == 0 && CutShorts(before, from) == 0;
    } else {
      forall k | 0 <= k < |before| ensures RefusalFitsAt(before, k) {
        assert RefusalFitsAt(trail, k);
        assert before[..k] == trail[..k];
      }
      RefusalsPushTheHorizon(before, from, gap);
      PushOnce(CoolingOf(before), e, trail[from].at, gap, Refusals(before, from), CutShorts(before, from));
    }
  }

  lemma {:induction false} PushOnce(c: Cooldown, e: Event, start: Time, gap: nat, refusals: nat, cuts: nat)
    requires c.until.Some? && c.until.value >= start
    requires gap * refusals <= gap * cuts + (if c.spent then gap else 0) + Horizon(c, start)
    requires e.Quarantined? ==> !c.spent && c.until.value <= e.at
    requires e.Scheduled? ==> e.retryAt - e.at >= gap && (c.spent ==> c.until.value <= e.at)
    ensures var d := CoolingAfter(c, e);
            && d.until.Some? && d.until.value >= start
            && gap * (refusals + if e.Quarantined? then 1 else 0)
               <= gap * (cuts + if e.Interrupted? && c.spent then 1 else 0)
                  + (if d.spent then gap else 0) + Horizon(d, start)
  {
    assert gap * (refusals + 1) == gap * refusals + gap;
    assert gap * (cuts + 1) == gap * cuts + gap;
  }

  /**
   Between two refusals of one room that are `span` seconds apart, both included, there are at most
   `span / gap + 1` refusals plus one for every refusal whose failure was cut short before its wait
   was recorded, where `gap` is any lower bound on the waits recorded meanwhile. An interruption of
   anything else costs nothing.
   */
  lemma {:induction false} RefusalsAreBounded(site: Site, s: State, labels: seq<Label>, from: nat, to: nat, gap: nat)
    requires IsNewRoom(s) && site.lastByte <= 255 && gap > 0
    requires var trail := Run(site, s, labels).world.trail;
             && from <= to < |trail| && trail[from].Quarantined? && trail[to].Quarantined?
             && WaitsAtLeast(trail[..to + 1], from, gap)
    ensures var trail := Run(site, s, labels).world.trail;
            var span := trail[to].at - trail[from].at;
            && span >= 0
            && Refusals(trail[..to + 1], from) <= span / gap + 1 + CutShorts(trail[..to + 1], from)
  {
    RunsKeepPaced(site, s, labels);
    var trail := Run(site, s, labels).world.trail;
    var window := trail[..to + 1];
    forall k | 0 <= k < |window| ensures RefusalFitsAt(window, k) {
      assert RefusalFitsAt(trail, k);
      assert window[..k] == trail[..k];
    }
    RefusalsPushTheHorizon(window, from, gap);
    assert window[..to] == trail[..to];
    assert CoolingOf(window) == Cooldown(true, Some(trail[to].at));
    DivideByGap(Refusals(window, from), CutShorts(window, from), trail[to].at - trail[from].at, gap);
  }

  lemma {:induction false} ProductGrows(factor: nat, small: int, large: int)
    requires small <= large
    ensures factor * small <= factor * large
  {
  }

  lemma {:induction false} DivideByGap(refusals: nat, cuts: nat, span: nat, gap: nat)
    requires gap > 0 && gap * refusals <= gap * cuts + gap + span
    ensures refusals <= span / gap + 1 + cuts
  {
    var extra := refusals - cuts - 1;
    assert gap * extra == gap * refusals - gap * cuts - gap;
    assert span < gap * (span / gap + 1);
    if extra > span / gap {
      ProductGrows(gap, span / gap + 1, extra);
    }
  }

  /** Every wait of every run is at least 12 seconds, so 12 is always such a bound. */
  lemma {:induction false} WaitsAreAtLeastTwelve(site: Site, s: State, labels: seq<Label>, from: nat, to: nat)
    requires IsNewRoom(s) && site.lastByte <= 255
    requires from <= to <= |Run(site, s, labels).world.trail|
    ensures WaitsAtLeast(Run(site, s, labels).world.trail[..to], from, 12)
  {
    NewRoomsAreFaithful(site, s);
    RunsKeepFaithful(site, s, labels);
    var trail := Run(site, s, labels).world.trail;
    forall k | from <= k < to && trail[k].Scheduled?
      ensures trail[k].retryAt - trail[k].at >= 12
    {
      assert EventFitsAt(site, trail, k);
      DelayBounds(trail[k].failures, site.lastByte);
    }
  }

  /** Two refusals, the first not cut short before its wait was recorded, are separated by that wait. */
  lemma {:induction false} NextRefusalWaits(site: Site, s: State, labels: seq<Label>, j: nat, k: nat)
    requires IsNewRoom(s) && site.lastByte <= 255
    requires var trail := Run(site, s, labels).world.trail;
             && j < k < |trail| && trail[j].Quarantined? && trail[k].Quarantined?
             && forall i :: j < i < k ==> !IsCutShort(trail, i) && !trail[i].Quarantined?
    ensures var trail := Run(site, s, labels).world.trail;
            exists m :: j < m < k && trail[m].Scheduled? && trail[j].at <= trail[m].at
                        && trail[m].retryAt == trail[m].at + RetryDelay(trail[m].failures, site.lastByte)
                        && trail[m].retryAt <= trail[k].at
  {
    NewRoomsAreFaithful(site, s);
    RunsKeepFaithful(site, s, labels);
    RunsKeepPaced(site, s, labels);
    var trail := Run(site, s, labels).world.trail;
    assert RefusalFitsAt(trail, k);
    var m := SchedulesBetween(trail, j, k);
    assert EventFitsAt(site, trail, m);
  }

  lemma {:induction false} SchedulesBetween(trail: seq<Event>, j: nat, k: nat) returns (m: nat)
    requires RefusalsFit(trail) && j < k <= |trail| && trail[j].Quarantined?
    requires forall i :: j < i < k ==> !IsCutShort(trail, i) && !trail[i].Quarantined?
    ensures var c := CoolingOf(trail[..k]);
            if c.spent then c.until == Some(trail[j].at)
            else j < m < k && trail[m].Scheduled? && trail[j].at <= trail[m].at && c.until == Some(trail[m].retryAt)
    decreases k
  {
    assert trail[..k][..k - 1] == trail[..k - 1];
    m := 0;
    if k > j + 1 {
      m := SchedulesBetween(trail, j, k - 1);
      assert RefusalFitsAt(trail, k - 1);
      if CoolingOf(trail[..k - 1]).spent && trail[k - 1].Scheduled? {
        m := k - 1;
      }
    }
  }
}
