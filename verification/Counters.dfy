/**
 The numbers a load run reports: counters shared by every slot, kept right however often each slot's
 connection drops and comes back.
 */
module Counters {

  /** The shared totals. */
  datatype Tally = Tally(connected: int, reconnects: nat, drops: nat, goaled: nat, items: nat)

  /**
   One slot: whether it has ever been up, is up now, or has let go for good; what it has told the run;
   and, of its history, how much this connection has delivered and how much any connection has.
   */
  datatype Slot = Slot(
    beenUp: bool,
    live: bool,
    ended: bool,
    goaled: bool,
    countedGoal: bool,
    tallyLost: bool,
    itemsCounted: nat,
    position: nat,
    seen: nat)

  const NEW_SLOT := Slot(false, false, false, false, false, false, 0, 0, 0)

  datatype Event =
    | Open(replayed: nat, finishes: bool, sent: bool)
    | Receive(items: nat, goal: bool, sent: bool)
    | Lose
    | LetGo

  function Most(a: nat, b: nat): nat {
    if a < b then b else a
  }

  /** What is newly counted of a replay: whatever is past the high-water mark. */
  function Fresh(counted: nat, replayed: nat): nat {
    if replayed <= counted then 0 else replayed - counted
  }

  /** A connection goes: the count of live ones with it, and a drop unless the slot let go itself. */
  function Closed(s: Slot, t: Tally, cleanly: bool): (Slot, Tally) {
    (s.(live := false, ended := s.ended || cleanly, position := 0),
     t.(connected := t.connected - 1, drops := if cleanly then t.drops else t.drops + 1))
  }

  /**
   The goal recorded, then announced, then tallied if it was the first time; a failed send ends the connection
   first.
   */
  function Declared(s: Slot, t: Tally, sent: bool): (Slot, Tally) {
    var first := !s.countedGoal;
    var s' := s.(goaled := true, countedGoal := true);
    if sent then (s', if first then t.(goaled := t.goaled + 1) else t)
    else Closed(s'.(tallyLost := s.tallyLost || first), t, false)
  }

  /** A connection established: counted, counted as a return if the slot has been up before, and its replay absorbed. */
  function Opened(s: Slot, t: Tally, replayed: nat): (Slot, Tally) {
    (s.(beenUp := true, live := true, itemsCounted := Most(s.itemsCounted, replayed), position := replayed,
        seen := Most(s.seen, replayed)),
     t.(connected := t.connected + 1, reconnects := if s.beenUp then t.reconnects + 1 else t.reconnects,
        items := t.items + Fresh(s.itemsCounted, replayed)))
  }

  function Received(s: Slot, t: Tally, items: nat): (Slot, Tally) {
    (s.(itemsCounted := s.itemsCounted + items, position := s.position + items,
        seen := Most(s.seen, s.position + items)),
     t.(items := t.items + items))
  }

  function Step(s: Slot, t: Tally, e: Event): (Slot, Tally) {
    match e
    case Open(replayed, finishes, sent) =>
      if s.live || s.ended then (s, t)
      else
        var (s1, t1) := Opened(s, t, replayed);
        if s1.goaled || finishes then Declared(s1, t1, sent) else (s1, t1)
    case Receive(items, goal, sent) =>
      if !s.live then (s, t)
      else
        var (s1, t1) := Received(s, t, items);
        if !s1.goaled && goal then Declared(s1, t1, sent) else (s1, t1)
    case Lose => if s.live then Closed(s, t, false) else (s, t)
    case LetGo => if s.live then Closed(s, t, true) else (s, t)
  }

  // ---------------------------------------------------------------- the objects

  class Totals {
    var connected: int
    var reconnects: nat
    var drops: nat
    var goaled: nat
    var itemsReceived: nat

    constructor ()
      ensures View() == Tally(0, 0, 0, 0, 0)
    {
      connected, reconnects, drops, goaled, itemsReceived := 0, 0, 0, 0, 0;
    }

    ghost function View(): Tally
      reads this
    {
      Tally(connected, reconnects, drops, goaled, itemsReceived)
    }
  }

  /** What one slot knows about itself, across however many connections it takes to finish. */
  class Session {
    var goaled: bool
    var countedGoal: bool
    var itemsCounted: nat

    constructor ()
      ensures !goaled && !countedGoal && itemsCounted == 0
    {
      goaled, countedGoal, itemsCounted := false, false, 0;
    }

    method AbsorbReplay(replayed: nat, totals: Totals) returns (added: nat)
      modifies this`itemsCounted, totals`itemsReceived
      ensures added == Fresh(old(itemsCounted), replayed) && itemsCounted == Most(old(itemsCounted), replayed)
      ensures totals.itemsReceived == old(totals.itemsReceived) + added
      ensures itemsCounted == old(itemsCounted) + added
    {
      added := if replayed <= itemsCounted then 0 else replayed - itemsCounted;
      itemsCounted := if itemsCounted < replayed then replayed else itemsCounted;
      totals.itemsReceived := totals.itemsReceived + added;
    }

    method AbsorbLive(items: nat, totals: Totals)
      modifies this`itemsCounted, totals`itemsReceived
      ensures itemsCounted == old(itemsCounted) + items && totals.itemsReceived == old(totals.itemsReceived) + items
    {
      itemsCounted := itemsCounted + items;
      totals.itemsReceived := totals.itemsReceived + items;
    }

    method Goal() returns (first: bool)
      modifies this`goaled, this`countedGoal
      ensures goaled && countedGoal && first == !old(countedGoal)
    {
      goaled := true;
      first := !countedGoal;
      countedGoal := true;
    }
  }

  /** The guard that keeps the count of live connections right for as long as one lives. */
  class Connection {
    const totals: Totals
    var cleanly: bool

    constructor (totals: Totals, beenUp: bool)
      modifies totals`connected, totals`reconnects
      ensures this.totals == totals && !cleanly
      ensures totals.connected == old(totals.connected) + 1
      ensures totals.reconnects == old(totals.reconnects) + if beenUp then 1 else 0
    {
      this.totals := totals;
      cleanly := false;
      new;
      totals.connected := totals.connected + 1;
      if beenUp { totals.reconnects := totals.reconnects + 1; }
    }

    method Closing()
      modifies this
      ensures cleanly
    {
      cleanly := true;
    }

    method Drop()
      modifies totals`connected, totals`drops
      ensures totals.connected == old(totals.connected) - 1
      ensures totals.drops == old(totals.drops) + if cleanly then 0 else 1
    {
      totals.connected := totals.connected - 1;
      if !cleanly { totals.drops := totals.drops + 1; }
    }
  }

  /** One slot at play: its session, and a connection while it has one. */
  class Player {
    const totals: Totals
    const session: Session
    var connection: Connection?
    var beenUp: bool
    var ended: bool
    ghost var tallyLost: bool
    ghost var position: nat
    ghost var seen: nat

    constructor (totals: Totals)
      ensures this.totals == totals && fresh(session) && Valid() && View() == NEW_SLOT
    {
      this.totals := totals;
      session := new Session();
      connection, beenUp, ended := null, false, false;
      tallyLost, position, seen := false, 0, 0;
    }

    ghost predicate Valid()
      reads this, connection
    {
      connection != null ==> connection.totals == totals && !connection.cleanly
    }

    ghost function View(): Slot
      reads this, session
    {
      Slot(beenUp, connection != null, ended, session.goaled, session.countedGoal, tallyLost, session.itemsCounted,
           position, seen)
    }

    /** The connection ends, of its own accord or not. */
    method Close(cleanly: bool)
      requires Valid() && connection != null
      modifies this, connection, totals
      ensures Valid() && (View(), totals.View()) == Closed(old(View()), old(totals.View()), cleanly)
    {
      if cleanly {
        connection.Closing();
        ended := true;
      }
      connection.Drop();
      connection := null;
      position := 0;
    }

    method Declare(sent: bool)
      requires Valid() && connection != null
      modifies this, session, connection, totals
      ensures Valid() && (View(), totals.View()) == Declared(old(View()), old(totals.View()), sent)
    {
      var first := session.Goal();
      if !sent {
        tallyLost := tallyLost || first;
        Close(false);
      } else if first {
        totals.goaled := totals.goaled + 1;
      }
    }

    /** A connection from its handshake on: the guard, the replay, and a goal already won declared at once. */
    method Open(replayed: nat, finishes: bool, sent: bool)
      requires Valid() && connection == null && !ended
      modifies this, session, totals
      ensures Valid() && (View(), totals.View()) == Step(old(View()), old(totals.View()), Event.Open(replayed,
                finishes, sent))
    {
      connection := new Connection(totals, beenUp);
      beenUp := true;
      var _ := session.AbsorbReplay(replayed, totals);
      position, seen := replayed, Most(seen, replayed);
      if session.goaled || finishes { Declare(sent); }
    }

    method Receive(items: nat, goal: bool, sent: bool)
      requires Valid() && connection != null
      modifies this, session, connection, totals
      ensures Valid() && (View(), totals.View()) == Step(old(View()), old(totals.View()), Event.Receive(items,
                goal, sent))
    {
      session.AbsorbLive(items, totals);
      position, seen := position + items, Most(seen, position + items);
      if !session.goaled && goal { Declare(sent); }
    }
  }

  // ---------------------------------------------------------------- any interleaving of any number of slots

  datatype Run = Run(slots: seq<Slot>, tally: Tally)

  datatype Happening = Happening(slot: nat, event: Event)

  function Next(r: Run, h: Happening): (t: Run)
    ensures |t.slots| == |r.slots|
  {
    if h.slot >= |r.slots| then r
    else
      var (s, t) := Step(r.slots[h.slot], r.tally, h.event);
      Run(r.slots[h.slot := s], t)
  }

  function After(r: Run, happenings: seq<Happening>): (t: Run)
    ensures |t.slots| == |r.slots|
    decreases |happenings|
  {
    if happenings == [] then r else After(Next(r, happenings[0]), happenings[1..])
  }

  predicate IsNewRun(r: Run) {
    r.tally == Tally(0, 0, 0, 0, 0) && forall i :: 0 <= i < |r.slots| ==> r.slots[i] == NEW_SLOT
  }

  /** What a slot contributes to each total. */
  datatype Share = Up | Away | Told | Items

  function ShareOf(s: Slot, which: Share): nat {
    match which
    case Up => if s.live then 1 else 0
    case Away => if s.beenUp && !s.live && !s.ended then 1 else 0
    case Told => if s.countedGoal && !s.tallyLost then 1 else 0
    case Items => s.itemsCounted
  }

  function Sum(slots: seq<Slot>, which: Share, n: nat): nat
    requires n <= |slots|
  {
    if n == 0 then 0 else Sum(slots, which, n - 1) + ShareOf(slots[n - 1], which)
  }

  function SumAll(slots: seq<Slot>, which: Share): nat {
    Sum(slots, which, |slots|)
  }

  lemma {:induction false} SumWithOneChanged(slots: seq<Slot>, which: Share, n: nat, i: nat, s: Slot)
    requires i < |slots| && n <= |slots|
    ensures Sum(slots[i := s], which, n)
            == Sum(slots, which, n) + if i < n then ShareOf(s, which) - ShareOf(slots[i], which) else 0
  {
    if n > 0 { SumWithOneChanged(slots, which, n - 1, i, s); }
  }

  /** A slot is never both up and gone for good, and has counted its goal if it knows it has one. */
  predicate SlotFits(s: Slot) {
    && (s.live ==> s.beenUp && !s.ended)
    && (s.goaled <==> s.countedGoal)
    && (s.tallyLost ==> s.countedGoal)
  }

  ghost predicate Balanced(r: Run) {
    && (forall i :: 0 <= i < |r.slots| ==> SlotFits(r.slots[i]))
    && r.tally.connected == SumAll(r.slots, Up)
    && r.tally.drops == r.tally.reconnects + SumAll(r.slots, Away)
    && r.tally.goaled == SumAll(r.slots, Told)
    && r.tally.items == SumAll(r.slots, Items)
  }

  /** One event moves each total by exactly what it moves the slot's share of it. */
  lemma {:induction false} StepIsBalanced(s: Slot, t: Tally, e: Event)
    requires SlotFits(s)
    ensures var (s', t') := Step(s, t, e);
            && SlotFits(s')
            && t'.connected - t.connected == ShareOf(s', Up) - ShareOf(s, Up)
            && (t'.drops - t'.reconnects) - (t.drops - t.reconnects) == ShareOf(s', Away) - ShareOf(s, Away)
            && t'.goaled - t.goaled == ShareOf(s', Told) - ShareOf(s, Told)
            && t'.items - t.items == ShareOf(s', Items) - ShareOf(s, Items)
  {
  }

  lemma {:induction false} NextKeepsBalanced(r: Run, h: Happening)
    requires Balanced(r)
    ensures Balanced(Next(r, h))
  {
    if h.slot < |r.slots| {
      var (s, t) := Step(r.slots[h.slot], r.tally, h.event);
      StepIsBalanced(r.slots[h.slot], r.tally, h.event);
      SumWithOneChanged(r.slots, Up, |r.slots|, h.slot, s);
      SumWithOneChanged(r.slots, Away, |r.slots|, h.slot, s);
      SumWithOneChanged(r.slots, Told, |r.slots|, h.slot, s);
      SumWithOneChanged(r.slots, Items, |r.slots|, h.slot, s);
    }
  }

  lemma {:induction false} RunsKeepBalanced(r: Run, happenings: seq<Happening>)
    requires Balanced(r)
    ensures Balanced(After(r, happenings))
    decreases |happenings|
  {
    if happenings != [] {
      NextKeepsBalanced(r, happenings[0]);
      RunsKeepBalanced(Next(r, happenings[0]), happenings[1..]);
    }
  }

  lemma {:induction false} NewSumsAreZero(slots: seq<Slot>, which: Share, n: nat)
    requires n <= |slots| && forall i :: 0 <= i < |slots| ==> slots[i] == NEW_SLOT
    ensures Sum(slots, which, n) == 0
  {
    if n > 0 { NewSumsAreZero(slots, which, n - 1); }
  }

  lemma {:induction false} NewRunIsBalanced(r: Run)
    requires IsNewRun(r)
    ensures Balanced(r)
  {
    NewSumsAreZero(r.slots, Up, |r.slots|);
    NewSumsAreZero(r.slots, Away, |r.slots|);
    NewSumsAreZero(r.slots, Told, |r.slots|);
    NewSumsAreZero(r.slots, Items, |r.slots|);
  }

  /**
   However the slots' connections interleave: the live count is the number of live guards; drops exceed
   reconnects by exactly the slots that were up and are down against their will; the goal tally is the
   number of slots that got theirs told; and the item total is what the slots have counted.
   */
  lemma {:induction false} TotalsAddUp(r: Run, happenings: seq<Happening>)
    requires IsNewRun(r)
    ensures var t := After(r, happenings);
            && t.tally.connected == SumAll(t.slots, Up)
            && t.tally.drops - t.tally.reconnects == SumAll(t.slots, Away)
            && t.tally.goaled == SumAll(t.slots, Told)
            && t.tally.items == SumAll(t.slots, Items)
  {
    NewRunIsBalanced(r);
    RunsKeepBalanced(r, happenings);
  }

  /** The slot wins its goal and the message saying so is not sent. */
  predicate FailsToAnnounce(s: Slot, e: Event) {
    && !s.countedGoal
    && match e
       case Open(_, finishes, sent) => !s.live && !s.ended && finishes && !sent
       case Receive(_, goal, sent) => s.live && goal && !sent
       case _ => false
  }

  /** Somewhere in the run slot `i` won its goal without managing to say so. */
  ghost predicate FailedToAnnounce(r: Run, happenings: seq<Happening>, i: nat)
    decreases |happenings|
  {
    && happenings != [] && i < |r.slots|
    && (|| (happenings[0].slot == i && FailsToAnnounce(r.slots[i], happenings[0].event))
        || FailedToAnnounce(Next(r, happenings[0]), happenings[1..], i))
  }

  lemma {:induction false} StepLosesIff(s: Slot, t: Tally, e: Event)
    requires SlotFits(s)
    ensures Step(s, t, e).0.tallyLost <==> s.tallyLost || FailsToAnnounce(s, e)
  {
  }

  /** What is lost stays lost, and nothing is lost otherwise. */
  lemma {:induction false} LostIff(r: Run, happenings: seq<Happening>, i: nat)
    requires Balanced(r) && i < |r.slots|
    ensures After(r, happenings).slots[i].tallyLost <==> r.slots[i].tallyLost || FailedToAnnounce(r, happenings, i)
    decreases |happenings|
  {
    if happenings != [] {
      var h := happenings[0];
      NextKeepsBalanced(r, h);
      if h.slot < |r.slots| { StepLosesIff(r.slots[h.slot], r.tally, h.event); }
      LostIff(Next(r, h), happenings[1..], i);
    }
  }

  lemma {:induction false} SumIsFullIff(slots: seq<Slot>, n: nat)
    requires n <= |slots|
    ensures Sum(slots, Told, n) <= n
    ensures Sum(slots, Told, n) == n <==> forall i :: 0 <= i < n ==> slots[i].countedGoal && !slots[i].tallyLost
  {
    if n > 0 { SumIsFullIff(slots, n - 1); }
  }

  /** The terminating condition on the slots themselves: each has counted its goal and managed to say so. */
  lemma {:induction false} EndsIffAllTold(r: Run, happenings: seq<Happening>)
    requires IsNewRun(r)
    ensures var t := After(r, happenings);
            t.tally.goaled >= |r.slots| <==>
              forall i :: 0 <= i < |r.slots| ==> t.slots[i].countedGoal && !FailedToAnnounce(r, happenings, i)
  {
    var t := After(r, happenings);
    NewRunIsBalanced(r);
    RunsKeepBalanced(r, happenings);
    SumIsFullIff(t.slots, |t.slots|);
    forall i | 0 <= i < |r.slots| ensures t.slots[i].tallyLost <==> FailedToAnnounce(r, happenings, i) {
      LostIff(r, happenings, i);
    }
  }

  lemma {:induction false} AfterConcat(r: Run, first: seq<Happening>, second: seq<Happening>)
    ensures After(r, first + second) == After(After(r, first), second)
    decreases |first|
  {
    if first == [] {
      assert first + second == second;
    } else {
      assert (first + second)[1..] == first[1..] + second;
      AfterConcat(Next(r, first[0]), first[1..], second);
    }
  }

  /**
   One failed announcement, and whatever happens after it, however often the slot comes back, the run never
   terminates.
   */
  lemma {:induction false} FailedAnnouncementsAreLost(r: Run, happenings: seq<Happening>, more: seq<Happening>, i: nat)
    requires IsNewRun(r) && i < |r.slots| && FailedToAnnounce(r, happenings, i)
    ensures After(r, happenings + more).slots[i].tallyLost
    ensures After(r, happenings + more).tally.goaled < |r.slots|
  {
    var t := After(r, happenings + more);
    NewRunIsBalanced(r);
    RunsKeepBalanced(r, happenings);
    AfterConcat(r, happenings, more);
    LostIff(r, happenings, i);
    LostIff(After(r, happenings), more, i);
    RunsKeepBalanced(r, happenings + more);
    SumIsFullIff(t.slots, |t.slots|);
  }

  // ---------------------------------------------------------------- items, once each

  /** Every replay that came with a connect held at least what the slot had counted. */
  ghost predicate RepliesInFull(r: Run, happenings: seq<Happening>)
    decreases |happenings|
  {
    happenings != [] ==>
      && (var h := happenings[0];
          h.slot < |r.slots| && h.event.Open? && !r.slots[h.slot].live && !r.slots[h.slot].ended ==>
            h.event.replayed >= r.slots[h.slot].itemsCounted)
      && RepliesInFull(Next(r, happenings[0]), happenings[1..])
  }

  /** Each entry of the slot's history has been counted exactly once. */
  predicate CountsOnce(s: Slot) {
    s.itemsCounted == s.seen && (s.live ==> s.position == s.seen)
  }

  lemma {:induction false} StepCountsOnce(s: Slot, t: Tally, e: Event)
    requires CountsOnce(s)
    requires e.Open? && !s.live && !s.ended ==> e.replayed >= s.itemsCounted
    ensures CountsOnce(Step(s, t, e).0)
  {
  }

  ghost predicate AllCountOnce(r: Run) {
    forall i :: 0 <= i < |r.slots| ==> CountsOnce(r.slots[i])
  }

  /** With every replay arriving whole at its connect, each slot counts each entry of its history once. */
  lemma {:induction false} ItemsAreCountedOnce(r: Run, happenings: seq<Happening>)
    requires AllCountOnce(r) && RepliesInFull(r, happenings)
    ensures AllCountOnce(After(r, happenings))
    decreases |happenings|
  {
    if happenings != [] {
      var h := happenings[0];
      if h.slot < |r.slots| { StepCountsOnce(r.slots[h.slot], r.tally, h.event); }
      ItemsAreCountedOnce(Next(r, h), happenings[1..]);
    }
  }

  /**
   For one reconnect: a slot that has counted `counted` entries, is replayed `batch` of them with its
   connect and receives `later` more after it, counts every entry once if and only if the batch held
   everything already counted, or nothing came later.
   */
  lemma {:induction false} CountedOnceIff(s: Slot, t: Tally, batch: nat, later: nat)
    requires SlotFits(s) && CountsOnce(s) && !s.live && !s.ended && !s.goaled
    ensures var (s1, t1) := Step(s, t, Open(batch, false, true));
            var (s2, t2) := Step(s1, t1, Receive(later, false, true));
            s2.itemsCounted == s2.seen <==> batch >= s.itemsCounted || later == 0
  {
  }

  // ---------------------------------------------------------------- over runs, exactly when

  /** Items come to a connection that is still behind what the slot has counted: its replay was not with its connect. */
  predicate IsLate(s: Slot, e: Event) {
    e.Receive? && s.live && e.items > 0 && s.position < s.itemsCounted
  }

  /** The slot has counted its history exactly, of which this connection has delivered no more than any has. */
  predicate IsExact(s: Slot) {
    s.itemsCounted == s.seen && s.position <= s.seen
  }

  ghost predicate AllExact(r: Run) {
    forall i :: 0 <= i < |r.slots| ==> IsExact(r.slots[i])
  }

  lemma {:induction false} StepIsExactIff(s: Slot, t: Tally, e: Event)
    requires IsExact(s)
    ensures IsExact(Step(s, t, e).0) <==> !IsLate(s, e)
    ensures Step(s, t, e).0.itemsCounted == Step(s, t, e).0.seen <==> !IsLate(s, e)
  {
  }

  predicate HappensLate(r: Run, h: Happening) {
    h.slot < |r.slots| && IsLate(r.slots[h.slot], h.event)
  }

  ghost predicate NeverLate(r: Run, happenings: seq<Happening>)
    decreases |happenings|
  {
    happenings != [] ==> !HappensLate(r, happenings[0]) && NeverLate(Next(r, happenings[0]), happenings[1..])
  }

  /** Every slot's count is its history's length. */
  ghost predicate CountsMatch(r: Run) {
    forall i :: 0 <= i < |r.slots| ==> r.slots[i].itemsCounted == r.slots[i].seen
  }

  /** So it is now and at every later moment of the run. */
  ghost predicate AlwaysMatch(r: Run, happenings: seq<Happening>)
    decreases |happenings|
  {
    CountsMatch(r) && (happenings != [] ==> AlwaysMatch(Next(r, happenings[0]), happenings[1..]))
  }

  lemma {:induction false} NextIsExactIff(r: Run, h: Happening)
    requires AllExact(r)
    ensures if HappensLate(r, h) then !CountsMatch(Next(r, h)) else AllExact(Next(r, h))
  {
    if h.slot < |r.slots| {
      StepIsExactIff(r.slots[h.slot], r.tally, h.event);
      assert Next(r, h).slots[h.slot] == Step(r.slots[h.slot], r.tally, h.event).0;
    }
  }

  /**
   At every moment of a run each slot has counted each entry of its history once, if and only if no connection is ever
   given items while it is behind what the slot has counted.
   */
  lemma {:induction false} AlwaysMatchIff(r: Run, happenings: seq<Happening>)
    requires AllExact(r)
    ensures AlwaysMatch(r, happenings) <==> NeverLate(r, happenings)
    decreases |happenings|
  {
    if happenings != [] {
      NextIsExactIff(r, happenings[0]);
      if !HappensLate(r, happenings[0]) {
        AlwaysMatchIff(Next(r, happenings[0]), happenings[1..]);
      }
    }
  }

  lemma {:induction false} NewRunsAlwaysMatchIff(r: Run, happenings: seq<Happening>)
    requires IsNewRun(r)
    ensures AlwaysMatch(r, happenings) <==> NeverLate(r, happenings)
  {
    AlwaysMatchIff(r, happenings);
  }
}
