/**
 A load run told by its happenings alone: who is up, who has won, what each slot has been sent and what it has
 counted, said without any state. The objects' counters are what this chronicle says.
 */
module Chronicle {
  import opened Counters

  // ---------------------------------------------------------------- what has happened to one slot

  /** Slot `i` has a connection: the last one it was given has neither been lost nor let go. */
  predicate IsUp(hs: seq<Happening>, i: nat)
    decreases |hs|, 2
  {
    hs != [] &&
    var before, h := hs[..|hs| - 1], hs[|hs| - 1];
    if h.slot != i then IsUp(before, i)
    else
      match h.event
      case Open(_, _, sent) => IsUp(before, i) || (Connects(before, h, i) && (HasGoal(hs, i) ==> sent))
      case Receive(_, goal, sent) => IsUp(before, i) && (goal && !HasGoal(before, i) ==> sent)
      case _ => false
  }

  /** It has let its connection go, and will not be back. */
  predicate IsGone(hs: seq<Happening>, i: nat)
    decreases |hs|, 0
  {
    hs != [] &&
    var before, h := hs[..|hs| - 1], hs[|hs| - 1];
    IsGone(before, i) || (h == Happening(i, LetGo) && IsUp(before, i))
  }

  /** A connection is established for it. */
  predicate Connects(before: seq<Happening>, h: Happening, i: nat)
    decreases |before|, 3
  {
    h.slot == i && h.event.Open? && !IsUp(before, i) && !IsGone(before, i)
  }

  /** It is given its goal: with a connection, or over the one it has. */
  predicate GivesGoal(before: seq<Happening>, h: Happening, i: nat)
    decreases |before|, 4
  {
    || (Connects(before, h, i) && h.event.finishes)
    || (h.slot == i && h.event.Receive? && h.event.goal && IsUp(before, i))
  }

  /** It has been given its goal. */
  predicate HasGoal(hs: seq<Happening>, i: nat)
    decreases |hs|, 1
  {
    hs != [] &&
    var before, h := hs[..|hs| - 1], hs[|hs| - 1];
    HasGoal(before, i) || GivesGoal(before, h, i)
  }

  /** How many connections it has had. */
  function Connections(hs: seq<Happening>, i: nat): nat {
    if hs == [] then 0
    else
      var before, h := hs[..|hs| - 1], hs[|hs| - 1];
      Connections(before, i) + if Connects(before, h, i) then 1 else 0
  }

  /** How many of them it has lost: it had one, or was just given one, and has none, without letting it go. */
  function Losses(hs: seq<Happening>, i: nat): nat {
    if hs == [] then 0
    else
      var before, h := hs[..|hs| - 1], hs[|hs| - 1];
      Losses(before, i)
      + if (IsUp(before, i) || Connects(before, h, i)) && !IsUp(hs, i) && !h.event.LetGo? then 1 else 0
  }

  /** How much of its history the connection it has was sent, whether with it or later. */
  function Delivered(hs: seq<Happening>, i: nat): nat {
    if !IsUp(hs, i) then 0
    else
      var before, h := hs[..|hs| - 1], hs[|hs| - 1];
      if Connects(before, h, i) then h.event.replayed
      else Delivered(before, i) + if h.slot == i && h.event.Receive? then h.event.items else 0
  }

  /** How much one connection or another was sent, the last batch of one that ended with it included. */
  function Reached(hs: seq<Happening>, i: nat): nat {
    if hs == [] then 0
    else
      var before, h := hs[..|hs| - 1], hs[|hs| - 1];
      if Connects(before, h, i) then Most(Reached(before, i), h.event.replayed)
      else if h.slot == i && h.event.Receive? && IsUp(before, i) then
        Most(Reached(before, i), Delivered(before, i) + h.event.items)
      else Reached(before, i)
  }

  /** How many items it has counted: a connection's replay as far as it goes further, and all that comes after. */
  function ItemsOf(hs: seq<Happening>, i: nat): nat {
    if hs == [] then 0
    else
      var before, h := hs[..|hs| - 1], hs[|hs| - 1];
      if Connects(before, h, i) then Most(ItemsOf(before, i), h.event.replayed)
      else if h.slot == i && h.event.Receive? && IsUp(before, i) then ItemsOf(before, i) + h.event.items
      else ItemsOf(before, i)
  }

  /** The message a goal is announced with went out. */
  predicate IsSent(e: Event) {
    (e.Open? || e.Receive?) && e.sent
  }

  /** Its goal was announced when it was first given it. */
  predicate IsTold(hs: seq<Happening>, i: nat) {
    hs != [] &&
    var before, h := hs[..|hs| - 1], hs[|hs| - 1];
    IsTold(before, i) || (!HasGoal(before, i) && GivesGoal(before, h, i) && IsSent(h.event))
  }

  // ---------------------------------------------------------------- the slots are what the chronicle says

  ghost predicate Matches(s: Slot, hs: seq<Happening>, i: nat) {
    && s.live == IsUp(hs, i) && s.ended == IsGone(hs, i) && s.beenUp == (Connections(hs, i) > 0)
    && s.goaled == HasGoal(hs, i) && s.countedGoal == HasGoal(hs, i)
    && s.tallyLost == (HasGoal(hs, i) && !IsTold(hs, i))
    && s.itemsCounted == ItemsOf(hs, i) && s.position == Delivered(hs, i) && s.seen == Reached(hs, i)
  }

  lemma {:induction false} ToldHasGoal(hs: seq<Happening>, i: nat)
    ensures IsTold(hs, i) ==> HasGoal(hs, i)
    decreases |hs|
  {
    if hs != [] { ToldHasGoal(hs[..|hs| - 1], i); }
  }

  lemma {:induction false} StepMatches(s: Slot, t: Tally, before: seq<Happening>, h: Happening)
    requires Matches(s, before, h.slot)
    ensures Matches(Step(s, t, h.event).0, before + [h], h.slot)
  {
    assert (before + [h])[..|before|] == before;
    assert HasGoal(before + [h], h.slot) == (HasGoal(before, h.slot) || GivesGoal(before, h, h.slot));
    ToldHasGoal(before, h.slot);
  }

  lemma {:induction false} OthersMatch(s: Slot, before: seq<Happening>, h: Happening, i: nat)
    requires Matches(s, before, i) && h.slot != i
    ensures Matches(s, before + [h], i)
  {
    assert (before + [h])[..|before|] == before;
  }

  // ---------------------------------------------------------------- the totals are what the chronicle says

  /** What one slot's story adds to each total. */
  datatype Column = Present | Returns | Drops | Wins | Counts

  function Entry(hs: seq<Happening>, i: nat, column: Column): nat {
    match column
    case Present => if IsUp(hs, i) then 1 else 0
    case Returns => if Connections(hs, i) > 0 then Connections(hs, i) - 1 else 0
    case Drops => Losses(hs, i)
    case Wins => if IsTold(hs, i) then 1 else 0
    case Counts => ItemsOf(hs, i)
  }

  /** Over the first `n` slots. */
  function Total(hs: seq<Happening>, n: nat, column: Column): nat {
    if n == 0 then 0 else Total(hs, n - 1, column) + Entry(hs, n - 1, column)
  }

  lemma {:induction false} OtherEntriesStay(before: seq<Happening>, h: Happening, i: nat, column: Column)
    requires h.slot != i
    ensures Entry(before + [h], i, column) == Entry(before, i, column)
  {
    assert (before + [h])[..|before|] == before;
    assert IsUp(before + [h], i) == IsUp(before, i);
    assert Connections(before + [h], i) == Connections(before, i);
    assert Losses(before + [h], i) == Losses(before, i);
    assert IsTold(before + [h], i) == IsTold(before, i);
    assert ItemsOf(before + [h], i) == ItemsOf(before, i);
  }

  /** One happening moves each total by what it moves its own slot's entry. */
  lemma {:induction false} TotalMoves(before: seq<Happening>, h: Happening, n: nat, column: Column)
    ensures Total(before + [h], n, column)
            == Total(before, n, column)
               + if h.slot < n then Entry(before + [h], h.slot, column) - Entry(before, h.slot, column) else 0
  {
    if n > 0 {
      TotalMoves(before, h, n - 1, column);
      if h.slot != n - 1 { OtherEntriesStay(before, h, n - 1, column); }
    }
  }

  /** The tally is what the chronicle adds up to. */
  ghost predicate TallyMatches(t: Tally, hs: seq<Happening>, n: nat) {
    && t.connected == Total(hs, n, Present)
    && t.reconnects == Total(hs, n, Returns)
    && t.drops == Total(hs, n, Drops)
    && t.goaled == Total(hs, n, Wins)
    && t.items == Total(hs, n, Counts)
  }

  lemma {:induction false} StepTallies(s: Slot, t: Tally, before: seq<Happening>, h: Happening)
    requires Matches(s, before, h.slot)
    ensures var t', hs, i := Step(s, t, h.event).1, before + [h], h.slot;
            && t'.connected - t.connected == Entry(hs, i, Present) - Entry(before, i, Present)
            && t'.reconnects - t.reconnects == Entry(hs, i, Returns) - Entry(before, i, Returns)
            && t'.drops - t.drops == Entry(hs, i, Drops) - Entry(before, i, Drops)
            && t'.goaled - t.goaled == Entry(hs, i, Wins) - Entry(before, i, Wins)
            && t'.items - t.items == Entry(hs, i, Counts) - Entry(before, i, Counts)
  {
    assert (before + [h])[..|before|] == before;
    assert HasGoal(before + [h], h.slot) == (HasGoal(before, h.slot) || GivesGoal(before, h, h.slot));
    StepMatches(s, t, before, h);
    ToldHasGoal(before, h.slot);
  }

  ghost predicate RunMatches(r: Run, hs: seq<Happening>) {
    && (forall i :: 0 <= i < |r.slots| ==> Matches(r.slots[i], hs, i))
    && TallyMatches(r.tally, hs, |r.slots|)
  }

  lemma {:induction false} TallyMoves(r: Run, before: seq<Happening>, h: Happening)
    requires RunMatches(r, before)
    ensures TallyMatches(Next(r, h).tally, before + [h], |r.slots|)
  {
    TotalMoves(before, h, |r.slots|, Present);
    TotalMoves(before, h, |r.slots|, Returns);
    TotalMoves(before, h, |r.slots|, Drops);
    TotalMoves(before, h, |r.slots|, Wins);
    TotalMoves(before, h, |r.slots|, Counts);
    if h.slot < |r.slots| { StepTallies(r.slots[h.slot], r.tally, before, h); }
  }

  lemma {:induction false} NextMatches(r: Run, before: seq<Happening>, h: Happening)
    requires RunMatches(r, before)
    ensures RunMatches(Next(r, h), before + [h])
  {
    TallyMoves(r, before, h);
    forall i | 0 <= i < |r.slots|
      ensures Matches(Next(r, h).slots[i], before + [h], i)
    {
      if i == h.slot { StepMatches(r.slots[i], r.tally, before, h); } else { OthersMatch(r.slots[i], before, h, i); }
    }
  }

  lemma {:induction false} NothingTotals(n: nat, column: Column)
    ensures Total([], n, column) == 0
  {
    if n > 0 { NothingTotals(n - 1, column); }
  }

  lemma {:induction false} NewRunMatches(r: Run)
    requires IsNewRun(r)
    ensures RunMatches(r, [])
  {
    NothingTotals(|r.slots|, Present);
    NothingTotals(|r.slots|, Returns);
    NothingTotals(|r.slots|, Drops);
    NothingTotals(|r.slots|, Wins);
    NothingTotals(|r.slots|, Counts);
  }

  /**
   Whatever happens to any number of slots in any order: every slot's state and every total is what the happenings
   say, connection by connection, goal by goal and item by item.
   */
  lemma {:induction false} RunsMatch(r: Run, hs: seq<Happening>)
    requires IsNewRun(r)
    ensures RunMatches(After(r, hs), hs)
    decreases |hs|
  {
    if hs == [] {
      NewRunMatches(r);
    } else {
      var before, h := hs[..|hs| - 1], hs[|hs| - 1];
      RunsMatch(r, before);
      NextMatches(After(r, before), before, h);
      assert before + [h] == hs;
      AfterConcat(r, before, [h]);
      assert After(After(r, before), [h]) == Next(After(r, before), h);
    }
  }

  // ---------------------------------------------------------------- when a run ends

  /** Happening `k` gives slot `i` its goal. */
  predicate GivesGoalAt(hs: seq<Happening>, i: nat, k: nat)
    requires k < |hs|
  {
    GivesGoal(hs[..k], hs[k], i)
  }

  /** It is the first to do so, and is announced. */
  ghost predicate FirstIsSent(hs: seq<Happening>, i: nat, k: nat)
    requires k < |hs|
  {
    GivesGoalAt(hs, i, k) && IsSent(hs[k].event) && forall j: nat :: j < k ==> !GivesGoalAt(hs, i, j)
  }

  /** Slot `i` was given its goal, and the first time it was, the announcement went out. */
  ghost predicate AnnouncedAtFirst(hs: seq<Happening>, i: nat) {
    exists k: nat :: k < |hs| && FirstIsSent(hs, i, k)
  }

  lemma {:induction false} PrefixGives(hs: seq<Happening>, i: nat, n: nat, k: nat)
    requires k < n <= |hs|
    ensures GivesGoalAt(hs[..n], i, k) == GivesGoalAt(hs, i, k)
  {
    assert hs[..n][..k] == hs[..k];
  }

  lemma {:induction false} HasGoalIff(hs: seq<Happening>, i: nat)
    ensures HasGoal(hs, i) <==> exists k: nat :: k < |hs| && GivesGoalAt(hs, i, k)
    decreases |hs|
  {
    if hs != [] {
      var n := |hs| - 1;
      HasGoalIff(hs[..n], i);
      forall k: nat | k < n ensures GivesGoalAt(hs[..n], i, k) == GivesGoalAt(hs, i, k) { PrefixGives(hs, i, n, k); }
      assert GivesGoalAt(hs, i, n) == GivesGoal(hs[..n], hs[n], i);
      if HasGoal(hs[..n], i) {
        var k: nat :| k < n && GivesGoalAt(hs[..n], i, k);
        assert GivesGoalAt(hs, i, k);
      }
    }
  }

  lemma {:induction false} PrefixFirst(hs: seq<Happening>, i: nat, n: nat, k: nat)
    requires k < n <= |hs|
    ensures FirstIsSent(hs[..n], i, k) == FirstIsSent(hs, i, k)
  {
    PrefixGives(hs, i, n, k);
    forall j: nat | j < k ensures GivesGoalAt(hs[..n], i, j) == GivesGoalAt(hs, i, j) { PrefixGives(hs, i, n, j); }
  }

  lemma {:induction false} LastIsFirstIff(hs: seq<Happening>, i: nat)
    requires hs != []
    ensures FirstIsSent(hs, i, |hs| - 1)
            <==> !HasGoal(hs[..|hs| - 1], i) && GivesGoal(hs[..|hs| - 1], hs[|hs| - 1], i) && IsSent(hs[|hs| - 1].event)
  {
    var n := |hs| - 1;
    HasGoalIff(hs[..n], i);
    forall j: nat | j < n ensures GivesGoalAt(hs[..n], i, j) == GivesGoalAt(hs, i, j) { PrefixGives(hs, i, n, j); }
  }

  lemma {:induction false} ToldIff(hs: seq<Happening>, i: nat)
    ensures IsTold(hs, i) <==> AnnouncedAtFirst(hs, i)
    decreases |hs|
  {
    if hs != [] {
      var n := |hs| - 1;
      ToldIff(hs[..n], i);
      forall k: nat | k < n ensures FirstIsSent(hs[..n], i, k) == FirstIsSent(hs, i, k) { PrefixFirst(hs, i, n, k); }
      LastIsFirstIff(hs, i);
      if IsTold(hs[..n], i) {
        var k: nat :| k < n && FirstIsSent(hs[..n], i, k);
        assert FirstIsSent(hs, i, k);
      }
    }
  }

  /**
   A slot has counted its goal if and only if some happening gave it one: a connection it finishes with, or a
   batch that holds it over a connection it has, whether or not the announcement went out.
   */
  lemma {:induction false} GoalCountedIff(r: Run, hs: seq<Happening>, i: nat)
    requires IsNewRun(r) && i < |r.slots|
    ensures After(r, hs).slots[i].countedGoal <==> exists k: nat :: k < |hs| && GivesGoalAt(hs, i, k)
  {
    RunsMatch(r, hs);
    HasGoalIff(hs, i);
  }

  lemma {:induction false} TotalIsFullIff(hs: seq<Happening>, n: nat)
    ensures Total(hs, n, Wins) <= n
    ensures Total(hs, n, Wins) == n <==> forall i: nat :: i < n ==> IsTold(hs, i)
  {
    if n > 0 {
      TotalIsFullIff(hs, n - 1);
      assert Total(hs, n, Wins) == n <==> Total(hs, n - 1, Wins) == n - 1 && IsTold(hs, n - 1);
    }
  }

  /** A run's terminating condition is met if and only if every slot was given its goal and announced it at once. */
  lemma {:induction false} TerminatesIff(r: Run, hs: seq<Happening>)
    requires IsNewRun(r)
    ensures After(r, hs).tally.goaled >= |r.slots| <==> forall i: nat :: i < |r.slots| ==> AnnouncedAtFirst(hs, i)
  {
    RunsMatch(r, hs);
    TotalIsFullIff(hs, |r.slots|);
    if forall i: nat :: i < |r.slots| ==> AnnouncedAtFirst(hs, i) {
      forall i: nat | i < |r.slots| ensures IsTold(hs, i) {
        assert AnnouncedAtFirst(hs, i);
        ToldIff(hs, i);
      }
    } else {
      var i: nat :| i < |r.slots| && !AnnouncedAtFirst(hs, i);
      ToldIff(hs, i);
    }
  }

  /** A run that terminates stops nobody mid-play: every slot was given its goal, and has counted it. */
  lemma {:induction false} RunsEndOnlyWhenEverybodyHasGoaled(r: Run, hs: seq<Happening>, i: nat)
    requires IsNewRun(r) && i < |r.slots| && After(r, hs).tally.goaled >= |r.slots|
    ensures After(r, hs).slots[i].countedGoal && exists k: nat :: k < |hs| && GivesGoalAt(hs, i, k)
  {
    TerminatesIff(r, hs);
    assert AnnouncedAtFirst(hs, i);
    var k: nat :| k < |hs| && FirstIsSent(hs, i, k);
    GoalCountedIff(r, hs, i);
  }

  // ---------------------------------------------------------------- when its counts are right

  /** Every slot has counted exactly as much as some connection was sent of its history. */
  ghost predicate CountsRight(hs: seq<Happening>, n: nat) {
    forall i: nat :: i < n ==> ItemsOf(hs, i) == Reached(hs, i)
  }

  /** Happening `k` brings items over a connection that has been sent less than its slot has counted. */
  predicate ComesLate(hs: seq<Happening>, n: nat, k: nat)
    requires k < |hs|
  {
    var i := hs[k].slot;
    && i < n && hs[k].event.Receive? && hs[k].event.items > 0
    && IsUp(hs[..k], i) && Delivered(hs[..k], i) < ItemsOf(hs[..k], i)
  }

  ghost predicate RightAt(hs: seq<Happening>, n: nat, k: nat)
    requires k <= |hs|
  {
    CountsRight(hs[..k], n)
  }

  /** No connection has been sent more than any has. */
  lemma {:induction false} DeliveredIsReached(hs: seq<Happening>, i: nat)
    ensures Delivered(hs, i) <= Reached(hs, i)
    decreases |hs|
  {
    if hs != [] { DeliveredIsReached(hs[..|hs| - 1], i); }
  }

  lemma {:induction false} OneMoreIsRightIff(hs: seq<Happening>, n: nat)
    requires hs != [] && CountsRight(hs[..|hs| - 1], n)
    ensures CountsRight(hs, n) <==> !ComesLate(hs, n, |hs| - 1)
  {
    var before, h := hs[..|hs| - 1], hs[|hs| - 1];
    DeliveredIsReached(before, h.slot);
    if h.slot < n {
      assert ItemsOf(before, h.slot) == Reached(before, h.slot);
      assert ItemsOf(hs, h.slot) == Reached(hs, h.slot) <==> !ComesLate(hs, n, |hs| - 1);
    }
    forall i: nat | i < n && i != h.slot ensures ItemsOf(hs, i) == Reached(hs, i) {
      assert ItemsOf(before, i) == Reached(before, i);
    }
  }

  lemma {:induction false} PrefixLate(hs: seq<Happening>, n: nat, m: nat, k: nat)
    requires k < m <= |hs|
    ensures ComesLate(hs[..m], n, k) == ComesLate(hs, n, k)
  {
    assert hs[..m][..k] == hs[..k];
  }

  lemma {:induction false} PrefixRight(hs: seq<Happening>, n: nat, m: nat, k: nat)
    requires k <= m <= |hs|
    ensures RightAt(hs[..m], n, k) == RightAt(hs, n, k)
  {
    assert hs[..m][..k] == hs[..k];
  }

  /**
   At every moment every slot's count is right if and only if nothing ever comes late. How much each was sent and
   counted is what the slots of the run hold (`RunsMatch`).
   */
  lemma {:induction false} AlwaysRightIff(hs: seq<Happening>, n: nat)
    ensures (forall k: nat :: k <= |hs| ==> RightAt(hs, n, k)) <==> (forall k: nat :: k < |hs| ==> !ComesLate(hs, n, k))
    decreases |hs|
  {
    if hs == [] {
      assert hs[..0] == [] && CountsRight([], n);
    } else {
      var m := |hs| - 1;
      AlwaysRightIff(hs[..m], n);
      forall k: nat | k < m ensures ComesLate(hs[..m], n, k) == ComesLate(hs, n, k) { PrefixLate(hs, n, m, k); }
      forall k: nat | k <= m ensures RightAt(hs[..m], n, k) == RightAt(hs, n, k) { PrefixRight(hs, n, m, k); }
      assert hs[..|hs|] == hs;
      assert RightAt(hs, n, m) == CountsRight(hs[..m], n) && RightAt(hs, n, |hs|) == CountsRight(hs, n);
      if CountsRight(hs[..m], n) { OneMoreIsRightIff(hs, n); }
    }
  }
}
