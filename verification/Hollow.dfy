/**
 Exactly when a room can show a directory without its seed: the sweep of abandoned attempts looks at how long ago a
 directory was modified, and an attempt that has copied its seed does not look at it again.
 */
module Hollow {
  import opened Rooms
  import opened Storage

  ghost predicate IsHollow(w: World) {
    w.disk.room == Some(Dir(None))
  }

  /** No time passes. */
  ghost predicate HasNoTick(labels: seq<Label>) {
    forall i :: 0 <= i < |labels| ==> !labels[i].Tick?
  }

  /** An attempt's rename will find the place free, or the deletion can clear it. */
  predicate CanBeClear(w: World) {
    w.disk.room.None? || w.row.Some?
  }

  /** An exposed attempt, and a place its directory can go. */
  ghost predicate IsAtRisk(w: World) {
    CanBeClear(w) && exists n :: Exposed(w, n)
  }

  // ---------------------------------------------------------------- at no risk

  /** An attempt's call makes no directory older, and moves it past its copy only with a new one. */
  lemma {:induction false} CallsExposeNothing(seed: Content, w: World, nonce: Nonce, o: Outcome, n: Nonce)
    requires !Exposed(w, n)
    ensures !Exposed(Call(seed, w, nonce, o), n)
  {
    if n == nonce && n in w.attempts && w.attempts[n].stage.CopySeed? {
      var w' := Call(seed, w, nonce, o);
      assert n in w'.disk.temps ==> w'.disk.temps[n].modified == w.now;
    }
  }

  /** Without time passing nothing grows old. */
  lemma {:induction false} NothingGrowsOld(seed: Content, w: World, l: Label)
    requires IsUnexposed(w) && !l.Tick?
    ensures IsUnexposed(Next(seed, w, l))
  {
    forall n ensures !Exposed(Next(seed, w, l), n) {
      assert !Exposed(w, n);
      if l.Proceed? { CallsExposeNothing(seed, w, l.nonce, l.outcome, n); }
    }
  }

  lemma {:induction false} UnexposedIsNeverHollow(seed: Content, w: World, labels: seq<Label>)
    requires Sound(seed, w) && IsUnexposed(w) && HasNoTick(labels)
    ensures !IsHollow(Run(seed, w, labels))
    decreases |labels|
  {
    if labels != [] {
      NothingGrowsOld(seed, w, labels[0]);
      NextKeepsSound(seed, w, labels[0]);
      UnexposedIsNeverHollow(seed, Next(seed, w, labels[0]), labels[1..]);
    }
  }

  /** A complete directory whose row is gone, with nobody deleting it. */
  predicate IsLeftBehind(seed: Content, w: World) {
    w.row.None? && w.deleter == NotDeleting && w.disk.room == Some(Dir(Some(seed)))
  }

  lemma {:induction false} CallsLeaveItThere(seed: Content, w: World, nonce: Nonce, o: Outcome)
    requires IsLeftBehind(seed, w)
    ensures IsLeftBehind(seed, Call(seed, w, nonce, o))
  {
  }

  lemma {:induction false} NothingMovesIt(seed: Content, w: World, l: Label)
    requires IsLeftBehind(seed, w)
    ensures IsLeftBehind(seed, Next(seed, w, l))
  {
    if l.Proceed? { CallsLeaveItThere(seed, w, l.nonce, l.outcome); }
  }

  /** It stays where it is: no rename replaces it, and nobody can delete it. */
  lemma {:induction false} LeftBehindForGood(seed: Content, w: World, labels: seq<Label>)
    requires IsLeftBehind(seed, w)
    ensures IsLeftBehind(seed, Run(seed, w, labels))
    decreases |labels|
  {
    if labels != [] {
      NothingMovesIt(seed, w, labels[0]);
      LeftBehindForGood(seed, Next(seed, w, labels[0]), labels[1..]);
    }
  }

  // ---------------------------------------------------------------- at risk

  /** The seed swept and what is left renamed into place. */
  lemma {:induction false} SweptThenRenamed(seed: Content, w: World, n: Nonce)
    requires Exposed(w, n) && w.attempts[n].stage.RenameTemp? && w.disk.room.None?
    ensures IsHollow(Run(seed, w, [SweepSeed(n)] + ([Proceed(n, Works)] + [])))
  {
    var w1 := Next(seed, w, SweepSeed(n));
    assert w1.disk.temps[n].dir == Dir(None) && w1.disk.room.None?;
    RunStep(seed, w1, Proceed(n, Works), []);
    RunStep(seed, w, SweepSeed(n), [Proceed(n, Works)] + []);
  }

  lemma {:induction false} ExposedIsShown(seed: Content, w: World, n: Nonce) returns (labels: seq<Label>)
    requires Exposed(w, n) && w.disk.room.None? && w.disk.temps[n].dir.seed.Some?
    ensures HasNoTick(labels) && IsHollow(Run(seed, w, labels))
  {
    var swept := [SweepSeed(n)] + ([Proceed(n, Works)] + []);
    if w.attempts[n].stage.RenameTemp? {
      labels := swept;
      SweptThenRenamed(seed, w, n);
    } else {
      var synced := Next(seed, w, Proceed(n, Works));
      assert Exposed(synced, n) && synced.attempts[n].stage.RenameTemp?;
      labels := [Proceed(n, Works)] + swept;
      SweptThenRenamed(seed, synced, n);
      RunStep(seed, w, Proceed(n, Works), swept);
    }
  }

  /** Whoever holds the lock loses it. */
  function Unlocking(w: World): Label {
    if w.lock.HeldBy? then CutSession(w.lock.nonce) else CrashDeleter
  }

  /** The world with its lock free and nobody deleting. */
  function Unlocked(w: World): World {
    w.(lock := Free, deleter := NotDeleting, cut := if w.lock.HeldBy? then w.cut + {w.lock.nonce} else w.cut)
  }

  lemma {:induction false} CanBeUnlocked(seed: Content, w: World, rest: seq<Label>)
    ensures Run(seed, w, [Unlocking(w)] + ([CrashDeleter] + ([AskDelete] + rest)))
            == Run(seed, Unlocked(w).(deletionAsked := true), rest)
  {
    var w1 := if w.lock.HeldBy? then w.(cut := w.cut + {w.lock.nonce}, lock := Free) else Unlocked(w);
    assert Next(seed, w, Unlocking(w)) == w1;
    assert Next(seed, w1, CrashDeleter) == Unlocked(w);
    RunStep(seed, Unlocked(w), AskDelete, rest);
    RunStep(seed, w1, CrashDeleter, [AskDelete] + rest);
    RunStep(seed, w, Unlocking(w), [CrashDeleter] + ([AskDelete] + rest));
  }

  lemma {:induction false} CanBeTrashed(seed: Content, w: World)
    requires w.lock.Free? && w.deleter == NotDeleting && w.deletionAsked && w.row.Some?
    ensures var t := Run(seed, w, [Teardown] + ([LockForDeletion] + ([MoveToTrash] + [])));
            && t.disk.room.None? && t.disk.temps == w.disk.temps && t.attempts == w.attempts && t.now == w.now
  {
    var w1 := w.(deleter := ToLock, deleterCut := false);
    var w2 := w1.(deleter := ToTrash, lock := HeldByDeleter);
    assert Next(seed, w, Teardown) == w1 && Next(seed, w1, LockForDeletion) == w2;
    RunStep(seed, w2, MoveToTrash, []);
    RunStep(seed, w1, LockForDeletion, [MoveToTrash] + []);
    RunStep(seed, w, Teardown, [LockForDeletion] + ([MoveToTrash] + []));
  }

  /** The deletion of a room, whoever holds its lock, as far as the trash. */
  lemma {:induction false} CanBeCleared(seed: Content, w: World) returns (labels: seq<Label>)
    requires w.row.Some?
    ensures HasNoTick(labels)
    ensures var t := Run(seed, w, labels);
            && t.disk.room.None? && t.disk.temps == w.disk.temps && t.attempts == w.attempts && t.now == w.now
  {
    var rest := [Teardown] + ([LockForDeletion] + ([MoveToTrash] + []));
    CanBeUnlocked(seed, w, rest);
    CanBeTrashed(seed, Unlocked(w).(deletionAsked := true));
    labels := [Unlocking(w)] + ([CrashDeleter] + ([AskDelete] + rest));
  }

  lemma {:induction false} RiskIsReal(seed: Content, w: World) returns (labels: seq<Label>)
    requires Sound(seed, w) && IsAtRisk(w)
    ensures HasNoTick(labels) && IsHollow(Run(seed, w, labels))
  {
    var n :| Exposed(w, n);
    assert AttemptFits(seed, w, n);
    if w.disk.room.None? {
      labels := ExposedIsShown(seed, w, n);
    } else {
      var before := CanBeCleared(seed, w);
      var t := Run(seed, w, before);
      assert Exposed(t, n);
      var after := ExposedIsShown(seed, t, n);
      labels := before + after;
      RunConcat(seed, w, before, after);
    }
  }

  // ---------------------------------------------------------------- exactly when

  /** Only a room with a row is ever being deleted. */
  predicate DeletesARow(w: World) {
    w.row.None? ==> w.deleter == NotDeleting
  }

  /**
   From a world that keeps the laws, a directory without its seed can be shown before any time passes if and only if
   some attempt past its copy has a directory as old as the sweep's age, and its place is free or can be freed.
   */
  lemma {:induction false} HollowIff(seed: Content, w: World)
    requires Sound(seed, w) && DeletesARow(w)
    ensures (exists labels: seq<Label> :: HasNoTick(labels) && IsHollow(Run(seed, w, labels))) <==> IsAtRisk(w)
  {
    if IsAtRisk(w) {
      var labels := RiskIsReal(seed, w);
    } else {
      forall labels: seq<Label> | HasNoTick(labels) ensures !IsHollow(Run(seed, w, labels)) {
        if IsUnexposed(w) {
          UnexposedIsNeverHollow(seed, w, labels);
        } else {
          LeftBehindForGood(seed, w, labels);
        }
      }
    }
  }

  lemma {:induction false} NextDeletesARow(seed: Content, w: World, l: Label)
    requires DeletesARow(w)
    ensures DeletesARow(Next(seed, w, l))
  {
    if l.Proceed? { CallsKeepTheRow(seed, w, l.nonce, l.outcome); }
  }

  lemma {:induction false} CallsKeepTheRow(seed: Content, w: World, nonce: Nonce, o: Outcome)
    ensures var t := Call(seed, w, nonce, o); (t.row.None? <==> w.row.None?) && t.deleter == w.deleter
  {
  }

  lemma {:induction false} RunsDeleteARow(seed: Content, w: World, labels: seq<Label>)
    requires DeletesARow(w)
    ensures DeletesARow(Run(seed, w, labels))
    decreases |labels|
  {
    if labels != [] {
      NextDeletesARow(seed, w, labels[0]);
      RunsDeleteARow(seed, Next(seed, w, labels[0]), labels[1..]);
    }
  }

  /** The same of whatever world a run from a new room has reached with nothing exposed on the way. */
  lemma {:induction false} ReachedHollowIff(seed: Content, w: World, labels: seq<Label>, l: Label)
    requires IsNew(w) && StaysUnexposed(seed, w, labels)
    ensures var t := Next(seed, Run(seed, w, labels), l);
            && IsSafe(seed, t)
            && ((exists more: seq<Label> :: HasNoTick(more) && IsHollow(Run(seed, t, more))) <==> IsAtRisk(t))
  {
    var u := Run(seed, w, labels);
    RunsKeepSound(seed, w, labels);
    EndsUnexposed(seed, w, labels);
    NextKeepsSound(seed, u, l);
    RunsDeleteARow(seed, w, labels);
    NextDeletesARow(seed, u, l);
    HollowIff(seed, Next(seed, u, l));
  }

  lemma {:induction false} EndsUnexposed(seed: Content, w: World, labels: seq<Label>)
    requires StaysUnexposed(seed, w, labels)
    ensures IsUnexposed(Run(seed, w, labels))
    decreases |labels|
  {
    if labels != [] {
      EndsUnexposed(seed, Next(seed, w, labels[0]), labels[1..]);
    }
  }
}
