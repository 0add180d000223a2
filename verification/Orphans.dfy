/**
 Whether a room's directory can outlive its row. The deletion moves the directory to the trash and drops the row
 under the room's lock, and an attempt works under the same lock; but an attempt has read the row before it
 takes the lock and does not read it again.
 */
module Orphans {
  import opened Rooms
  import opened Storage

  /** An attempt between taking the lock and its end. */
  predicate IsWorking(stage: Stage) {
    !stage.TakeLock? && !stage.Finished? && !stage.Failed?
  }

  ghost predicate Works(w: World, nonce: Nonce) {
    nonce in w.attempts && IsWorking(w.attempts[nonce].stage)
  }

  /** Whoever works on the directory holds the lock, and with the row gone nobody does unless it came late. */
  ghost predicate IsLocked(w: World) {
    && (forall n :: Works(w, n) ==> w.lock == HeldBy(n))
    && ((w.deleter == ToTrash || w.deleter == ToDrop) && !w.deleterCut ==> w.lock == HeldByDeleter)
    && (w.deleter == ToDrop && !w.deleterCut ==> w.disk.room.None?)
    && (w.row.None? && !w.late ==> w.disk.room.None? && forall n :: !Works(w, n))
  }

  /** What is on the disk was made visible, and what was ever visible is in place or in the trash. */
  predicate IsAccountedFor(w: World) {
    && (w.disk.room.Some? ==> w.wasVisible)
    && IsKept(w)
  }

  ghost predicate Guarded(w: World) {
    IsAccountedFor(w) && (w.cut == {} ==> IsLocked(w))
  }

  /** Only a working attempt's rename shows a directory; an attempt's call is no other's. */
  lemma {:induction false} CallFacts(seed: Content, w: World, nonce: Nonce, o: Outcome)
    requires nonce in w.attempts
    ensures var w' := Call(seed, w, nonce, o);
            && (w'.disk.room != w.disk.room ==> Works(w, nonce) && w'.disk.room.Some?)
            && w'.disk.trash == w.disk.trash && (w'.row.None? <==> w.row.None?) && w'.cut == w.cut
            && (Works(w', nonce) ==>
                  Works(w, nonce) || (w.lock.Free? && w'.lock == HeldBy(nonce) && (w.row.None? ==> w'.late)))
            && (Works(w, nonce) && Works(w', nonce) ==> w'.lock == w.lock)
            && (!Works(w', nonce) ==> w'.lock == w.lock || w.lock == HeldBy(nonce))
            && w'.deleter == w.deleter && w'.deleterCut == w.deleterCut && (w.late ==> w'.late)
            && w'.wasVisible == (w.wasVisible || w'.disk.room.Some?)
  {
  }

  lemma {:induction false} CallKeepsGuarded(seed: Content, w: World, nonce: Nonce, o: Outcome)
    requires Guarded(w) && nonce in w.attempts
    ensures Guarded(Call(seed, w, nonce, o))
  {
    var w' := Call(seed, w, nonce, o);
    CallFacts(seed, w, nonce, o);
    assert forall n :: n != nonce ==> (Works(w', n) <==> Works(w, n));
    if w.cut == {} && Works(w', nonce) && !Works(w, nonce) {
      assert forall n :: n != nonce ==> !Works(w, n);
    }
  }

  /** The deleter's steps on the directory and the row, under the lock or without it. */
  lemma {:induction false} DeletingKeepsGuarded(seed: Content, w: World, l: Label)
    requires Guarded(w) && (l.MoveToTrash? || l.DropRow?)
    ensures Guarded(Next(seed, w, l))
  {
    var w' := Next(seed, w, l);
    assert forall n :: Works(w', n) <==> Works(w, n);
  }

  /** Taking the lock to delete, and losing it. */
  predicate IsDeletersLocking(l: Label) {
    l.Teardown? || l.LockForDeletion? || l.CrashDeleter? || l.CutDeleter?
  }

  lemma {:induction false} LockingKeepsGuarded(seed: Content, w: World, l: Label)
    requires Guarded(w) && IsDeletersLocking(l)
    ensures Guarded(Next(seed, w, l))
  {
    var w' := Next(seed, w, l);
    assert forall n :: Works(w', n) <==> Works(w, n);
  }

  lemma {:induction false} NextKeepsGuarded(seed: Content, w: World, l: Label)
    requires Guarded(w)
    ensures Guarded(Next(seed, w, l))
  {
    var w' := Next(seed, w, l);
    if l.Proceed? {
      if l.nonce in w.attempts { CallKeepsGuarded(seed, w, l.nonce, l.outcome); }
    } else if l.CutSession? {
      assert l.nonce in w'.cut;
    } else if l.MoveToTrash? || l.DropRow? {
      DeletingKeepsGuarded(seed, w, l);
    } else if IsDeletersLocking(l) {
      LockingKeepsGuarded(seed, w, l);
    } else {
      assert forall n :: Works(w', n) ==> Works(w, n) && (l.Crash? ==> n != l.nonce);
    }
  }

  lemma {:induction false} RunsKeepGuarded(seed: Content, w: World, labels: seq<Label>)
    requires Guarded(w)
    ensures Guarded(Run(seed, w, labels))
    decreases |labels|
  {
    if labels != [] {
      NextKeepsGuarded(seed, w, labels[0]);
      RunsKeepGuarded(seed, Next(seed, w, labels[0]), labels[1..]);
    }
  }

  /**
   In every run: a room whose row is gone has no directory, and whatever it ever showed is in the trash, unless an
   attempt lost its session or took the lock when the row had already gone.
   */
  lemma {:induction false} DirectoriesGoBeforeTheirRows(seed: Content, w: World, labels: seq<Label>)
    requires IsNew(w)
    ensures var t := Run(seed, w, labels);
            t.row.None? && t.cut == {} && !t.late ==> t.disk.room.None? && (t.wasVisible ==> t.disk.trash != [])
  {
    RunsKeepGuarded(seed, w, labels);
  }

  // ---------------------------------------------------------------- exactly when, at the moment the row goes

  /** An attempt that has read the row and not yet asked for the lock. */
  ghost predicate Waits(w: World, nonce: Nonce) {
    nonce in w.attempts && w.attempts[nonce].stage.TakeLock?
  }

  predicate IsLooking(stage: Stage) {
    stage.LookTarget? || stage.LookSeed?
  }

  /** The row is gone, no directory is there, and nobody is or will be at work on one. */
  ghost predicate IsOver(w: World) {
    && w.row.None? && w.disk.room.None?
    && (!w.generation || forall n :: !Waits(w, n))
    && (forall n :: Works(w, n) ==> !w.generation && IsLooking(w.attempts[n].stage))
  }

  lemma {:induction false} NextKeepsOver(seed: Content, w: World, l: Label)
    requires IsOver(w)
    ensures IsOver(Next(seed, w, l))
  {
    var w' := Next(seed, w, l);
    assert w'.generation ==> w.generation;
    forall n | Waits(w', n) || Works(w', n)
      ensures Waits(w, n) || Works(w, n)
      ensures Works(w', n) ==> !w'.generation && IsLooking(w'.attempts[n].stage)
    {
    }
  }

  lemma {:induction false} OverForGood(seed: Content, w: World, labels: seq<Label>)
    requires IsOver(w)
    ensures Run(seed, w, labels).disk.room.None?
    decreases |labels|
  {
    if labels != [] {
      NextKeepsOver(seed, w, labels[0]);
      OverForGood(seed, Next(seed, w, labels[0]), labels[1..]);
    }
  }

  /** An attempt's call that works out. */
  function Worked(seed: Content, w: World, nonce: Nonce): World {
    Next(seed, w, Proceed(nonce, Outcome.Works))
  }

  lemma {:induction false} RunOfCalls(seed: Content, w: World, nonce: Nonce, n: nat)
    ensures Run(seed, w, Calls(nonce, n)) == AfterCalls(seed, w, nonce, n)
    decreases n
  {
    if n > 0 {
      assert Calls(nonce, n)[1..] == Calls(nonce, n - 1);
      RunOfCalls(seed, Worked(seed, w, nonce), nonce, n - 1);
    }
  }

  function Calls(nonce: Nonce, n: nat): seq<Label> {
    if n == 0 then [] else [Proceed(nonce, Outcome.Works)] + Calls(nonce, n - 1)
  }

  function AfterCalls(seed: Content, w: World, nonce: Nonce, n: nat): World
    decreases n
  {
    if n == 0 then w else AfterCalls(seed, Worked(seed, w, nonce), nonce, n - 1)
  }

  /** An attempt that can have the lock, with nothing in its way, gets as far as a directory of its own. */
  lemma {:induction false} WaiterMakesItsOwn(seed: Content, w: World, nonce: Nonce) returns (u: World)
    requires Waits(w, nonce) && w.lock.Free? && nonce !in w.cut && w.generation && w.disk.room.None?
    ensures AfterCalls(seed, w, nonce, 8) == AfterCalls(seed, u, nonce, 3)
    ensures nonce in u.attempts && u.attempts[nonce].stage == CopySeed && nonce in u.disk.temps
    ensures u.disk.room.None? && u.generation && u.row == w.row && u.cut == w.cut
  {
    var w1 := Worked(seed, w, nonce);
    var w2 := Worked(seed, w1, nonce);
    var w3 := Worked(seed, w2, nonce);
    var w4 := Worked(seed, w3, nonce);
    assert w1.attempts[nonce].stage == LookTarget && w2.attempts[nonce].stage == LookSeed
           && w3.attempts[nonce].stage == ClearTemp;
    assert w4.attempts[nonce].stage == MakeTemp && nonce !in w4.disk.temps;
    u := Worked(seed, w4, nonce);
    assert AfterCalls(seed, w, nonce, 8) == AfterCalls(seed, w1, nonce, 7) == AfterCalls(seed, w2, nonce, 6)
           == AfterCalls(seed, w3, nonce, 5) == AfterCalls(seed, w4, nonce, 4) == AfterCalls(seed, u, nonce, 3);
  }

  /** And then copies, syncs and renames it into place, whether or not the room still has a row. */
  lemma {:induction false} ItsOwnIsShown(seed: Content, u: World, nonce: Nonce)
    requires nonce in u.attempts && u.attempts[nonce].stage == CopySeed && nonce in u.disk.temps
    requires u.disk.room.None? && u.generation
    ensures var t := AfterCalls(seed, u, nonce, 3); t.disk.room.Some? && t.row == u.row && t.cut == u.cut
  {
    var u1 := Worked(seed, u, nonce);
    var u2 := Worked(seed, u1, nonce);
    assert u1.attempts[nonce].stage == SyncTemp && u1.disk.temps[nonce].dir.seed.Some?;
    assert u2.attempts[nonce].stage == RenameTemp && u2.disk == u1.disk;
    var t := Worked(seed, u2, nonce);
    assert AfterCalls(seed, u, nonce, 3) == AfterCalls(seed, u1, nonce, 2) == AfterCalls(seed, u2, nonce,
             1) == AfterCalls(seed, t, nonce, 0);
  }

  lemma {:induction false} WaitersShow(seed: Content, w: World, nonce: Nonce)
    requires Waits(w, nonce) && w.lock.Free? && nonce !in w.cut && w.generation && w.disk.room.None?
    ensures var t := Run(seed, w, Calls(nonce, 8)); t.disk.room.Some? && t.row == w.row && t.cut == w.cut
  {
    RunOfCalls(seed, w, nonce, 8);
    var u := WaiterMakesItsOwn(seed, w, nonce);
    ItsOwnIsShown(seed, u, nonce);
  }

  /**
   At the moment the deletion drops the row, with every attempt's session intact, the directory is gone and what was
   ever visible is in the trash; and a directory can appear again if and only if the generation is still there
   and some attempt has read the row but not yet asked for the lock.
   */
  lemma {:induction false} OutlivesIff(seed: Content, w: World, labels: seq<Label>)
    requires IsNew(w)
    requires var t := Run(seed, w, labels); t.cut == {} && t.row.Some? && Next(seed, t, DropRow).row.None?
    ensures var u := Next(seed, Run(seed, w, labels), DropRow);
            && u.disk.room.None? && (u.wasVisible ==> u.disk.trash != [])
            && ((exists more: seq<Label> :: Run(seed, u, more).disk.room.Some?)
                <==> u.generation && exists n :: Waits(u, n))
  {
    RunsKeepGuarded(seed, w, labels);
    var t := Run(seed, w, labels);
    var u := Next(seed, t, DropRow);
    NextKeepsGuarded(seed, t, DropRow);
    assert forall n :: !Works(u, n);
    if u.generation && exists n :: Waits(u, n) {
      var n :| Waits(u, n);
      WaitersShow(seed, u, n);
    } else {
      assert IsOver(u);
      forall more: seq<Label> ensures Run(seed, u, more).disk.room.None? {
        OverForGood(seed, u, more);
      }
    }
  }

  // ---------------------------------------------------------------- two runs that leave a directory without a row

  const DELETION: seq<Label> := [AskDelete] + ([Teardown] + ([LockForDeletion] + ([MoveToTrash] + ([DropRow] + []))))

  /** Undisturbed, the deletion of a room whose directory is not there leaves only the row's absence behind. */
  lemma {:induction false} DeletionDeletes(seed: Content, w: World)
    requires w.row.Some? && w.deleter == NotDeleting && w.lock.Free? && w.disk.room.None?
    ensures Run(seed, w, DELETION) == w.(deletionAsked := true, row := None, deleterCut := false)
  {
    var w1 := w.(deletionAsked := true);
    var w2 := w1.(deleter := ToLock, deleterCut := false);
    var w3 := w2.(deleter := ToTrash, lock := HeldByDeleter);
    var w4 := w3.(deleter := ToDrop);
    var w5 := w.(deletionAsked := true, row := None, deleterCut := false);
    assert Next(seed, w, AskDelete) == w1 && Next(seed, w1, Teardown) == w2 && Next(seed, w2, LockForDeletion) == w3;
    assert Next(seed, w3, MoveToTrash) == w4 && Next(seed, w4, DropRow) == w5;
    RunStep(seed, w4, DropRow, []);
    RunStep(seed, w3, MoveToTrash, [DropRow] + []);
    RunStep(seed, w2, LockForDeletion, [MoveToTrash] + ([DropRow] + []));
    RunStep(seed, w1, Teardown, [LockForDeletion] + ([MoveToTrash] + ([DropRow] + [])));
    RunStep(seed, w, AskDelete, [Teardown] + ([LockForDeletion] + ([MoveToTrash] + ([DropRow] + []))));
  }

  /** A first attempt that has read the row when the room is deleted. */
  function BegunAndDeleted(w: World): World {
    w.(attempts := map[0 := Attempt(TakeLock, w.now, false)], deletionAsked := true, row := None)
  }

  lemma {:induction false} BeginsThenDeleted(seed: Content, w: World, rest: seq<Label>)
    requires IsNew(w)
    ensures Run(seed, w, [Begin(0)] + (DELETION + rest)) == Run(seed, BegunAndDeleted(w), rest)
  {
    var begun := w.(attempts := map[0 := Attempt(TakeLock, w.now, false)]);
    assert Next(seed, w, Begin(0)) == begun;
    DeletionDeletes(seed, begun);
    RunStep(seed, w, Begin(0), DELETION + rest);
    RunConcat(seed, begun, DELETION, rest);
  }

  /** An attempt that read the row before the deletion and asks for the lock after it. */
  lemma {:induction false} LateAttemptsOutliveTheRow(seed: Content, w: World) returns (labels: seq<Label>)
    requires IsNew(w) && w.generation
    ensures var t := Run(seed, w, labels); t.row.None? && t.disk.room.Some? && t.cut == {}
  {
    labels := [Begin(0)] + (DELETION + Calls(0, 8));
    BeginsThenDeleted(seed, w, Calls(0, 8));
    WaitersShow(seed, BegunAndDeleted(w), 0);
  }

  /** An attempt whose session goes just before its rename, so that the deletion can have the lock. */
  lemma {:induction false} CutAttemptsOutliveTheRow(seed: Content, w: World) returns (labels: seq<Label>)
    requires IsNew(w) && w.generation
    ensures var t := Run(seed, w, labels); t.row.None? && t.disk.room == Some(Dir(Some(seed))) && !t.late
  {
    var tail := [CutSession(0)] + (DELETION + ([GO] + []));
    var building := [GO] + ([GO] + ([GO] + ([GO] + ([GO] + ([GO] + tail)))));
    labels := [Begin(0)] + ([GO] + building);
    FirstAttemptBegins(seed, w, building);
    FirstAttemptBuilds(seed, w, tail);
    CutThenDeleted(seed, ReadyToRename(seed, w));
  }

  lemma {:induction false} CutThenDeleted(seed: Content, w: World)
    requires w.row.Some? && w.deleter == NotDeleting && w.lock == HeldBy(0) && w.disk.room.None? && !w.late
    requires w.attempts == map[0 := Attempt(RenameTemp, w.now, false)] && 0 in w.disk.temps
    requires w.disk.temps[0].dir == Dir(Some(seed))
    ensures var t := Run(seed, w, [CutSession(0)] + (DELETION + ([GO] + [])));
            t.row.None? && t.disk.room == Some(Dir(Some(seed))) && !t.late
  {
    var w1 := w.(cut := w.cut + {0}, lock := Free);
    var w2 := w1.(deletionAsked := true, row := None, deleterCut := false);
    assert Next(seed, w, CutSession(0)) == w1;
    DeletionDeletes(seed, w1);
    RunStep(seed, w, CutSession(0), DELETION + ([GO] + []));
    RunConcat(seed, w1, DELETION, [GO] + []);
    RunStep(seed, w2, GO, []);
  }
}
