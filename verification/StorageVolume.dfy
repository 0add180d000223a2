/** The volume as the orchestrator works on it, call by call. */
module StorageVolume {
  import opened Rooms
  import opened Storage

  datatype Provisioned = Created | AlreadyPresent
  datatype Result<T> = Ok(value: T) | Err

  /** What became of one expired directory the sweep tried to remove. */
  datatype Removal = Removed | Emptied | Untouched

  /** An attempt run with nobody else at work, until it may claim the row or has failed. */
  ghost function Alone(seed: Content, w: World, nonce: Nonce, o: Stage -> Outcome, calls: nat): World
    decreases calls
  {
    if calls == 0 || nonce !in w.attempts || IsOver(w.attempts[nonce].stage) then w
    else Alone(seed, Call(seed, w, nonce, o(w.attempts[nonce].stage)), nonce, o, calls - 1)
  }

  predicate IsOver(stage: Stage) {
    stage.ClaimRow? || stage.Finished? || stage.Failed?
  }

  /** How the end of an attempt is reported to its caller. */
  function Reported(a: Attempt): Result<Provisioned> {
    if !a.stage.ClaimRow? then Err else Ok(if a.lost then AlreadyPresent else Created)
  }

  ghost predicate IsExpiredAt(temps: map<Nonce, Temp>, now: Time, maxAge: int, nonce: Nonce) {
    nonce in temps && now - temps[nonce].modified >= maxAge
  }

  /** The expired directories among a listing that could be removed. */
  ghost function RemovedBy(temps: map<Nonce, Temp>, now: Time, maxAge: int, listing: seq<Nonce>,
        removal: Nonce -> Removal): set<Nonce> {
    set n | n in listing && IsExpiredAt(temps, now, maxAge, n) && removal(n) == Removed
  }

  lemma {:induction false} RemovedByOneMore(temps: map<Nonce, Temp>, now: Time, maxAge: int, listing: seq<Nonce>,
        i: nat, removal: Nonce -> Removal)
    requires i < |listing| && listing[i] !in listing[..i]
    ensures var gone := RemovedBy(temps, now, maxAge, listing[..i], removal);
            && listing[i] !in gone
            && RemovedBy(temps, now, maxAge, listing[..i + 1], removal)
               == gone + if IsExpiredAt(temps, now, maxAge, listing[i]) && removal(listing[i]) == Removed
                         then {listing[i]} else {}
  {
    assert listing[..i + 1] == listing[..i] + [listing[i]];
  }

  /** What is left of the directories there were, with those seen so far swept. */
  ghost predicate SweptTo(temps: map<Nonce, Temp>, before: map<Nonce, Temp>, now: Time, maxAge: int,
        seen: seq<Nonce>, removal: Nonce -> Removal) {
    && temps.Keys == before.Keys - RemovedBy(before, now, maxAge, seen, removal)
    && forall n :: n in temps && (n !in seen || !IsExpiredAt(before, now, maxAge, n)) ==> temps[n] == before[n]
  }

  lemma {:induction false} SweptOneMore(temps: map<Nonce, Temp>, after: map<Nonce, Temp>, before: map<Nonce, Temp>,
        now: Time, maxAge: int,
                                        listing: seq<Nonce>, i: nat, removal: Nonce -> Removal)
    requires i < |listing| && listing[i] !in listing[..i] && SweptTo(temps, before, now, maxAge, listing[..i], removal)
    requires if IsExpiredAt(temps, now, maxAge, listing[i])
             then SameApart(after, temps, listing[i]) && (listing[i] in after <==> removal(listing[i]) != Removed)
             else after == temps
    ensures SweptTo(after, before, now, maxAge, listing[..i + 1], removal)
    ensures IsExpiredAt(temps, now, maxAge, listing[i]) == IsExpiredAt(before, now, maxAge, listing[i])
  {
    RemovedByOneMore(before, now, maxAge, listing, i, removal);
    assert listing[..i + 1] == listing[..i] + [listing[i]];
  }

  /** An attempt that finds no directory and a seed gets as far as making its own. */
  lemma {:induction false} LooksThenMakes(seed: Content, w: World, nonce: Nonce, o: Stage -> Outcome)
    requires nonce in w.attempts && w.attempts[nonce] == Attempt(LookTarget, w.now, false)
    requires w.disk.room.None? && w.generation
    ensures Alone(seed, w, nonce, o, 8)
            == Alone(seed, w.(disk := if o(ClearTemp).Works? then w.disk.(temps := w.disk.temps - {nonce}) else w.disk,
                              attempts := w.attempts[nonce := Attempt(MakeTemp, w.now, false)]), nonce, o, 5)
  {
    var w1 := Call(seed, w, nonce, o(LookTarget));
    assert w1 == w.(attempts := w.attempts[nonce := Attempt(LookSeed, w.now, false)]);
    var w2 := Call(seed, w1, nonce, o(LookSeed));
    assert w2 == w.(attempts := w.attempts[nonce := Attempt(ClearTemp, w.now, false)]);
    var w3 := Call(seed, w2, nonce, o(ClearTemp));
    assert w3.attempts == w.attempts[nonce := Attempt(MakeTemp, w.now, false)];
  }

  /** A directory of its own made, an attempt goes on to copy; if that fails it is over. */
  lemma {:induction false} MakesThenCopies(seed: Content, w: World, nonce: Nonce, o: Stage -> Outcome)
    requires nonce in w.attempts && w.attempts[nonce] == Attempt(MakeTemp, w.now, false) && w.disk.room.None?
    ensures var made := o(MakeTemp).Works? && nonce !in w.disk.temps;
            var w' := w.(disk := if made then w.disk.(temps := w.disk.temps[nonce := Temp(Dir(None),
                  w.now)]) else w.disk,
                         attempts := w.attempts[nonce :=
                           Attempt(if made then CopySeed else Stage.Failed, w.now, false)],
                         lock := LockAfter(w, nonce, MakeTemp, if made then CopySeed else Stage.Failed));
            Alone(seed, w, nonce, o, 5) == if made then Alone(seed, w', nonce, o, 4) else w'
  {
    var w1 := Call(seed, w, nonce, o(MakeTemp));
    assert Alone(seed, w, nonce, o, 5) == Alone(seed, w1, nonce, o, 4);
  }

  /** Copying and syncing leave an attempt about to rename, or about to clean up after whichever failed. */
  lemma {:induction false} BuildsThenRenames(seed: Content, w: World, nonce: Nonce, o: Stage -> Outcome, disk: Disk)
    requires nonce in w.attempts && w.attempts[nonce] == Attempt(CopySeed, w.now, false)
    requires nonce in w.disk.temps && w.generation
    requires disk == CallOnDisk(seed, w.disk, nonce, CopySeed, o(CopySeed), w.now)
    ensures var stage := if o(CopySeed).Works? && o(SyncTemp).Works? then RenameTemp else CleanUp;
            Alone(seed, w, nonce, o, 4)
            == Alone(seed, w.(disk := disk, attempts := w.attempts[nonce := Attempt(stage, w.now, false)],
                              wasVisible := w.wasVisible || disk.room.Some?),
                     nonce, o, if o(CopySeed).Works? then 2 else 3)
  {
    var w1 := Call(seed, w, nonce, o(CopySeed));
    assert w1.disk == disk;
    if o(CopySeed).Works? {
      var stage := if o(SyncTemp).Works? then RenameTemp else CleanUp;
      assert Call(seed, w1, nonce, o(SyncTemp)).attempts == w.attempts[nonce := Attempt(stage, w.now, false)];
    } else {
      assert w1.attempts == w.attempts[nonce := Attempt(CleanUp, w.now, false)];
    }
  }

  /** A rename that works shows the directory; after anything else the attempt clears up as best it can. */
  lemma {:induction false} RenamesOrCleansUp(seed: Content, w: World, nonce: Nonce, o: Stage -> Outcome, calls: nat)
    requires nonce in w.attempts && !w.attempts[nonce].lost && calls >= 2
    requires w.attempts[nonce].stage == RenameTemp || w.attempts[nonce].stage == CleanUp
    requires nonce in w.disk.temps && w.disk.room.None?
    ensures var created := w.attempts[nonce].stage == RenameTemp && o(RenameTemp).Works?;
            var t := Alone(seed, w, nonce, o, calls);
            && nonce in t.attempts && Reported(t.attempts[nonce]) == (if created then Ok(Created) else Err)
            && t.disk == if created then w.disk.(room := Some(w.disk.temps[nonce].dir), temps := w.disk.temps - {nonce})
                         else if o(CleanUp).Works? then w.disk.(temps := w.disk.temps - {nonce}) else w.disk
  {
    var w1 := Call(seed, w, nonce, o(w.attempts[nonce].stage));
    if w.attempts[nonce].stage == RenameTemp && !o(RenameTemp).Works? {
      assert w1.disk == w.disk && w1.attempts[nonce].stage == CleanUp;
      var w2 := Call(seed, w1, nonce, o(CleanUp));
      assert Alone(seed, w, nonce, o, calls) == Alone(seed, w1, nonce, o, calls - 1) == Alone(seed, w2, nonce, o,
               calls - 2);
    } else {
      assert Alone(seed, w, nonce, o, calls) == Alone(seed, w1, nonce, o, calls - 1);
    }
  }

  /** Every other attempt's directory is as it was. */
  ghost predicate SameApart(a: map<Nonce, Temp>, b: map<Nonce, Temp>, nonce: Nonce) {
    forall n :: n != nonce ==> (n in a <==> n in b) && (n in a ==> a[n] == b[n])
  }

  class Volume {
    var disk: Disk
    var generation: bool
    var now: Time

    /** The volume with one attempt at work on it. */
    ghost function Seen(nonce: Nonce, a: Attempt): World
      reads this
    {
      World(disk, generation, None, map[nonce := a], NotDeleting, false, disk.room.Some?, now, HeldBy(nonce), {},
            false, false)
    }

    /** Copying and syncing: the seed whole in the temporary directory, or an attempt about to clean up. */
    method Build(seed: Content, nonce: Nonce, o: Stage -> Outcome) returns (built: bool)
      requires nonce in disk.temps && generation
      modifies this`disk
      ensures built == (o(CopySeed).Works? && o(SyncTemp).Works?)
      ensures disk.room == old(disk).room && disk.trash == old(disk).trash
      ensures disk.temps == old(disk).temps[nonce :=
                Temp(Dir(Some(if o(CopySeed).Works? then seed else Copied(seed, o(CopySeed).copied))), now)]
    {
      var copied := o(CopySeed).Works?;
      var content := if copied then seed else Copied(seed, o(CopySeed).copied);
      disk := disk.(temps := disk.temps[nonce := Temp(Dir(Some(content)), now)]);
      built := copied && o(SyncTemp).Works?;
    }

    /** Removing this attempt's temporary directory, whether or not that works. */
    method Clear(nonce: Nonce, o: Outcome)
      modifies this`disk
      ensures disk == if o.Works? then old(disk).(temps := old(disk).temps - {nonce}) else old(disk)
    {
      if o.Works? { disk := disk.(temps := disk.temps - {nonce}); }
    }

    /** From a new temporary directory to a visible one: copy, sync, rename, and clean up after a failure. */
    method Publish(seed: Content, nonce: Nonce, o: Stage -> Outcome, ghost w: World) returns (r: Result<Provisioned>)
      requires nonce in disk.temps && disk.room.None? && generation
      requires w.disk == disk && w.now == now && w.generation && nonce in w.attempts
      requires w.attempts[nonce] == Attempt(CopySeed, w.now, false)
      modifies this`disk
      ensures disk.trash == old(disk).trash && SameApart(disk.temps, old(disk).temps, nonce)
      ensures if r == Ok(Created) then disk.room == Some(Dir(Some(seed))) && nonce !in disk.temps
              else r == Err && disk.room.None?
      ensures var t := Alone(seed, w, nonce, o, 4);
              disk == t.disk && nonce in t.attempts && r == Reported(t.attempts[nonce])
    {
      var built := Build(seed, nonce, o);
      BuildsThenRenames(seed, w, nonce, o, disk);
      ghost var a2 := Attempt(if built then RenameTemp else CleanUp, w.now, false);
      ghost var w2 := w.(disk := disk, attempts := w.attempts[nonce := a2],
                         wasVisible := w.wasVisible || disk.room.Some?);
      RenamesOrCleansUp(seed, w2, nonce, o, if o(CopySeed).Works? then 2 else 3);
      if built && o(RenameTemp).Works? {
        disk := disk.(room := Some(disk.temps[nonce].dir), temps := disk.temps - {nonce});
        return Ok(Created);
      }
      Clear(nonce, o(CleanUp));
      return Err;
    }

    /**
     `provision`: the room's directory copied from its generation beside the others and renamed into
     place. Nothing but a whole directory is ever shown, and a directory already shown is left alone.
     Call for call, it is the machine's attempt with nobody else at work.
     */
    method Provision(seed: Content, nonce: Nonce, o: Stage -> Outcome) returns (r: Result<Provisioned>)
      modifies this`disk
      ensures disk.trash == old(disk).trash && SameApart(disk.temps, old(disk).temps, nonce)
      ensures old(disk).room.Some? ==> r == Ok(AlreadyPresent) && disk == old(disk)
      ensures old(disk).room.None? ==>
                (r == Ok(Created) && disk.room == Some(Dir(Some(seed)))) || (r == Err && disk.room.None?)
      ensures r == Ok(Created) ==> nonce !in disk.temps
      ensures var w := Alone(seed, old(Seen(nonce, Attempt(LookTarget, now, false))), nonce, o, 8);
              disk == w.disk && nonce in w.attempts && r == Reported(w.attempts[nonce])
    {
      ghost var w := Seen(nonce, Attempt(LookTarget, now, false));
      if disk.room.Some? { return Ok(AlreadyPresent); }
      if !generation { return Err; }

      LooksThenMakes(seed, w, nonce, o);
      Clear(nonce, o(ClearTemp));
      ghost var w3 := w.(disk := disk, attempts := w.attempts[nonce := Attempt(MakeTemp, w.now, false)]);
      assert Alone(seed, w, nonce, o, 8) == Alone(seed, w3, nonce, o, 5);

      MakesThenCopies(seed, w3, nonce, o);
      if o(MakeTemp).Fails? || nonce in disk.temps { return Err; }
      disk := disk.(temps := disk.temps[nonce := Temp(Dir(None), now)]);
      ghost var w4 := w3.(disk := disk, attempts := w3.attempts[nonce := Attempt(CopySeed, now, false)]);
      r := Publish(seed, nonce, o, w4);
    }

    /** `trash`: the directory is renamed, so what was in it is all still there. */
    method Trash(works: bool) returns (r: Result<bool>)
      modifies this`disk
      ensures old(disk).room.None? ==> r == Ok(false) && disk == old(disk)
      ensures old(disk).room.Some? && works ==>
                r == Ok(true) && disk == old(disk).(room := None, trash := old(disk).trash + [old(disk).room.value])
      ensures old(disk).room.Some? && !works ==> r == Err && disk == old(disk)
    {
      if disk.room.None? { return Ok(false); }
      if !works { return Err; }
      disk := disk.(room := None, trash := disk.trash + [disk.room.value]);
      return Ok(true);
    }

    /** `remove_dir_all`, which may get no further than the file inside. */
    method Remove(nonce: Nonce, removal: Removal)
      requires nonce in disk.temps
      modifies this`disk
      ensures disk.room == old(disk).room && disk.trash == old(disk).trash
              && SameApart(disk.temps, old(disk).temps, nonce)
      ensures nonce in disk.temps <==> removal != Removed
    {
      match removal
      case Removed => disk := disk.(temps := disk.temps - {nonce});
      case Emptied => disk := disk.(temps := disk.temps[nonce := Temp(Dir(None), now)]);
      case Untouched =>
    }

    /** `sweep_temp_dirs`: every abandoned attempt old enough goes, no other one is touched, and each is counted. */
    method SweepTempDirs(maxAge: int, listing: seq<Nonce>, removal: Nonce -> Removal) returns (removed: nat)
      requires forall i, j :: 0 <= i < j < |listing| ==> listing[i] != listing[j]
      modifies this`disk
      ensures disk.room == old(disk).room && disk.trash == old(disk).trash
      ensures disk.temps.Keys == old(disk).temps.Keys - RemovedBy(old(disk).temps, now, maxAge, listing, removal)
      ensures forall n :: n in disk.temps && (n !in listing || !IsExpiredAt(old(disk).temps, now, maxAge, n)) ==>
                disk.temps[n] == old(disk).temps[n]
      ensures removed == |RemovedBy(old(disk).temps, now, maxAge, listing, removal)|
    {
      removed := 0;
      ghost var before := disk.temps;
      for i := 0 to |listing|
        invariant disk.room == old(disk).room && disk.trash == old(disk).trash
        invariant SweptTo(disk.temps, before, now, maxAge, listing[..i], removal)
        invariant removed == |RemovedBy(before, now, maxAge, listing[..i], removal)|
      {
        var nonce := listing[i];
        ghost var temps := disk.temps;
        RemovedByOneMore(before, now, maxAge, listing, i, removal);
        if nonce in disk.temps && now - disk.temps[nonce].modified >= maxAge {
          Remove(nonce, removal(nonce));
          if removal(nonce) == Removed { removed := removed + 1; }
        }
        SweptOneMore(temps, disk.temps, before, now, maxAge, listing, i, removal);
      }
      assert listing[..|listing|] == listing;
    }
  }
}
