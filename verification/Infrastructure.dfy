/**
 `InfrastructureManager` of scripts/release_lifecycle.py: replace the stable
 files under a durable backup, and put every one of them back after a failure
 or a crash at any step.
 */
module Infrastructure {
  import opened Wrappers
  import opened Faults

  const MAX_BACKUP_MODE: nat := 511

  type Path = string
  type Id = string

  datatype FileState = FileState(bytes: string, mode: nat)

  type Disk = map<Path, FileState>

  /** One managed file: what it was, and what it is to become. */
  datatype Entry = Entry(path: Path, before: Option<FileState>, after: FileState)

  /** A transaction's backup directory: saved bytes by entry, and the manifest once it is durable. */
  datatype Backup = Backup(saved: map<nat, string>, manifest: Option<seq<Entry>>)

  function Look(disk: Disk, path: Path): Option<FileState> {
    if path in disk then Some(disk[path]) else None
  }

  function Put(disk: Disk, path: Path, state: Option<FileState>): Disk {
    match state
    case Some(s) => disk[path := s]
    case None => disk - {path}
  }

  predicate DistinctPaths(entries: seq<Entry>) {
    forall i, j :: 0 <= i < j < |entries| ==> entries[i].path != entries[j].path
  }

  /** The entries that a desired layout changes on this disk. */
  function Changes(desired: seq<(Path, FileState)>, disk: Disk): seq<Entry> {
    if desired == [] then []
    else
      var last := desired[|desired| - 1];
      Changes(desired[..|desired| - 1], disk) +
      if Look(disk, last.0) == Some(last.1) then [] else [Entry(last.0, Look(disk, last.0), last.1)]
  }

  predicate DistinctKeys(desired: seq<(Path, FileState)>) {
    forall i, j :: 0 <= i < j < |desired| ==> desired[i].0 != desired[j].0
  }

  lemma {:induction false} ChangesDescribe(desired: seq<(Path, FileState)>, disk: Disk)
    requires DistinctKeys(desired)
    ensures DistinctPaths(Changes(desired, disk))
    ensures forall e :: e in Changes(desired, disk) ==>
      e.before == Look(disk, e.path) && e.before != Some(e.after) && (e.path, e.after) in desired
    decreases |desired|
  {
    if desired != [] {
      var last := |desired| - 1;
      ChangesDescribe(desired[..last], disk);
      var rest := Changes(desired[..last], disk);
      assert desired == desired[..last] + [desired[last]];
      forall i | 0 <= i < |rest| ensures rest[i].path != desired[last].0 {
        assert rest[i] in rest;
        var k :| 0 <= k < last && desired[..last][k] == (rest[i].path, rest[i].after);
      }
    }
  }

  /** Every managed file is as it was or as it is to become, and every other file is as it was. */
  ghost predicate Between(pre: Disk, disk: Disk, entries: seq<Entry>) {
    && DistinctPaths(entries)
    && (forall i :: 0 <= i < |entries| ==> entries[i].before == Look(pre, entries[i].path))
    && (forall i :: 0 <= i < |entries| ==>
          Look(disk, entries[i].path) in {entries[i].before, Some(entries[i].after)})
    && forall p :: (forall i :: 0 <= i < |entries| ==> entries[i].path != p) ==> Look(disk, p) == Look(pre, p)
  }

  /** The backup holds what rollback needs. */
  predicate Backed(backup: Backup, entries: seq<Entry>) {
    && backup.manifest == Some(entries)
    && forall i :: 0 <= i < |entries| && entries[i].before.Some? ==>
         i in backup.saved && backup.saved[i] == entries[i].before.value.bytes
  }

  /** What a crash or a failure anywhere in `ensure` or in any rollback leaves. */
  ghost predicate Recoverable(pre: Disk, disk: Disk, backups: map<Id, Backup>, id: Id, entries: seq<Entry>) {
    && Between(pre, disk, entries)
    && (disk != pre ==> id in backups && Backed(backups[id], entries))
    && (id in backups ==> backups[id].manifest.None? || Backed(backups[id], entries))
  }

  /** Rollback can write this entry's old state again. */
  predicate Restorable(e: Entry) {
    e.before.Some? ==> e.before.value.mode <= MAX_BACKUP_MODE
  }

  /** Rollback, undisturbed, has nothing to retain for this entry. */
  predicate Clean(e: Entry, disk: Disk) {
    match e.before
    case None => Look(disk, e.path).None? || Look(disk, e.path).value.bytes == e.after.bytes
    case Some(_) => Look(disk, e.path).Some? && Look(disk, e.path).value.bytes == e.after.bytes && Restorable(e)
  }

  /** What an undisturbed rollback retains, last to first, of the entries from `i` on. */
  function Retained(entries: seq<Entry>, disk: Disk, i: nat): seq<Path>
    requires i <= |entries|
    decreases |entries| - i
  {
    if i == |entries| then []
    else Retained(entries, disk, i + 1) + if Clean(entries[i], disk) then [] else [entries[i].path]
  }

  /** Every file whose old state can be written again has its old state again. */
  ghost predicate PutBack(disk: Disk, changes: seq<Entry>) {
    forall e :: e in changes && Restorable(e) ==> Look(disk, e.path) == e.before
  }

  /** Every file whose old mode is out of range has stayed as it was found. */
  ghost predicate Unrestored(start: Disk, disk: Disk, changes: seq<Entry>) {
    forall e :: e in changes && !Restorable(e) ==> Look(disk, e.path) == Look(start, e.path)
  }

  lemma SameMeansAllBack(pre: Disk, entries: seq<Entry>)
    requires Between(pre, pre, entries)
    ensures forall e :: e in entries ==> Look(pre, e.path) == e.before
  {
  }

  /** Putting one managed file back, or writing it, keeps everything between. */
  lemma OneFileKeepsBetween(pre: Disk, disk: Disk, entries: seq<Entry>, i: nat, state: Option<FileState>)
    requires Between(pre, disk, entries) && i < |entries|
    requires state in {entries[i].before, Some(entries[i].after)}
    ensures Between(pre, Put(disk, entries[i].path, state), entries)
  {
    var disk' := Put(disk, entries[i].path, state);
    assert Look(disk', entries[i].path) == state;
    forall p | p != entries[i].path ensures Look(disk', p) == Look(disk, p) {
    }
  }

  /** When every managed file is as it was, the whole disk is. */
  lemma AllBackMeansSame(pre: Disk, disk: Disk, entries: seq<Entry>)
    requires Between(pre, disk, entries)
    requires forall i :: 0 <= i < |entries| ==> Look(disk, entries[i].path) == entries[i].before
    ensures disk == pre
  {
    forall p ensures Look(disk, p) == Look(pre, p) {
    }
    forall p ensures p in disk <==> p in pre {
      assert Look(disk, p) == Look(pre, p);
    }
    forall p | p in disk ensures disk[p] == pre[p] {
      assert Look(disk, p) == Look(pre, p);
    }
  }

  predicate SameBefore(start: Disk, disk: Disk, entries: seq<Entry>, i: nat)
    requires i <= |entries|
  {
    forall k :: 0 <= k < i ==> Look(disk, entries[k].path) == Look(start, entries[k].path)
  }

  /** Only files that held the recorded new bytes were written or removed. */
  ghost predicate Overwritten(start: Disk, disk: Disk, entries: seq<Entry>) {
    DistinctPaths(entries) ==>
      forall p :: Look(disk, p) != Look(start, p) ==>
        p in start && exists i :: 0 <= i < |entries| && entries[i].path == p && start[p].bytes == entries[i].after.bytes
  }

  class InfrastructureManager {
    var disk: Disk
    var backups: map<Id, Backup>
    var down: bool
    var clock: nat
    var fates: nat -> Fate

    ghost predicate Calm()
      reads this
    {
      !down && forall n :: n >= clock ==> fates(n) == Works
    }

    constructor (disk: Disk, fates: nat -> Fate)
      ensures this.disk == disk && backups == map[] && !down && clock == 0 && this.fates == fates
    {
      this.disk, this.fates := disk, fates;
      backups, down, clock := map[], false, 0;
    }

    /** A new process over what the last one left. */
    method Restart(fates: nat -> Fate)
      modifies this
      ensures disk == old(disk) && backups == old(backups) && !down && clock == 0 && this.fates == fates
    {
      down, clock, this.fates := false, 0, fates;
    }

    /** One durable step. */
    method Change(disk': Disk, backups': map<Id, Backup>) returns (step: Step)
      modifies this
      ensures (disk == old(disk) && backups == old(backups)) || (disk == disk' && backups == backups')
      ensures step == Done ==> disk == disk' && backups == backups'
      ensures old(Calm()) ==> Calm() && step == Done
      ensures step == Died ==> down
      ensures old(down) ==> down && disk == old(disk) && backups == old(backups) && step == Died
    {
      if down {
        return Died;
      }
      var fate := fates(clock);
      clock := clock + 1;
      down := fate.Dies?;
      if fate == Works || fate.applied {
        disk, backups := disk', backups';
      }
      return if fate == Works then Done else if fate.Dies? then Died else Failed;
    }

    // ----- rollback -----

    /** One entry, last to first: never over bytes that are not the recorded ones. */
    method RollbackEntry(id: Id, entries: seq<Entry>, i: nat) returns (ok: bool)
      requires i < |entries| && id in backups && backups[id].manifest == Some(entries)
      modifies this
      ensures backups == old(backups)
      ensures disk == old(disk) || disk == Put(old(disk), entries[i].path, entries[i].before)
      ensures disk != old(disk) ==>
        entries[i].path in old(disk) && old(disk)[entries[i].path].bytes == entries[i].after.bytes
      ensures old(Calm()) ==> Calm()
      ensures old(Calm()) && Backed(backups[id], entries) ==>
        && (ok <==> Clean(entries[i], old(disk)))
        && (!ok ==> disk == old(disk))
      ensures ok && Backed(backups[id], entries) ==> Look(disk, entries[i].path) == entries[i].before
      ensures !Restorable(entries[i]) ==> disk == old(disk)
      ensures old(down) ==> down && disk == old(disk)
    {
      var e := entries[i];
      if e.path !in disk {
        return e.before.None?;
      }
      if disk[e.path].bytes != e.after.bytes {
        return false;
      }
      if e.before.None? {
        var unlinked := Change(disk - {e.path}, backups);
        return unlinked == Done;
      }
      if i !in backups[id].saved || backups[id].saved[i] != e.before.value.bytes {
        return false;
      }
      if e.before.value.mode > MAX_BACKUP_MODE {
        return false;
      }
      var written := Change(disk[e.path := e.before.value], backups);
      return written == Done;
    }

    /** `rollback`; `None` when the manifest cannot be read, which raises. */
    method Rollback(id: Id, ghost pre: Disk, ghost changes: seq<Entry>) returns (retained: Option<seq<Path>>)
      modifies this
      ensures Recoverable(pre, old(disk), old(backups), id, changes) ==> Recoverable(pre, disk, backups, id, changes)
      // Undisturbed or not, a file whose old mode is out of range is left alone.
      ensures Recoverable(pre, old(disk), old(backups), id, changes) ==> Unrestored(old(disk), disk, changes)
      // Undisturbed, from anything a crash left behind, every other managed file is exactly what it was.
      ensures old(Calm()) ==> Calm()
      ensures old(Calm()) && Recoverable(pre, old(disk), old(backups), id, changes) ==>
        && PutBack(disk, changes)
        && (disk == pre <==> forall e :: e in changes ==> Restorable(e) || Look(old(disk), e.path) == e.before)
      // It retains the entries whose file no longer holds the new bytes, even if it is as it was.
      ensures
        old(Calm()) && Recoverable(pre, old(disk), old(backups), id, changes) && id in old(backups) &&
        Backed(old(backups)[id], changes) ==>
          retained == Some(Retained(changes, old(disk), 0))
      ensures old(down) ==> disk == old(disk) && backups == old(backups)
    {
      if Recoverable(pre, disk, backups, id, changes) && disk == pre {
        SameMeansAllBack(pre, changes);
      }
      if id !in backups {
        return Some([]);
      }
      if backups[id].manifest.None? {
        return None;
      }
      var entries := backups[id].manifest.value;
      var paths := RollbackAll(id, entries, pre, changes);
      if paths == [] {
        var _ := Change(disk, backups - {id});
      }
      return Some(paths);
    }

    /** Where the loop stands: entries from `i` on have been dealt with, the others are as they were. */
    ghost predicate Undone(start: Disk, entries: seq<Entry>, i: nat, retained: seq<Path>, calm: bool)
      reads this
    {
      && i <= |entries|
      && (forall k :: 0 <= k < i ==> Look(disk, entries[k].path) == Look(start, entries[k].path))
      && (retained == [] ==> forall k :: i <= k < |entries| ==> Look(disk, entries[k].path) == entries[k].before)
      && (calm ==> retained == Retained(entries, start, i))
      && (forall k :: i <= k < |entries| && !Restorable(entries[k]) ==>
            Look(disk, entries[k].path) == Look(start, entries[k].path))
      && (calm ==> forall k :: i <= k < |entries| && Restorable(entries[k]) ==>
            Look(disk, entries[k].path) == entries[k].before)
    }

    method RollbackAll(id: Id, entries: seq<Entry>, ghost pre: Disk, ghost changes: seq<Entry>)
      returns (retained: seq<Path>)
      requires id in backups && backups[id].manifest == Some(entries)
      modifies this
      ensures backups == old(backups)
      ensures Recoverable(pre, old(disk), backups, id, changes) ==> Recoverable(pre, disk, backups, id, changes)
      ensures Recoverable(pre, old(disk), backups, id, changes) && retained == [] ==> disk == pre
      ensures old(Calm()) ==> Calm()
      ensures
        old(Calm()) && Recoverable(pre, old(disk), backups, id, changes) ==>
          && PutBack(disk, changes)
          && (disk == pre <==> forall e :: e in changes ==> Restorable(e) || Look(old(disk), e.path) == e.before)
          && retained == Retained(changes, old(disk), 0)
      ensures Recoverable(pre, old(disk), backups, id, changes) ==> Unrestored(old(disk), disk, changes)
      ensures Overwritten(old(disk), disk, entries)
      ensures old(down) ==> down && disk == old(disk)
    {
      hide Between, Clean;
      ghost var start := disk;
      ghost var known := Recoverable(pre, disk, backups, id, changes);
      if known {
        BetweenIsDistinct(pre, disk, changes);
      }
      retained := [];
      var i := |entries|;
      while i > 0
        invariant backups == old(backups) && 0 <= i <= |entries|
        invariant known ==> Recoverable(pre, disk, backups, id, changes)
        invariant known ==> Undone(start, entries, i, retained, old(Calm()))
        invariant Overwritten(start, disk, entries)
        invariant DistinctPaths(entries) ==> SameBefore(start, disk, entries, i)
        invariant old(Calm()) ==> Calm()
        invariant old(down) ==> down && disk == start
      {
        i := i - 1;
        ghost var before := disk;
        var ok := RollbackEntry(id, entries, i);
        StillOverwritten(start, before, disk, entries, i);
        if known {
          EntryUndone(pre, start, before, entries, i);
          OneMoreUndone(pre, start, before, entries, i, retained, ok, old(Calm()));
        }
        if !ok {
          retained := retained + [entries[i].path];
        }
      }
      if known {
        Conclusion(pre, start, entries, retained, old(Calm()));
      }
    }

    lemma OneMoreUndone(
      pre: Disk, start: Disk, before: Disk, entries: seq<Entry>, i: nat, retained: seq<Path>, ok: bool, calm: bool)
      requires i < |entries| && Between(pre, before, entries)
      requires disk == before || disk == Put(before, entries[i].path, entries[i].before)
      requires forall k :: 0 <= k <= i ==> Look(before, entries[k].path) == Look(start, entries[k].path)
      requires retained == [] ==> forall k :: i < k < |entries| ==> Look(before, entries[k].path) == entries[k].before
      requires calm ==> retained == Retained(entries, start, i + 1)
      requires forall k :: i < k < |entries| && !Restorable(entries[k]) ==>
        Look(before, entries[k].path) == Look(start, entries[k].path)
      requires !Restorable(entries[i]) ==> disk == before
      requires calm ==> forall k :: i < k < |entries| && Restorable(entries[k]) ==>
        Look(before, entries[k].path) == entries[k].before
      requires ok ==> Look(disk, entries[i].path) == entries[i].before
      requires calm ==> (ok <==> Clean(entries[i], start)) && (!ok ==> disk == before)
      requires !Clean(entries[i], before) && Restorable(entries[i]) ==>
        Look(before, entries[i].path) == entries[i].before
      requires Clean(entries[i], before) <==> Clean(entries[i], start)
      ensures Between(pre, disk, entries)
      ensures Undone(start, entries, i, if ok then retained else retained + [entries[i].path], calm)
    {
      BetweenIsDistinct(pre, before, entries);
      hide Clean, Restorable, Between, Look, Put;
      if disk != before {
        OneFileKeepsBetween(pre, before, entries, i, entries[i].before);
      }
      OthersStay(before, entries, i);
    }

    lemma OthersStay(before: Disk, entries: seq<Entry>, i: nat)
      requires i < |entries| && DistinctPaths(entries)
      requires disk == before || disk == Put(before, entries[i].path, entries[i].before)
      ensures forall k :: 0 <= k < |entries| && k != i ==> Look(disk, entries[k].path) == Look(before, entries[k].path)
    {
    }

    lemma StillOverwritten(start: Disk, before: Disk, after: Disk, entries: seq<Entry>, i: nat)
      requires i < |entries| && Overwritten(start, before, entries)
      requires DistinctPaths(entries) ==> SameBefore(start, before, entries, i + 1)
      requires after == before || after == Put(before, entries[i].path, entries[i].before)
      requires after != before ==>
        entries[i].path in before && before[entries[i].path].bytes == entries[i].after.bytes
      ensures Overwritten(start, after, entries)
      ensures DistinctPaths(entries) ==> SameBefore(start, after, entries, i)
    {
      if after != before {
        forall p | p != entries[i].path ensures Look(after, p) == Look(before, p) {
        }
        if DistinctPaths(entries) {
          assert Look(before, entries[i].path) == Look(start, entries[i].path);
        }
      }
    }

    lemma BetweenIsDistinct(pre: Disk, disk: Disk, entries: seq<Entry>)
      requires Between(pre, disk, entries)
      ensures DistinctPaths(entries)
    {
    }

    /** With an entry's file as it was or as it was to become, dealing with it leaves it as it was. */
    lemma EntryUndone(pre: Disk, start: Disk, before: Disk, entries: seq<Entry>, i: nat)
      requires Between(pre, before, entries) && i < |entries|
      requires Look(before, entries[i].path) == Look(start, entries[i].path)
      ensures Clean(entries[i], before) <==> Clean(entries[i], start)
      ensures !Clean(entries[i], before) && Restorable(entries[i]) ==>
        Look(before, entries[i].path) == entries[i].before
      ensures Clean(entries[i], before) ==> Restorable(entries[i])
    {
    }

    lemma Conclusion(pre: Disk, start: Disk, entries: seq<Entry>, retained: seq<Path>, calm: bool)
      requires Between(pre, disk, entries) && Undone(start, entries, 0, retained, calm)
      ensures retained == [] ==> disk == pre
      ensures Unrestored(start, disk, entries)
      ensures calm ==>
        && PutBack(disk, entries)
        && (disk == pre <==> forall e :: e in entries ==> Restorable(e) || Look(start, e.path) == e.before)
        && retained == Retained(entries, start, 0)
    {
      if retained == [] || (calm && forall e :: e in entries ==> Restorable(e) || Look(start, e.path) == e.before) {
        forall k | 0 <= k < |entries| ensures Look(disk, entries[k].path) == entries[k].before {
          assert entries[k] in entries;
        }
        AllBackMeansSame(pre, disk, entries);
      }
    }

    // ----- ensure -----

    method FindChanges(desired: seq<(Path, FileState)>) returns (changes: seq<Entry>)
      ensures changes == Changes(desired, disk)
    {
      changes := [];
      for i := 0 to |desired|
        invariant changes == Changes(desired[..i], disk)
      {
        assert desired[..i + 1][..i] == desired[..i];
        if Look(disk, desired[i].0) != Some(desired[i].1) {
          changes := changes + [Entry(desired[i].0, Look(disk, desired[i].0), desired[i].1)];
        }
      }
      assert desired[..|desired|] == desired;
    }

    /** Save every old content, then the manifest: only then may a file change. */
    method SaveBackup(id: Id, changes: seq<Entry>) returns (step: Step)
      requires id !in backups
      modifies this
      ensures disk == old(disk)
      ensures id in backups ==> backups[id].manifest.None? || Backed(backups[id], changes)
      ensures step == Done ==> id in backups && Backed(backups[id], changes)
      ensures old(Calm()) ==> Calm() && step == Done
    {
      step := Change(disk, backups[id := Backup(map[], None)]);
      if step != Done {
        return;
      }
      for i := 0 to |changes|
        invariant disk == old(disk) && id in backups && backups[id].manifest.None?
        invariant forall k :: 0 <= k < i && changes[k].before.Some? ==>
          k in backups[id].saved && backups[id].saved[k] == changes[k].before.value.bytes
        invariant old(Calm()) ==> Calm()
      {
        if changes[i].before.Some? {
          var saved := backups[id].saved[i := changes[i].before.value.bytes];
          step := Change(disk, backups[id := Backup(saved, None)]);
          if step != Done {
            return;
          }
        }
      }
      step := Change(disk, backups[id := backups[id].(manifest := Some(changes))]);
    }

    method WriteAll(id: Id, changes: seq<Entry>, ghost pre: Disk) returns (step: Step)
      requires id in backups && Backed(backups[id], changes) && Between(pre, disk, changes) && disk == pre
      modifies this
      ensures backups == old(backups) && Between(pre, disk, changes)
      ensures step == Done ==> forall k :: 0 <= k < |changes| ==> Look(disk, changes[k].path) == Some(changes[k].after)
      ensures step == Done ==> forall p :: (forall i :: 0 <= i < |changes| ==> changes[i].path != p) ==>
        Look(disk, p) == Look(pre, p)
      ensures old(Calm()) ==> Calm() && step == Done
      ensures step == Died ==> down
    {
      step := Done;
      for i := 0 to |changes|
        invariant backups == old(backups) && Between(pre, disk, changes)
        invariant forall k :: 0 <= k < i ==> Look(disk, changes[k].path) == Some(changes[k].after)
        invariant old(Calm()) ==> Calm()
        invariant step == Done
      {
        OneFileKeepsBetween(pre, disk, changes, i, Some(changes[i].after));
        step := Change(disk[changes[i].path := changes[i].after], backups);
        if step != Done {
          return;
        }
      }
    }

    predicate Permitted(changes: seq<Entry>, allowed: Path -> bool) {
      forall i :: 0 <= i < |changes| ==> changes[i].before.None? || allowed(changes[i].path)
    }

    /**
     `ensure`.  `allowed` says which existing files are proven to be the
     product's own; `unproven` that a repair's identity is not.
     */
    method Ensure(id: Id, desired: seq<(Path, FileState)>, allowed: Path -> bool, unproven: bool)
      returns (r: Result<bool, ()>)
      requires DistinctKeys(desired)
      modifies this
      // Nothing happened, or whatever happened can be undone.
      ensures
        || (disk == old(disk) && backups == old(backups))
        || (id !in old(backups) && Recoverable(old(disk), disk, backups, id, Changes(desired, old(disk))))
      // A file that is there and not proven to be the product's is never changed, nor any file of an unproven repair.
      ensures forall p :: p in old(disk) && !allowed(p) ==> Look(disk, p) == Look(old(disk), p)
      ensures unproven ==> disk == old(disk)
      // No file that is not desired is touched, whatever happens.
      ensures forall p :: (forall i :: 0 <= i < |desired| ==> desired[i].0 != p) ==> Look(disk, p) == Look(old(disk), p)
      ensures r.Success? ==> forall i :: 0 <= i < |desired| ==> Look(disk, desired[i].0) == Some(desired[i].1)
      ensures
        var changes := Changes(desired, old(disk));
        old(Calm()) ==>
          (r.Success? <==> changes == [] || (Permitted(changes, allowed) && !unproven && id !in old(backups)))
    {
      hide Between, Look, Permitted, Recoverable;
      ghost var pre := disk;
      var changes := FindChanges(desired);
      ChangesDescribe(desired, disk);
      Complete(desired, disk);
      if changes == [] {
        return Success(false);
      }
      if !Permitted(changes, allowed) || unproven || id in backups {
        return Failure(());
      }
      r := Apply(id, desired, changes);
      OthersUntouched(pre, changes, desired, allowed);
    }

    /** Back up, then write. */
    method Apply(id: Id, desired: seq<(Path, FileState)>, changes: seq<Entry>) returns (r: Result<bool, ()>)
      requires DistinctKeys(desired) && changes == Changes(desired, disk) && id !in backups
      modifies this
      ensures Between(old(disk), disk, changes) && Recoverable(old(disk), disk, backups, id, changes)
      ensures r.Success? ==> forall i :: 0 <= i < |desired| ==> Look(disk, desired[i].0) == Some(desired[i].1)
      ensures old(Calm()) ==> r.Success?
    {
      hide Between, Look;
      ghost var pre := disk;
      ChangesDescribe(desired, disk);
      Start(pre, changes);
      var saved := SaveBackup(id, changes);
      if saved != Done {
        return Failure(());
      }
      var written := WriteAll(id, changes, pre);
      if written == Done {
        Installed(desired, pre, changes);
        return Success(true);
      }
      if written == Failed {
        var _ := Rollback(id, pre, changes);
      }
      return Failure(());
    }

    /** Only desired files that were permitted to change can have changed. */
    lemma OthersUntouched(pre: Disk, changes: seq<Entry>, desired: seq<(Path, FileState)>, allowed: Path -> bool)
      requires Between(pre, disk, changes) && Permitted(changes, allowed)
      requires forall e :: e in changes ==> (e.path, e.after) in desired
      ensures forall p :: p in pre && !allowed(p) ==> Look(disk, p) == Look(pre, p)
      ensures forall p :: (forall i :: 0 <= i < |desired| ==> desired[i].0 != p) ==> Look(disk, p) == Look(pre, p)
    {
      forall p | (p in pre && !allowed(p)) || (forall i :: 0 <= i < |desired| ==> desired[i].0 != p)
        ensures Look(disk, p) == Look(pre, p)
      {
        forall i | 0 <= i < |changes| ensures changes[i].path != p {
          assert changes[i] in changes;
        }
      }
    }

    lemma Start(pre: Disk, changes: seq<Entry>)
      requires DistinctPaths(changes) && forall e :: e in changes ==> e.before == Look(pre, e.path)
      ensures Between(pre, pre, changes)
    {
      forall i | 0 <= i < |changes| ensures changes[i].before == Look(pre, changes[i].path) {
        assert changes[i] in changes;
      }
    }

    lemma Installed(desired: seq<(Path, FileState)>, pre: Disk, changes: seq<Entry>)
      requires changes == Changes(desired, pre) && DistinctKeys(desired)
      requires forall k :: 0 <= k < |changes| ==> Look(disk, changes[k].path) == Some(changes[k].after)
      requires forall p :: (forall i :: 0 <= i < |changes| ==> changes[i].path != p) ==> Look(disk, p) == Look(pre, p)
      ensures forall i :: 0 <= i < |desired| ==> Look(disk, desired[i].0) == Some(desired[i].1)
    {
      Complete(desired, pre);
      ChangesDescribe(desired, pre);
      forall i | 0 <= i < |desired| ensures Look(disk, desired[i].0) == Some(desired[i].1) {
        var p := desired[i].0;
        if Listed(changes, p) {
          var k :| 0 <= k < |changes| && changes[k].path == p;
          assert changes[k] in changes;
          var j :| 0 <= j < |desired| && desired[j] == (p, changes[k].after);
        } else {
          assert Look(disk, p) == Look(pre, p);
        }
      }
    }

    /**
     However `ensure` ended, and however often rollback was interrupted, one
     undisturbed rollback puts back every managed file, byte for byte and mode
     for mode, except those whose old mode had bits above 0o777: these keep
     what `ensure` made of them.
     */
    method CrashAndRollBack(
      id: Id, desired: seq<(Path, FileState)>, allowed: Path -> bool, unproven: bool, scripts: seq<nat -> Fate>)
      returns (r: Result<bool, ()>)
      requires DistinctKeys(desired) && id !in backups
      modifies this
      ensures PutBack(disk, Changes(desired, old(disk)))
      ensures forall p :: !Listed(Changes(desired, old(disk)), p) ==> Look(disk, p) == Look(old(disk), p)
      ensures (forall e :: e in Changes(desired, old(disk)) ==> Restorable(e)) ==> disk == old(disk)
      ensures r.Success? ==> forall e :: e in Changes(desired, old(disk)) && !Restorable(e) ==>
        Look(disk, e.path) == Some(e.after) && e.before != Some(e.after)
      ensures r.Success? ==>
        (disk == old(disk) <==> forall e :: e in Changes(desired, old(disk)) ==> Restorable(e))
    {
      hide Between, Restorable, Backed, Look;
      ghost var pre, changes := disk, Changes(desired, disk);
      ChangesDescribe(desired, disk);
      Start(disk, changes);
      r := Ensure(id, desired, allowed, unproven);
      ghost var ensured := disk;
      if r.Success? {
        AllInstalled(desired, ensured, changes);
      }
      for i := 0 to |scripts|
        invariant Recoverable(pre, disk, backups, id, changes) && Unrestored(ensured, disk, changes)
      {
        Restart(scripts[i]);
        var _ := Rollback(id, pre, changes);
      }
      Restart(n => Works);
      var _ := Rollback(id, pre, changes);
      Untouched(pre, changes);
    }

    lemma AllInstalled(desired: seq<(Path, FileState)>, after: Disk, changes: seq<Entry>)
      requires forall e :: e in changes ==> (e.path, e.after) in desired
      requires forall i :: 0 <= i < |desired| ==> Look(after, desired[i].0) == Some(desired[i].1)
      ensures forall e :: e in changes ==> Look(after, e.path) == Some(e.after)
    {
    }

    lemma Untouched(pre: Disk, changes: seq<Entry>)
      requires Between(pre, disk, changes)
      ensures forall p :: !Listed(changes, p) ==> Look(disk, p) == Look(pre, p)
    {
    }
  }

  // ----- two runs -----

  const NEW := FileState("new", 493)
  const STICKY := Entry("cli", Some(FileState("old", 1005)), NEW)
  const PLAIN := [Entry("cli", Some(FileState("old", 493)), NEW), Entry("mcp", Some(FileState("old", 493)), NEW)]

  lemma OneFile(pre: Disk, disk: Disk, e: Entry, state: FileState)
    requires Between(pre, disk, [e]) && pre.Keys == {e.path} && Look(disk, e.path) == Some(state)
    ensures disk == map[e.path := state]
  {
    assert [e][0] == e;
    forall p | p != e.path ensures p !in disk {
      assert Look(disk, p) == Look(pre, p);
    }
  }

  lemma OneChange(pre: Disk)
    requires pre == map["cli" := FileState("old", 1005)]
    ensures Changes([("cli", NEW)], pre) == [STICKY]
  {
    assert [("cli", NEW)][..0] == [];
  }

  lemma Reported(disk: Disk)
    ensures Retained([STICKY], disk, 0) == ["cli"]
  {
    assert [STICKY][0] == STICKY && !Clean(STICKY, disk);
    assert Retained([STICKY], disk, 1) == [];
  }

  /** A file of mode 0o1755 is replaced and not put back: it keeps the new bytes and the new mode, and is reported. */
  method AStickyFileIsNotPutBack() returns (disk: Disk, retained: Option<seq<Path>>)
    ensures disk == map["cli" := NEW] && retained == Some(["cli"])
  {
    hide Between, Changes, Retained;
    var before := map["cli" := FileState("old", 1005)];
    var desired := [("cli", NEW)];
    OneChange(before);
    var manager := new InfrastructureManager(before, n => Works);
    var ensured := manager.Ensure("repair", desired, p => true, false);
    assert ensured.Success?;
    assert desired[0] == ("cli", NEW) && Look(manager.disk, "cli") == Some(NEW);
    Reported(manager.disk);
    manager.Restart(n => Works);
    retained := manager.Rollback("repair", before, [STICKY]);
    disk := manager.disk;
    assert STICKY in [STICKY] && !Restorable(STICKY);
    OneFile(before, disk, STICKY, NEW);
  }

  lemma HalfWritten(disk: Disk)
    requires Look(disk, "cli") == Some(NEW) && Look(disk, "mcp") == Some(FileState("old", 493))
    ensures Retained(PLAIN, disk, 0) == ["mcp"]
  {
    assert Clean(PLAIN[0], disk) && !Clean(PLAIN[1], disk);
    assert Retained(PLAIN, disk, 2) == [];
    assert Retained(PLAIN, disk, 1) == ["mcp"];
  }

  /**
   A run of `ensure` that dies between its two file writes: rollback puts the
   first file back and reports the second, which nobody had touched.
   */
  method AnUntouchedFileIsReported() returns (disk: Disk, retained: Option<seq<Path>>)
    ensures disk == map["cli" := FileState("old", 493), "mcp" := FileState("old", 493)]
    ensures retained == Some(["mcp"])
  {
    hide Between, Retained;
    var before := map["cli" := FileState("old", 493), "mcp" := FileState("old", 493)];
    var manager := new InfrastructureManager(before, n => Works);
    manager.Start(before, PLAIN);
    var _ := manager.SaveBackup("repair", PLAIN);
    OneFileKeepsBetween(before, before, PLAIN, 0, Some(NEW));
    var _ := manager.Change(before["cli" := NEW], manager.backups);
    HalfWritten(manager.disk);
    manager.Restart(n => Works);
    retained := manager.Rollback("repair", before, PLAIN);
    disk := manager.disk;
  }

  predicate Listed(changes: seq<Entry>, path: Path) {
    exists k :: 0 <= k < |changes| && changes[k].path == path
  }

  /** A desired file is already there or is listed as a change. */
  lemma {:induction false} Complete(desired: seq<(Path, FileState)>, disk: Disk)
    ensures forall i :: 0 <= i < |desired| ==>
      Look(disk, desired[i].0) == Some(desired[i].1) || Listed(Changes(desired, disk), desired[i].0)
    decreases |desired|
  {
    if desired != [] {
      var last := |desired| - 1;
      Complete(desired[..last], disk);
      var rest, all := Changes(desired[..last], disk), Changes(desired, disk);
      forall i | 0 <= i < |desired|
        ensures Look(disk, desired[i].0) == Some(desired[i].1) || Listed(all, desired[i].0)
      {
        if i < last {
          assert desired[..last][i] == desired[i];
          if Listed(rest, desired[i].0) {
            var k :| 0 <= k < |rest| && rest[k].path == desired[i].0;
            assert all[k] == rest[k];
          }
        } else if Look(disk, desired[last].0) != Some(desired[last].1) {
          assert all[|all| - 1].path == desired[last].0;
        }
      }
    }
  }
}
