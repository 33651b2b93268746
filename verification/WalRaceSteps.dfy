/** Every step of the writers, of rotation and of cleanup keeps the invariants of `WalRace`: what all
    appends share, the fate of every inode, and everything that is known about one append, proved one
    invariant and one kind of step at a time. `WalRaceLoss` puts the steps together. */
module WalRaceSteps {
  import opened Common
  import opened Events
  import opened WalMaintenance
  import opened WalRace

  ghost predicate Shared(s: State) { Names(s) && Holding(s) && History(s) }

  // ---------- frames ----------

  lemma HistoryFrame(s: State, s': State)
    requires History(s)
    requires s'.windows == s.windows && s'.cleans == s.cleans && s'.expired == s.expired && s'.now >= s.now
    requires s'.appends.Keys == s.appends.Keys
    requires forall x, id :: x in s'.logs && id in s'.logs[x] ==> (x in s.logs && id in s.logs[x]) || id in s.appends
    ensures History(s')
  {
    assert forall id :: id in s.appends <==> id in s'.appends by {
      assert forall id :: id in s.appends <==> id in s.appends.Keys;
    }
  }

  /** A step that leaves append `id` and its places alone, and does not touch a cleanup's temporary
      log. */
  ghost predicate Untouched(s: State, s': State, id: nat) {
    && id in s.appends && id in s'.appends && s'.appends[id] == s.appends[id]
    && (forall x :: x in s'.logs && id in s'.logs[x] <==> x in s.logs && id in s.logs[x])
    && s'.windows == s.windows && s'.cleans == s.cleans && s'.expired == s.expired
    && (s.appends[id].phase.Writing? ==> s.appends[id].ino in s'.lock && s'.lock[s.appends[id].ino] == Writer(id))
    && s'.next >= s.next && s'.now >= s.now
    && (s'.maint == s.maint || (!s.maint.ClnBuilt? && !s'.maint.ClnBuilt?))
  }

  /** A rotation's open window, if there is one, stays as it is. */
  predicate SameWindow(s: State, s': State) {
    s'.maint.RotRenamed? ==>
      s'.maint == s.maint && (Cur in s'.dir <==> Cur in s.dir) && (Cur in s.dir ==> s'.dir[Cur] == s.dir[Cur])
  }

  lemma ProgressFrame(c: Codec, s: State, s': State, id: nat)
    requires Untouched(s, s', id) && Progress(c, s, id)
    ensures Progress(c, s', id)
  {
  }

  lemma RotatingFrame(c: Codec, s: State, s': State, id: nat)
    requires Untouched(s, s', id) && SameWindow(s, s') && Rotating(c, s, id)
    ensures Rotating(c, s', id)
  {
  }

  lemma CleaningFrame(s: State, s': State, id: nat)
    requires Untouched(s, s', id) && Cleaning(s, id)
    ensures Cleaning(s', id)
  {
  }

  lemma UniqueFrame(s: State, s': State, id: nat)
    requires Untouched(s, s', id) && Unique(s, id)
    ensures Unique(s', id)
  {
  }

  lemma AccountedFrame(c: Codec, s: State, s': State, id: nat)
    requires Untouched(s, s', id) && Accounted(c, s, id)
    ensures Accounted(c, s', id)
  {
  }

  /** Everything but the rotation window. */
  lemma RestFrame(c: Codec, s: State, s': State, id: nat)
    requires Untouched(s, s', id) && Thread(c, s, id)
    ensures Progress(c, s', id) && Cleaning(s', id) && Unique(s', id) && Accounted(c, s', id)
  {
    ProgressFrame(c, s, s', id);
    CleaningFrame(s, s', id);
    UniqueFrame(s, s', id);
    AccountedFrame(c, s, s', id);
  }

  lemma ThreadFrame(c: Codec, s: State, s': State, id: nat)
    requires Untouched(s, s', id) && SameWindow(s, s') && Thread(c, s, id)
    ensures Thread(c, s', id)
  {
    RestFrame(c, s, s', id);
    RotatingFrame(c, s, s', id);
  }

  /** A writer holds the lock it writes under. */
  predicate LockKept(s: State, id: nat)
    requires id in s.appends
  {
    s.appends[id].phase.Writing? ==> s.appends[id].ino in s.lock && s.lock[s.appends[id].ino] == Writer(id)
  }

  lemma ThreadLock(c: Codec, s: State, id: nat)
    requires Thread(c, s, id) && id in s.appends
    ensures LockKept(s, id)
  {
  }

  // ---------- opening ----------

  lemma EnsureUntouched(s: State, id: nat)
    requires Names(s) && Holding(s) && id in s.appends && LockKept(s, id)
    ensures Untouched(s, Ensure(s), id)
  {
  }

  lemma EnsureRotating(c: Codec, s: State, id: nat)
    requires Names(s) && id in s.appends && Rotating(c, s, id) && s.appends[id].ino < s.next
    ensures Rotating(c, Ensure(s), id)
  {
  }

  lemma EnsureThread(c: Codec, s: State, id: nat)
    requires Names(s) && Holding(s) && Thread(c, s, id)
    ensures Thread(c, Ensure(s), id)
  {
    if id in s.appends {
      ThreadLock(c, s, id);
      EnsureUntouched(s, id);
      RestFrame(c, s, Ensure(s), id);
      EnsureRotating(c, s, id);
    }
  }

  /** An append that has only opened. */
  lemma FreshThread(c: Codec, s: State, id: nat)
    requires id in s.appends && id < s.now && id !in s.expired
    requires s.appends[id] == Append(s.appends[id].ev, s.appends[id].ino, 0, 0, 0, Opened, false)
    requires s.appends[id].ino < s.next && s.appends[id].ino !in s.cleans && !IsTmp(s, s.appends[id].ino)
    requires forall x :: x in s.logs ==> id !in s.logs[x]
    requires s.maint.RotRenamed? ==> id > s.maint.renamed && Cur in s.dir && s.appends[id].ino == s.dir[Cur]
    ensures Thread(c, s, id)
  {
    assert Length(c, s.appends[id]) > 0;
  }

  lemma NotYetLogged(s: State)
    requires History(s)
    ensures s.now !in s.appends && s.now !in s.expired && forall x :: x in s.logs ==> s.now !in s.logs[x]
  {
    forall x | x in s.logs ensures s.now !in s.logs[x] {
      assert s.now !in s.appends;
    }
  }

  lemma OpenUntouched(s: State, ev: Event, id: nat)
    requires id in s.appends && id != s.now && LockKept(s, id)
    ensures var s1, s' := Ensure(s), Tick(OpenEffect(s, ev)); Untouched(s1, s', id) && SameWindow(s1, s')
  {
  }

  lemma OpenThread(c: Codec, s: State, ev: Event, id: nat)
    requires Shared(s) && Thread(c, s, id)
    ensures Thread(c, Tick(OpenEffect(s, ev)), id)
  {
    if id == s.now {
      OpenOwn(c, s, ev);
    } else if id in s.appends {
      EnsureThread(c, s, id);
      ThreadLock(c, s, id);
      OpenUntouched(s, ev, id);
      ThreadFrame(c, Ensure(s), Tick(OpenEffect(s, ev)), id);
    }
  }

  lemma OpenOwn(c: Codec, s: State, ev: Event)
    requires Shared(s)
    ensures Thread(c, Tick(OpenEffect(s, ev)), s.now)
  {
    NotYetLogged(s);
    EnsureNames(s);
    FreshThread(c, Tick(OpenEffect(s, ev)), s.now);
  }

  // ---------- locking and writing ----------

  lemma LockUntouched(s: State, p: nat, id: nat)
    requires CanLock(s, p) && id in s.appends && id != p && LockKept(s, id)
    ensures Untouched(s, Tick(LockEffect(s, p)), id) && SameWindow(s, Tick(LockEffect(s, p)))
  {
  }

  lemma LockThread(c: Codec, s: State, p: nat, id: nat)
    requires Thread(c, s, p) && Thread(c, s, id) && CanLock(s, p)
    ensures Thread(c, Tick(LockEffect(s, p)), id)
  {
    if id == p {
      LockOwn(c, s, p);
    } else if id in s.appends {
      ThreadLock(c, s, id);
      LockUntouched(s, p, id);
      ThreadFrame(c, s, Tick(LockEffect(s, p)), id);
    }
  }

  lemma LockOwn(c: Codec, s: State, p: nat)
    requires Thread(c, s, p) && CanLock(s, p)
    ensures Thread(c, Tick(LockEffect(s, p)), p)
  {
    assert s.appends[p].done == 0 < Length(c, s.appends[p]);
  }

  lemma ChunkUntouched(c: Codec, s: State, p: nat, n: nat, id: nat)
    requires CanChunk(c, s, p, n) && id in s.appends && id != p && LockKept(s, id)
    ensures Untouched(s, Tick(ChunkEffect(c, s, p, n)), id) && SameWindow(s, Tick(ChunkEffect(c, s, p, n)))
  {
  }

  lemma ChunkThread(c: Codec, s: State, p: nat, n: nat, id: nat)
    requires Shared(s) && Thread(c, s, p) && Thread(c, s, id) && CanChunk(c, s, p, n)
    ensures Thread(c, Tick(ChunkEffect(c, s, p, n)), id)
  {
    if id == p {
      ChunkOwn(c, s, p, n);
    } else if id in s.appends {
      ThreadLock(c, s, id);
      ChunkUntouched(c, s, p, n, id);
      ThreadFrame(c, s, Tick(ChunkEffect(c, s, p, n)), id);
    }
  }

  lemma ChunkOwn(c: Codec, s: State, p: nat, n: nat)
    requires Shared(s) && Thread(c, s, p) && CanChunk(c, s, p, n)
    ensures Thread(c, Tick(ChunkEffect(c, s, p, n)), p)
  {
    var s' := Tick(ChunkEffect(c, s, p, n));
    var a := s.appends[p];
    assert forall x :: x in s.logs ==> p !in s.logs[x];
    assert forall x :: x in s'.logs && p in s'.logs[x] ==> x == a.ino;
  }

  lemma UnlockUntouched(c: Codec, s: State, p: nat, id: nat)
    requires CanUnlock(c, s, p) && LockKept(s, p) && id in s.appends && id != p && LockKept(s, id)
    ensures Untouched(s, Tick(UnlockEffect(c, s, p)), id) && SameWindow(s, Tick(UnlockEffect(c, s, p)))
  {
  }

  lemma UnlockThread(c: Codec, s: State, p: nat, id: nat)
    requires Thread(c, s, p) && Thread(c, s, id) && CanUnlock(c, s, p)
    ensures Thread(c, Tick(UnlockEffect(c, s, p)), id)
  {
    if id == p {
      UnlockOwn(c, s, p);
    } else if id in s.appends {
      ThreadLock(c, s, p);
      ThreadLock(c, s, id);
      UnlockUntouched(c, s, p, id);
      ThreadFrame(c, s, Tick(UnlockEffect(c, s, p)), id);
    }
  }

  lemma UnlockOwn(c: Codec, s: State, p: nat)
    requires Thread(c, s, p) && CanUnlock(c, s, p)
    ensures Thread(c, Tick(UnlockEffect(c, s, p)), p)
  {
  }

  lemma DieUntouched(c: Codec, s: State, p: nat, id: nat)
    requires CanDie(c, s, p) && LockKept(s, p) && id in s.appends && id != p && LockKept(s, id)
    ensures Untouched(s, Tick(DieEffect(c, s, p)), id) && SameWindow(s, Tick(DieEffect(c, s, p)))
  {
  }

  lemma DieThread(c: Codec, s: State, p: nat, id: nat)
    requires Thread(c, s, p) && Thread(c, s, id) && CanDie(c, s, p)
    ensures Thread(c, Tick(DieEffect(c, s, p)), id)
  {
    if id == p {
      DieOwn(c, s, p);
    } else if id in s.appends {
      ThreadLock(c, s, p);
      ThreadLock(c, s, id);
      DieUntouched(c, s, p, id);
      ThreadFrame(c, s, Tick(DieEffect(c, s, p)), id);
    }
  }

  lemma DieOwn(c: Codec, s: State, p: nat)
    requires Thread(c, s, p) && CanDie(c, s, p)
    ensures Thread(c, Tick(DieEffect(c, s, p)), p)
  {
  }

  // ---------- rotation ----------

  /** The maintenance task moves on, or takes or gives back a lock no writer has. */
  lemma QuietThread(c: Codec, s: State, m: Maint, lock: map<nat, Holder>, id: nat)
    requires Thread(c, s, id) && id in s.appends
    requires !s.maint.ClnBuilt? && !m.RotRenamed? && !m.ClnBuilt?
    requires forall x :: x in s.lock && s.lock[x].Writer? ==> x in lock && lock[x] == s.lock[x]
    ensures Thread(c, Tick(s.(maint := m, lock := lock)), id)
  {
    ThreadLock(c, s, id);
    QuietUntouched(s, m, lock, id);
    ThreadFrame(c, s, Tick(s.(maint := m, lock := lock)), id);
  }

  lemma QuietUntouched(s: State, m: Maint, lock: map<nat, Holder>, id: nat)
    requires id in s.appends && LockKept(s, id) && !s.maint.ClnBuilt? && !m.RotRenamed? && !m.ClnBuilt?
    requires forall x :: x in s.lock && s.lock[x].Writer? ==> x in lock && lock[x] == s.lock[x]
    ensures var s' := Tick(s.(maint := m, lock := lock)); Untouched(s, s', id) && SameWindow(s, s')
  {
  }

  lemma ShiftUntouched(s: State, id: nat)
    requires id in s.appends && LockKept(s, id) && s.maint.RotLocked? && s.maint.shift > 0
    ensures Untouched(s, Tick(ShiftEffect(s)), id) && SameWindow(s, Tick(ShiftEffect(s)))
  {
  }

  lemma ShiftThread(c: Codec, s: State, id: nat)
    requires Thread(c, s, id) && s.maint.RotLocked? && s.maint.shift > 0
    ensures Thread(c, Tick(ShiftEffect(s)), id)
  {
    if id in s.appends {
      ThreadLock(c, s, id);
      ShiftUntouched(s, id);
      ThreadFrame(c, s, Tick(ShiftEffect(s)), id);
    }
  }

  lemma MoveUntouched(s: State, id: nat)
    requires id in s.appends && LockKept(s, id) && s.maint.RotLocked? && Cur in s.dir
    ensures Untouched(s, Tick(MoveEffect(s)), id)
  {
  }

  lemma MoveRotating(c: Codec, s: State, id: nat)
    requires History(s) && id in s.appends && Rotating(c, s, id) && s.maint.RotLocked? && Cur in s.dir
    ensures Rotating(c, Tick(MoveEffect(s)), id)
  {
  }

  lemma MoveThread(c: Codec, s: State, id: nat)
    requires History(s) && Thread(c, s, id) && s.maint.RotLocked? && Cur in s.dir
    ensures Thread(c, Tick(MoveEffect(s)), id)
  {
    if id in s.appends {
      ThreadLock(c, s, id);
      MoveUntouched(s, id);
      RestFrame(c, s, Tick(MoveEffect(s)), id);
      MoveRotating(c, s, id);
    }
  }

  lemma DropUntouched(limit: nat, s: State, id: nat)
    requires Holding(s) && id in s.appends && LockKept(s, id) && s.maint.RotCreated?
    ensures var s' := Tick(Release(DropEffect(limit, s))); Untouched(s, s', id) && SameWindow(s, s')
  {
  }

  lemma DropThread(c: Codec, limit: nat, s: State, id: nat)
    requires Holding(s) && Thread(c, s, id) && s.maint.RotCreated?
    ensures Thread(c, Tick(Release(DropEffect(limit, s))), id)
  {
    if id in s.appends {
      ThreadLock(c, s, id);
      DropUntouched(limit, s, id);
      ThreadFrame(c, s, Tick(Release(DropEffect(limit, s))), id);
    }
  }

  lemma CreateThread(c: Codec, s: State, id: nat)
    requires Names(s) && Holding(s) && Thread(c, s, id) && s.maint.RotRenamed?
    ensures Thread(c, Tick(CreateEffect(c, s)), id)
  {
    if id in s.appends {
      EnsureThread(c, s, id);
      CreatePlaces(c, s, id);
      CreateThreadFrom(c, Ensure(s), Tick(CreateEffect(c, s)), id, Ensure(s).dir[Cur]);
    }
  }

  lemma CreatePlaces(c: Codec, s: State, id: nat)
    requires s.maint.RotRenamed? && id in s.appends
    ensures Emptied(c, Ensure(s), Tick(CreateEffect(c, s)), id, Ensure(s).dir[Cur])
  {
  }

  /** Rotation's re-creation as append `id` sees it: inode `x`, the current file, is cut to nothing. */
  ghost predicate Emptied(c: Codec, s: State, s': State, id: nat, x: nat) {
    && s.maint.RotRenamed? && Cur in s.dir && x == s.dir[Cur]
    && id in s.appends && id in s'.appends && s'.appends[id] == Cut(c, s.appends[id], x)
    && (forall y :: y in s'.logs && id in s'.logs[y] <==> y in s.logs && id in s.logs[y] && y != x)
    && s'.windows == s.windows + {Window(s.maint.renamed, s.now)}
    && s'.maint.RotCreated? && s'.next == s.next && s'.now >= s.now && s'.lock == s.lock
    && s'.cleans == s.cleans && s'.expired == s.expired
  }

  lemma EmptiedRotating(c: Codec, s: State, s': State, id: nat, x: nat)
    requires Emptied(c, s, s', id, x) && Progress(c, s, id) && Rotating(c, s, id)
    ensures Progress(c, s', id) && Rotating(c, s', id)
  {
  }

  lemma EmptiedCleaning(c: Codec, s: State, s': State, id: nat, x: nat)
    requires Emptied(c, s, s', id, x) && Cleaning(s, id) && Unique(s, id)
    ensures Cleaning(s', id) && Unique(s', id)
  {
  }

  lemma EmptiedAccounted(c: Codec, s: State, s': State, id: nat, x: nat)
    requires Emptied(c, s, s', id, x) && Progress(c, s, id) && Rotating(c, s, id) && Accounted(c, s, id)
    ensures Accounted(c, s', id)
  {
  }

  lemma CreateThreadFrom(c: Codec, s: State, s': State, id: nat, x: nat)
    requires Thread(c, s, id) && Emptied(c, s, s', id, x)
    ensures Thread(c, s', id)
  {
    EmptiedRotating(c, s, s', id, x);
    EmptiedCleaning(c, s, s', id, x);
    EmptiedAccounted(c, s, s', id, x);
  }

  // ---------- cleanup ----------

  lemma {:induction false} KeptLinesMember(appends: map<nat, Append>, ids: seq<nat>, cutoff: nat, id: nat)
    ensures id in KeptLines(appends, ids, cutoff) <==> id in ids && EventOf(appends, id).ts >= cutoff
  {
    if ids != [] { KeptLinesMember(appends, ids[1..], cutoff, id); }
  }

  lemma {:induction false} NewerLinesMember(appends: map<nat, Append>, ids: seq<nat>, last: nat, id: nat)
    ensures id in NewerLines(appends, ids, last) ==> id in ids
  {
    if ids != [] { NewerLinesMember(appends, ids[1..], last, id); }
  }

  lemma BuildLines(c: Codec, s: State, k: nat, id: nat)
    requires Holding(s) && s.maint.ClnRead? && CanRead(c, s) && s.next !in s.logs
    ensures var s' := Tick(BuildEffect(c, s, k));
      && s.next in s'.logs
      && (forall x :: x in s'.logs && id in s'.logs[x] && x != s.next <==> x in s.logs && id in s.logs[x])
      && (id in s'.logs[s.next] ==> id == s.now || id in s.logs[s.maint.ino])
      && (id == s.now || (id in s.logs[s.maint.ino] && EventOf(s.appends, id).ts >= k) ==> id in s'.logs[s.next])
  {
    var last := LastSeqOr0(Retained(Scan(c, s.maint.text), k));
    KeptLinesMember(s.appends, s.maint.lines, k, id);
    NewerLinesMember(s.appends, s.logs[s.dir[Cur]], last, id);
  }

  lemma BuildThread(c: Codec, s: State, k: nat, id: nat)
    requires Shared(s) && Thread(c, s, id) && s.maint.ClnRead? && CanRead(c, s)
    ensures Thread(c, Tick(BuildEffect(c, s, k)), id)
  {
    var s' := Tick(BuildEffect(c, s, k));
    NotYetLogged(s);
    BuildLines(c, s, k, id);
    if id == s.now {
      BuildMarker(c, s, s', id);
    } else if id in s.appends {
      BuildOther(c, s, s', k, id);
    }
  }

  lemma BuildMarker(c: Codec, s: State, s': State, id: nat)
    requires Names(s) && History(s) && s'.maint.ClnBuilt? && s'.maint.tmp == s.next && s'.maint.ino < s.next
    requires id in s'.appends && s'.appends[id].ino == s.next && s'.appends[id].phase.Acked? && s'.appends[id].from == 0
    requires !s'.appends[id].glued && s'.appends[id].done == Length(c, s'.appends[id])
    requires s'.appends[id].startedAt == id < s'.now && id !in s'.expired
    requires forall x :: x in s'.logs && id in s'.logs[x] ==> x == s.next
    requires s.next in s'.logs && id in s'.logs[s.next] && s.next < s'.next
    requires s'.cleans == s.cleans && s'.windows == s.windows && id == s.now
    ensures Thread(c, s', id)
  {
  }

  /** A cleanup's new temporary log as append `id` sees it. */
  ghost predicate Built(s: State, s': State, k: nat, id: nat) {
    && s.maint.ClnRead? && s'.maint == ClnBuilt(s.maint.ino, s.next, s.now, k)
    && id in s.appends && id in s'.appends && s'.appends[id] == s.appends[id]
    && (forall x :: x in s'.logs && id in s'.logs[x] && x != s.next <==> x in s.logs && id in s.logs[x])
    && s.maint.ino in s.logs && s.next in s'.logs && (id in s'.logs[s.next] ==> id in s.logs[s.maint.ino])
    && (id in s.logs[s.maint.ino] && s.appends[id].ev.ts >= k ==> id in s'.logs[s.next])
    && s'.cleans == s.cleans && s'.windows == s.windows && s'.expired == s.expired && s'.lock == s.lock
    && s'.next == s.next + 1 && s'.now == s.now + 1
  }

  lemma BuiltRotating(c: Codec, s: State, s': State, k: nat, id: nat)
    requires Built(s, s', k, id) && Progress(c, s, id) && Rotating(c, s, id)
    ensures Progress(c, s', id) && Rotating(c, s', id)
  {
  }

  lemma BuiltCleaning(c: Codec, s: State, s': State, k: nat, id: nat)
    requires Names(s) && Holding(s) && Built(s, s', k, id) && Thread(c, s, id)
    ensures Cleaning(s', id)
  {
  }

  lemma BuiltUnique(s: State, s': State, k: nat, id: nat)
    requires Names(s) && Holding(s) && Built(s, s', k, id) && Unique(s, id)
    ensures Unique(s', id)
  {
  }

  lemma BuiltAccounted(c: Codec, s: State, s': State, k: nat, id: nat)
    requires Names(s) && Built(s, s', k, id) && Progress(c, s, id) && Accounted(c, s, id)
    ensures Accounted(c, s', id)
  {
  }

  lemma BuildOther(c: Codec, s: State, s': State, k: nat, id: nat)
    requires Names(s) && Holding(s) && Thread(c, s, id) && Built(s, s', k, id)
    ensures Thread(c, s', id)
  {
    BuiltRotating(c, s, s', k, id);
    BuiltCleaning(c, s, s', k, id);
    BuiltUnique(s, s', k, id);
    BuiltAccounted(c, s, s', k, id);
  }

  lemma ReplaceThread(c: Codec, s: State, id: nat)
    requires Shared(s) && Thread(c, s, id) && s.maint.ClnBuilt?
    ensures Thread(c, Tick(ReplaceEffect(s)), id)
  {
    if id in s.appends {
      ReplaceExpired(s, id);
      ReplaceThreadFrom(c, s, Tick(ReplaceEffect(s)), id);
    }
  }

  lemma ReplaceExpired(s: State, id: nat)
    requires s.maint.ClnBuilt? && id in s.appends
    ensures var s' := Tick(ReplaceEffect(s));
      var gone := HasLine(s, s.maint.ino, id) && !HasLine(s, s.maint.tmp, id);
      && (id in s'.expired <==> id in s.expired || gone)
      && (id in s'.expired ==> s'.expired[id] == if gone then s.maint.cutoff else s.expired[id])
  {
  }

  /** A cleanup's rename as append `id` sees it. */
  ghost predicate Replaced(s: State, s': State, id: nat) {
    && id in s.appends && s.maint.ClnBuilt? && s'.maint.ClnRenamed?
    && s'.appends == s.appends && s'.logs == s.logs && s'.lock == s.lock && s'.windows == s.windows
    && s'.cleans == s.cleans[s.maint.ino := Clean(s.maint.reread, s.now)] && s'.next == s.next && s'.now == s.now + 1
    && var gone := HasLine(s, s.maint.ino, id) && !HasLine(s, s.maint.tmp, id);
       && (id in s'.expired <==> id in s.expired || gone)
       && (id in s'.expired ==> s'.expired[id] == if gone then s.maint.cutoff else s.expired[id])
  }

  lemma ReplacedCleaning(s: State, s': State, id: nat)
    requires Names(s) && Holding(s) && History(s) && Replaced(s, s', id) && Cleaning(s, id) && Unique(s, id)
    requires forall x :: x in s.logs && id in s.logs[x] ==> !s.appends[id].phase.Dead? && s.appends[id].done > 0
    ensures Cleaning(s', id)
  {
  }

  /** A dead writer's line is never whole. */
  lemma WholeIsAlive(c: Codec, s: State, id: nat)
    requires Thread(c, s, id) && id in s.appends
    ensures forall x :: x in s.logs && id in s.logs[x] ==> !s.appends[id].phase.Dead? && s.appends[id].done > 0
  {
    assert Length(c, s.appends[id]) > 0;
  }

  lemma ReplacedUnique(s: State, s': State, id: nat)
    requires Replaced(s, s', id) && Unique(s, id)
    ensures Unique(s', id)
  {
  }

  lemma ReplacedAccounted(c: Codec, s: State, s': State, id: nat)
    requires Names(s) && Holding(s) && Replaced(s, s', id) && Thread(c, s, id)
    ensures Accounted(c, s', id)
  {
  }

  lemma ReplaceThreadFrom(c: Codec, s: State, s': State, id: nat)
    requires Shared(s) && Thread(c, s, id) && Replaced(s, s', id)
    ensures Thread(c, s', id)
  {
    WholeIsAlive(c, s, id);
    ReplacedCleaning(s, s', id);
    ReplacedUnique(s, s', id);
    ReplacedAccounted(c, s, s', id);
  }

  // ---------- one step, one append ----------

  /** The append a writer step acts on. */
  function Actor(a: Action): Option<nat> {
    match a
    case Lock(id) => Some(id)
    case Chunk(id, _) => Some(id)
    case Unlock(id) => Some(id)
    case Die(id) => Some(id)
    case _ => None
  }

  predicate WriterStep(a: Action) { a.Touch? || a.Open? || a.Lock? || a.Chunk? || a.Unlock? || a.Die? }

  lemma TouchThread(c: Codec, s: State, id: nat)
    requires Names(s) && Holding(s) && Thread(c, s, id)
    ensures Thread(c, Tick(Ensure(s)), id)
  {
    EnsureThread(c, s, id);
    if id in s.appends { TickThread(c, Ensure(s), id); }
  }

  lemma TickThread(c: Codec, s: State, id: nat)
    requires Thread(c, s, id) && id in s.appends
    ensures Thread(c, Tick(s), id)
  {
    ThreadLock(c, s, id);
    assert Untouched(s, Tick(s), id) && SameWindow(s, Tick(s));
    ThreadFrame(c, s, Tick(s), id);
  }

  lemma WriterThread(c: Codec, limit: nat, s: State, a: Action, id: nat)
    requires Shared(s) && Thread(c, s, id) && Enabled(c, s, a) && WriterStep(a)
    requires Actor(a).Some? ==> Thread(c, s, Actor(a).value)
    ensures Thread(c, Apply(c, limit, s, a), id)
  {
    match a
    case Touch => TouchThread(c, s, id);
    case Open(ev) => OpenThread(c, s, ev, id);
    case Lock(p) => LockThread(c, s, p, id);
    case Chunk(p, n) => ChunkThread(c, s, p, n, id);
    case Unlock(p) => UnlockThread(c, s, p, id);
    case Die(p) => DieThread(c, s, p, id);
  }

  lemma QuietMaint(c: Codec, limit: nat, s: State, a: Action)
    requires Enabled(c, s, a) && QuietStep(a)
    ensures var m := NextMaint(c, limit, s, a);
      !s.maint.ClnBuilt? && !m.RotRenamed? && !m.ClnBuilt? && (m.ClnRead? ==> a.ClnReadAll?)
  {
  }

  lemma QuietLocks(c: Codec, s: State, a: Action)
    requires Holding(s) && Enabled(c, s, a) && QuietStep(a)
    ensures var lock := NextLock(c, s, a);
      && (forall x :: x in s.lock && s.lock[x].Writer? ==> x in lock && lock[x] == s.lock[x])
      && (forall x :: x in lock && lock[x].Writer? ==> x in s.lock && lock[x] == s.lock[x])
  {
  }

  lemma QuietApply(c: Codec, limit: nat, s: State, a: Action)
    requires Enabled(c, s, a) && QuietStep(a)
    ensures Apply(c, limit, s, a) == Tick(Quiet(c, limit, s, a))
  {
  }

  lemma QuietThreadStep(c: Codec, limit: nat, s: State, a: Action, id: nat)
    requires Holding(s) && Thread(c, s, id) && Enabled(c, s, a) && QuietStep(a)
    ensures Thread(c, Apply(c, limit, s, a), id)
  {
    QuietApply(c, limit, s, a);
    QuietMaint(c, limit, s, a);
    QuietLocks(c, s, a);
    if id in s.appends { QuietThread(c, s, NextMaint(c, limit, s, a), NextLock(c, s, a), id); }
  }

  lemma TaskThread(c: Codec, limit: nat, s: State, a: Action, id: nat)
    requires Shared(s) && Thread(c, s, id) && Enabled(c, s, a) && !WriterStep(a) && !QuietStep(a)
    ensures Thread(c, Apply(c, limit, s, a), id)
  {
    match a
    case RotShift => ShiftThread(c, s, id);
    case RotRename => MoveThread(c, s, id);
    case RotCreate => CreateThread(c, s, id);
    case RotFinish => DropThread(c, limit, s, id);
    case ClnBuild(k) => BuildThread(c, s, k, id);
    case ClnRename => ReplaceThread(c, s, id);
  }

  lemma ThreadStep(c: Codec, limit: nat, s: State, a: Action, id: nat)
    requires Shared(s) && Thread(c, s, id) && Enabled(c, s, a)
    requires Actor(a).Some? ==> Thread(c, s, Actor(a).value)
    ensures Thread(c, Apply(c, limit, s, a), id)
  {
    if WriterStep(a) {
      WriterThread(c, limit, s, a, id);
    } else if QuietStep(a) {
      QuietThreadStep(c, limit, s, a, id);
    } else {
      TaskThread(c, limit, s, a, id);
    }
  }

  // ---------- one step, what is shared ----------

  lemma EnsureHistory(s: State)
    requires History(s)
    ensures History(Ensure(s))
  {
    HistoryFrame(s, Ensure(s));
  }

  lemma TickShared(s: State)
    requires Shared(s)
    ensures Shared(Tick(s))
  {
    NamesFrame(s, Tick(s));
    HistoryFrame(s, Tick(s));
  }

  lemma TouchShared(s: State)
    requires Shared(s)
    ensures Shared(Tick(Ensure(s)))
  {
    EnsureNames(s);
    EnsureHistory(s);
    TickShared(Ensure(s));
  }

  lemma OpenShared(s: State, ev: Event)
    requires Shared(s)
    ensures Shared(Tick(OpenEffect(s, ev)))
  {
    OpenNames(s, ev);
    OpenHistory(s, ev);
    OpenHolding(s, ev);
  }

  lemma OpenHolding(s: State, ev: Event)
    requires Names(s) && Holding(s)
    ensures Holding(Tick(OpenEffect(s, ev)))
  {
  }

  lemma OpenNames(s: State, ev: Event)
    requires Names(s) && (s.maint.ClnBuilt? ==> s.maint.tmp < s.next)
    ensures Names(Tick(OpenEffect(s, ev)))
  {
    EnsureNames(s);
    NamesFrame(Ensure(s), Tick(OpenEffect(s, ev)));
  }

  /** One more append is known. */
  lemma HistoryGrows(s: State, s': State)
    requires History(s)
    requires s'.windows == s.windows && s'.cleans == s.cleans && s'.expired == s.expired && s'.now == s.now + 1
    requires s'.appends.Keys == s.appends.Keys + {s.now}
    requires forall x, id :: x in s'.logs && id in s'.logs[x] ==> x in s.logs && id in s.logs[x]
    ensures History(s')
  {
    forall id | id in s'.appends ensures id < s'.now { assert id in s'.appends.Keys; }
    forall id | id in s.appends ensures id in s'.appends { assert id in s'.appends.Keys; }
  }

  lemma OpenHistory(s: State, ev: Event)
    requires History(s)
    ensures History(Tick(OpenEffect(s, ev)))
  {
    OpenKeys(s, ev);
    OpenLines(s, ev);
    HistoryGrows(s, Tick(OpenEffect(s, ev)));
  }

  lemma OpenKeys(s: State, ev: Event)
    ensures var s' := Tick(OpenEffect(s, ev));
      && s'.appends.Keys == s.appends.Keys + {s.now} && s'.now == s.now + 1
      && s'.windows == s.windows && s'.cleans == s.cleans && s'.expired == s.expired
  {
  }

  lemma OpenLines(s: State, ev: Event)
    ensures var s' := Tick(OpenEffect(s, ev));
      forall x, id :: x in s'.logs && id in s'.logs[x] ==> x in s.logs && id in s.logs[x]
  {
  }

  lemma LockShared(c: Codec, s: State, p: nat)
    requires Shared(s) && CanLock(s, p)
    ensures Shared(Tick(LockEffect(s, p)))
  {
    var s' := Tick(LockEffect(s, p));
    NamesFrame(s, s');
    HistoryFrame(s, s');
  }

  lemma ChunkShared(c: Codec, s: State, p: nat, n: nat)
    requires Shared(s) && Thread(c, s, p) && CanChunk(c, s, p, n)
    ensures Shared(Tick(ChunkEffect(c, s, p, n)))
  {
    var s' := Tick(ChunkEffect(c, s, p, n));
    NamesFrame(s, s');
    assert s'.appends.Keys == s.appends.Keys;
    HistoryFrame(s, s');
    assert s.lock[s.appends[p].ino] == Writer(p);
  }

  lemma UnlockShared(c: Codec, s: State, p: nat)
    requires Shared(s) && Thread(c, s, p) && CanUnlock(c, s, p)
    ensures Shared(Tick(UnlockEffect(c, s, p)))
  {
    var s' := Tick(UnlockEffect(c, s, p));
    NamesFrame(s, s');
    HistoryFrame(s, s');
    assert s.lock[s.appends[p].ino] == Writer(p);
  }

  lemma DieShared(c: Codec, s: State, p: nat)
    requires Shared(s) && Thread(c, s, p) && CanDie(c, s, p)
    ensures Shared(Tick(DieEffect(c, s, p)))
  {
    var s' := Tick(DieEffect(c, s, p));
    NamesFrame(s, s');
    HistoryFrame(s, s');
    assert s.lock[s.appends[p].ino] == Writer(p);
  }

  lemma QuietShared(s: State, m: Maint, lock: map<nat, Holder>)
    requires Shared(s) && !m.ClnBuilt? && Holding(Tick(s.(maint := m, lock := lock)))
    ensures Shared(Tick(s.(maint := m, lock := lock)))
  {
    NamesFrame(s, Tick(s.(maint := m, lock := lock)));
    HistoryFrame(s, Tick(s.(maint := m, lock := lock)));
  }

  lemma QuietHolding(c: Codec, limit: nat, s: State, a: Action)
    requires Holding(s) && Enabled(c, s, a) && QuietStep(a)
    ensures Holding(Tick(s.(maint := NextMaint(c, limit, s, a), lock := NextLock(c, s, a))))
  {
    match a
    case RotOpen =>
    case RotLock =>
    case RotSkip =>
    case ClnOpen =>
    case ClnLock =>
    case ClnReadAll =>
    case ClnSkip(_) =>
    case ClnUnlock =>
    case Abort =>
  }

  lemma ShiftNames(s: State)
    requires Names(s) && s.maint.RotLocked? && s.maint.shift > 0
    ensures Names(Tick(ShiftEffect(s)))
  {
    var i, s' := s.maint.shift, Tick(ShiftEffect(s));
    if Arch(i) in s.dir {
      RenameNames(s, Arch(i), Arch(i + 1));
      NamesFrame(Rename(s, Arch(i), Arch(i + 1)), s');
    } else {
      NamesFrame(s, s');
    }
  }

  lemma ShiftHolding(s: State)
    requires Holding(s) && s.maint.RotLocked? && s.maint.shift > 0
    ensures Holding(Tick(ShiftEffect(s)))
  {
  }

  lemma ShiftHistory(s: State)
    requires History(s) && s.maint.RotLocked? && s.maint.shift > 0
    ensures History(Tick(ShiftEffect(s)))
  {
    HistoryFrame(s, Tick(ShiftEffect(s)));
  }

  lemma ShiftShared(s: State)
    requires Shared(s) && s.maint.RotLocked? && s.maint.shift > 0
    ensures Shared(Tick(ShiftEffect(s)))
  {
    ShiftNames(s);
    ShiftHolding(s);
    ShiftHistory(s);
  }

  lemma MoveShared(s: State)
    requires Shared(s) && s.maint.RotLocked? && Cur in s.dir
    ensures Shared(Tick(MoveEffect(s)))
  {
    var s' := Tick(MoveEffect(s));
    HistoryFrame(s, s');
    RenameNames(s, Cur, Arch(1));
    NamesFrame(Rename(s, Cur, Arch(1)), s');
  }

  lemma CreateShared(c: Codec, s: State)
    requires Shared(s) && s.maint.RotRenamed?
    ensures Shared(Tick(CreateEffect(c, s)))
  {
    CreateNames(c, s);
    CreateHistory(c, s);
  }

  lemma CreateNames(c: Codec, s: State)
    requires Names(s) && s.maint.RotRenamed?
    ensures Names(Tick(CreateEffect(c, s)))
  {
    EnsureNames(s);
    NamesFrame(Ensure(s), Tick(CreateEffect(c, s)));
  }

  lemma CreateHistory(c: Codec, s: State)
    requires History(s) && s.maint.RotRenamed?
    ensures History(Tick(CreateEffect(c, s)))
  {
  }

  lemma DropShared(limit: nat, s: State)
    requires Shared(s) && s.maint.RotCreated?
    ensures Shared(Tick(Release(DropEffect(limit, s))))
  {
    var s' := Tick(Release(DropEffect(limit, s)));
    DropNames(limit, s);
    NamesFrame(DropEffect(limit, s), s');
    HistoryFrame(s, s');
  }

  lemma BuildShared(c: Codec, s: State, k: nat)
    requires Shared(s) && s.maint.ClnRead? && CanRead(c, s)
    ensures Shared(Tick(BuildEffect(c, s, k)))
  {
    var s' := Tick(BuildEffect(c, s, k));
    BuildNames(c, s, k);
    NamesFrame(BuildEffect(c, s, k), s');
    BuildHistory(c, s, k);
  }

  lemma BuildHistory(c: Codec, s: State, k: nat)
    requires Shared(s) && s.maint.ClnRead? && CanRead(c, s)
    ensures History(Tick(BuildEffect(c, s, k)))
  {
    var s' := Tick(BuildEffect(c, s, k));
    forall x, id | x in s'.logs && id in s'.logs[x] ensures id in s'.appends {
      BuildLines(c, s, k, id);
    }
  }

  lemma ReplaceShared(s: State)
    requires Shared(s) && s.maint.ClnBuilt?
    ensures Shared(Tick(ReplaceEffect(s)))
  {
    ReplaceNames(s);
    NamesFrame(ReplaceEffect(s), Tick(ReplaceEffect(s)));
    ReplaceHistory(s);
  }

  lemma ReplaceHistory(s: State)
    requires Holding(s) && History(s) && s.maint.ClnBuilt?
    ensures History(Tick(ReplaceEffect(s)))
  {
  }

  lemma WriterShared(c: Codec, limit: nat, s: State, a: Action)
    requires Shared(s) && Enabled(c, s, a) && WriterStep(a)
    requires Actor(a).Some? ==> Thread(c, s, Actor(a).value)
    ensures Shared(Apply(c, limit, s, a))
  {
    match a
    case Touch => TouchShared(s);
    case Open(ev) => OpenShared(s, ev);
    case Lock(p) => LockShared(c, s, p);
    case Chunk(p, n) => ChunkShared(c, s, p, n);
    case Unlock(p) => UnlockShared(c, s, p);
    case Die(p) => DieShared(c, s, p);
  }

  lemma QuietSharedStep(c: Codec, limit: nat, s: State, a: Action)
    requires Shared(s) && Enabled(c, s, a) && QuietStep(a)
    ensures Shared(Apply(c, limit, s, a))
  {
    QuietApply(c, limit, s, a);
    QuietMaint(c, limit, s, a);
    QuietHolding(c, limit, s, a);
    QuietShared(s, NextMaint(c, limit, s, a), NextLock(c, s, a));
  }

  lemma TaskShared(c: Codec, limit: nat, s: State, a: Action)
    requires Shared(s) && Enabled(c, s, a) && !WriterStep(a) && !QuietStep(a)
    ensures Shared(Apply(c, limit, s, a))
  {
    match a
    case RotShift => ShiftShared(s);
    case RotRename => MoveShared(s);
    case RotCreate => CreateShared(c, s);
    case RotFinish => DropShared(limit, s);
    case ClnBuild(k) => BuildShared(c, s, k);
    case ClnRename => ReplaceShared(s);
  }

  lemma SharedStep(c: Codec, limit: nat, s: State, a: Action)
    requires Shared(s) && Enabled(c, s, a)
    requires Actor(a).Some? ==> Thread(c, s, Actor(a).value)
    ensures Shared(Apply(c, limit, s, a))
  {
    if WriterStep(a) {
      WriterShared(c, limit, s, a);
    } else if QuietStep(a) {
      QuietSharedStep(c, limit, s, a);
    } else {
      TaskShared(c, limit, s, a);
    }
  }

  lemma QuietFate(c: Codec, limit: nat, s: State, a: Action, x: nat)
    requires Fate(s, x) && Enabled(c, s, a) && QuietStep(a)
    ensures Fate(Apply(c, limit, s, a), x)
  {
    QuietApply(c, limit, s, a);
    QuietMaint(c, limit, s, a);
    FateFrame(s, Tick(Quiet(c, limit, s, a)), x);
  }

  lemma OpenFate(s: State, s': State, x: nat)
    requires Fate(s, x) && (Ensure(s).maint == s'.maint || !s.maint.ClnBuilt?)
    requires s'.dir == Ensure(s).dir && s'.next == Ensure(s).next && s'.retired == s.retired && s'.cleans == s.cleans
    ensures Fate(s', x)
  {
    EnsureFate(s, x);
    FateFrame(Ensure(s), s', x);
  }

  lemma WriterFate(c: Codec, limit: nat, s: State, a: Action, x: nat)
    requires Fate(s, x) && Enabled(c, s, a) && WriterStep(a)
    ensures Fate(Apply(c, limit, s, a), x)
  {
    if a.Touch? || a.Open? {
      OpenFate(s, Apply(c, limit, s, a), x);
    } else {
      FateFrame(s, Apply(c, limit, s, a), x);
    }
  }

  lemma TaskFate(c: Codec, limit: nat, s: State, a: Action, x: nat)
    requires Holding(s) && Fate(s, x) && Enabled(c, s, a) && !WriterStep(a) && !QuietStep(a)
    ensures Fate(Apply(c, limit, s, a), x)
  {
    match a
    case RotShift => ShiftFate(s, x);
    case RotRename => RenameFate(s, Cur, Arch(1), x); FateFrame(Rename(s, Cur, Arch(1)), Tick(MoveEffect(s)), x);
    case RotCreate => OpenFate(s, Tick(CreateEffect(c, s)), x);
    case RotFinish => DropFate(limit, s, x); FateFrame(DropEffect(limit, s), Tick(Release(DropEffect(limit, s))), x);
    case ClnBuild(k) => FateFrame(s, Tick(BuildEffect(c, s, k)), x);
    case ClnRename => ReplaceFate(s, x); FateFrame(ReplaceEffect(s), Tick(ReplaceEffect(s)), x);
  }

  lemma FateStep(c: Codec, limit: nat, s: State, a: Action, x: nat)
    requires Holding(s) && Fate(s, x) && Enabled(c, s, a)
    ensures Fate(Apply(c, limit, s, a), x)
  {
    if WriterStep(a) {
      WriterFate(c, limit, s, a, x);
    } else if QuietStep(a) {
      QuietFate(c, limit, s, a, x);
    } else {
      TaskFate(c, limit, s, a, x);
    }
  }

  lemma ShiftFate(s: State, x: nat)
    requires Fate(s, x) && s.maint.RotLocked? && s.maint.shift > 0
    ensures Fate(Tick(ShiftEffect(s)), x)
  {
    var i := s.maint.shift;
    if Arch(i) in s.dir { RenameFate(s, Arch(i), Arch(i + 1), x); }
    ShiftFateFrame(s, if Arch(i) in s.dir then Rename(s, Arch(i), Arch(i + 1)) else s, x);
  }

  lemma ShiftFateFrame(s: State, moved: State, x: nat)
    requires Fate(moved, x) && s.maint.RotLocked? && s.maint.shift > 0 && moved.maint == s.maint
    ensures Fate(Tick(moved.(maint := RotLocked(s.maint.ino, s.maint.shift - 1))), x)
  {
    FateFrame(moved, Tick(moved.(maint := RotLocked(s.maint.ino, s.maint.shift - 1))), x);
  }
}
