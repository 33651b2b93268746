/** How rotation moves the archives along and where the lines of one append can come to stand: the shape
    of the directory, the places of a line against the number of rotations since its append opened the
    path, one kind of step at a time. `WalRaceRetention` puts the steps together. */
module WalRaceShelves {
  import opened Events
  import opened WalRace
  import opened WalRaceSteps
  import opened WalRaceRewrite

  // ---------- counting rotations ----------

  /** The completed rotations whose rename came after time `t`. */
  function Since(ws: set<Window>, t: nat): nat { |set w | w in ws && w.renamed > t| }

  lemma SinceAdd(ws: set<Window>, w: Window, t: nat)
    requires w !in ws
    ensures Since(ws + {w}, t) == Since(ws, t) + if w.renamed > t then 1 else 0
  {
    var old_, all := set v | v in ws && v.renamed > t, set v | v in ws + {w} && v.renamed > t;
    assert all == if w.renamed > t then old_ + {w} else old_;
  }

  lemma SinceNone(ws: set<Window>, t: nat)
    requires forall w :: w in ws ==> w.renamed <= t
    ensures Since(ws, t) == 0
  {
    assert (set w | w in ws && w.renamed > t) == {};
  }

  function Index(n: Name): nat { if n.Cur? then 0 else n.index }

  // ---------- the shape of the directory ----------

  /** Archives run from 1 without a hole and stay within the limit; while they are shifted there is a
      hole where the last one came from, and after the rename there may be one too many. */
  ghost predicate Shelved(limit: nat, s: State) {
    && Arch(0) !in s.dir
    && (forall k: nat :: Arch(k) in s.dir ==>
          k <= limit || (k == 1 && (s.maint.RotRenamed? || s.maint.RotCreated?)))
    && (s.maint.RotLocked? ==>
          && s.maint.shift <= (if limit == 0 then 0 else limit - 1)
          && (s.maint.shift + 1 < limit ==> Arch(s.maint.shift + 1) !in s.dir)
          && (s.maint.shift > 0 ==>
                forall k: nat :: k > s.maint.shift && Arch(k) in s.dir ==> Arch(s.maint.shift) in s.dir))
    && forall k: nat :: k > 0 && Arch(k + 1) in s.dir ==>
         Arch(k) in s.dir || (s.maint.RotLocked? && k == s.maint.shift + 1 && k < limit)
  }

  /** No call of a rotation fails once it holds the lock. */
  predicate Smooth(s: State, a: Action) {
    !a.RotSkip? && (a.Abort? ==> !s.maint.RotLocked? && !s.maint.RotRenamed? && !s.maint.RotCreated?)
  }

  lemma ShelvedFrame(limit: nat, s: State, s': State)
    requires Shelved(limit, s) && !s'.maint.RotLocked?
    requires forall k: nat :: Arch(k) in s'.dir <==> Arch(k) in s.dir
    requires s.maint.RotRenamed? || s.maint.RotCreated? ==> s'.maint.RotRenamed? || s'.maint.RotCreated?
    requires !s.maint.RotLocked?
    ensures Shelved(limit, s')
  {
  }

  lemma ShiftShelved(limit: nat, s: State)
    requires Shelved(limit, s) && s.maint.RotLocked? && s.maint.shift > 0
    ensures Shelved(limit, Tick(ShiftEffect(s)))
  {
    if Arch(s.maint.shift) in s.dir {
      ShiftedNames(s);
      ShiftMoves(limit, s, Tick(ShiftEffect(s)), s.maint.shift);
    } else {
      ShiftMisses(limit, s, Tick(ShiftEffect(s)), s.maint.shift);
    }
  }

  lemma ShiftedNames(s: State)
    requires s.maint.RotLocked? && s.maint.shift > 0 && Arch(s.maint.shift) in s.dir
    ensures var i, s' := s.maint.shift, Tick(ShiftEffect(s));
      && s'.maint == RotLocked(s.maint.ino, i - 1)
      && forall k: nat :: Arch(k) in s'.dir <==> k == i + 1 || (k != i && Arch(k) in s.dir)
  {
  }

  lemma ShiftMoves(limit: nat, s: State, s': State, i: nat)
    requires Shelved(limit, s) && s.maint.RotLocked? && s.maint.shift == i > 0 && Arch(i) in s.dir
    requires s'.maint.RotLocked? && s'.maint.shift == i - 1
    requires forall k: nat :: Arch(k) in s'.dir <==> k == i + 1 || (k != i && Arch(k) in s.dir)
    ensures Shelved(limit, s')
  {
  }

  lemma ShiftMisses(limit: nat, s: State, s': State, i: nat)
    requires Shelved(limit, s) && s.maint.RotLocked? && s.maint.shift == i > 0 && Arch(i) !in s.dir
    requires s'.maint.RotLocked? && s'.maint.shift == i - 1 && s'.dir == s.dir
    ensures Shelved(limit, s')
  {
  }

  lemma MoveShelved(limit: nat, s: State)
    requires Shelved(limit, s) && s.maint.RotLocked? && s.maint.shift == 0 && Cur in s.dir
    ensures Shelved(limit, Tick(MoveEffect(s)))
  {
  }

  lemma DropShelved(limit: nat, s: State)
    requires Shelved(limit, s) && s.maint.RotCreated?
    ensures Shelved(limit, Tick(Release(DropEffect(limit, s))))
  {
  }

  // ---------- where a line can come to stand ----------

  /** `id`'s line is in `x`, or will be there if it becomes whole. */
  predicate Belongs(s: State, x: nat, id: nat) {
    HasLine(s, x, id) || (id in s.appends && s.appends[id].ino == x)
  }

  /** Rotations that have moved index `k` by one but do not count yet. */
  function Ahead(m: Maint, k: nat, id: nat): nat {
    if (m.RotLocked? && k >= m.shift + 2) || (m.RotRenamed? && m.renamed > id) then 1 else 0
  }

  /** A rotation that holds its lock and does not count yet. */
  function Uncounted(m: Maint, id: nat): nat { if m.RotLocked? || (m.RotRenamed? && m.renamed > id) then 1 else 0 }

  /** An append stands in the archive whose index is the number of rotations since it opened. */
  ghost predicate Placed(s: State, id: nat) {
    forall n :: n in s.dir && Belongs(s, s.dir[n], id) ==>
      Index(n) == Since(s.windows, id) + Ahead(s.maint, Index(n), id)
  }

  /** Whatever was dropped had outlived as many rotations as the limit allows. */
  ghost predicate Outlived(limit: nat, s: State, id: nat) {
    forall x :: x in s.retired && Belongs(s, x, id) ==> Since(s.windows, id) + Uncounted(s.maint, id) > limit
  }

  /** Nothing has been rotated since the lines of a temporary log were opened. */
  ghost predicate Recent(s: State, id: nat) {
    s.maint.ClnBuilt? && Belongs(s, s.maint.tmp, id) ==> Since(s.windows, id) == 0
  }

  ghost predicate Kept(limit: nat, s: State, id: nat) { Placed(s, id) && Outlived(limit, s, id) && Recent(s, id) }

  predicate Past(s: State) { forall w :: w in s.windows ==> w.renamed < s.now }

  /** A step that moves no file and gives the append no new place. */
  lemma KeptFrame(limit: nat, s: State, s': State, id: nat)
    requires Kept(limit, s, id) && s'.dir == s.dir && s'.retired == s.retired && s'.windows == s.windows
    requires forall x :: Belongs(s', x, id) ==> Belongs(s, x, id)
    requires s'.maint == s.maint
          || (!s.maint.RotLocked? && !s.maint.RotRenamed? && !s'.maint.RotRenamed? && !s'.maint.ClnBuilt?
              && (s'.maint.RotLocked? ==> forall k: nat :: Arch(k) in s.dir ==> k < s'.maint.shift + 2))
    ensures Kept(limit, s', id)
  {
  }

  lemma EnsureKept(c: Codec, limit: nat, s: State, id: nat)
    requires Names(s) && Thread(c, s, id) && Kept(limit, s, id) && (s.maint.ClnBuilt? ==> s.maint.tmp < s.next)
    ensures Kept(limit, Ensure(s), id)
  {
    var s' := Ensure(s);
    forall x | Belongs(s', x, id) ensures Belongs(s, x, id) && x != s.next { assert s.next !in s.logs; }
  }

  lemma OpenKept(c: Codec, limit: nat, s: State, ev: Event, id: nat)
    requires Shared(s) && Thread(c, s, id) && Kept(limit, s, id) && Past(s)
    ensures Kept(limit, Tick(OpenEffect(s, ev)), id)
  {
    var s' := Tick(OpenEffect(s, ev));
    NotYetLogged(s);
    EnsureNames(s);
    OpenLines(s, ev);
    if id == s.now {
      SinceNone(s.windows, id);
      assert forall x :: Belongs(s', x, id) ==> x == s'.dir[Cur];
      assert forall n :: n in s'.dir && s'.dir[n] == s'.dir[Cur] ==> n == Cur;
    } else {
      EnsureKept(c, limit, s, id);
      forall x | Belongs(s', x, id) ensures Belongs(Ensure(s), x, id) {}
      KeptFrame(limit, Ensure(s), s', id);
    }
  }

  lemma ChunkBelongs(c: Codec, s: State, p: nat, n: nat, x: nat, id: nat)
    requires CanChunk(c, s, p, n) && Belongs(Tick(ChunkEffect(c, s, p, n)), x, id)
    ensures Belongs(s, x, id)
  {
  }

  lemma WriterKept(c: Codec, limit: nat, s: State, a: Action, id: nat)
    requires Inv(c, s) && Kept(limit, s, id) && Past(s) && Enabled(c, s, a) && WriterStep(a)
    ensures Kept(limit, Apply(c, limit, s, a), id)
  {
    var s' := Apply(c, limit, s, a);
    assert Thread(c, s, id);
    if a.Touch? {
      EnsureKept(c, limit, s, id);
      KeptFrame(limit, Ensure(s), Tick(Ensure(s)), id);
    } else if a.Open? {
      OpenKept(c, limit, s, a.ev, id);
    } else {
      forall x | Belongs(s', x, id) ensures Belongs(s, x, id) { WriterBelongs(c, limit, s, a, x, id); }
      KeptFrame(limit, s, s', id);
    }
  }

  lemma WriterBelongs(c: Codec, limit: nat, s: State, a: Action, x: nat, id: nat)
    requires Enabled(c, s, a) && WriterStep(a) && !a.Touch? && !a.Open? && Belongs(Apply(c, limit, s, a), x, id)
    ensures Belongs(s, x, id)
  {
    if a.Chunk? { ChunkBelongs(c, s, a.id, a.n, x, id); }
  }

  lemma QuietKept(c: Codec, limit: nat, s: State, a: Action, id: nat)
    requires Shelved(limit, s) && Kept(limit, s, id) && Enabled(c, s, a) && QuietStep(a) && Smooth(s, a)
    ensures Kept(limit, Apply(c, limit, s, a), id)
  {
    QuietApply(c, limit, s, a);
    QuietMaint(c, limit, s, a);
    KeptFrame(limit, s, Tick(Quiet(c, limit, s, a)), id);
  }

  lemma ShiftKept(limit: nat, s: State, id: nat)
    requires Shelved(limit, s) && Kept(limit, s, id) && s.maint.RotLocked? && s.maint.shift > 0
    ensures Kept(limit, Tick(ShiftEffect(s)), id)
  {
    var i, s' := s.maint.shift, Tick(ShiftEffect(s));
    forall x | Belongs(s', x, id) ensures Belongs(s, x, id) {}
    if Arch(i) in s.dir {
      ShiftedDir(s);
      ShiftedPlaced(s, s', i, id);
      ShiftedOutlived(limit, s, s', i, id);
    } else {
      assert forall k: nat :: Arch(k) in s.dir ==> k <= i;
      UnshiftedKept(limit, s, s', i, id);
    }
  }

  lemma ShiftedDir(s: State)
    requires s.maint.RotLocked? && s.maint.shift > 0 && Arch(s.maint.shift) in s.dir
    ensures var i, s' := s.maint.shift, Tick(ShiftEffect(s));
      && s'.maint == RotLocked(s.maint.ino, i - 1) && s'.windows == s.windows
      && s'.dir == s.dir[Arch(i + 1) := s.dir[Arch(i)]] - {Arch(i)}
      && s'.retired == s.retired + if Arch(i + 1) in s.dir then {s.dir[Arch(i + 1)]} else {}
  {
  }

  lemma UnshiftedKept(limit: nat, s: State, s': State, i: nat, id: nat)
    requires Kept(limit, s, id) && s.maint.RotLocked? && s.maint.shift == i > 0
    requires s'.maint.RotLocked? && s'.maint.shift == i - 1 && s'.windows == s.windows && s'.retired == s.retired
    requires s'.dir == s.dir && forall x :: Belongs(s', x, id) ==> Belongs(s, x, id)
    requires forall k: nat :: Arch(k) in s.dir ==> k <= i
    ensures Kept(limit, s', id)
  {
  }

  lemma ShiftedPlaced(s: State, s': State, i: nat, id: nat)
    requires Placed(s, id) && s.maint.RotLocked? && s.maint.shift == i > 0 && Arch(i) in s.dir
    requires s'.maint.RotLocked? && s'.maint.shift == i - 1 && s'.windows == s.windows
    requires s'.dir == s.dir[Arch(i + 1) := s.dir[Arch(i)]] - {Arch(i)}
    requires forall x :: Belongs(s', x, id) ==> Belongs(s, x, id)
    ensures Placed(s', id)
  {
    forall n | n in s'.dir && Belongs(s', s'.dir[n], id)
      ensures Index(n) == Since(s'.windows, id) + Ahead(s'.maint, Index(n), id)
    {
      var from := if n == Arch(i + 1) then Arch(i) else n;
      assert from in s.dir && Belongs(s, s.dir[from], id);
    }
  }

  lemma ShiftedOutlived(limit: nat, s: State, s': State, i: nat, id: nat)
    requires Shelved(limit, s) && Placed(s, id) && Outlived(limit, s, id)
    requires s.maint.RotLocked? && s.maint.shift == i > 0 && s'.maint.RotLocked? && s'.windows == s.windows
    requires s'.retired == s.retired + if Arch(i + 1) in s.dir then {s.dir[Arch(i + 1)]} else {}
    requires forall x :: Belongs(s', x, id) ==> Belongs(s, x, id)
    ensures Outlived(limit, s', id)
  {
    forall x | x in s'.retired && Belongs(s', x, id) ensures Since(s'.windows, id) + Uncounted(s'.maint, id) > limit {
      if x !in s.retired { assert x == s.dir[Arch(i + 1)]; }
    }
  }

  lemma MoveKept(limit: nat, s: State, id: nat)
    requires Shelved(limit, s) && History(s) && Kept(limit, s, id)
    requires s.maint.RotLocked? && s.maint.shift == 0 && Cur in s.dir
    ensures Kept(limit, Tick(MoveEffect(s)), id)
  {
    var s' := Tick(MoveEffect(s));
    forall x | Belongs(s', x, id) ensures Belongs(s, x, id) && id < s.now { assert id in s.appends; }
    MovedPlaced(s, s', id);
    forall x | x in s'.retired && Belongs(s', x, id) ensures Since(s'.windows, id) + Uncounted(s'.maint, id) > limit {
      if x !in s.retired { assert x == s.dir[Arch(1)]; }
    }
  }

  lemma MovedPlaced(s: State, s': State, id: nat)
    requires Placed(s, id) && s.maint.RotLocked? && s.maint.shift == 0 && Cur in s.dir && Arch(0) !in s.dir
    requires s'.maint.RotRenamed? && s'.maint.renamed == s.now && s'.windows == s.windows
    requires s'.dir == s.dir[Arch(1) := s.dir[Cur]] - {Cur}
    requires forall x :: Belongs(s', x, id) ==> Belongs(s, x, id) && id < s.now
    ensures Placed(s', id)
  {
    forall n | n in s'.dir && Belongs(s', s'.dir[n], id)
      ensures Index(n) == Since(s'.windows, id) + Ahead(s'.maint, Index(n), id)
    {
      var from := if n == Arch(1) then Cur else n;
      assert from in s.dir && Belongs(s, s.dir[from], id);
    }
  }

  lemma CreateKept(c: Codec, limit: nat, s: State, id: nat)
    requires Shared(s) && Thread(c, s, id) && Kept(limit, s, id) && s.maint.RotRenamed?
    ensures Kept(limit, Tick(CreateEffect(c, s)), id)
  {
    var s', w := Tick(CreateEffect(c, s)), Window(s.maint.renamed, s.now);
    EnsureKept(c, limit, s, id);
    SinceAdd(s.windows, w, id);
    forall x | Belongs(s', x, id) ensures Belongs(Ensure(s), x, id) {
      CreateKeeps(c, s, x);
      if id in s.appends { assert s'.appends[id] == Cut(c, s.appends[id], Ensure(s).dir[Cur]); }
    }
    CreateKeptFrom(limit, Ensure(s), s', w, id);
  }

  lemma CreateKeptFrom(limit: nat, s: State, s': State, w: Window, id: nat)
    requires Kept(limit, s, id) && s.maint.RotRenamed? && s'.maint.RotCreated? && w.renamed == s.maint.renamed
    requires s'.dir == s.dir && s'.retired == s.retired
    requires forall x :: Belongs(s', x, id) ==> Belongs(s, x, id)
    requires Since(s'.windows, id) == Since(s.windows, id) + if w.renamed > id then 1 else 0
    ensures Kept(limit, s', id)
  {
  }

  lemma DropKept(limit: nat, s: State, id: nat)
    requires Kept(limit, s, id) && s.maint.RotCreated?
    ensures Kept(limit, Tick(Release(DropEffect(limit, s))), id)
  {
    var s' := Tick(Release(DropEffect(limit, s)));
    forall x | Belongs(s', x, id) ensures Belongs(s, x, id) {}
    assert forall n :: n in s'.dir ==> n in s.dir && s'.dir[n] == s.dir[n];
    forall x | x in s'.retired && Belongs(s', x, id) ensures Since(s'.windows, id) > limit {
      if x !in s.retired { assert x == s.dir[Arch(limit + 1)]; }
    }
  }

  lemma BuildKept(c: Codec, limit: nat, s: State, k: nat, id: nat)
    requires Shared(s) && Thread(c, s, id) && Kept(limit, s, id) && Past(s) && s.maint.ClnRead? && CanRead(c, s)
    ensures Kept(limit, Tick(BuildEffect(c, s, k)), id)
  {
    var s' := Tick(BuildEffect(c, s, k));
    NotYetLogged(s);
    BuildLines(c, s, k, id);
    if id == s.now { SinceNone(s.windows, id); }
    BuiltKept(limit, s, s', id);
  }

  lemma BuiltKept(limit: nat, s: State, s': State, id: nat)
    requires Names(s) && Holding(s) && Kept(limit, s, id) && s.maint.ClnRead?
    requires s'.maint.ClnBuilt? && s'.maint.tmp == s.next
    requires s'.dir == s.dir && s'.retired == s.retired && s'.windows == s.windows
    requires forall x: nat :: x != s.next && Belongs(s', x, id) ==> Belongs(s, x, id)
    requires id == s.now ==> Since(s.windows, id) == 0
    requires id != s.now && Belongs(s', s.next, id) ==> HasLine(s, s.maint.ino, id)
    ensures Kept(limit, s', id)
  {
    if id != s.now && Belongs(s', s.next, id) { assert Belongs(s, s.dir[Cur], id); }
  }

  lemma ReplaceKept(limit: nat, s: State, id: nat)
    requires Kept(limit, s, id) && s.maint.ClnBuilt?
    ensures Kept(limit, Tick(ReplaceEffect(s)), id)
  {
    var s' := Tick(ReplaceEffect(s));
    forall x | Belongs(s', x, id) ensures Belongs(s, x, id) {}
    forall n | n in s'.dir && Belongs(s', s'.dir[n], id) ensures Index(n) == Since(s'.windows, id) {
      if n != Cur { assert n in s.dir && s'.dir[n] == s.dir[n]; }
    }
  }

  // ---------- one step ----------

  lemma TaskKept(c: Codec, limit: nat, s: State, a: Action, id: nat)
    requires Inv(c, s) && Shelved(limit, s) && Past(s) && Kept(limit, s, id)
    requires Enabled(c, s, a) && !WriterStep(a) && !QuietStep(a)
    ensures Kept(limit, Apply(c, limit, s, a), id)
  {
    assert Thread(c, s, id);
    match a
    case RotShift => ShiftKept(limit, s, id);
    case RotRename => MoveKept(limit, s, id);
    case RotCreate => CreateKept(c, limit, s, id);
    case RotFinish => DropKept(limit, s, id);
    case ClnBuild(k) => BuildKept(c, limit, s, k, id);
    case ClnRename => ReplaceKept(limit, s, id);
  }

  lemma KeptStep(c: Codec, limit: nat, s: State, a: Action, id: nat)
    requires Inv(c, s) && Shelved(limit, s) && Past(s) && Kept(limit, s, id) && Enabled(c, s, a) && Smooth(s, a)
    ensures Kept(limit, Apply(c, limit, s, a), id)
  {
    if WriterStep(a) {
      WriterKept(c, limit, s, a, id);
    } else if QuietStep(a) {
      QuietKept(c, limit, s, a, id);
    } else {
      TaskKept(c, limit, s, a, id);
    }
  }

  lemma LockShelved(limit: nat, s: State, s': State)
    requires Shelved(limit, s) && !s.maint.RotLocked? && !s.maint.RotRenamed? && !s.maint.RotCreated?
    requires s'.dir == s.dir && s'.maint.RotLocked? && s'.maint.shift == if limit == 0 then 0 else limit - 1
    ensures Shelved(limit, s')
  {
  }

  lemma QuietShelved(c: Codec, limit: nat, s: State, a: Action)
    requires Shelved(limit, s) && Enabled(c, s, a) && QuietStep(a) && Smooth(s, a)
    ensures Shelved(limit, Apply(c, limit, s, a))
  {
    QuietApply(c, limit, s, a);
    QuietMaint(c, limit, s, a);
    if a.RotLock? {
      LockShelved(limit, s, Tick(Quiet(c, limit, s, a)));
    } else {
      ShelvedFrame(limit, s, Tick(Quiet(c, limit, s, a)));
    }
  }

  lemma SameShelf(limit: nat, s: State, s': State)
    requires Shelved(limit, s) && s'.maint == s.maint && forall k: nat :: Arch(k) in s'.dir <==> Arch(k) in s.dir
    ensures Shelved(limit, s')
  {
  }

  lemma WriterShelved(c: Codec, limit: nat, s: State, a: Action)
    requires Shelved(limit, s) && Enabled(c, s, a) && WriterStep(a)
    ensures Shelved(limit, Apply(c, limit, s, a))
  {
    if a.Open? {
      SameShelf(limit, s, Tick(OpenEffect(s, a.ev)));
    } else if a.Touch? {
      SameShelf(limit, s, Tick(Ensure(s)));
    } else {
      SameShelf(limit, s, Apply(c, limit, s, a));
    }
  }

  lemma TaskShelved(c: Codec, limit: nat, s: State, a: Action)
    requires Shelved(limit, s) && Enabled(c, s, a) && !WriterStep(a) && !QuietStep(a)
    ensures Shelved(limit, Apply(c, limit, s, a))
  {
    match a
    case RotShift => ShiftShelved(limit, s);
    case RotRename => MoveShelved(limit, s);
    case RotCreate => ShelvedFrame(limit, s, Tick(CreateEffect(c, s)));
    case RotFinish => DropShelved(limit, s);
    case ClnBuild(k) => ShelvedFrame(limit, s, Tick(BuildEffect(c, s, k)));
    case ClnRename => ShelvedFrame(limit, s, Tick(ReplaceEffect(s)));
  }

  lemma ShelvedStep(c: Codec, limit: nat, s: State, a: Action)
    requires Shelved(limit, s) && Enabled(c, s, a) && Smooth(s, a)
    ensures Shelved(limit, Apply(c, limit, s, a))
  {
    if WriterStep(a) {
      WriterShelved(c, limit, s, a);
    } else if QuietStep(a) {
      QuietShelved(c, limit, s, a);
    } else {
      TaskShelved(c, limit, s, a);
    }
  }

  lemma PastStep(c: Codec, limit: nat, s: State, a: Action)
    requires Holding(s) && Past(s) && Enabled(c, s, a)
    ensures Past(Apply(c, limit, s, a))
  {
    if QuietStep(a) { QuietApply(c, limit, s, a); }
  }
}
