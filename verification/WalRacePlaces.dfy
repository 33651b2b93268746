/** The files of the race by age, and where the lines of two appends can come to stand: one step at a
    time, newer files always have higher inodes. */
module WalRacePlaces {
  import opened Events
  import opened WalRace
  import opened WalRaceSteps
  import opened WalRaceRewrite
  import opened WalRaceLines

  /** The current file first, then the archives by their index. */
  function Rank(n: Name): nat { if n.Cur? then 0 else n.index + 1 }

  /** Newer files have higher inodes. */
  predicate Aged(s: State) {
    && Arch(0) !in s.dir
    && (forall m, n :: m in s.dir && n in s.dir && Rank(m) < Rank(n) ==> s.dir[m] > s.dir[n])
    && (s.maint.ClnBuilt? ==> forall n :: n in s.dir ==> s.dir[n] < s.maint.tmp)
  }

  lemma EnsureAged(s: State)
    requires Names(s) && Aged(s) && (s.maint.ClnBuilt? ==> Cur in s.dir)
    ensures Aged(Ensure(s))
  {
  }

  lemma RenameAged(s: State, i: nat)
    requires Aged(s) && 0 < i && Arch(i) in s.dir
    ensures Aged(Rename(s, Arch(i), Arch(i + 1)))
  {
  }

  lemma MoveAged(s: State)
    requires Aged(s) && Cur in s.dir
    ensures Aged(Rename(s, Cur, Arch(1)))
  {
    var s' := Rename(s, Cur, Arch(1));
    forall m, n | m in s'.dir && n in s'.dir && Rank(m) < Rank(n) ensures s'.dir[m] > s'.dir[n] {
      assert m != Arch(0) && n != Arch(0);
    }
  }

  lemma AgedFrame(s: State, s': State)
    requires Aged(s) && s'.dir == s.dir && (s'.maint.ClnBuilt? ==> s'.maint == s.maint)
    ensures Aged(s')
  {
  }

  lemma ShiftAged(s: State)
    requires Aged(s) && s.maint.RotLocked? && s.maint.shift > 0
    ensures Aged(Tick(ShiftEffect(s)))
  {
    var i := s.maint.shift;
    if Arch(i) in s.dir {
      RenameAged(s, i);
      AgedFrame(Rename(s, Arch(i), Arch(i + 1)), Tick(ShiftEffect(s)));
    } else {
      AgedFrame(s, Tick(ShiftEffect(s)));
    }
  }

  lemma CreateAged(c: Codec, s: State)
    requires Names(s) && Aged(s) && s.maint.RotRenamed?
    ensures Aged(Tick(CreateEffect(c, s)))
  {
    EnsureAged(s);
    AgedFrame(Ensure(s), Tick(CreateEffect(c, s)));
  }

  lemma DropAged(limit: nat, s: State)
    requires Aged(s) && s.maint.RotCreated?
    ensures Aged(Tick(Release(DropEffect(limit, s))))
  {
  }

  lemma BuildAged(c: Codec, s: State, k: nat)
    requires Names(s) && Aged(s) && s.maint.ClnRead? && CanRead(c, s)
    ensures Aged(Tick(BuildEffect(c, s, k)))
  {
  }

  lemma ReplaceAged(s: State)
    requires Holding(s) && Aged(s) && s.maint.ClnBuilt?
    ensures Aged(Tick(ReplaceEffect(s)))
  {
    var s' := Tick(ReplaceEffect(s));
    forall m, n | m in s'.dir && n in s'.dir && Rank(m) < Rank(n) ensures s'.dir[m] > s'.dir[n] {
      assert n in s.dir && n != Cur && s'.dir[n] == s.dir[n];
    }
  }

  lemma TaskAged(c: Codec, limit: nat, s: State, a: Action)
    requires Names(s) && Holding(s) && Aged(s) && Enabled(c, s, a) && !WriterStep(a) && !QuietStep(a)
    ensures Aged(Apply(c, limit, s, a))
  {
    match a
    case RotShift => ShiftAged(s);
    case RotRename => MoveAged(s); AgedFrame(Rename(s, Cur, Arch(1)), Tick(MoveEffect(s)));
    case RotCreate => CreateAged(c, s);
    case RotFinish => DropAged(limit, s);
    case ClnBuild(k) => BuildAged(c, s, k);
    case ClnRename => ReplaceAged(s);
  }

  lemma WriterAged(c: Codec, limit: nat, s: State, a: Action)
    requires Names(s) && Holding(s) && Aged(s) && Enabled(c, s, a) && WriterStep(a)
    ensures Aged(Apply(c, limit, s, a))
  {
    if a.Open? {
      EnsureAged(s);
      AgedFrame(Ensure(s), Tick(OpenEffect(s, a.ev)));
    } else if a.Touch? {
      EnsureAged(s);
      AgedFrame(Ensure(s), Tick(Ensure(s)));
    } else {
      AgedFrame(s, Apply(c, limit, s, a));
    }
  }

  lemma QuietAged(c: Codec, limit: nat, s: State, a: Action)
    requires Aged(s) && Enabled(c, s, a) && QuietStep(a)
    ensures Aged(Apply(c, limit, s, a))
  {
    QuietApply(c, limit, s, a);
    QuietMaint(c, limit, s, a);
    AgedFrame(s, Tick(Quiet(c, limit, s, a)));
  }

  lemma AgedStep(c: Codec, limit: nat, s: State, a: Action)
    requires Inv(c, s) && Aged(s) && Enabled(c, s, a)
    ensures Aged(Apply(c, limit, s, a))
  {
    if WriterStep(a) {
      WriterAged(c, limit, s, a);
    } else if QuietStep(a) {
      QuietAged(c, limit, s, a);
    } else {
      TaskAged(c, limit, s, a);
    }
  }

  // ---------- what a temporary log takes over ----------

  /** A temporary log takes the lines of writers from the file it is to replace. */
  predicate Taken(s: State, id: nat) {
    s.maint.ClnBuilt? && HasLine(s, s.maint.tmp, id) && ByWriter(s.appends, id) ==> HasLine(s, s.maint.ino, id)
  }

  lemma ChunkTaken(c: Codec, s: State, p: nat, n: nat, id: nat)
    requires Thread(c, s, p) && CanChunk(c, s, p, n) && Taken(s, id)
    ensures Taken(Tick(ChunkEffect(c, s, p, n)), id)
  {
  }

  lemma WriterTaken(c: Codec, limit: nat, s: State, a: Action, id: nat)
    requires Inv(c, s) && Enabled(c, s, a) && WriterStep(a) && Taken(s, id)
    ensures Taken(Apply(c, limit, s, a), id)
  {
    if a.Chunk? {
      assert Thread(c, s, a.id);
      ChunkTaken(c, s, a.id, a.n, id);
    } else {
      NotYetLogged(s);
      QuietWriterTaken(c, limit, s, a, id);
    }
  }

  lemma QuietWriterTaken(c: Codec, limit: nat, s: State, a: Action, id: nat)
    requires Names(s) && Holding(s) && Enabled(c, s, a) && WriterStep(a) && !a.Chunk? && Taken(s, id)
    requires s.now !in s.appends && forall x :: x in s.logs ==> s.now !in s.logs[x]
    ensures Taken(Apply(c, limit, s, a), id)
  {
  }

  lemma TakenStep(c: Codec, limit: nat, s: State, a: Action, id: nat)
    requires Inv(c, s) && Enabled(c, s, a) && Taken(s, id)
    ensures Taken(Apply(c, limit, s, a), id)
  {
    if WriterStep(a) {
      WriterTaken(c, limit, s, a, id);
    } else if QuietStep(a) {
      QuietApply(c, limit, s, a);
      QuietMaint(c, limit, s, a);
    } else if a.ClnBuild? {
      BuildTaken(c, s, a.cutoff, id);
    }
  }

  lemma BuildTaken(c: Codec, s: State, k: nat, id: nat)
    requires Shared(s) && s.maint.ClnRead? && CanRead(c, s)
    ensures Taken(Tick(BuildEffect(c, s, k)), id)
  {
    NotYetLogged(s);
    BuildLines(c, s, k, id);
  }

  // ---------- two appends ----------

  ghost predicate Named(s: State, x: nat) { exists n :: n in s.dir && s.dir[n] == x }

  /** `id` will be in `x` if its line becomes whole. */
  predicate Pending(c: Codec, s: State, x: nat, id: nat) {
    id in s.appends && s.appends[id].ino == x && s.appends[id].done < Length(c, s.appends[id])
  }

  ghost predicate Holds(c: Codec, s: State, x: nat, id: nat) {
    Named(s, x) && (HasLine(s, x, id) || Pending(c, s, x, id))
  }

  /** No file with a line of `first` is newer than one that holds `second`, or may come to hold it. */
  ghost predicate Apart(c: Codec, s: State, first: nat, second: nat) {
    forall u, v :: Named(s, u) && HasLine(s, u, first) && Holds(c, s, v, second) ==> u <= v
  }

  ghost predicate NoNewLine(s: State, s': State, id: nat) {
    forall u :: Named(s', u) && HasLine(s', u, id) ==> Named(s, u) && HasLine(s, u, id)
  }

  ghost predicate NoNewHold(c: Codec, s: State, s': State, id: nat) {
    forall u :: Holds(c, s', u, id) ==> Holds(c, s, u, id)
  }

  lemma ApartFrame(c: Codec, s: State, s': State, first: nat, second: nat)
    requires Apart(c, s, first, second) && NoNewLine(s, s', first) && NoNewHold(c, s, s', second)
    ensures Apart(c, s', first, second)
  {
  }

  /** No name is bound to an inode it could not already reach, a new one aside. */
  ghost predicate NamesShrink(s: State, s': State) { forall u :: Named(s', u) ==> Named(s, u) || u == s.next }

  predicate SameAppend(s: State, s': State, id: nat) {
    id in s'.appends ==>
      && id in s.appends && s'.appends[id].ev == s.appends[id].ev && s'.appends[id].ino == s.appends[id].ino
      && s'.appends[id].done >= s.appends[id].done
  }

  lemma PlacesFrame(c: Codec, s: State, s': State, id: nat)
    requires Names(s) && Thread(c, s, id) && NamesShrink(s, s') && SameAppend(s, s', id)
    requires forall u :: Named(s', u) && HasLine(s', u, id) ==> HasLine(s, u, id)
    ensures NoNewLine(s, s', id) && NoNewHold(c, s, s', id)
  {
    forall u | Named(s', u) && (HasLine(s', u, id) || Pending(c, s', u, id))
      ensures Named(s, u) && (HasLine(s, u, id) || Pending(c, s, u, id)) && (HasLine(s', u, id) ==> HasLine(s, u, id))
    {
      assert u == s.next ==> u !in s.logs;
    }
  }

  lemma EnsureNamed(s: State)
    ensures NamesShrink(s, Ensure(s))
  {
    forall u | Named(Ensure(s), u) ensures Named(s, u) || u == s.next {
      var n :| n in Ensure(s).dir && Ensure(s).dir[n] == u;
    }
  }

  lemma SameDirNamed(s: State, m: State, s': State)
    requires NamesShrink(s, m) && s'.dir == m.dir
    ensures NamesShrink(s, s')
  {
    forall u | Named(s', u) ensures Named(m, u) {
      var n :| n in s'.dir && s'.dir[n] == u;
      assert m.dir[n] == u;
    }
  }

  lemma RenameNamed(s: State, from: Name, to: Name)
    requires from in s.dir && from != to
    ensures NamesShrink(s, Rename(s, from, to))
  {
    var s' := Rename(s, from, to);
    forall u | Named(s', u) ensures Named(s, u) {
      var n :| n in s'.dir && s'.dir[n] == u;
      assert s.dir[if n == to then from else n] == u;
    }
  }

  lemma ShiftNamed(s: State)
    requires s.maint.RotLocked? && s.maint.shift > 0
    ensures NamesShrink(s, Tick(ShiftEffect(s)))
  {
    var i := s.maint.shift;
    if Arch(i) in s.dir { RenameNamed(s, Arch(i), Arch(i + 1)); }
    SameDirNamed(s, if Arch(i) in s.dir then Rename(s, Arch(i), Arch(i + 1)) else s, Tick(ShiftEffect(s)));
  }

  lemma DropNamed(limit: nat, s: State)
    ensures NamesShrink(s, DropEffect(limit, s))
  {
    forall u | Named(DropEffect(limit, s), u) ensures Named(s, u) {
      var n :| n in DropEffect(limit, s).dir && DropEffect(limit, s).dir[n] == u;
      assert s.dir[n] == u;
    }
  }

  lemma StepNamed(c: Codec, limit: nat, s: State, a: Action)
    requires Enabled(c, s, a) && !a.ClnRename?
    ensures NamesShrink(s, Apply(c, limit, s, a))
  {
    var s' := Apply(c, limit, s, a);
    match a
    case Touch => EnsureNamed(s); SameDirNamed(s, Ensure(s), s');
    case Open(_) => EnsureNamed(s); SameDirNamed(s, Ensure(s), s');
    case RotCreate => EnsureNamed(s); SameDirNamed(s, Ensure(s), s');
    case RotShift => ShiftNamed(s);
    case RotRename => RenameNamed(s, Cur, Arch(1)); SameDirNamed(s, Rename(s, Cur, Arch(1)), s');
    case RotFinish => DropNamed(limit, s); SameDirNamed(s, DropEffect(limit, s), s');
    case _ => SameDirNamed(s, s, s');
  }

  /** The steps of writers that write nothing. */
  lemma QuietWriterPlaces(c: Codec, limit: nat, s: State, a: Action, id: nat)
    requires Inv(c, s) && Enabled(c, s, a) && WriterStep(a) && !a.Chunk? && (id == s.now ==> !a.Open?)
    ensures NoNewLine(s, Apply(c, limit, s, a), id) && NoNewHold(c, s, Apply(c, limit, s, a), id)
  {
    StepNamed(c, limit, s, a);
    assert Thread(c, s, id);
    QuietWriterLines(c, limit, s, a, id);
    PlacesFrame(c, s, Apply(c, limit, s, a), id);
  }

  lemma QuietWriterLines(c: Codec, limit: nat, s: State, a: Action, id: nat)
    requires Enabled(c, s, a) && WriterStep(a) && !a.Chunk? && (id == s.now ==> !a.Open?)
    ensures SameAppend(s, Apply(c, limit, s, a), id)
    ensures forall u :: HasLine(Apply(c, limit, s, a), u, id) ==> HasLine(s, u, id)
  {
    match a
    case Touch =>
    case Open(ev) => OpenLinesOf(s, ev, id);
    case Lock(_) =>
    case Unlock(_) =>
    case Die(_) =>
  }

  lemma OpenLinesOf(s: State, ev: Event, id: nat)
    requires id != s.now
    ensures SameAppend(s, Tick(OpenEffect(s, ev)), id)
    ensures forall u :: HasLine(Tick(OpenEffect(s, ev)), u, id) ==> HasLine(s, u, id)
  {
  }

  lemma ChunkPlaces(c: Codec, limit: nat, s: State, p: nat, n: nat, id: nat)
    requires Inv(c, s) && CanChunk(c, s, p, n)
    ensures var s' := Apply(c, limit, s, Chunk(p, n)); NoNewHold(c, s, s', id) && (id != p ==> NoNewLine(s, s', id))
  {
    var s' := Tick(ChunkEffect(c, s, p, n));
    SameDirNamed(s, s, s');
    assert Thread(c, s, id);
    if id != p { PlacesFrame(c, s, s', id); } else { ChunkHold(c, s, p, n); }
  }

  lemma ChunkHold(c: Codec, s: State, p: nat, n: nat)
    requires CanChunk(c, s, p, n)
    ensures NoNewHold(c, s, Tick(ChunkEffect(c, s, p, n)), p)
  {
    var s' := Tick(ChunkEffect(c, s, p, n));
    forall u | Holds(c, s', u, p) ensures Holds(c, s, u, p) {
      var m :| m in s'.dir && s'.dir[m] == u;
      assert s.dir[m] == u;
    }
  }

  lemma CreatePlacesOf(c: Codec, s: State, id: nat)
    requires Inv(c, s) && s.maint.RotRenamed?
    ensures NoNewLine(s, Tick(CreateEffect(c, s)), id) && NoNewHold(c, s, Tick(CreateEffect(c, s)), id)
  {
    var s' := Tick(CreateEffect(c, s));
    EnsureNamed(s);
    SameDirNamed(s, Ensure(s), s');
    assert Thread(c, s, id);
    if id in s.appends { CreateCuts(c, s, id); }
    assert id in s'.appends ==> id in s.appends;
    forall u | Named(s', u) && HasLine(s', u, id) ensures HasLine(s, u, id) { CreateKeeps(c, s, u); }
    PlacesFrame(c, s, s', id);
  }

  lemma BuildPlaces(c: Codec, s: State, k: nat, id: nat)
    requires Inv(c, s) && s.maint.ClnRead? && CanRead(c, s) && id != s.now
    ensures NoNewLine(s, Tick(BuildEffect(c, s, k)), id) && NoNewHold(c, s, Tick(BuildEffect(c, s, k)), id)
  {
    var s' := Tick(BuildEffect(c, s, k));
    SameDirNamed(s, s, s');
    assert Thread(c, s, id);
    BuildLines(c, s, k, id);
    forall u: nat | Named(s', u) && HasLine(s', u, id) ensures HasLine(s, u, id) {
      var n :| n in s'.dir && s'.dir[n] == u;
      assert n in s.dir && u < s.next;
    }
    PlacesFrame(c, s, s', id);
  }

  lemma TaskPlaces(c: Codec, limit: nat, s: State, a: Action, id: nat)
    requires Inv(c, s) && Enabled(c, s, a) && !WriterStep(a) && !a.RotCreate? && !a.ClnBuild? && !a.ClnRename?
    ensures NoNewLine(s, Apply(c, limit, s, a), id) && NoNewHold(c, s, Apply(c, limit, s, a), id)
  {
    StepNamed(c, limit, s, a);
    TaskKeeps(c, limit, s, a, 0);
    assert Thread(c, s, id);
    PlacesFrame(c, s, Apply(c, limit, s, a), id);
  }

  /** Everything but a new append's own open or start, and the rename of a rewritten log. */
  lemma OtherApart(c: Codec, limit: nat, s: State, a: Action, first: nat, second: nat)
    requires Inv(c, s) && Enabled(c, s, a) && Apart(c, s, first, second) && !a.ClnRename?
    requires first in s.appends && s.appends[first].phase.Acked?
    requires second == s.now ==> !a.Open? && !a.ClnBuild?
    ensures Apart(c, Apply(c, limit, s, a), first, second)
  {
    assert first != s.now by { NotYetLogged(s); }
    if a.Chunk? {
      ChunkPlaces(c, limit, s, a.id, a.n, first);
      ChunkPlaces(c, limit, s, a.id, a.n, second);
    } else if WriterStep(a) {
      QuietWriterPlaces(c, limit, s, a, first);
      QuietWriterPlaces(c, limit, s, a, second);
    } else if a.RotCreate? {
      CreatePlacesOf(c, s, first);
      CreatePlacesOf(c, s, second);
    } else if a.ClnBuild? {
      BuildPlaces(c, s, a.cutoff, first);
      BuildPlaces(c, s, a.cutoff, second);
    } else {
      TaskPlaces(c, limit, s, a, first);
      TaskPlaces(c, limit, s, a, second);
    }
    ApartFrame(c, s, Apply(c, limit, s, a), first, second);
  }

  /** A new append opens the newest file. */
  lemma OpenApart(c: Codec, s: State, ev: Event, first: nat)
    requires Inv(c, s) && Aged(s)
    ensures Apart(c, Tick(OpenEffect(s, ev)), first, s.now)
  {
    var s' := Tick(OpenEffect(s, ev));
    NotYetLogged(s);
    EnsureAged(s);
    AgedFrame(Ensure(s), s');
    OpenLines(s, ev);
    forall v | Holds(c, s', v, s.now) ensures v == s'.dir[Cur] { assert !HasLine(s', v, s.now); }
    NewestApart(c, s', first, s.now);
  }

  lemma NewestApart(c: Codec, s: State, first: nat, second: nat)
    requires Aged(s) && Cur in s.dir && forall v :: Holds(c, s, v, second) ==> v == s.dir[Cur]
    ensures Apart(c, s, first, second)
  {
    forall u | Named(s, u) ensures u <= s.dir[Cur] {
      var m :| m in s.dir && s.dir[m] == u;
      assert m != Cur ==> Rank(Cur) < Rank(m);
    }
  }

  lemma MarkerApart(c: Codec, s: State, k: nat, first: nat)
    requires Inv(c, s) && s.maint.ClnRead? && CanRead(c, s)
    ensures Apart(c, Tick(BuildEffect(c, s, k)), first, s.now)
  {
    var s' := Tick(BuildEffect(c, s, k));
    NotYetLogged(s);
    BuildLines(c, s, k, s.now);
    forall v: nat ensures !Holds(c, s', v, s.now) {
      if n :| n in s'.dir && s'.dir[n] == v { assert n in s.dir && v < s.next; }
    }
  }

  /** The rewritten log replaces the newest file, from which it took the lines of writers. */
  lemma ReplaceApart(c: Codec, s: State, first: nat, second: nat)
    requires Inv(c, s) && Aged(s) && s.maint.ClnBuilt? && Taken(s, first) && ByWriter(s.appends, first)
    requires Apart(c, s, first, second)
    ensures Apart(c, Tick(ReplaceEffect(s)), first, second)
  {
    var s' := Tick(ReplaceEffect(s));
    ReplaceAged(s);
    forall u, v | Named(s', u) && HasLine(s', u, first) && Holds(c, s', v, second) ensures u <= v {
      var m, n :| m in s'.dir && s'.dir[m] == u && n in s'.dir && s'.dir[n] == v;
      if n != Cur {
        assert s.dir[n] == v && Named(s, v) && Holds(c, s, v, second);
        ReplacedNotFirst(c, s, first, second, m, n);
      }
    }
  }

  lemma ReplacedNotFirst(c: Codec, s: State, first: nat, second: nat, m: Name, n: Name)
    requires Holding(s) && Aged(s) && s.maint.ClnBuilt? && Taken(s, first) && ByWriter(s.appends, first)
    requires Apart(c, s, first, second) && n in s.dir && n != Cur && Holds(c, s, s.dir[n], second)
    requires m == Cur || m in s.dir
    requires HasLine(s, if m == Cur then s.maint.tmp else s.dir[m], first)
    ensures m != Cur && s.dir[m] <= s.dir[n]
  {
    assert Named(s, s.dir[Cur]) && s.dir[Cur] > s.dir[n];
    assert m in s.dir ==> Named(s, s.dir[m]);
  }

  lemma ApartStep(c: Codec, limit: nat, s: State, a: Action, first: nat, second: nat)
    requires Inv(c, s) && Aged(s) && Enabled(c, s, a) && Taken(s, first) && Apart(c, s, first, second)
    requires first in s.appends && s.appends[first].phase.Acked? && ByWriter(s.appends, first)
    ensures Apart(c, Apply(c, limit, s, a), first, second)
  {
    if a.ClnRename? {
      ReplaceApart(c, s, first, second);
    } else if a.Open? && second == s.now {
      OpenApart(c, s, a.ev, first);
    } else if a.ClnBuild? && second == s.now {
      MarkerApart(c, s, a.cutoff, first);
    } else {
      OtherApart(c, limit, s, a, first, second);
    }
  }
}
