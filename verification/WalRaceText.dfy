/** The race of `WalRace` seen by a reader: what the files hold is what their histories say, line by
    line, whoever is in the middle of a write. */
module WalRaceText {
  import opened Common
  import opened Text
  import opened Events
  import opened WalMaintenance
  import opened WalRace
  import opened WalRaceSteps

  function EventsOf(appends: map<nat, Append>, ids: seq<nat>): seq<Event> {
    if ids == [] then [] else [EventOf(appends, ids[0])] + EventsOf(appends, ids[1..])
  }

  /** The part of a line that its writer has written and no truncation has taken. */
  function Unfinished(c: Codec, s: State, x: nat): string {
    if x in s.lock && s.lock[x].Writer? && s.lock[x].id in s.appends then
      var a := s.appends[s.lock[x].id];
      if a.from <= a.done < Length(c, a) then Line(c, a.ev)[a.from..a.done] else ""
    else ""
  }

  ghost predicate OnDisk(c: Codec, s: State, x: nat) {
    x in s.logs ==>
      && x in s.text
      && Settled(c, s.text[x]) == EventsOf(s.appends, s.logs[x])
      && Tail(s.text[x]) == TornPiece(s, x) + Unfinished(c, s, x)
  }

  /** The writer that holds a lock is writing there; it is glued if more than blanks of a torn line
      stand before its own, and a truncation has taken the torn line with its own beginning. */
  ghost predicate Locks(c: Codec, s: State, x: nat) {
    && (x in s.lock && s.lock[x].Writer? ==>
          && s.lock[x].id in s.appends && s.appends[s.lock[x].id].phase.Writing? && s.appends[s.lock[x].id].ino == x
          && var a := s.appends[s.lock[x].id];
             && (a.from > 0 ==> x !in s.torn)
             && (a.from == 0 && 0 < a.done < Length(c, a) ==> (a.glued <==> !Blank(TornPiece(s, x)))))
    && (x in s.torn ==> x < s.next)
  }

  ghost predicate Snapshot(c: Codec, s: State) {
    s.maint.ClnRead? ==> Scan(c, s.maint.text) == EventsOf(s.appends, s.maint.lines)
  }

  ghost predicate Disk(c: Codec, s: State) {
    (forall x :: OnDisk(c, s, x)) && (forall x :: Locks(c, s, x)) && Snapshot(c, s)
  }

  // ---------- events of a history ----------

  lemma {:induction false} EventsOfFrame(appends: map<nat, Append>, appends': map<nat, Append>, ids: seq<nat>)
    requires forall id :: id in ids ==> id in appends && id in appends' && appends'[id].ev == appends[id].ev
    ensures EventsOf(appends', ids) == EventsOf(appends, ids)
  {
    if ids != [] { EventsOfFrame(appends, appends', ids[1..]); }
  }

  lemma {:induction false} EventsOfConcat(appends: map<nat, Append>, a: seq<nat>, b: seq<nat>)
    ensures EventsOf(appends, a + b) == EventsOf(appends, a) + EventsOf(appends, b)
  {
    if a == [] {
      assert a + b == b;
    } else {
      assert (a + b)[1..] == a[1..] + b;
      EventsOfConcat(appends, a[1..], b);
    }
  }

  lemma EventsOfOne(appends: map<nat, Append>, id: nat)
    ensures EventsOf(appends, [id]) == [EventOf(appends, id)]
  {
    assert [id][1..] == [];
  }

  lemma {:induction false} EventsOfKept(appends: map<nat, Append>, ids: seq<nat>, cutoff: nat)
    ensures EventsOf(appends, KeptLines(appends, ids, cutoff)) == Retained(EventsOf(appends, ids), cutoff)
  {
    if ids != [] {
      EventsOfKept(appends, ids[1..], cutoff);
      EventsOfOne(appends, ids[0]);
      var first := if EventOf(appends, ids[0]).ts >= cutoff then [ids[0]] else [];
      EventsOfConcat(appends, first, KeptLines(appends, ids[1..], cutoff));
    }
  }

  lemma {:induction false} EventsOfNewer(appends: map<nat, Append>, ids: seq<nat>, last: nat)
    ensures EventsOf(appends, NewerLines(appends, ids, last)) == Newer(EventsOf(appends, ids), last)
  {
    if ids != [] {
      EventsOfNewer(appends, ids[1..], last);
      EventsOfOne(appends, ids[0]);
      var first := if EventOf(appends, ids[0]).seq_ > last then [ids[0]] else [];
      EventsOfConcat(appends, first, NewerLines(appends, ids[1..], last));
    }
  }

  lemma {:induction false} EventsOfMember(appends: map<nat, Append>, ids: seq<nat>, id: nat)
    requires id in ids
    ensures EventOf(appends, id) in EventsOf(appends, ids)
  {
    if ids[0] != id { EventsOfMember(appends, ids[1..], id); }
  }

  lemma EmptyText(c: Codec)
    requires Lawful(c)
    ensures Settled(c, "") == [] && Tail("") == ""
  {
    assert Split("") == [""];
  }

  // ---------- one step, one file ----------

  /** A file that a step leaves alone. */
  lemma DiskFrame(c: Codec, s: State, s': State, x: nat)
    requires History(s) && OnDisk(c, s, x) && x in s.logs && x in s'.logs && x in s'.text
    requires s'.text[x] == OptText(s, x) && s'.logs[x] == s.logs[x]
    requires forall id :: id in s.appends ==> id in s'.appends && s'.appends[id].ev == s.appends[id].ev
    requires Unfinished(c, s', x) == Unfinished(c, s, x) && TornPiece(s', x) == TornPiece(s, x)
    ensures OnDisk(c, s', x)
  {
    forall id | id in s.logs[x] ensures id in s.appends {}
    EventsOfFrame(s.appends, s'.appends, s.logs[x]);
  }

  function OptText(s: State, x: nat): string { if x in s.text then s.text[x] else "" }

  lemma PieceWritten(c: Codec, t: string, torn: string, e: Event, from: nat, done: nat, n: nat)
    requires Lawful(c) && from <= done && done + n < |Line(c, e)| && Tail(t) == torn + Line(c, e)[from..done]
    ensures Settled(c, t + Line(c, e)[done..done + n]) == Settled(c, t)
    ensures Tail(t + Line(c, e)[done..done + n]) == torn + Line(c, e)[from..done + n]
  {
    var line := Line(c, e);
    var piece := line[done..done + n];
    assert piece == c.render(e)[done..done + n];
    AppendPiece(t, piece);
    assert torn + line[from..done] + piece == torn + line[from..done + n];
  }

  /** The last characters of a line settle the whole event, or nothing when a truncation took its
      beginning or more than blanks of a torn line stand before it. */
  lemma LineFinished(c: Codec, t: string, torn: string, e: Event, from: nat, done: nat)
    requires Lawful(c) && from <= done < |Line(c, e)| && Tail(t) == torn + Line(c, e)[from..done]
    requires torn == "" || from == 0
    ensures Settled(c, t + Line(c, e)[done..]) == Settled(c, t) + (if from == 0 && Blank(torn) then [e] else [])
    ensures Tail(t + Line(c, e)[done..]) == ""
  {
    var l, line := c.render(e), Line(c, e);
    var piece := l[done..];
    assert line[done..] == piece + "\n";
    AppendLine(t, piece);
    assert torn + line[from..done] + piece == torn + l[from..];
    ParseAllConcat(c, Terminated(t), [torn + l[from..]]);
    ParseAllOne(c, torn + l[from..]);
    LineParses(c, torn, e, from);
  }

  lemma LineParses(c: Codec, torn: string, e: Event, from: nat)
    requires Lawful(c) && from <= |c.render(e)| && (torn == "" || from == 0)
    ensures c.parse(torn + c.render(e)[from..]) == if from == 0 && Blank(torn) then Some(e) else None
  {
    var l := c.render(e);
    if from == 0 {
      assert l[from..] == l;
      if Blank(torn) { EventAfterBlank(c, torn, e); }
    } else {
      assert torn + l[from..] == l[from..];
      if from == |l| { assert l[from..] == ""; }
    }
  }

  lemma ChunkOnDisk(c: Codec, s: State, p: nat, n: nat)
    requires Lawful(c) && History(s) && CanChunk(c, s, p, n) && Thread(c, s, p)
    requires OnDisk(c, s, s.appends[p].ino) && Locks(c, s, s.appends[p].ino)
    ensures OnDisk(c, Tick(ChunkEffect(c, s, p, n)), s.appends[p].ino)
  {
    var a := s.appends[p];
    assert Tail(s.text[a.ino]) == TornPiece(s, a.ino) + Line(c, a.ev)[a.from..a.done];
    ChunkEvents(c, s, p, n);
    if a.done + n < Length(c, a) { ChunkPart(c, s, p, n); } else { ChunkLast(c, s, p, n); }
  }

  lemma ChunkPart(c: Codec, s: State, p: nat, n: nat)
    requires Lawful(c) && CanChunk(c, s, p, n) && s.appends[p].done + n < Length(c, s.appends[p]) && Progress(c, s, p)
    requires var a := s.appends[p]; Tail(s.text[a.ino]) == TornPiece(s, a.ino) + Line(c, a.ev)[a.from..a.done]
    ensures var a, s' := s.appends[p], Tick(ChunkEffect(c, s, p, n));
      && Settled(c, s'.text[a.ino]) == Settled(c, s.text[a.ino])
      && Tail(s'.text[a.ino]) == TornPiece(s', a.ino) + Unfinished(c, s', a.ino)
  {
    var a := s.appends[p];
    PieceWritten(c, s.text[a.ino], TornPiece(s, a.ino), a.ev, a.from, a.done, n);
  }

  lemma LastChunkState(c: Codec, s: State, p: nat, n: nat)
    requires CanChunk(c, s, p, n) && s.appends[p].done + n == Length(c, s.appends[p]) && Progress(c, s, p)
    ensures var a, s' := s.appends[p], Tick(ChunkEffect(c, s, p, n));
      && s'.text[a.ino] == s.text[a.ino] + Line(c, a.ev)[a.done..]
      && TornPiece(s', a.ino) == "" && Unfinished(c, s', a.ino) == ""
  {
    var a := s.appends[p];
    assert Line(c, a.ev)[a.done..a.done + n] == Line(c, a.ev)[a.done..];
  }

  lemma ChunkLast(c: Codec, s: State, p: nat, n: nat)
    requires Lawful(c) && CanChunk(c, s, p, n) && s.appends[p].done + n == Length(c, s.appends[p]) && Progress(c, s, p)
    requires Locks(c, s, s.appends[p].ino)
    requires var a := s.appends[p]; Tail(s.text[a.ino]) == TornPiece(s, a.ino) + Line(c, a.ev)[a.from..a.done]
    ensures var a, s' := s.appends[p], Tick(ChunkEffect(c, s, p, n));
      var glued := if a.done == 0 then !Blank(TornPiece(s, a.ino)) else a.glued;
      && Settled(c, s'.text[a.ino]) == Settled(c, s.text[a.ino]) + (if a.from == 0 && !glued then [a.ev] else [])
      && Tail(s'.text[a.ino]) == TornPiece(s', a.ino) + Unfinished(c, s', a.ino)
  {
    var a := s.appends[p];
    LastChunkState(c, s, p, n);
    LineFinished(c, s.text[a.ino], TornPiece(s, a.ino), a.ev, a.from, a.done);
  }

  lemma ChunkEvents(c: Codec, s: State, p: nat, n: nat)
    requires History(s) && CanChunk(c, s, p, n)
    ensures var a := s.appends[p];
      var glued := if a.done == 0 then !Blank(TornPiece(s, a.ino)) else a.glued;
      EventsOf(Tick(ChunkEffect(c, s, p, n)).appends, Tick(ChunkEffect(c, s, p, n)).logs[a.ino])
      == EventsOf(s.appends, s.logs[a.ino]) + if a.done + n == Length(c, a) && a.from == 0 && !glued then [a.ev] else []
  {
    var s', x := Tick(ChunkEffect(c, s, p, n)), s.appends[p].ino;
    forall id | id in s.logs[x] ensures id in s.appends {}
    EventsOfFrame(s.appends, s'.appends, s.logs[x]);
    EventsOfConcat(s'.appends, s.logs[x], [p]);
    EventsOfOne(s'.appends, p);
  }

  lemma ChunkDisk(c: Codec, s: State, p: nat, n: nat, x: nat)
    requires Lawful(c) && History(s) && CanChunk(c, s, p, n) && Thread(c, s, p) && OnDisk(c, s, x) && Locks(c, s, x)
    ensures OnDisk(c, Tick(ChunkEffect(c, s, p, n)), x) && Locks(c, Tick(ChunkEffect(c, s, p, n)), x)
  {
    var s' := Tick(ChunkEffect(c, s, p, n));
    if x == s.appends[p].ino {
      ChunkOnDisk(c, s, p, n);
    } else if x in s.logs {
      DiskFrame(c, s, s', x);
    }
  }

  lemma EnsureDisk(c: Codec, s: State, x: nat)
    requires Lawful(c) && OnDisk(c, s, x) && Locks(c, s, x) && (s.next in s.lock ==> s.lock[s.next] == Maintenance)
    ensures OnDisk(c, Ensure(s), x) && Locks(c, Ensure(s), x)
  {
    if Cur !in s.dir && x == s.next { EmptyText(c); }
  }

  lemma OpenDisk(c: Codec, s: State, ev: Event, x: nat)
    requires Lawful(c) && History(s) && OnDisk(c, s, x) && Locks(c, s, x)
    requires s.next in s.lock ==> s.lock[s.next] == Maintenance
    ensures OnDisk(c, Tick(OpenEffect(s, ev)), x) && Locks(c, Tick(OpenEffect(s, ev)), x)
  {
    EnsureDisk(c, s, x);
    EnsureHistory(s);
    NotYetLogged(s);
    NewAppendDisk(c, Ensure(s), Tick(OpenEffect(s, ev)), x);
  }

  lemma NewAppendDisk(c: Codec, s: State, s': State, x: nat)
    requires OnDisk(c, s, x) && Locks(c, s, x) && s.now !in s.appends && s.now in s'.appends
    requires forall id :: x in s.logs && id in s.logs[x] ==> id in s.appends
    requires s'.appends == s.appends[s.now := s'.appends[s.now]] && s'.text == s.text && s'.logs == s.logs
    requires s'.lock == s.lock
    requires s'.torn == s.torn && s'.next == s.next
    ensures OnDisk(c, s', x) && Locks(c, s', x)
  {
    if x in s.logs { EventsOfFrame(s.appends, s'.appends, s.logs[x]); }
  }

  lemma LockDisk(c: Codec, s: State, p: nat, x: nat)
    requires History(s) && CanLock(s, p) && Thread(c, s, p) && OnDisk(c, s, x) && Locks(c, s, x)
    ensures OnDisk(c, Tick(LockEffect(s, p)), x) && Locks(c, Tick(LockEffect(s, p)), x)
  {
    if x in s.logs { DiskFrame(c, s, Tick(LockEffect(s, p)), x); }
  }

  lemma UnlockDisk(c: Codec, s: State, p: nat, x: nat)
    requires History(s) && CanUnlock(c, s, p) && Thread(c, s, p) && OnDisk(c, s, x) && Locks(c, s, x)
    ensures OnDisk(c, Tick(UnlockEffect(c, s, p)), x) && Locks(c, Tick(UnlockEffect(c, s, p)), x)
  {
    if x in s.logs { DiskFrame(c, s, Tick(UnlockEffect(c, s, p)), x); }
  }

  lemma DieDisk(c: Codec, s: State, p: nat, x: nat)
    requires Lawful(c) && History(s) && CanDie(c, s, p) && Thread(c, s, p) && OnDisk(c, s, x) && Locks(c, s, x)
    ensures OnDisk(c, Tick(DieEffect(c, s, p)), x) && Locks(c, Tick(DieEffect(c, s, p)), x)
  {
    var s', a := Tick(DieEffect(c, s, p)), s.appends[p];
    if x != a.ino {
      if x in s.logs { DiskFrame(c, s, s', x); }
    } else {
      DieHere(c, s, s', p);
    }
  }

  lemma DieHere(c: Codec, s: State, s': State, p: nat)
    requires Lawful(c) && History(s) && CanDie(c, s, p) && Thread(c, s, p) && s' == Tick(DieEffect(c, s, p))
    requires OnDisk(c, s, s.appends[p].ino) && Locks(c, s, s.appends[p].ino)
    ensures OnDisk(c, s', s.appends[p].ino) && Locks(c, s', s.appends[p].ino)
  {
    var a := s.appends[p];
    var x := a.ino;
    forall id | x in s.logs && id in s.logs[x] ensures id in s.appends {}
    if x in s.logs { EventsOfFrame(s.appends, s'.appends, s.logs[x]); }
    assert Unfinished(c, s, x) == Line(c, a.ev)[a.from..a.done];
    assert TornPiece(s, x) + "" == TornPiece(s, x);
  }

  /** Renames and the task's own steps move no text. */
  lemma StillDisk(c: Codec, s: State, s': State, x: nat)
    requires OnDisk(c, s, x) && Locks(c, s, x)
    requires s'.text == s.text && s'.logs == s.logs && s'.appends == s.appends && s'.torn == s.torn && s'.next >= s.next
    requires x in s'.lock && s'.lock[x].Writer? ==> x in s.lock && s.lock[x] == s'.lock[x]
    requires x in s.lock && s.lock[x].Writer? ==> x in s'.lock && s'.lock[x] == s.lock[x]
    ensures OnDisk(c, s', x) && Locks(c, s', x)
  {
  }

  lemma CreateDisk(c: Codec, s: State, x: nat)
    requires Lawful(c) && History(s) && s.maint.RotRenamed? && OnDisk(c, s, x) && Locks(c, s, x)
    requires s.next in s.lock ==> s.lock[s.next] == Maintenance
    ensures OnDisk(c, Tick(CreateEffect(c, s)), x) && Locks(c, Tick(CreateEffect(c, s)), x)
  {
    EnsureDisk(c, s, x);
    EnsureHistory(s);
    CreateShape(c, s);
    CutDisk(c, Ensure(s), Tick(CreateEffect(c, s)), Ensure(s).dir[Cur], x);
  }

  lemma CreateShape(c: Codec, s: State)
    requires s.maint.RotRenamed?
    ensures var s1, s' := Ensure(s), Tick(CreateEffect(c, s));
      var y := s1.dir[Cur];
      && (forall id :: id in s1.appends ==> id in s'.appends && s'.appends[id] == Cut(c, s1.appends[id], y))
      && s'.text == s1.text[y := ""] && s'.logs == s1.logs[y := []] && s'.lock == s1.lock
      && s'.torn == s1.torn - {y} && s'.next == s1.next
  {
  }

  lemma CutDisk(c: Codec, s: State, s': State, y: nat, x: nat)
    requires Lawful(c) && OnDisk(c, s, x) && Locks(c, s, x)
    requires forall id :: x in s.logs && id in s.logs[x] ==> id in s.appends
    requires forall id :: id in s.appends ==> id in s'.appends && s'.appends[id] == Cut(c, s.appends[id], y)
    requires s'.text == s.text[y := ""] && s'.logs == s.logs[y := []] && s'.lock == s.lock
    requires s'.torn == s.torn - {y} && s'.next == s.next
    ensures OnDisk(c, s', x) && Locks(c, s', x)
  {
    EmptyText(c);
    if x in s.logs && x != y { EventsOfFrame(s.appends, s'.appends, s.logs[x]); }
  }

  /** The file the maintenance task has locked reads as its whole lines. */
  lemma LockedScan(c: Codec, s: State, x: nat)
    requires Lawful(c) && OnDisk(c, s, x) && Locks(c, s, x) && x in s.logs && x in s.lock && s.lock[x] == Maintenance
    requires x in s.torn ==> c.parse(s.torn[x]).None?
    ensures Scan(c, s.text[x]) == EventsOf(s.appends, s.logs[x])
  {
    ScanIsSettledAndTail(c, s.text[x]);
    assert TornPiece(s, x) + "" == TornPiece(s, x);
  }

  lemma BuildNew(c: Codec, s: State, k: nat)
    requires Lawful(c) && Shared(s) && s.maint.ClnRead? && CanRead(c, s) && Snapshot(c, s)
    requires OnDisk(c, s, s.maint.ino) && Locks(c, s, s.maint.ino) && Locks(c, s, s.next)
    requires s.next in s.lock ==> s.lock[s.next] == Maintenance
    ensures OnDisk(c, Tick(BuildEffect(c, s, k)), s.next)
  {
    var marker, kept := Marker(0, s.now), Retained(Scan(c, s.maint.text), k);
    LockedScan(c, s, s.maint.ino);
    BuildText(c, marker, kept, Newer(Scan(c, s.text[s.maint.ino]), LastSeqOr0(kept)));
    BuildEvents(c, s, k);
  }

  lemma BuildText(c: Codec, marker: Event, kept: seq<Event>, newer: seq<Event>)
    requires Lawful(c)
    ensures var t := Line(c, marker) + Render(c, kept) + Render(c, newer);
      Settled(c, t) == [marker] + kept + newer && Tail(t) == ""
  {
    var t1 := Line(c, marker);
    EmptyText(c);
    CompleteWrite(c, "", marker);
    assert "" + t1 == t1 && [] + [marker] == [marker];
    RenderedTextScans(c, t1, kept);
    RenderedTextScans(c, t1 + Render(c, kept), newer);
  }

  lemma BuildEvents(c: Codec, s: State, k: nat)
    requires Shared(s) && s.maint.ClnRead? && CanRead(c, s)
    ensures var s' := Tick(BuildEffect(c, s, k));
      var last := LastSeqOr0(Retained(Scan(c, s.maint.text), k));
      && s.next in s'.logs
      && EventsOf(s'.appends, s'.logs[s.next])
         == [Marker(0, s.now)] + Retained(EventsOf(s.appends, s.maint.lines), k)
            + Newer(EventsOf(s.appends, s.logs[s.maint.ino]), last)
  {
    var s' := Tick(BuildEffect(c, s, k));
    var last := LastSeqOr0(Retained(Scan(c, s.maint.text), k));
    var ks, ns := KeptLines(s.appends, s.maint.lines, k), NewerLines(s.appends, s.logs[s.maint.ino], last);
    EventsOfKept(s.appends, s.maint.lines, k);
    EventsOfNewer(s.appends, s.logs[s.maint.ino], last);
    BuildOld(c, s, k, ks, ns);
    EventsOfConcat(s'.appends, [s.now] + ks, ns);
    EventsOfConcat(s'.appends, [s.now], ks);
    EventsOfOne(s'.appends, s.now);
  }

  lemma BuildOld(c: Codec, s: State, k: nat, ks: seq<nat>, ns: seq<nat>)
    requires Shared(s) && s.maint.ClnRead? && CanRead(c, s) && ks == KeptLines(s.appends, s.maint.lines, k)
    requires ns == NewerLines(s.appends, s.logs[s.maint.ino], LastSeqOr0(Retained(Scan(c, s.maint.text), k)))
    ensures var s' := Tick(BuildEffect(c, s, k));
      && EventsOf(s'.appends, ks) == EventsOf(s.appends, ks)
      && EventsOf(s'.appends, ns) == EventsOf(s.appends, ns)
  {
    var s' := Tick(BuildEffect(c, s, k));
    NotYetLogged(s);
    forall id | id in ks || id in ns ensures id in s.appends && id != s.now {
      KeptLinesMember(s.appends, s.maint.lines, k, id);
      NewerLinesMember(s.appends, s.logs[s.maint.ino], LastSeqOr0(Retained(Scan(c, s.maint.text), k)), id);
    }
    EventsOfFrame(s.appends, s'.appends, ks);
    EventsOfFrame(s.appends, s'.appends, ns);
  }

  lemma BuildDisk(c: Codec, s: State, k: nat, x: nat)
    requires Lawful(c) && Shared(s) && s.maint.ClnRead? && CanRead(c, s) && Snapshot(c, s)
    requires OnDisk(c, s, s.maint.ino) && Locks(c, s, s.maint.ino) && OnDisk(c, s, x) && Locks(c, s, x)
    requires s.next in s.lock ==> s.lock[s.next] == Maintenance
    ensures OnDisk(c, Tick(BuildEffect(c, s, k)), x) && Locks(c, Tick(BuildEffect(c, s, k)), x)
  {
    var s' := Tick(BuildEffect(c, s, k));
    NotYetLogged(s);
    if x == s.next {
      BuildNew(c, s, k);
    } else if x in s.logs {
      DiskFrame(c, s, s', x);
    }
  }

  // ---------- one step, all files ----------

  lemma WriterDisk(c: Codec, limit: nat, s: State, a: Action, x: nat)
    requires Lawful(c) && Shared(s) && Enabled(c, s, a) && WriterStep(a) && OnDisk(c, s, x) && Locks(c, s, x)
    requires s.next in s.lock ==> s.lock[s.next] == Maintenance
    requires Actor(a).Some? ==> Thread(c, s, Actor(a).value)
    ensures OnDisk(c, Apply(c, limit, s, a), x) && Locks(c, Apply(c, limit, s, a), x)
  {
    match a
    case Touch => EnsureDisk(c, s, x); StillDisk(c, Ensure(s), Tick(Ensure(s)), x);
    case Open(ev) => OpenDisk(c, s, ev, x);
    case Lock(p) => LockDisk(c, s, p, x);
    case Chunk(p, n) => ChunkDisk(c, s, p, n, x);
    case Unlock(p) => UnlockDisk(c, s, p, x);
    case Die(p) => DieDisk(c, s, p, x);
  }

  lemma QuietDisk(c: Codec, limit: nat, s: State, a: Action, x: nat)
    requires Holding(s) && Enabled(c, s, a) && QuietStep(a) && OnDisk(c, s, x) && Locks(c, s, x)
    ensures OnDisk(c, Apply(c, limit, s, a), x) && Locks(c, Apply(c, limit, s, a), x)
  {
    QuietLocks(c, s, a);
    StillDisk(c, s, Apply(c, limit, s, a), x);
  }

  lemma DropDisk(c: Codec, limit: nat, s: State, x: nat)
    requires Holding(s) && s.maint.RotCreated? && OnDisk(c, s, x) && Locks(c, s, x)
    ensures OnDisk(c, Tick(Release(DropEffect(limit, s))), x) && Locks(c, Tick(Release(DropEffect(limit, s))), x)
  {
    StillDisk(c, s, Tick(Release(DropEffect(limit, s))), x);
  }

  lemma ShiftDisk(c: Codec, s: State, x: nat)
    requires OnDisk(c, s, x) && Locks(c, s, x) && s.maint.RotLocked? && s.maint.shift > 0
    ensures OnDisk(c, Tick(ShiftEffect(s)), x) && Locks(c, Tick(ShiftEffect(s)), x)
  {
    StillDisk(c, s, Tick(ShiftEffect(s)), x);
  }

  lemma MoveDisk(c: Codec, s: State, x: nat)
    requires OnDisk(c, s, x) && Locks(c, s, x) && s.maint.RotLocked? && Cur in s.dir
    ensures OnDisk(c, Tick(MoveEffect(s)), x) && Locks(c, Tick(MoveEffect(s)), x)
  {
    StillDisk(c, s, Tick(MoveEffect(s)), x);
  }

  lemma ReplaceDisk(c: Codec, s: State, x: nat)
    requires OnDisk(c, s, x) && Locks(c, s, x) && s.maint.ClnBuilt?
    ensures OnDisk(c, Tick(ReplaceEffect(s)), x) && Locks(c, Tick(ReplaceEffect(s)), x)
  {
    StillDisk(c, s, Tick(ReplaceEffect(s)), x);
  }

  lemma DiskStep(c: Codec, limit: nat, s: State, a: Action, x: nat)
    requires Lawful(c) && Inv(c, s) && Disk(c, s) && Enabled(c, s, a)
    ensures OnDisk(c, Apply(c, limit, s, a), x) && Locks(c, Apply(c, limit, s, a), x)
  {
    NextUnlocked(c, s);
    if WriterStep(a) {
      WriterDisk(c, limit, s, a, x);
    } else if QuietStep(a) {
      QuietDisk(c, limit, s, a, x);
    } else {
      match a
      case RotCreate => CreateDisk(c, s, x);
      case ClnBuild(k) => BuildDisk(c, s, k, x);
      case RotShift => ShiftDisk(c, s, x);
      case RotRename => MoveDisk(c, s, x);
      case RotFinish => DropDisk(c, limit, s, x);
      case ClnRename => ReplaceDisk(c, s, x);
    }
  }

  lemma NextUnlocked(c: Codec, s: State)
    requires Inv(c, s) && Disk(c, s)
    ensures s.next in s.lock ==> s.lock[s.next] == Maintenance
  {
    assert Locks(c, s, s.next);
    assert s.next in s.lock && s.lock[s.next].Writer? ==> Thread(c, s, s.lock[s.next].id);
  }

  lemma SnapshotStep(c: Codec, limit: nat, s: State, a: Action)
    requires Lawful(c) && Shared(s) && Disk(c, s) && Enabled(c, s, a)
    ensures Snapshot(c, Apply(c, limit, s, a))
  {
    var s' := Apply(c, limit, s, a);
    if a.ClnReadAll? {
      assert OnDisk(c, s, s.maint.ino) && Locks(c, s, s.maint.ino);
      LockedScan(c, s, s.maint.ino);
    } else if s'.maint.ClnRead? {
      SnapshotFrame(c, limit, s, a);
    }
  }

  lemma ReadStays(c: Codec, limit: nat, s: State, a: Action)
    requires Enabled(c, s, a) && !a.ClnReadAll? && Apply(c, limit, s, a).maint.ClnRead?
    ensures WriterStep(a) && Apply(c, limit, s, a).maint == s.maint
  {
    if QuietStep(a) { QuietMaint(c, limit, s, a); }
  }

  /** Writers change no event. */
  lemma WriterEvents(c: Codec, limit: nat, s: State, a: Action, id: nat)
    requires History(s) && Enabled(c, s, a) && WriterStep(a) && id in s.appends
    ensures id in Apply(c, limit, s, a).appends && Apply(c, limit, s, a).appends[id].ev == s.appends[id].ev
  {
    NotYetLogged(s);
  }

  lemma SnapshotFrame(c: Codec, limit: nat, s: State, a: Action)
    requires Shared(s) && Snapshot(c, s) && Enabled(c, s, a) && !a.ClnReadAll? && Apply(c, limit, s, a).maint.ClnRead?
    ensures Snapshot(c, Apply(c, limit, s, a))
  {
    ReadStays(c, limit, s, a);
    forall id | id in s.maint.lines
      ensures id in s.appends && id in Apply(c, limit, s, a).appends
      ensures Apply(c, limit, s, a).appends[id].ev == s.appends[id].ev
    {
      WriterEvents(c, limit, s, a, id);
    }
    EventsOfFrame(s.appends, Apply(c, limit, s, a).appends, s.maint.lines);
  }
}
