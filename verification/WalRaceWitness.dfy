/** Runs that lose an acknowledged event, one for each of the two windows and one for the torn line of
    a dead writer, and a run that lists one twice. */
module WalRaceWitness {
  import opened Text
  import opened Events
  import opened WalMaintenance
  import opened WalRewrite
  import opened WalRace
  import opened WalRaceLoss
  import opened WalRaceSteps
  import opened WalRaceText
  import opened WalRaceRead
  import opened WalRaceRewrite

  predicate Goes(c: Codec, limit: nat, s: State, acts: seq<Action>, s': State) {
    IsRun(c, limit, s, acts) && Run(c, limit, s, acts) == s'
  }

  /** One more step at the end of a run. */
  lemma {:induction false} Then(c: Codec, limit: nat, s: State, acts: seq<Action>, s': State, a: Action)
    requires Goes(c, limit, s, acts, s') && Enabled(c, s', a)
    ensures Goes(c, limit, s, acts + [a], Apply(c, limit, s', a))
    decreases |acts|
  {
    if acts == [] {
      assert acts + [a] == [a] && [a][1..] == [];
      assert IsRun(c, limit, Apply(c, limit, s', a), []);
    } else {
      assert (acts + [a])[1..] == acts[1..] + [a];
      Then(c, limit, Apply(c, limit, s, acts[0]), acts[1..], s', a);
    }
  }

  lemma ThreeMore(c: Codec, limit: nat, s: State, acts: seq<Action>, s': State, a1: Action, a2: Action, a3: Action)
    requires Goes(c, limit, s, acts, s') && Enabled(c, s', a1) && Enabled(c, Apply(c, limit, s', a1), a2)
    requires Enabled(c, Apply(c, limit, Apply(c, limit, s', a1), a2), a3)
    ensures Goes(c, limit, s, acts + [a1] + [a2] + [a3],
                 Apply(c, limit, Apply(c, limit, Apply(c, limit, s', a1), a2), a3))
  {
    Then(c, limit, s, acts, s', a1);
    Then(c, limit, s, acts + [a1], Apply(c, limit, s', a1), a2);
    Then(c, limit, s, acts + [a1] + [a2], Apply(c, limit, Apply(c, limit, s', a1), a2), a3);
  }

  lemma QuietThen(c: Codec, limit: nat, s: State, acts: seq<Action>, s': State, a: Action)
    requires Goes(c, limit, s, acts, s') && Enabled(c, s', a) && QuietStep(a)
    ensures Goes(c, limit, s, acts + [a], Tick(Quiet(c, limit, s', a)))
  {
    Then(c, limit, s, acts, s', a);
    QuietApply(c, limit, s', a);
  }

  /** The state after a whole append by `id` on an unlocked inode, three steps later. */
  function Appended(c: Codec, s: State, id: nat): State
    requires CanLock(s, id) && s.appends[id].ino in s.text && s.appends[id].ino in s.logs
  {
    var a := s.appends[id];
    var glued := !Blank(TornPiece(s, a.ino));
    s.(appends := s.appends[id := a.(startedAt := s.now + 1, done := Length(c, a), phase := Acked, glued := glued)],
       text := s.text[a.ino := s.text[a.ino] + Line(c, a.ev)],
       logs := if glued then s.logs else s.logs[a.ino := s.logs[a.ino] + [id]],
       torn := s.torn - {a.ino}, now := s.now + 3)
  }

  function AppendActs(c: Codec, a: Append, id: nat): seq<Action> {
    [Lock(id)] + [Chunk(id, Length(c, a))] + [Unlock(id)]
  }

  lemma WholeAppend(c: Codec, limit: nat, s0: State, acts: seq<Action>, s: State, id: nat)
    requires Goes(c, limit, s0, acts, s) && CanLock(s, id) && s.appends[id].ino in s.text && s.appends[id].ino in s.logs
    requires s.appends[id] == Append(s.appends[id].ev, s.appends[id].ino, 0, 0, 0, Opened, false)
    ensures Goes(c, limit, s0, acts + AppendActs(c, s.appends[id], id), Appended(c, s, id))
  {
    var n := Length(c, s.appends[id]);
    AppendStates(c, s, id);
    ThreeMore(c, limit, s0, acts, s, Lock(id), Chunk(id, n), Unlock(id));
    assert acts + [Lock(id)] + [Chunk(id, n)] + [Unlock(id)] == acts + AppendActs(c, s.appends[id], id);
  }

  lemma AppendStates(c: Codec, s: State, id: nat)
    requires CanLock(s, id) && s.appends[id].ino in s.text && s.appends[id].ino in s.logs
    requires s.appends[id] == Append(s.appends[id].ev, s.appends[id].ino, 0, 0, 0, Opened, false)
    ensures var n := Length(c, s.appends[id]);
      var s1 := Tick(LockEffect(s, id));
      && CanChunk(c, s1, id, n)
      && var s2 := Tick(ChunkEffect(c, s1, id, n));
         CanUnlock(c, s2, id) && Tick(UnlockEffect(c, s2, id)) == Appended(c, s, id)
  {
    var a := s.appends[id];
    var n := Length(c, a);
    var s2 := Tick(ChunkEffect(c, Tick(LockEffect(s, id)), id, n));
    assert Line(c, a.ev)[0..n] == Line(c, a.ev);
    var s3 := Tick(UnlockEffect(c, s2, id));
    assert s3.lock == s.lock;
    var acked := a.(startedAt := s.now + 1, done := n, phase := Acked, glued := !Blank(TornPiece(s, a.ino)));
    assert s3.appends == s.appends[id := acked];
  }

  /** An append that opens between rotation's rename and its re-creation of the file is wiped out
      by that re-creation, acknowledged or not. */
  lemma RotationWindowWitness(c: Codec, e: Event) returns (acts: seq<Action>, id: nat)
    ensures IsRun(c, 1, Init, acts)
    ensures var s := Run(c, 1, Init, acts);
      id in s.appends && s.appends[id].ev == e && s.appends[id].phase.Acked? && !Reachable(s, id)
  {
    var before: seq<Action> := [Touch] + [RotOpen] + [RotLock] + [RotRename] + [Open(e)];
    var s5 := State(2, map[0 := "", 1 := ""], map[Arch(1) := 0, Cur := 1], map[0 := Maintenance],
        map[4 := Append(e, 1, 0, 0, 0, Opened, false)],
                    RotRenamed(0, 3), 5, map[0 := [], 1 := []], {}, map[], {}, map[], map[]);
    UpToRename(c, e, before, s5);
    WholeAppend(c, 1, Init, before, s5, 4);
    acts, id := before + AppendActs(c, s5.appends[4], 4), 4;
    WipedOut(c, acts);
    acts := acts + [RotCreate];
  }

  lemma WipedOut(c: Codec, acts: seq<Action>)
    requires IsRun(c, 1, Init, acts)
    requires var s := Run(c, 1, Init, acts);
      && 4 in s.appends && s.appends[4].startedAt == 6 && s.appends[4].phase.Acked?
      && s.appends[4].done == Length(c, s.appends[4])
      && s.maint == RotRenamed(0, 3) && s.now == 8
    ensures IsRun(c, 1, Init, acts + [RotCreate])
    ensures var s := Run(c, 1, Init, acts + [RotCreate]);
      && 4 in s.appends && s.appends[4] == Run(c, 1, Init, acts).appends[4]
      && !Reachable(s, 4)
  {
    var s := Run(c, 1, Init, acts);
    Then(c, 1, Init, acts, s, RotCreate);
    var s' := Tick(CreateEffect(c, s));
    assert Window(3, 8) in s'.windows;
    assert InRotationWindow(s'.windows, 4, 6);
    LossIsClassified(c, 1, acts + [RotCreate], 4);
  }

  lemma UpToRename(c: Codec, e: Event, acts: seq<Action>, s5: State)
    requires acts == [Touch] + [RotOpen] + [RotLock] + [RotRename] + [Open(e)]
    requires s5 == State(2, map[0 := "", 1 := ""], map[Arch(1) := 0, Cur := 1], map[0 := Maintenance],
        map[4 := Append(e, 1, 0, 0, 0, Opened, false)],
                    RotRenamed(0, 3), 5, map[0 := [], 1 := []], {}, map[], {}, map[], map[])
    ensures Goes(c, 1, Init, acts, s5)
  {
    var s3 := State(1, map[0 := ""], map[Cur := 0], map[0 := Maintenance], map[], RotLocked(0, 0), 3, map[0 := []],
        {}, map[], {}, map[], map[]);
    UpToRotLock(c, s3);
    Then(c, 1, Init, [Touch] + [RotOpen] + [RotLock], s3, RotRename);
    var s4 := State(1, map[0 := ""], map[Arch(1) := 0], map[0 := Maintenance], map[], RotRenamed(0, 3), 4,
        map[0 := []], {}, map[], {}, map[], map[]);
    assert Tick(MoveEffect(s3)).dir == s4.dir;
    Then(c, 1, Init, [Touch] + [RotOpen] + [RotLock] + [RotRename], s4, Open(e));
    var s5' := Tick(OpenEffect(s4, e));
    assert s5'.dir == s5.dir && s5'.text == s5.text && s5'.logs == s5.logs && s5'.appends == s5.appends;
  }

  lemma UpToRotLock(c: Codec, s3: State)
    requires s3 == State(1, map[0 := ""], map[Cur := 0], map[0 := Maintenance], map[], RotLocked(0, 0), 3,
        map[0 := []], {}, map[], {}, map[], map[])
    ensures Goes(c, 1, Init, [Touch] + [RotOpen] + [RotLock], s3)
  {
    Then(c, 1, Init, [], Init, Touch);
    assert [] + [Touch] == [Touch];
    var s1 := Tick(Ensure(Init));
    Then(c, 1, Init, [Touch], s1, RotOpen);
    var s2 := Tick(s1.(maint := RotOpened(0)));
    Then(c, 1, Init, [Touch] + [RotOpen], s2, RotLock);
    assert Tick(s2.(maint := RotLocked(0, 0), lock := s2.lock[0 := Maintenance])) == s3;
  }

  /** A writer that dies in the middle of its line takes the next acknowledged event with it. */
  lemma TornLineWitness(c: Codec, dead: Event, e: Event) returns (acts: seq<Action>, id: nat)
    requires Lawful(c)
    ensures IsRun(c, 1, Init, acts)
    ensures var s := Run(c, 1, Init, acts);
      id in s.appends && s.appends[id].ev == e && s.appends[id].phase.Acked? && !Reachable(s, id)
  {
    Then(c, 1, Init, [], Init, Open(dead));
    var s1 := Tick(OpenEffect(Init, dead));
    Then(c, 1, Init, [] + [Open(dead)], s1, Lock(0));
    var s2 := Tick(LockEffect(s1, 0));
    Then(c, 1, Init, [] + [Open(dead)] + [Lock(0)], s2, Chunk(0, 1));
    var s3 := Tick(ChunkEffect(c, s2, 0, 1));
    acts := AfterDeath(c, [] + [Open(dead)] + [Lock(0)] + [Chunk(0, 1)], s3, e);
    id := 5;
    LossIsClassified(c, 1, acts, 5);
  }

  lemma AfterDeath(c: Codec, before: seq<Action>, s3: State, e: Event) returns (acts: seq<Action>)
    requires Lawful(c) && Goes(c, 1, Init, before, s3) && CanDie(c, s3, 0) && s3.appends[0].ino == 0
    requires s3.appends[0].from == 0 && s3.appends[0].done > 0
    requires s3.dir == map[Cur := 0] && s3.lock == map[0 := Writer(0)] && 0 in s3.text && 0 in s3.logs
    requires s3.now == 3 && s3.maint.Resting?
    ensures IsRun(c, 1, Init, acts)
    ensures var s := Run(c, 1, Init, acts);
      5 in s.appends && s.appends[5].ev == e && s.appends[5].phase.Acked? && s.appends[5].glued && s.maint.Resting?
  {
    Then(c, 1, Init, before, s3, Die(0));
    LineStartIsSolid(c, TornPiece(s3, 0), s3.appends[0].ev, s3.appends[0].done);
    acts := BesideDead(c, before + [Die(0)], Tick(DieEffect(c, s3, 0)), e);
  }

  lemma LineStartIsSolid(c: Codec, u: string, e: Event, done: nat)
    requires Lawful(c) && 0 < done < |Line(c, e)|
    ensures !Blank(u + Line(c, e)[0..done])
  {
    assert (u + Line(c, e)[0..done])[|u|] == c.render(e)[0];
  }

  lemma BesideDead(c: Codec, before: seq<Action>, s4: State, e: Event) returns (acts: seq<Action>)
    requires Goes(c, 1, Init, before, s4) && s4.dir == map[Cur := 0] && s4.lock == map[] && !Blank(TornPiece(s4, 0))
    requires 0 in s4.text && 0 in s4.logs && s4.now == 4 && s4.maint.Resting?
    ensures IsRun(c, 1, Init, acts)
    ensures var s := Run(c, 1, Init, acts);
      5 in s.appends && s.appends[5].ev == e && s.appends[5].phase.Acked? && s.appends[5].glued && s.maint.Resting?
  {
    Then(c, 1, Init, before, s4, Touch);
    var s5 := Tick(s4);
    assert Ensure(s4) == s4;
    Then(c, 1, Init, before + [Touch], s5, Open(e));
    var s6 := Tick(OpenEffect(s5, e));
    acts := before + [Touch] + [Open(e)];
    WholeAppend(c, 1, Init, acts, s6, 5);
    acts := acts + AppendActs(c, s6.appends[5], 5);
  }

  /** An append that opens before cleanup's rename and writes after it lands in the replaced inode,
      which no name leads to any more. */
  lemma CleanupWindowWitness(c: Codec, stale: Event, e: Event, cutoff: nat) returns (acts: seq<Action>, id: nat)
    requires Lawful(c) && stale.ts < cutoff
    ensures IsRun(c, 1, Init, acts)
    ensures var s := Run(c, 1, Init, acts);
      id in s.appends && s.appends[id].ev == e && s.appends[id].phase.Acked? && !Reachable(s, id)
  {
    var s8;
    acts, s8 := UpToRead(c, stale, e);
    acts := UpToReplaced(c, acts, s8, stale, e, cutoff);
    var s11 := Run(c, 1, Init, acts);
    WholeAppend(c, 1, Init, acts, s11, 4);
    acts, id := acts + AppendActs(c, s11.appends[4], 4), 4;
    LossIsClassified(c, 1, acts, 4);
  }

  /** One file holding the stale line, and an append of `e` that has opened it. */
  predicate Staged(c: Codec, s: State, stale: Event, e: Event) {
    && s.next == 1 && s.text == map[0 := Line(c, stale)] && s.logs == map[0 := [0]] && s.dir == map[Cur := 0]
    && s.cleans == map[] && s.torn == map[] && 4 in s.appends && s.appends[4] == Append(e, 0, 0, 0, 0, Opened, false)
  }

  lemma UpToOpen(c: Codec, stale: Event, e: Event) returns (acts: seq<Action>, s: State)
    ensures Goes(c, 1, Init, acts, s) && Staged(c, s, stale, e) && s.maint.Resting? && s.now == 5 && s.lock == map[]
  {
    Then(c, 1, Init, [], Init, Open(stale));
    acts := [] + [Open(stale)];
    var s1 := Tick(OpenEffect(Init, stale));
    WholeAppend(c, 1, Init, acts, s1, 0);
    acts := acts + AppendActs(c, s1.appends[0], 0);
    var s4 := Appended(c, s1, 0);
    assert "" + Line(c, stale) == Line(c, stale);
    assert s1.logs[0] == [] && s4.logs[0] == [0];
    Then(c, 1, Init, acts, s4, Open(e));
    acts := acts + [Open(e)];
    s := Tick(OpenEffect(s4, e));
  }

  lemma UpToRead(c: Codec, stale: Event, e: Event) returns (acts: seq<Action>, s: State)
    ensures Goes(c, 1, Init, acts, s) && Staged(c, s, stale, e)
    ensures s.maint == ClnRead(0, Line(c, stale), [0]) && s.now == 8 && s.lock == map[0 := Maintenance]
  {
    var s5;
    acts, s5 := UpToOpen(c, stale, e);
    acts, s := ReadFrom(c, acts, s5, stale, e);
  }

  lemma ReadFrom(c: Codec, before: seq<Action>, s5: State, stale: Event, e: Event) returns (acts: seq<Action>, s: State)
    requires Goes(c, 1, Init, before, s5) && Staged(c, s5, stale, e) && s5.maint.Resting? && s5.now == 5
    requires s5.lock == map[]
    ensures Goes(c, 1, Init, acts, s) && Staged(c, s, stale, e)
    ensures s.maint == ClnRead(0, Line(c, stale), [0]) && s.now == 8 && s.lock == map[0 := Maintenance]
  {
    QuietThen(c, 1, Init, before, s5, ClnOpen);
    var s6 := Tick(Quiet(c, 1, s5, ClnOpen));
    acts := before + [ClnOpen];
    QuietThen(c, 1, Init, acts, s6, ClnLock);
    var s7 := Tick(Quiet(c, 1, s6, ClnLock));
    acts := acts + [ClnLock];
    QuietThen(c, 1, Init, acts, s7, ClnReadAll);
    acts := acts + [ClnReadAll];
    s := Tick(Quiet(c, 1, s7, ClnReadAll));
  }

  lemma UpToReplaced(c: Codec, before: seq<Action>, s8: State, stale: Event, e: Event, cutoff: nat)
      returns (acts: seq<Action>)
    requires Lawful(c) && stale.ts < cutoff && Goes(c, 1, Init, before, s8) && Staged(c, s8, stale, e)
    requires s8.maint == ClnRead(0, Line(c, stale), [0]) && s8.now == 8 && s8.lock == map[0 := Maintenance]
    ensures IsRun(c, 1, Init, acts)
    ensures var s := Run(c, 1, Init, acts);
      && CanLock(s, 4) && s.appends[4] == Append(e, 0, 0, 0, 0, Opened, false) && 0 in s.text && 0 in s.logs
      && 0 in s.cleans && s.cleans[0] == Clean(8, 9) && s.now == 11 && s.maint.Resting?
  {
    StaleScan(c, stale, cutoff);
    Then(c, 1, Init, before, s8, ClnBuild(cutoff));
    var s9 := Tick(BuildEffect(c, s8, cutoff));
    acts := before + [ClnBuild(cutoff)];
    acts := UpToUnlock(c, acts, s9, e);
  }

  lemma UpToUnlock(c: Codec, before: seq<Action>, s9: State, e: Event) returns (acts: seq<Action>)
    requires Goes(c, 1, Init, before, s9) && s9.maint.ClnBuilt? && s9.maint.ino == 0 && s9.maint.reread == 8
    requires s9.now == 9
    requires 4 in s9.appends && s9.appends[4] == Append(e, 0, 0, 0, 0, Opened, false) && 0 in s9.text
    requires 0 in s9.logs && s9.lock == map[0 := Maintenance]
    ensures IsRun(c, 1, Init, acts)
    ensures var s := Run(c, 1, Init, acts);
      && CanLock(s, 4) && s.appends[4] == Append(e, 0, 0, 0, 0, Opened, false) && 0 in s.text && 0 in s.logs
      && 0 in s.cleans && s.cleans[0] == Clean(8, 9) && s.now == 11 && s.maint.Resting?
  {
    Then(c, 1, Init, before, s9, ClnRename);
    acts := before + [ClnRename];
    Then(c, 1, Init, acts, Tick(ReplaceEffect(s9)), ClnUnlock);
    acts := acts + [ClnUnlock];
  }

  lemma StaleScan(c: Codec, stale: Event, cutoff: nat)
    requires Lawful(c) && stale.ts < cutoff
    ensures Scan(c, Line(c, stale)) == [stale] && Retained(Scan(c, Line(c, stale)), cutoff) == []
  {
    assert Split("") == [""];
    CompleteWrite(c, "", stale);
    assert "" + Line(c, stale) == Line(c, stale);
    assert [stale][1..] == [];
  }

  // ---------- a line listed twice ----------

  /** One file at rest. */
  predicate OneFile(s: State, ids: seq<nat>, text: string) {
    && s.next == 1 && s.text == map[0 := text] && s.logs == map[0 := ids] && s.dir == map[Cur := 0] && s.lock == map[]
    && s.torn == map[] && s.maint.Resting? && forall id :: id in s.appends ==> id < s.now
  }

  lemma OneMore(c: Codec, before: seq<Action>, s: State, ids: seq<nat>, text: string, e: Event)
      returns (acts: seq<Action>, s': State)
    requires Goes(c, 1, Init, before, s) && OneFile(s, ids, text)
    ensures Goes(c, 1, Init, acts, s') && OneFile(s', ids + [s.now], text + Line(c, e)) && s'.now == s.now + 4
    ensures s.now in s'.appends && s'.appends[s.now].ev == e && s'.appends[s.now].phase.Acked?
    ensures forall id :: id in s.appends ==> id in s'.appends && s'.appends[id] == s.appends[id]
  {
    Then(c, 1, Init, before, s, Open(e));
    var s1 := Tick(OpenEffect(s, e));
    acts := before + [Open(e)];
    WholeAppend(c, 1, Init, acts, s1, s.now);
    acts := acts + AppendActs(c, s1.appends[s.now], s.now);
    s' := Appended(c, s1, s.now);
    OneMoreState(c, s, ids, text, e);
  }

  lemma OneMoreState(c: Codec, s: State, ids: seq<nat>, text: string, e: Event)
    requires OneFile(s, ids, text) && CanLock(Tick(OpenEffect(s, e)), s.now)
    ensures var s' := Appended(c, Tick(OpenEffect(s, e)), s.now);
      && OneFile(s', ids + [s.now], text + Line(c, e)) && s'.now == s.now + 4
      && s.now in s'.appends && s'.appends[s.now].ev == e && s'.appends[s.now].phase.Acked?
      && forall id :: id in s.appends ==> id in s'.appends && s'.appends[id] == s.appends[id]
  {
  }

  lemma ThreeAppends(c: Codec, e1: Event, e2: Event, e3: Event) returns (acts: seq<Action>, s: State)
    ensures Goes(c, 1, Init, acts, s) && OneFile(s, [1, 5, 9], "" + Line(c, e1) + Line(c, e2) + Line(c, e3))
    ensures s.now == 13 && 1 in s.appends && s.appends[1].ev == e1
    ensures 5 in s.appends && s.appends[5].ev == e2 && s.appends[5].phase.Acked?
    ensures 9 in s.appends && s.appends[9].ev == e3
  {
    Then(c, 1, Init, [], Init, Touch);
    var s1, s2, s3 := Tick(Ensure(Init)), Init, Init;
    acts, s2 := OneMore(c, [] + [Touch], s1, [], "", e1);
    acts, s3 := OneMore(c, acts, s2, [] + [1], "" + Line(c, e1), e2);
    acts, s := OneMore(c, acts, s3, [] + [1] + [5], "" + Line(c, e1) + Line(c, e2), e3);
    assert [] + [1] + [5] + [9] == [1, 5, 9];
  }

  lemma ReadAll(c: Codec, before: seq<Action>, s: State, ids: seq<nat>, text: string)
      returns (acts: seq<Action>, s': State)
    requires Goes(c, 1, Init, before, s) && OneFile(s, ids, text)
    ensures Goes(c, 1, Init, acts, s') && s'.maint == ClnRead(0, text, ids) && s'.appends == s.appends
    ensures s'.next == 1 && s'.dir == map[Cur := 0] && 0 in s'.text && 0 in s'.logs && s'.torn == map[]
  {
    QuietThen(c, 1, Init, before, s, ClnOpen);
    var s1 := Tick(Quiet(c, 1, s, ClnOpen));
    QuietThen(c, 1, Init, before + [ClnOpen], s1, ClnLock);
    var s2 := Tick(Quiet(c, 1, s1, ClnLock));
    QuietThen(c, 1, Init, before + [ClnOpen] + [ClnLock], s2, ClnReadAll);
    acts, s' := before + [ClnOpen] + [ClnLock] + [ClnReadAll], Tick(Quiet(c, 1, s2, ClnReadAll));
  }

  lemma ThreePositions(old_: Event, a: Event, b: Event, cutoff: nat)
    requires old_.ts < cutoff <= a.ts && cutoff <= b.ts && old_.seq_ <= b.seq_ < a.seq_
    ensures Retained([old_, a, b], cutoff) == [a, b] && RewrittenAt([old_, a, b], cutoff) == [1, 2, 1]
  {
    ThreeRewritten(old_, a, b, cutoff);
    assert [] + [old_] == [old_] && [old_] + [a] == [old_, a] && [old_, a] + [b] == [old_, a, b];
    KeptAtSnoc([], old_, cutoff);
    KeptAtSnoc([old_], a, cutoff);
    KeptAtSnoc([old_, a], b, cutoff);
    NewerAtSnoc([], old_, b.seq_);
    NewerAtSnoc([old_], a, b.seq_);
    NewerAtSnoc([old_, a], b, b.seq_);
  }

  /** A cleanup has read the three lines. */
  ghost predicate ReadThree(c: Codec, s: State, old_: Event, a: Event, b: Event) {
    && s.maint.ClnRead? && s.maint.lines == [1, 5, 9] && Scan(c, s.maint.text) == [old_, a, b]
    && s.dir == map[Cur := 0] && 0 in s.text && 0 in s.logs && s.torn == map[]
    && 5 in s.appends && s.appends[5].ev == a && 9 in s.appends && s.appends[9].ev == b
  }

  lemma BuildDoubles(c: Codec, s: State, old_: Event, a: Event, b: Event, cutoff: nat)
    requires Inv(c, s) && Disk(c, s) && ReadThree(c, s, old_, a, b)
    requires old_.ts < cutoff <= a.ts && cutoff <= b.ts && old_.seq_ <= b.seq_ < a.seq_
    ensures Enabled(c, s, ClnBuild(cutoff))
    ensures var s' := Apply(c, 1, s, ClnBuild(cutoff));
      && s'.logs == s.logs[s.next := [s.now, 5, 9, 5]] && s'.maint.ClnBuilt? && s'.maint.tmp == s.next
      && 5 in s'.appends && s'.appends[5].ev == a && 9 in s'.appends && s'.appends[9].ev == b
  {
    ThreePositions(old_, a, b, cutoff);
    CanBuild(c, s, cutoff);
    BuiltLog(c, 1, s, cutoff);
    assert Pick([1, 5, 9], [1, 2, 1]) == [5, 9, 5];
    assert [s.now] + [5, 9, 5] == [s.now, 5, 9, 5];
  }

  lemma CanBuild(c: Codec, s: State, cutoff: nat)
    requires s.maint.ClnRead? && s.dir == map[Cur := 0] && 0 in s.text && 0 in s.logs && s.torn == map[]
    requires |Retained(Scan(c, s.maint.text), cutoff)| != |Scan(c, s.maint.text)|
    ensures Enabled(c, s, ClnBuild(cutoff))
    ensures var m := Apply(c, 1, s, ClnBuild(cutoff)).maint; m.ClnBuilt? && m.tmp == s.next
  {
  }

  lemma DoubledFrom(c: Codec, before: seq<Action>, s: State, old_: Event, a: Event, b: Event, cutoff: nat)
      returns (acts: seq<Action>)
    requires Goes(c, 1, Init, before, s) && Inv(c, s) && Disk(c, s) && ReadThree(c, s, old_, a, b)
    requires old_.ts < cutoff <= a.ts && cutoff <= b.ts && old_.seq_ <= b.seq_ < a.seq_
    ensures IsRun(c, 1, Init, acts)
    ensures var s' := Run(c, 1, Init, acts);
      && Cur in s'.dir && s'.dir[Cur] in s'.logs && s'.logs[s'.dir[Cur]] == [s.now, 5, 9, 5]
      && 5 in s'.appends && s'.appends[5].ev == a && 9 in s'.appends && s'.appends[9].ev == b
  {
    BuildDoubles(c, s, old_, a, b, cutoff);
    Then(c, 1, Init, before, s, ClnBuild(cutoff));
    acts := RenamedFrom(c, before + [ClnBuild(cutoff)], Apply(c, 1, s, ClnBuild(cutoff)));
  }

  lemma RenamedFrom(c: Codec, before: seq<Action>, s: State) returns (acts: seq<Action>)
    requires Goes(c, 1, Init, before, s) && s.maint.ClnBuilt? && s.maint.tmp in s.logs
    ensures IsRun(c, 1, Init, acts)
    ensures var s' := Run(c, 1, Init, acts);
      && s'.appends == s.appends && s'.logs == s.logs && Cur in s'.dir && s'.dir[Cur] == s.maint.tmp
  {
    Then(c, 1, Init, before, s, ClnRename);
    acts := before + [ClnRename];
    assert Apply(c, 1, s, ClnRename) == Tick(ReplaceEffect(s));
  }

  lemma ThreeRead(c: Codec, s: State, old_: Event, a: Event, b: Event)
    requires Disk(c, s) && s.maint.ClnRead? && s.maint.lines == [1, 5, 9]
    requires EventOf(s.appends, 1) == old_ && EventOf(s.appends, 5) == a && EventOf(s.appends, 9) == b
    ensures Scan(c, s.maint.text) == [old_, a, b]
  {
    EventsOfAt(s.appends, [1, 5, 9]);
  }

  /** Three acknowledged appends, and a cleanup that removes the first and lists the second twice. */
  lemma DoubledLineWitness(c: Codec, old_: Event, a: Event, b: Event, cutoff: nat) returns (acts: seq<Action>)
    requires Lawful(c) && old_.ts < cutoff <= a.ts && cutoff <= b.ts && old_.seq_ <= b.seq_ < a.seq_
    ensures IsRun(c, 1, Init, acts)
    ensures var s := Run(c, 1, Init, acts);
      && Cur in s.dir && s.dir[Cur] in s.logs && s.dir[Cur] in s.text
      && |s.logs[s.dir[Cur]]| == 4 && s.logs[s.dir[Cur]][1] == s.logs[s.dir[Cur]][3]
      && EventsOf(s.appends, s.logs[s.dir[Cur]])[1..] == [a, b, a]
      && Settled(c, s.text[s.dir[Cur]]) == EventsOf(s.appends, s.logs[s.dir[Cur]])
  {
    var s1, s2;
    acts, s1 := ThreeAppends(c, old_, a, b);
    acts, s2 := ReadAll(c, acts, s1, [1, 5, 9], "" + Line(c, old_) + Line(c, a) + Line(c, b));
    InvInit(c);
    InvRun(c, 1, Init, acts);
    DiskRun(c, 1, Init, acts);
    ThreeRead(c, s2, old_, a, b);
    acts := DoubledFrom(c, acts, s2, old_, a, b, cutoff);
    FilesMatchHistory(c, 1, acts, Cur);
    TwiceListed(Run(c, 1, Init, acts).appends, s2.now, a, b);
  }

  lemma TwiceListed(appends: map<nat, Append>, marker: nat, a: Event, b: Event)
    requires EventOf(appends, 5) == a && EventOf(appends, 9) == b
    ensures EventsOf(appends, [marker, 5, 9, 5])[1..] == [a, b, a]
  {
    EventsOfAt(appends, [marker, 5, 9, 5]);
  }
}
