/** A line that its writer begins after a rotation, on a file it opened before. */
module WalRaceLate {
  import opened Events
  import opened WalRace
  import opened WalRaceShelves
  import opened WalRaceWitness

  /** The state after an undisturbed rotation with limit 1, five steps later. */
  function Rotated(s: State): State
    requires Cur in s.dir
  {
    var x := s.dir[Cur];
    s.(next := s.next + 1, text := s.text[s.next := ""], logs := s.logs[s.next := []],
       dir := map[Arch(1) := x, Cur := s.next],
       retired := s.retired + (if Arch(1) in s.dir then {s.dir[Arch(1)]} else {}),
       windows := s.windows + {Window(s.now + 2, s.now + 3)}, now := s.now + 5)
  }

  /** No lock is held, nobody is writing, and there is at most one archive. */
  predicate AtRest(s: State) {
    && s.maint.Resting? && s.lock == map[] && s.torn == map[] && Cur in s.dir && s.dir.Keys <= {Cur, Arch(1)}
    && forall id :: id in s.appends ==> !s.appends[id].phase.Writing?
  }

  lemma OneRotation(c: Codec, before: seq<Action>, s: State) returns (acts: seq<Action>)
    requires Goes(c, 1, Init, before, s) && AtRest(s)
    ensures Goes(c, 1, Init, acts, Rotated(s))
  {
    var x := s.dir[Cur];
    QuietThen(c, 1, Init, before, s, RotOpen);
    var s1 := Tick(Quiet(c, 1, s, RotOpen));
    QuietThen(c, 1, Init, before + [RotOpen], s1, RotLock);
    var s2 := Tick(Quiet(c, 1, s1, RotLock));
    assert s2 == s.(maint := RotLocked(x, 0), lock := map[x := Maintenance], now := s.now + 2);
    acts := RenamedAndCreated(c, before + [RotOpen] + [RotLock], s, s2);
  }

  lemma RenamedAndCreated(c: Codec, before: seq<Action>, s: State, s2: State) returns (acts: seq<Action>)
    requires Goes(c, 1, Init, before, s2) && AtRest(s)
    requires s2 == s.(maint := RotLocked(s.dir[Cur], 0), lock := map[s.dir[Cur] := Maintenance], now := s.now + 2)
    ensures Goes(c, 1, Init, acts, Rotated(s))
  {
    MovedState(s, s2);
    Then(c, 1, Init, before, s2, RotRename);
    var s3 := Tick(MoveEffect(s2));
    CreatedState(c, s, s3);
    Then(c, 1, Init, before + [RotRename], s3, RotCreate);
    var s4 := Tick(CreateEffect(c, s3));
    FinishedState(s, s4);
    Then(c, 1, Init, before + [RotRename] + [RotCreate], s4, RotFinish);
    acts := before + [RotRename] + [RotCreate] + [RotFinish];
  }

  lemma MovedState(s: State, s2: State)
    requires AtRest(s)
    requires s2 == s.(maint := RotLocked(s.dir[Cur], 0), lock := map[s.dir[Cur] := Maintenance], now := s.now + 2)
    ensures Tick(MoveEffect(s2)) == s2.(dir := map[Arch(1) := s.dir[Cur]], retired := Rotated(s).retired,
                                        maint := RotRenamed(s.dir[Cur], s.now + 2), now := s.now + 3)
  {
    assert Tick(MoveEffect(s2)).dir == map[Arch(1) := s.dir[Cur]];
  }

  lemma NothingCut(c: Codec, s: State)
    requires s.maint.RotRenamed? && forall id :: id in s.appends ==> !s.appends[id].phase.Writing?
    ensures Tick(CreateEffect(c, s)).appends == s.appends
  {
  }

  lemma CreatedState(c: Codec, s: State, s3: State)
    requires AtRest(s)
    requires s3 == s.(dir := map[Arch(1) := s.dir[Cur]], retired := Rotated(s).retired, now := s.now + 3,
                      maint := RotRenamed(s.dir[Cur], s.now + 2), lock := map[s.dir[Cur] := Maintenance])
    ensures Tick(CreateEffect(c, s3)) == Rotated(s).(maint := RotCreated(s.dir[Cur]), now := s.now + 4,
                                                    lock := map[s.dir[Cur] := Maintenance])
  {
    NothingCut(c, s3);
    CreatedDir(s3);
    CreatedRest(c, s3);
    assert map[Arch(1) := s.dir[Cur]][Cur := s.next] == map[Arch(1) := s.dir[Cur], Cur := s.next];
  }

  lemma CreatedDir(s: State)
    requires Cur !in s.dir
    ensures Ensure(s) == s.(next := s.next + 1, text := s.text[s.next := ""], logs := s.logs[s.next := []],
                            dir := s.dir[Cur := s.next])
  {
  }

  lemma CreatedRest(c: Codec, s: State)
    requires s.maint.RotRenamed? && Cur !in s.dir && s.torn == map[]
    ensures var s' := Tick(CreateEffect(c, s));
      s' == s.(next := s.next + 1, text := s.text[s.next := ""], logs := s.logs[s.next := []],
               dir := s.dir[Cur := s.next], windows := s.windows + {Window(s.maint.renamed, s.now)},
               appends := s'.appends, maint := RotCreated(s.maint.ino), now := s.now + 1)
  {
    assert s.text[s.next := ""][s.next := ""] == s.text[s.next := ""];
    assert s.logs[s.next := []][s.next := []] == s.logs[s.next := []];
  }

  lemma FinishedState(s: State, s4: State)
    requires AtRest(s)
    requires s4 == Rotated(s).(maint := RotCreated(s.dir[Cur]), now := s.now + 4,
                               lock := map[s.dir[Cur] := Maintenance])
    ensures Tick(Release(DropEffect(1, s4))) == Rotated(s)
  {
    assert Release(DropEffect(1, s4)).lock == map[];
    assert DropEffect(1, s4).dir == s4.dir;
  }

  /** A writer that opened before a rotation and writes after it writes to the archive: with limit 1 the
      one rotation that follows its acknowledgement drops the line. */
  lemma LateWriterWitness(c: Codec, e: Event) returns (acts: seq<Action>, id: nat)
    ensures IsRun(c, 1, Init, acts)
    ensures var s := Run(c, 1, Init, acts);
      && id in s.appends && s.appends[id].ev == e && s.appends[id].phase.Acked? && s.maint.Resting?
      && Since(s.windows, s.appends[id].startedAt) == 1 && DroppedByRetention(s, id)
  {
    id := 0;
    var s2;
    acts, s2 := OpenedAndRotated(c, e);
    WholeAppend(c, 1, Init, acts, s2, 0);
    acts := acts + AppendActs(c, s2.appends[0], 0);
    var s3 := Appended(c, s2, 0);
    acts := OneRotation(c, acts, s3);
    LateCount(s3, Rotated(s3));
    assert Rotated(s3).logs[0] == [0];
  }

  lemma OpenedAndRotated(c: Codec, e: Event) returns (acts: seq<Action>, s: State)
    ensures Goes(c, 1, Init, acts, s) && AtRest(s) && s.now == 6 && s.windows == {Window(3, 4)}
    ensures s.appends == map[0 := Append(e, 0, 0, 0, 0, Opened, false)] && s.dir == map[Arch(1) := 0, Cur := 1]
    ensures s.text == map[0 := "", 1 := ""] && s.logs == map[0 := [], 1 := []] && s.next == 2
  {
    Then(c, 1, Init, [], Init, Open(e));
    var s1 := Tick(OpenEffect(Init, e));
    acts := OneRotation(c, [] + [Open(e)], s1);
    s := Rotated(s1);
  }

  lemma LateCount(s3: State, s: State)
    requires s3.windows == {Window(3, 4)} && s3.now == 9 && s.windows == s3.windows + {Window(11, 12)}
    ensures Since(s.windows, 7) == 1
  {
    assert (set w | w in s.windows && w.renamed > 7) == {Window(11, 12)};
  }
}
