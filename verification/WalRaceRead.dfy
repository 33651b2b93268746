/** What `load` finds in the files of the race. */
module WalRaceRead {
  import opened Events
  import opened WalReader
  import opened WalRace
  import opened WalRaceLoss
  import opened WalRaceText

  lemma DiskOneStep(c: Codec, limit: nat, s: State, a: Action)
    requires Lawful(c) && Inv(c, s) && Disk(c, s) && Enabled(c, s, a)
    ensures Disk(c, Apply(c, limit, s, a))
  {
    var s' := Apply(c, limit, s, a);
    forall x ensures OnDisk(c, s', x) && Locks(c, s', x) { DiskStep(c, limit, s, a, x); }
    SnapshotStep(c, limit, s, a);
  }

  lemma {:induction false} DiskRun(c: Codec, limit: nat, s: State, acts: seq<Action>)
    requires Lawful(c) && Inv(c, s) && Disk(c, s) && IsRun(c, limit, s, acts)
    ensures Disk(c, Run(c, limit, s, acts))
    decreases |acts|
  {
    if acts != [] {
      DiskOneStep(c, limit, s, acts[0]);
      InvStep(c, limit, s, acts[0]);
      DiskRun(c, limit, Apply(c, limit, s, acts[0]), acts[1..]);
    }
  }

  /** After every interleaving, the newline-terminated lines of every named file that parse are
      exactly the whole lines its inode's history lists, in that order: none is torn or glued, and a
      line that lost its beginning counts for nothing. Whether the history lists a line twice is
      `WalRaceRewrite.ListedOnceIff`. */
  lemma FilesMatchHistory(c: Codec, limit: nat, acts: seq<Action>, n: Name)
    requires Lawful(c) && IsRun(c, limit, Init, acts) && n in Run(c, limit, Init, acts).dir
    ensures var s := Run(c, limit, Init, acts);
      && s.dir[n] in s.logs && s.dir[n] in s.text
      && Settled(c, s.text[s.dir[n]]) == EventsOf(s.appends, s.logs[s.dir[n]])
  {
    InvInit(c);
    InvRun(c, limit, Init, acts);
    DiskRun(c, limit, Init, acts);
    var s := Run(c, limit, Init, acts);
    assert OnDisk(c, s, s.dir[n]);
  }

  /** A reachable acknowledged event is one `load` returns from some named file. */
  lemma ReachableIsLoaded(c: Codec, limit: nat, acts: seq<Action>, id: nat)
    requires Lawful(c) && IsRun(c, limit, Init, acts)
    requires var s := Run(c, limit, Init, acts);
      id in s.appends && !s.appends[id].ev.kind.WriterInitialized? && Reachable(s, id)
    ensures var s := Run(c, limit, Init, acts);
      exists n :: n in s.dir && s.dir[n] in s.text && s.appends[id].ev in View(c, s.text[s.dir[n]]).events
  {
    var s := Run(c, limit, Init, acts);
    var n :| n in s.dir && s.dir[n] in s.logs && id in s.logs[s.dir[n]];
    FilesMatchHistory(c, limit, acts, n);
    var t := s.text[s.dir[n]];
    EventsOfMember(s.appends, s.logs[s.dir[n]], id);
    LinesScan(c, t);
    ScanIsSettledAndTail(c, t);
    VisibleMember(Scan(c, t), s.appends[id].ev);
  }

  lemma {:induction false} VisibleMember(es: seq<Event>, e: Event)
    requires e in es && !e.kind.WriterInitialized?
    ensures e in Visible(es)
  {
    if es[0] != e { VisibleMember(es[1..], e); }
  }
}
