/** In which order the lines of the race stand. */
module WalRaceOrder {
  import opened Events
  import opened WalRewrite
  import opened WalRace
  import opened WalRaceLoss
  import opened WalRaceSteps
  import opened WalRaceText
  import opened WalRaceRead
  import opened WalRaceRewrite
  import opened WalRaceLines

  lemma StepOrderIff(c: Codec, limit: nat, s: State, a: Action)
    requires Inv(c, s) && Disk(c, s) && Enabled(c, s, a) && forall x :: Lined(c, s, x)
    ensures forall x :: Lined(c, Apply(c, limit, s, a), x)
    ensures (forall x :: InOrder(s, x)) ==>
      ((forall x :: InOrder(Apply(c, limit, s, a), x))
       <==> (a.ClnBuild? ==> NoneOvertakes(Scan(c, s.maint.text), a.cutoff)))
  {
    var s' := Apply(c, limit, s, a);
    if a.ClnBuild? {
      BuildOwn(c, limit, s, a.cutoff);
      forall x | x != s.next ensures Lined(c, s', x) && (InOrder(s, x) ==> InOrder(s', x)) {
        BuildSteady(c, limit, s, a.cutoff, x);
      }
    } else {
      forall x ensures Lined(c, s', x) && (InOrder(s, x) ==> InOrder(s', x)) { OtherSteady(c, limit, s, a, x); }
    }
  }

  /** At every point of the run the lines of writers stand in the order in which they began. */
  ghost predicate AlwaysInOrder(c: Codec, limit: nat, s: State, acts: seq<Action>)
    requires IsRun(c, limit, s, acts)
    decreases |acts|
  {
    (forall x :: InOrder(s, x)) && (acts == [] || AlwaysInOrder(c, limit, Apply(c, limit, s, acts[0]), acts[1..]))
  }

  /** No rewrite of the run reads a line numbered above the last unexpired one that stands before it. */
  predicate RewritesKeepOrder(c: Codec, limit: nat, s: State, acts: seq<Action>)
    requires IsRun(c, limit, s, acts)
    decreases |acts|
  {
    acts == []
    || ((acts[0].ClnBuild? ==> NoneOvertakes(Scan(c, s.maint.text), acts[0].cutoff))
        && RewritesKeepOrder(c, limit, Apply(c, limit, s, acts[0]), acts[1..]))
  }

  ghost predicate Sound(c: Codec, s: State) { Inv(c, s) && Disk(c, s) && forall x :: Lined(c, s, x) }

  lemma SoundStep(c: Codec, limit: nat, s: State, a: Action)
    requires Lawful(c) && Sound(c, s) && Enabled(c, s, a)
    ensures Sound(c, Apply(c, limit, s, a))
  {
    InvStep(c, limit, s, a);
    DiskOneStep(c, limit, s, a);
    StepOrderIff(c, limit, s, a);
  }

  lemma SoundInit(c: Codec)
    ensures Sound(c, Init)
  {
    InvInit(c);
  }

  lemma {:induction false} InOrderIffFrom(c: Codec, limit: nat, s: State, acts: seq<Action>)
    requires Lawful(c) && Sound(c, s) && IsRun(c, limit, s, acts) && forall x :: InOrder(s, x)
    ensures AlwaysInOrder(c, limit, s, acts) <==> RewritesKeepOrder(c, limit, s, acts)
    decreases |acts|, 1
  {
    if acts != [] {
      StepOrderIff(c, limit, s, acts[0]);
      InOrderFromNext(c, limit, s, acts);
    }
  }

  lemma {:induction false} InOrderFromNext(c: Codec, limit: nat, s: State, acts: seq<Action>)
    requires Lawful(c) && Sound(c, s) && IsRun(c, limit, s, acts) && acts != []
    ensures var s' := Apply(c, limit, s, acts[0]);
      (forall x :: InOrder(s', x)) ==>
        (AlwaysInOrder(c, limit, s', acts[1..]) <==> RewritesKeepOrder(c, limit, s', acts[1..]))
    decreases |acts|, 0
  {
    SoundStep(c, limit, s, acts[0]);
    var s' := Apply(c, limit, s, acts[0]);
    if forall x :: InOrder(s', x) { InOrderIffFrom(c, limit, s', acts[1..]); }
  }

  /** Over every interleaving of writers, rotations and cleanups: in every file and at every point the
      lines of writers stand in the order in which they began to write, if and only if no rewrite
      reads, before the last unexpired line, one that is numbered above it. */
  lemma FilesInOrderIff(c: Codec, limit: nat, acts: seq<Action>)
    requires Lawful(c) && IsRun(c, limit, Init, acts)
    ensures AlwaysInOrder(c, limit, Init, acts) <==> RewritesKeepOrder(c, limit, Init, acts)
  {
    SoundInit(c);
    InOrderIffFrom(c, limit, Init, acts);
  }

  lemma {:induction false} OrderedRun(c: Codec, limit: nat, s: State, acts: seq<Action>)
    requires Lawful(c) && Sound(c, s) && (forall x :: InOrder(s, x)) && IsRun(c, limit, s, acts)
    requires RewritesKeepOrder(c, limit, s, acts)
    ensures Sound(c, Run(c, limit, s, acts)) && forall x :: InOrder(Run(c, limit, s, acts), x)
    decreases |acts|
  {
    if acts != [] {
      SoundStep(c, limit, s, acts[0]);
      StepOrderIff(c, limit, s, acts[0]);
      OrderedRun(c, limit, Apply(c, limit, s, acts[0]), acts[1..]);
    }
  }

  lemma WriterAcked(c: Codec, limit: nat, s: State, a: Action, id: nat)
    requires Enabled(c, s, a) && WriterStep(a) && id in s.appends && s.appends[id].phase.Acked? && id != s.now
    ensures id in Apply(c, limit, s, a).appends && Apply(c, limit, s, a).appends[id] == s.appends[id]
  {
  }

  lemma AckedStep(c: Codec, limit: nat, s: State, a: Action, id: nat)
    requires Inv(c, s) && Enabled(c, s, a) && id in s.appends && s.appends[id].phase.Acked?
    ensures id in Apply(c, limit, s, a).appends && Apply(c, limit, s, a).appends[id] == s.appends[id]
  {
    assert s.now !in s.appends by { NotYetLogged(s); }
    if WriterStep(a) {
      WriterAcked(c, limit, s, a, id);
    } else if a.RotCreate? {
      assert Tick(CreateEffect(c, s)).appends[id] == Cut(c, s.appends[id], Ensure(s).dir[Cur]);
    } else if a.ClnBuild? {
      assert Apply(c, limit, s, a) == Tick(BuildEffect(c, s, a.cutoff));
    } else {
      TaskKeeps(c, limit, s, a, 0);
    }
  }

  lemma {:induction false} AckedRun(c: Codec, limit: nat, s: State, acts: seq<Action>, id: nat)
    requires Inv(c, s) && IsRun(c, limit, s, acts) && id in s.appends && s.appends[id].phase.Acked?
    ensures id in Run(c, limit, s, acts).appends && Run(c, limit, s, acts).appends[id] == s.appends[id]
    decreases |acts|
  {
    if acts != [] {
      AckedStep(c, limit, s, acts[0], id);
      InvStep(c, limit, s, acts[0]);
      AckedRun(c, limit, Apply(c, limit, s, acts[0]), acts[1..], id);
    }
  }

  /** A writer that waits for one append before it starts the next finds its lines in that order:
      if `first` was acknowledged before `second` opened the path, then in any inode that holds
      both lines `first` stands before `second`, through any interleaving with other writers,
      rotations, and cleanups that keep the order. */
  lemma WriterOrderKept(
      c: Codec, limit: nat, acts: seq<Action>, more: seq<Action>, first: nat, second: nat, x: nat, i: nat, j: nat)
    requires Lawful(c) && IsRun(c, limit, Init, acts) && IsRun(c, limit, Run(c, limit, Init, acts), more)
    requires RewritesKeepOrder(c, limit, Init, acts) && RewritesKeepOrder(c, limit, Run(c, limit, Init, acts), more)
    requires var mid := Run(c, limit, Init, acts);
      first in mid.appends && mid.appends[first].phase.Acked? && second >= mid.now
    requires var end := Run(c, limit, Run(c, limit, Init, acts), more);
      && x in end.logs && i < |end.logs[x]| && end.logs[x][i] == first && j < |end.logs[x]| && end.logs[x][j] == second
      && ByWriter(end.appends, first) && ByWriter(end.appends, second)
    ensures i < j
  {
    SoundInit(c);
    OrderedRun(c, limit, Init, acts);
    var mid := Run(c, limit, Init, acts);
    AckedRun(c, limit, mid, more, first);
    OrderedRun(c, limit, mid, more);
    OrderInState(c, mid, Run(c, limit, mid, more), first, second, x, i, j);
  }

  lemma OrderInState(c: Codec, mid: State, end: State, first: nat, second: nat, x: nat, i: nat, j: nat)
    requires Inv(c, mid) && Inv(c, end) && InOrder(end, x) && second >= mid.now
    requires first in mid.appends && mid.appends[first].phase.Acked? && first in end.appends
    requires end.appends[first] == mid.appends[first]
    requires x in end.logs && i < |end.logs[x]| && end.logs[x][i] == first && j < |end.logs[x]|
    requires end.logs[x][j] == second && ByWriter(end.appends, first) && ByWriter(end.appends, second)
    ensures i < j
  {
    assert Thread(c, mid, first);
    assert Length(c, mid.appends[first]) > 0;
    LoggedStarted(c, end, x);
    assert Thread(c, end, second);
    assert Length(c, end.appends[second]) > 0;
    assert StartOf(end.appends, first) < StartOf(end.appends, second);
  }
}
