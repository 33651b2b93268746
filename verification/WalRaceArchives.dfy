/** The lines of the race across its files. */
module WalRaceArchives {
  import opened Events
  import opened WalRace
  import opened WalRaceLoss
  import opened WalRaceLines
  import opened WalRaceOrder
  import opened WalRacePlaces

  ghost predicate Filed(c: Codec, s: State) { Inv(c, s) && Aged(s) && forall id :: Taken(s, id) }

  lemma FiledStep(c: Codec, limit: nat, s: State, a: Action)
    requires Filed(c, s) && Enabled(c, s, a)
    ensures Filed(c, Apply(c, limit, s, a))
  {
    InvStep(c, limit, s, a);
    AgedStep(c, limit, s, a);
    forall id ensures Taken(Apply(c, limit, s, a), id) { TakenStep(c, limit, s, a, id); }
  }

  lemma {:induction false} FiledRun(c: Codec, limit: nat, s: State, acts: seq<Action>)
    requires Filed(c, s) && IsRun(c, limit, s, acts)
    ensures Filed(c, Run(c, limit, s, acts))
    decreases |acts|
  {
    if acts != [] {
      FiledStep(c, limit, s, acts[0]);
      FiledRun(c, limit, Apply(c, limit, s, acts[0]), acts[1..]);
    }
  }

  lemma {:induction false} ApartRun(c: Codec, limit: nat, s: State, acts: seq<Action>, first: nat, second: nat)
    requires Filed(c, s) && IsRun(c, limit, s, acts) && Apart(c, s, first, second)
    requires first in s.appends && s.appends[first].phase.Acked? && ByWriter(s.appends, first)
    ensures Apart(c, Run(c, limit, s, acts), first, second)
    decreases |acts|
  {
    if acts != [] {
      ApartStep(c, limit, s, acts[0], first, second);
      AckedStep(c, limit, s, acts[0], first);
      FiledStep(c, limit, s, acts[0]);
      ApartRun(c, limit, Apply(c, limit, s, acts[0]), acts[1..], first, second);
    }
  }

  /** Over every interleaving of writers, rotations, any call of which may fail, and cleanups: if
      `first` was acknowledged before `second` opened the path, no file that holds the line of
      `first` is newer than a file that holds the line of `second`. */
  lemma NeverInAnOlderFile(
      c: Codec, limit: nat, acts: seq<Action>, more: seq<Action>, first: nat, second: nat, m: Name, n: Name)
    requires IsRun(c, limit, Init, acts) && IsRun(c, limit, Run(c, limit, Init, acts), more)
    requires var mid := Run(c, limit, Init, acts);
      && first in mid.appends && mid.appends[first].phase.Acked? && ByWriter(mid.appends, first)
      && second >= mid.now
    requires var end := Run(c, limit, Run(c, limit, Init, acts), more);
      m in end.dir && n in end.dir && HasLine(end, end.dir[m], first) && HasLine(end, end.dir[n], second)
    ensures Rank(n) <= Rank(m)
  {
    InvInit(c);
    FiledRun(c, limit, Init, acts);
    var mid := Run(c, limit, Init, acts);
    NotYetApart(c, mid, first, second);
    FiledRun(c, limit, mid, more);
    ApartRun(c, limit, mid, more, first, second);
    RankInState(c, Run(c, limit, mid, more), first, second, m, n);
  }

  lemma NotYetApart(c: Codec, s: State, first: nat, second: nat)
    requires History(s) && second >= s.now
    ensures Apart(c, s, first, second)
  {
    assert second !in s.appends;
  }

  lemma RankInState(c: Codec, s: State, first: nat, second: nat, m: Name, n: Name)
    requires Aged(s) && Apart(c, s, first, second)
    requires m in s.dir && n in s.dir && HasLine(s, s.dir[m], first) && HasLine(s, s.dir[n], second)
    ensures Rank(n) <= Rank(m)
  {
    assert Named(s, s.dir[m]) && Holds(c, s, s.dir[n], second);
  }
}
