/** How long rotation keeps a line. */
module WalRaceRetention {
  import opened Events
  import opened WalRace
  import opened WalRaceLoss
  import opened WalRaceShelves

  ghost predicate Kept0(c: Codec, limit: nat, s: State) {
    Inv(c, s) && Shelved(limit, s) && Past(s) && forall id :: Kept(limit, s, id)
  }

  /** Every rotation that gets the lock goes through without a failing call. */
  predicate RotationsSucceed(c: Codec, limit: nat, s: State, acts: seq<Action>)
    requires IsRun(c, limit, s, acts)
    decreases |acts|
  {
    acts == [] || (Smooth(s, acts[0]) && RotationsSucceed(c, limit, Apply(c, limit, s, acts[0]), acts[1..]))
  }

  lemma {:induction false} KeptRun(c: Codec, limit: nat, s: State, acts: seq<Action>)
    requires Kept0(c, limit, s) && IsRun(c, limit, s, acts) && RotationsSucceed(c, limit, s, acts)
    ensures Kept0(c, limit, Run(c, limit, s, acts))
    decreases |acts|
  {
    if acts != [] {
      var s' := Apply(c, limit, s, acts[0]);
      InvStep(c, limit, s, acts[0]);
      ShelvedStep(c, limit, s, acts[0]);
      PastStep(c, limit, s, acts[0]);
      forall id ensures Kept(limit, s', id) { KeptStep(c, limit, s, acts[0], id); }
      KeptRun(c, limit, s', acts[1..]);
    }
  }

  /** Over every interleaving in which no rotation fails half way, once the maintenance task is at rest:
      a line is in the archive whose index is the number of rotations since its append opened the path,
      and rotation has dropped it only if they are more than the limit. So an acknowledged append that
      fell into no window, was not glued to a torn line and not judged too old is reachable if and only
      if at most `limit` rotations have come after its open. */
  lemma RetentionIff(c: Codec, limit: nat, acts: seq<Action>, id: nat)
    requires IsRun(c, limit, Init, acts) && RotationsSucceed(c, limit, Init, acts)
    requires Run(c, limit, Init, acts).maint.Resting?
    ensures var s := Run(c, limit, Init, acts);
      && (forall k: nat :: Arch(k) in s.dir && HasLine(s, s.dir[Arch(k)], id) ==>
            Since(s.windows, id) == k && 1 <= k <= limit)
      && (Cur in s.dir && HasLine(s, s.dir[Cur], id) ==> Since(s.windows, id) == 0)
      && (DroppedByRetention(s, id) ==> Since(s.windows, id) > limit)
      && (id in s.appends && s.appends[id].phase.Acked? ==>
            (Reachable(s, id) <==>
              && !(|| s.appends[id].glued || InRotationWindow(s.windows, id, s.appends[id].startedAt)
                   || InCleanupWindow(s, id) || id in s.expired)
              && Since(s.windows, id) <= limit))
  {
    InvInit(c);
    assert forall id :: Kept(limit, Init, id);
    KeptRun(c, limit, Init, acts);
    var s := Run(c, limit, Init, acts);
    assert Kept(limit, s, id);
    if id in s.appends && s.appends[id].phase.Acked? { RetainedIff(c, limit, s, id); }
  }

  lemma RetainedIff(c: Codec, limit: nat, s: State, id: nat)
    requires Inv(c, s) && Shelved(limit, s) && Kept(limit, s, id) && s.maint.Resting?
    requires id in s.appends && s.appends[id].phase.Acked?
    ensures Reachable(s, id) <==>
      && !(|| s.appends[id].glued || InRotationWindow(s.windows, id, s.appends[id].startedAt)
           || InCleanupWindow(s, id) || id in s.expired)
      && Since(s.windows, id) <= limit
  {
    assert Thread(c, s, id);
    ReachableIff(c, s, id);
    if Reachable(s, id) {
      var n :| n in s.dir && s.dir[n] in s.logs && id in s.logs[s.dir[n]];
      assert Belongs(s, s.dir[n], id);
    }
    if DroppedByRetention(s, id) {
      var x :| x in s.retired && x in s.logs && id in s.logs[x];
      assert Belongs(s, x, id);
    }
  }
}
