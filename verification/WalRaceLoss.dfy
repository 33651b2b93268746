/** A lost event of the race always has one of five named causes. */
module WalRaceLoss {
  import opened Events
  import opened WalRace
  import opened WalRaceSteps

  /** Every single step of any writer, of rotation and of cleanup keeps the invariant. */
  lemma InvStep(c: Codec, limit: nat, s: State, a: Action)
    requires Inv(c, s) && Enabled(c, s, a)
    ensures Inv(c, Apply(c, limit, s, a))
  {
    var s' := Apply(c, limit, s, a);
    SharedStep(c, limit, s, a);
    forall x ensures Fate(s', x) { FateStep(c, limit, s, a, x); }
    forall id ensures Thread(c, s', id) { ThreadStep(c, limit, s, a, id); }
  }

  lemma {:induction false} InvRun(c: Codec, limit: nat, s: State, acts: seq<Action>)
    requires Inv(c, s) && IsRun(c, limit, s, acts)
    ensures Inv(c, Run(c, limit, s, acts))
    decreases |acts|
  {
    if acts != [] {
      InvStep(c, limit, s, acts[0]);
      InvRun(c, limit, Apply(c, limit, s, acts[0]), acts[1..]);
    }
  }

  lemma InvInit(c: Codec)
    ensures Inv(c, Init)
  {
  }

  /** An acknowledged append can be found under the current name or a retained archive exactly
      when it was not glued to a torn line, fell into no rotation window and no cleanup window, was
      not judged too old by a cleanup, and was in no archive that a rename or the removal dropped. */
  lemma ReachableIff(c: Codec, s: State, id: nat)
    requires Names(s) && (forall x :: Fate(s, x)) && Thread(c, s, id)
    requires id in s.appends && s.appends[id].phase.Acked? && !IsTmp(s, s.appends[id].ino)
    ensures var a := s.appends[id];
      && (Reachable(s, id) <==>
            !(|| a.glued || InRotationWindow(s.windows, id, a.startedAt) || InCleanupWindow(s, id)
              || id in s.expired || DroppedByRetention(s, id)))
      && (InCleanupWindow(s, id) ==> id < s.cleans[a.ino].at < a.startedAt)
      && (id in s.expired ==> a.ev.ts < s.expired[id])
  {
    assert Length(c, s.appends[id]) > 0;
    if Reachable(s, id) {
      var n :| n in s.dir && s.dir[n] in s.logs && id in s.logs[s.dir[n]];
    } else {
      if x :| x in s.logs && id in s.logs[x] && x !in s.cleans && !IsTmp(s, x) { assert Fate(s, x); }
    }
  }

  /** After every interleaving: an acknowledged append can be found under the current name or a
      retained archive exactly when none of the five causes of loss applies to it, and each cause
      has the times and the expiry it should have. */
  lemma LossIsClassified(c: Codec, limit: nat, acts: seq<Action>, id: nat)
    requires IsRun(c, limit, Init, acts)
    requires var s := Run(c, limit, Init, acts);
      id in s.appends && s.appends[id].phase.Acked? && !IsTmp(s, s.appends[id].ino)
    ensures var s := Run(c, limit, Init, acts);
      var a := s.appends[id];
      && (Reachable(s, id) <==>
            !(|| a.glued || InRotationWindow(s.windows, id, a.startedAt) || InCleanupWindow(s, id)
              || id in s.expired || DroppedByRetention(s, id)))
      && (InCleanupWindow(s, id) ==> id < s.cleans[a.ino].at < a.startedAt)
      && (id in s.expired ==> a.ev.ts < s.expired[id])
  {
    InvInit(c);
    InvRun(c, limit, Init, acts);
    assert Thread(c, Run(c, limit, Init, acts), id);
    ReachableIff(c, Run(c, limit, Init, acts), id);
  }
}
