/** The race without its maintenance task. */
module WalRaceAppends {
  import opened Events
  import opened WalReader
  import opened WalRace
  import opened WalRaceLoss
  import opened WalRaceSteps
  import opened WalRaceRead

  predicate WritersOnly(acts: seq<Action>) { forall i :: 0 <= i < |acts| ==> WriterStep(acts[i]) }

  ghost predicate Plain(s: State) {
    && s.maint.Resting? && s.windows == {} && s.cleans == map[] && s.retired == {} && s.expired == map[]
    && forall n :: n in s.dir ==> n == Cur
  }

  lemma PlainStep(c: Codec, limit: nat, s: State, a: Action)
    requires Plain(s) && Enabled(c, s, a) && WriterStep(a)
    ensures Plain(Apply(c, limit, s, a))
  {
  }

  lemma {:induction false} PlainRun(c: Codec, limit: nat, s: State, acts: seq<Action>)
    requires Plain(s) && IsRun(c, limit, s, acts) && WritersOnly(acts)
    ensures Plain(Run(c, limit, s, acts))
    decreases |acts|
  {
    if acts != [] {
      PlainStep(c, limit, s, acts[0]);
      PlainRun(c, limit, Apply(c, limit, s, acts[0]), acts[1..]);
    }
  }

  /** Under every interleaving of creates and appends, any of which may fail or die in the middle of
      its line, an acknowledged event is in the current file if and only if it was not begun on top
      of a torn line; then `load` returns it. */
  lemma AppendsLostIffGlued(c: Codec, limit: nat, acts: seq<Action>, id: nat)
    requires Lawful(c) && IsRun(c, limit, Init, acts) && WritersOnly(acts)
    requires var s := Run(c, limit, Init, acts);
      id in s.appends && s.appends[id].phase.Acked? && !s.appends[id].ev.kind.WriterInitialized?
    ensures var s := Run(c, limit, Init, acts);
      && (Cur in s.dir && s.dir[Cur] in s.logs && id in s.logs[s.dir[Cur]] <==> !s.appends[id].glued)
      && (!s.appends[id].glued ==>
            Cur in s.dir && s.dir[Cur] in s.text && s.appends[id].ev in View(c, s.text[s.dir[Cur]]).events)
  {
    PlainRun(c, limit, Init, acts);
    LossIsClassified(c, limit, acts, id);
    if !Run(c, limit, Init, acts).appends[id].glued { ReachableIsLoaded(c, limit, acts, id); }
  }

  predicate NoDeaths(acts: seq<Action>) { forall i :: 0 <= i < |acts| ==> !acts[i].Die? }

  ghost predicate Unglued(s: State) { s.torn == map[] && forall id :: id in s.appends ==> !s.appends[id].glued }

  lemma UngluedStep(c: Codec, limit: nat, s: State, a: Action)
    requires Unglued(s) && Enabled(c, s, a) && WriterStep(a) && !a.Die?
    ensures Unglued(Apply(c, limit, s, a))
  {
  }

  lemma {:induction false} UngluedRun(c: Codec, limit: nat, s: State, acts: seq<Action>)
    requires Unglued(s) && IsRun(c, limit, s, acts) && WritersOnly(acts) && NoDeaths(acts)
    ensures Unglued(Run(c, limit, s, acts))
    decreases |acts|
  {
    if acts != [] {
      UngluedStep(c, limit, s, acts[0]);
      UngluedRun(c, limit, Apply(c, limit, s, acts[0]), acts[1..]);
    }
  }

  /** Under every interleaving of creates and appends that finish their lines no acknowledged event
      is lost: `load` of the current file returns it. */
  lemma AppendsAreNeverLost(c: Codec, limit: nat, acts: seq<Action>, id: nat)
    requires Lawful(c) && IsRun(c, limit, Init, acts) && WritersOnly(acts) && NoDeaths(acts)
    requires var s := Run(c, limit, Init, acts);
      id in s.appends && s.appends[id].phase.Acked? && !s.appends[id].ev.kind.WriterInitialized?
    ensures var s := Run(c, limit, Init, acts);
      && Cur in s.dir && s.dir[Cur] in s.logs && id in s.logs[s.dir[Cur]]
      && s.dir[Cur] in s.text && s.appends[id].ev in View(c, s.text[s.dir[Cur]]).events
  {
    UngluedRun(c, limit, Init, acts);
    AppendsLostIffGlued(c, limit, acts, id);
  }
}
