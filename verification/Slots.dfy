/** Two slot counters, under every schedule. */
module Slots {
  const MAX_CLI_CONCURRENT := 16
  const MAX_CONCURRENT_JOBS := 16

  // ---------- add, then undo ----------

  /** `pending` threads have added one and have not yet taken it back. */
  datatype Cli = Cli(counter: int, holders: set<nat>, pending: set<nat>)

  datatype CliAct = Acquire(t: nat) | Undo(t: nat) | Release(t: nat)

  const CliInit := Cli(0, {}, {})

  predicate CliEnabled(s: Cli, a: CliAct) {
    match a
    case Acquire(t) => t !in s.holders && t !in s.pending
    case Undo(t) => t in s.pending
    case Release(t) => t in s.holders
  }

  /** One atomic operation on the counter: `fetch_add` with the test of what it returned, or
      `fetch_sub`. */
  function CliStep(s: Cli, a: CliAct): Cli
    requires CliEnabled(s, a)
  {
    match a
    case Acquire(t) =>
      if s.counter >= MAX_CLI_CONCURRENT then s.(counter := s.counter + 1, pending := s.pending + {t})
      else s.(counter := s.counter + 1, holders := s.holders + {t})
    case Undo(t) => s.(counter := s.counter - 1, pending := s.pending - {t})
    case Release(t) => s.(counter := s.counter - 1, holders := s.holders - {t})
  }

  predicate CliIsRun(s: Cli, acts: seq<CliAct>)
    decreases |acts|
  {
    acts == [] || (CliEnabled(s, acts[0]) && CliIsRun(CliStep(s, acts[0]), acts[1..]))
  }

  function CliRun(s: Cli, acts: seq<CliAct>): Cli
    requires CliIsRun(s, acts)
    decreases |acts|
  {
    if acts == [] then s else CliRun(CliStep(s, acts[0]), acts[1..])
  }

  predicate Refuses(s: Cli) { s.counter >= MAX_CLI_CONCURRENT }

  predicate CliInv(s: Cli) {
    s.holders !! s.pending && s.counter == |s.holders| + |s.pending| && |s.holders| <= MAX_CLI_CONCURRENT
  }

  lemma {:induction false} CliInvRun(s: Cli, acts: seq<CliAct>)
    requires CliInv(s) && CliIsRun(s, acts)
    ensures CliInv(CliRun(s, acts))
    decreases |acts|
  {
    if acts != [] {
      CliInvRun(CliStep(s, acts[0]), acts[1..]);
    }
  }

  /** After any schedule at most sixteen threads hold a slot, the counter is holders plus pending
      undos, and a new request is refused if and only if those together reach sixteen. */
  lemma CliNeverOverGrants(acts: seq<CliAct>)
    requires CliIsRun(CliInit, acts)
    ensures var s := CliRun(CliInit, acts);
      && |s.holders| <= 16 && s.counter == |s.holders| + |s.pending|
      && (Refuses(s) <==> |s.holders| + |s.pending| >= 16)
  {
    CliInvRun(CliInit, acts);
  }

  /** Threads 0 to n - 1 take a slot each. */
  function Fill(n: nat): seq<CliAct> { if n == 0 then [] else Fill(n - 1) + [Acquire(n - 1)] }

  function Below(n: nat): (r: set<nat>)
    ensures |r| == n && forall t: nat :: t in r <==> t < n
  {
    if n == 0 then {} else Below(n - 1) + {n - 1}
  }

  function Filled(n: nat): Cli { Cli(n, Below(n), {}) }

  lemma {:induction false} CliSnoc(s: Cli, acts: seq<CliAct>, a: CliAct)
    requires CliIsRun(s, acts) && CliEnabled(CliRun(s, acts), a)
    ensures CliIsRun(s, acts + [a]) && CliRun(s, acts + [a]) == CliStep(CliRun(s, acts), a)
    decreases |acts|
  {
    if acts == [] {
      assert acts + [a] == [a] && [a][1..] == [];
      assert CliIsRun(CliStep(s, a), []);
    } else {
      assert (acts + [a])[1..] == acts[1..] + [a];
      CliSnoc(CliStep(s, acts[0]), acts[1..], a);
    }
  }

  lemma {:induction false} FillRun(n: nat)
    requires n <= MAX_CLI_CONCURRENT
    ensures CliIsRun(CliInit, Fill(n)) && CliRun(CliInit, Fill(n)) == Filled(n)
  {
    if n > 0 {
      FillRun(n - 1);
      assert CliStep(Filled(n - 1), Acquire(n - 1)) == Filled(n);
      CliSnoc(CliInit, Fill(n - 1), Acquire(n - 1));
    }
  }

  /** A request is refused while a slot is free: sixteen hold, a seventeenth has not yet undone its
      addition, and one holder leaves. */
  lemma RefusedWhileFreeWitness() returns (acts: seq<CliAct>)
    ensures CliIsRun(CliInit, acts)
    ensures |CliRun(CliInit, acts).holders| < 16 && Refuses(CliRun(CliInit, acts))
  {
    FillRun(16);
    CliSnoc(CliInit, Fill(16), Acquire(16));
    CliSnoc(CliInit, Fill(16) + [Acquire(16)], Release(0));
    acts := Fill(16) + [Acquire(16)] + [Release(0)];
    CliInvRun(CliInit, acts);
  }

  // ---------- compare and set ----------

  datatype Registry = Registry(running: nat, holders: set<nat>)

  /** `Stray` is a release by someone who holds nothing. */
  datatype RegAct = TryReserve(t: nat) | ReleaseOwn(t: nat) | Stray

  predicate RegEnabled(s: Registry, a: RegAct) {
    match a
    case TryReserve(t) => t !in s.holders
    case ReleaseOwn(t) => t in s.holders
    case Stray => true
  }

  function RegStep(s: Registry, a: RegAct): Registry
    requires RegEnabled(s, a)
  {
    var released := if s.running > 0 then s.running - 1 else 0;
    match a
    case TryReserve(t) =>
      if s.running < MAX_CONCURRENT_JOBS then Registry(s.running + 1, s.holders + {t}) else s
    case ReleaseOwn(t) => Registry(released, s.holders - {t})
    case Stray => s.(running := released)
  }

  predicate Exact(s: Registry) { s.running == |s.holders| <= MAX_CONCURRENT_JOBS }

  /** The counter; `holders` are the callers that hold a slot. */
  class BackgroundJobRegistry {
    var running: nat
    ghost var holders: set<nat>

    ghost function Value(): Registry
      reads this
    {
      Registry(running, holders)
    }

    constructor ()
      ensures Value() == Registry(0, {})
    {
      running, holders := 0, {};
    }

    /** `fetch_update` with an increment below the limit. */
    method TryReserve(ghost t: nat) returns (ok: bool)
      requires t !in holders
      modifies this
      ensures Value() == RegStep(old(Value()), RegAct.TryReserve(t)) && (ok <==> t in holders)
      ensures Exact(old(Value())) ==> Exact(Value()) && (ok <==> old(|holders|) < 16)
    {
      ok := running < MAX_CONCURRENT_JOBS;
      if ok { running, holders := running + 1, holders + {t}; }
    }

    /** `fetch_update` with `checked_sub`: at zero nothing happens. */
    method Release(ghost t: nat)
      modifies this
      ensures Value() == RegStep(old(Value()), if t in old(holders) then ReleaseOwn(t) else Stray)
      ensures t in old(holders) && Exact(old(Value())) ==> Exact(Value())
    {
      if running > 0 { running := running - 1; }
      holders := holders - {t};
    }
  }

  predicate RegIsRun(s: Registry, acts: seq<RegAct>)
    decreases |acts|
  {
    acts == [] || (RegEnabled(s, acts[0]) && RegIsRun(RegStep(s, acts[0]), acts[1..]))
  }

  function RegRun(s: Registry, acts: seq<RegAct>): Registry
    requires RegIsRun(s, acts)
    decreases |acts|
  {
    if acts == [] then s else RegRun(RegStep(s, acts[0]), acts[1..])
  }

  lemma {:induction false} RegInvRun(s: Registry, acts: seq<RegAct>)
    requires RegIsRun(s, acts) && Exact(s)
    requires forall k :: 0 <= k < |acts| ==> !acts[k].Stray?
    ensures Exact(RegRun(s, acts))
    decreases |acts|
  {
    if acts != [] {
      assert !acts[0].Stray?;
      assert forall k :: 0 <= k < |acts[1..]| ==> acts[1..][k] == acts[k + 1];
      RegInvRun(RegStep(s, acts[0]), acts[1..]);
    }
  }

  /** While every release matches a reservation the counter is the number of holders, and a request
      is refused only when all sixteen slots are taken. */
  lemma RegistryIsExact(acts: seq<RegAct>)
    requires RegIsRun(Registry(0, {}), acts)
    requires forall k :: 0 <= k < |acts| ==> !acts[k].Stray?
    ensures var s := RegRun(Registry(0, {}), acts);
      && s.running == |s.holders| <= 16
      && (s.running >= MAX_CONCURRENT_JOBS <==> |s.holders| == 16)
  {
    RegInvRun(Registry(0, {}), acts);
  }

  lemma {:induction false} RunNeverExceeds(s: Registry, acts: seq<RegAct>)
    requires RegIsRun(s, acts) && s.running <= |s.holders| && s.running <= MAX_CONCURRENT_JOBS
    ensures var s' := RegRun(s, acts); s'.running <= |s'.holders| && s'.running <= MAX_CONCURRENT_JOBS
    decreases |acts|
  {
    if acts != [] { RunNeverExceeds(RegStep(s, acts[0]), acts[1..]); }
  }

  /** Whatever releases come, the counter never wraps and never blocks a request while a slot is
      free: a stray release can only make it count too few. */
  lemma StrayReleasesOnlyUndercount(acts: seq<RegAct>)
    requires RegIsRun(Registry(0, {}), acts)
    ensures var s := RegRun(Registry(0, {}), acts);
      && s.running <= |s.holders|
      && (s.running >= MAX_CONCURRENT_JOBS ==> |s.holders| >= 16)
  {
    RunNeverExceeds(Registry(0, {}), acts);
  }
}
