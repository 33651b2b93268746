/** The session run of the command line. */
module SessionLoop {
  import opened Common

  /** What the world answers when a step is reached. `local` is the executor's answer to a local
      run, `rpc` the daemon's to a dispatched one. */
  datatype Step = Step(
    late: bool, guardOk: bool, blocked: bool, slotFree: bool, daemonUp: bool, rpc: Answer, known: bool, local: Answer)

  /** An error, or a result that may report failure. */
  datatype Answer = Error | Ran(success: bool)

  datatype Status = Completed | Terminated

  /** How the run ends: `attempted` steps were reached, `status` is what is written to the session
      file (nothing when the function returns early), `slots` how many slots are still held. */
  datatype Outcome = Outcome(attempted: nat, executed: nat, hadFailure: bool, status: Option<Status>, slots: int)

  /** What a step amounts to. */
  datatype Kind = OutOfTime | Refused | Executed(success: bool) | Escapes

  function KindOf(s: Step, viaDaemon: bool): Kind {
    if s.late then OutOfTime
    else if !s.guardOk || s.blocked || !s.slotFree then Refused
    else if viaDaemon then
      if !s.daemonUp then Refused else Executed(s.rpc.Ran? && s.rpc.success)
    else if !s.known then Refused
    else if s.local.Error? then Escapes
    else Executed(s.local.success)
  }

  predicate Fails(k: Kind) { k != Executed(true) }

  /** The kinds after which no further step is reached. */
  predicate Ends(k: Kind, stop: bool) { k.OutOfTime? || k.Escapes? || (stop && Fails(k)) }

  function CountExecuted(steps: seq<Step>, viaDaemon: bool): nat {
    if steps == [] then 0
    else
      CountExecuted(steps[..|steps| - 1], viaDaemon)
      + if KindOf(steps[|steps| - 1], viaDaemon).Executed? then 1 else 0
  }

  predicate Uneventful(steps: seq<Step>, viaDaemon: bool, stop: bool, n: nat)
    requires n <= |steps|
  {
    forall i :: 0 <= i < n ==> !Ends(KindOf(steps[i], viaDaemon), stop)
  }

  predicate Reached(steps: seq<Step>, viaDaemon: bool, n: nat, k: Kind)
    requires n <= |steps|
  {
    exists i :: 0 <= i < n && KindOf(steps[i], viaDaemon) == k
  }

  predicate AnyFailed(steps: seq<Step>, viaDaemon: bool, n: nat)
    requires n <= |steps|
  {
    exists i :: 0 <= i < n && Fails(KindOf(steps[i], viaDaemon))
  }

  /** Exactly the steps up to the first ending one are reached; a slot stays taken and no status is
      written if and only if a local executor error was reached. */
  predicate RunOutcome(steps: seq<Step>, viaDaemon: bool, stop: bool, o: Outcome) {
    && o.attempted <= |steps|
    && Uneventful(steps, viaDaemon, stop, if o.attempted == 0 then 0 else o.attempted - 1)
    && (o.attempted < |steps| ==> o.attempted > 0 && Ends(KindOf(steps[o.attempted - 1], viaDaemon), stop))
    && o.executed == CountExecuted(steps[..o.attempted], viaDaemon)
    && (o.hadFailure <==> AnyFailed(steps, viaDaemon, o.attempted))
    && o.slots == (if Reached(steps, viaDaemon, o.attempted, Escapes) then 1 else 0)
    && o.status == if Reached(steps, viaDaemon, o.attempted, Escapes) then None
                   else if Reached(steps, viaDaemon, o.attempted, OutOfTime) || (stop && o.hadFailure)
                   then Some(Terminated)
                   else Some(Completed)
  }

  method RunSession(steps: seq<Step>, viaDaemon: bool, stop: bool) returns (o: Outcome)
    ensures RunOutcome(steps, viaDaemon, stop, o)
  {
    var executed, hadFailure, terminated, slots := 0, false, false, 0;
    var idx := 0;
    while idx < |steps|
      invariant 0 <= idx <= |steps| && slots == 0 && !terminated
      invariant Uneventful(steps, viaDaemon, stop, idx)
      invariant executed == CountExecuted(steps[..idx], viaDaemon)
      invariant hadFailure <==> AnyFailed(steps, viaDaemon, idx)
    {
      var step := steps[idx];
      idx := idx + 1;
      assert steps[..idx][..idx - 1] == steps[..idx - 1];
      ghost var kind := KindOf(step, viaDaemon);
      if step.late {
        hadFailure, terminated := true, true;
        break;
      }
      if !step.guardOk {
        hadFailure := true;
        if stop { terminated := true; break; } else { continue; }
      }
      if step.blocked {
        hadFailure := true;
        if stop { terminated := true; break; } else { continue; }
      }
      if !step.slotFree {
        hadFailure := true;
        if stop { terminated := true; break; } else { continue; }
      }
      slots := slots + 1;
      var result: Answer;
      if viaDaemon {
        if !step.daemonUp {
          slots := slots - 1;
          hadFailure := true;
          if stop { terminated := true; break; } else { continue; }
        }
        result := step.rpc;
      } else {
        if !step.known {
          slots := slots - 1;
          hadFailure := true;
          if stop { terminated := true; break; } else { continue; }
        }
        if step.local.Error? {
          // the error leaves the whole command
          assert kind.Escapes?;
          return Outcome(idx, executed, true, None, slots);
        }
        result := step.local;
      }
      slots := slots - 1;
      executed := executed + 1;
      if result.Error? || !result.success {
        hadFailure := true;
        if stop { terminated := true; break; }
      }
    }
    var status := if terminated || (hadFailure && stop) then Terminated else Completed;
    o := Outcome(idx, executed, hadFailure, Some(status), slots);
  }

  // ---------- what a step amounts to ----------

  predicate Succeeds(s: Step, viaDaemon: bool) {
    && !s.late && s.guardOk && !s.blocked && s.slotFree
    && if viaDaemon then s.daemonUp && s.rpc == Ran(true) else s.known && s.local == Ran(true)
  }

  /** A step succeeds only in time, past the guard and the filter, with a slot, and when the answer of
      the daemon or of a known local capability is a successful result; a result that reports failure
      still counts as executed. */
  lemma StepSucceedsIff(s: Step, viaDaemon: bool)
    ensures KindOf(s, viaDaemon) == Executed(true) <==> Succeeds(s, viaDaemon)
    ensures KindOf(s, viaDaemon) == OutOfTime <==> s.late
    ensures KindOf(s, viaDaemon) == Escapes <==>
      !s.late && s.guardOk && !s.blocked && s.slotFree && !viaDaemon && s.known && s.local == Error
    ensures KindOf(s, viaDaemon) == Executed(false) <==>
      && !s.late && s.guardOk && !s.blocked && s.slotFree
      && (if viaDaemon then s.daemonUp && s.rpc != Ran(true) else s.known && s.local == Ran(false))
  {
  }

  /** A run reports no failure exactly when every step succeeded, and then it reached all of them. */
  lemma CleanRunIff(steps: seq<Step>, viaDaemon: bool, stop: bool, o: Outcome)
    requires RunOutcome(steps, viaDaemon, stop, o)
    ensures !o.hadFailure <==> forall i :: 0 <= i < |steps| ==> Succeeds(steps[i], viaDaemon)
    ensures !o.hadFailure ==> o.attempted == |steps| == o.executed && o.status == Some(Completed) && o.slots == 0
  {
    forall i | 0 <= i < |steps| ensures Fails(KindOf(steps[i], viaDaemon)) <==> !Succeeds(steps[i], viaDaemon) {
      StepSucceedsIff(steps[i], viaDaemon);
    }
    if !o.hadFailure {
      assert o.attempted < |steps| ==> Fails(KindOf(steps[o.attempted - 1], viaDaemon));
      AllExecuted(steps, viaDaemon, |steps|);
      assert steps[..|steps|] == steps;
    }
  }

  lemma {:induction false} AllExecuted(steps: seq<Step>, viaDaemon: bool, n: nat)
    requires n <= |steps| && forall i :: 0 <= i < n ==> !Fails(KindOf(steps[i], viaDaemon))
    ensures CountExecuted(steps[..n], viaDaemon) == n
  {
    if n > 0 {
      AllExecuted(steps, viaDaemon, n - 1);
      assert steps[..n][..n - 1] == steps[..n - 1];
    }
  }

  // ---------- the two policies ----------

  predicate FirstFailure(steps: seq<Step>, viaDaemon: bool, k: nat) {
    k < |steps| && Fails(KindOf(steps[k], viaDaemon)) && forall i :: 0 <= i < k ==> !Fails(KindOf(steps[i], viaDaemon))
  }

  /** Under `stop` the run ends with the first failing step; the saved status is Terminated if and
      only if there is one, unless that step is a local executor error: then nothing is saved and
      its slot stays taken. */
  lemma StopPolicy(steps: seq<Step>, viaDaemon: bool, o: Outcome)
    requires RunOutcome(steps, viaDaemon, true, o)
    ensures !AnyFailed(steps, viaDaemon, |steps|) ==>
      o.attempted == |steps| && o.status == Some(Completed) && o.slots == 0
    ensures forall k: nat :: FirstFailure(steps, viaDaemon, k) ==>
      && o.attempted == k + 1
      && (KindOf(steps[k], viaDaemon).Escapes? ==> o.status == None && o.slots == 1)
      && (!KindOf(steps[k], viaDaemon).Escapes? ==> o.status == Some(Terminated) && o.slots == 0)
  {
    forall k: nat | FirstFailure(steps, viaDaemon, k)
      ensures o.attempted == k + 1
      ensures KindOf(steps[k], viaDaemon).Escapes? ==> Reached(steps, viaDaemon, o.attempted, Escapes)
      ensures !KindOf(steps[k], viaDaemon).Escapes? ==> !Reached(steps, viaDaemon, o.attempted, Escapes) && o.hadFailure
    {
      var kind := KindOf(steps[k], viaDaemon);
      assert Ends(kind, true);
      assert o.attempted > k + 1 ==> !Ends(kind, true);
    }
  }

  /** Under `continue` every step is reached unless one runs out of time or a local executor error
      escapes; a run whose steps merely fail is saved as Completed. */
  lemma ContinuePolicy(steps: seq<Step>, viaDaemon: bool, o: Outcome)
    requires RunOutcome(steps, viaDaemon, false, o)
    ensures o.attempted == |steps| || KindOf(steps[o.attempted - 1], viaDaemon).OutOfTime?
        || KindOf(steps[o.attempted - 1], viaDaemon).Escapes?
    ensures o.status == Some(Terminated) <==> o.attempted > 0 && KindOf(steps[o.attempted - 1], viaDaemon).OutOfTime?
    ensures o.status == None <==> o.attempted > 0 && KindOf(steps[o.attempted - 1], viaDaemon).Escapes?
    ensures o.status == None <==> o.slots == 1
  {
    forall i | 0 <= i < o.attempted - 1
      ensures !KindOf(steps[i], viaDaemon).OutOfTime? && !KindOf(steps[i], viaDaemon).Escapes?
    {
      assert !Ends(KindOf(steps[i], viaDaemon), false);
    }
    if o.attempted > 0 {
      var last := o.attempted - 1;
      assert KindOf(steps[last], viaDaemon).Escapes? ==> Reached(steps, viaDaemon, o.attempted, Escapes);
      assert KindOf(steps[last], viaDaemon).OutOfTime? ==> Reached(steps, viaDaemon, o.attempted, OutOfTime);
    }
  }
}
