/** What a job does, told from its inputs alone. */
module ExecutorPlan {
  import opened Common
  import opened Safety
  import opened Executor
  import opened ExecutorRuns

  /** A line a job is to write; after a hard one that is not acknowledged the job ends with a log error. */
  datatype Line = Line(entry: Entry, hard: bool)

  predicate Admitted(i: Inputs) {
    && i.guardOk && i.zombies <= 10 && i.argsSize.Some? && i.argsSize.value <= 1048576 && i.timeout > 0
    && !VerdictFor(i).Unassessable?
  }

  /** The verdict on an admitted job. */
  function Ruling(i: Inputs): Disposition
    requires Admitted(i)
  {
    DispositionOf(VerdictFor(i))
  }

  function Found(found: seq<Option<nat>>): seq<Line> {
    if found == [] then []
    else (if found[0].Some? then [Line(Backup(found[0].value), false)] else []) + Found(found[1..])
  }

  function AfterSuccess(i: Inputs): seq<Line> {
    if i.serializes then [Line(Completed, true)] + if i.shellInDebug then [Line(Command, false)] else [] else []
  }

  function WhenRun(i: Inputs): seq<Line> {
    if !i.runs then Found(i.found) + [Line(Failed, false)]
    else (if i.reported.Some? then [Line(Backup(i.reported.value), true)] else []) + AfterSuccess(i)
  }

  function AfterStart(i: Inputs): seq<Line> {
    if i.guardOk && i.zombies <= 10 && i.argsSize.None? then []
    else if !Admitted(i) then [Line(Failed, false)]
    else [Line(Evaluated(Ruling(i)), true)] + if Permits(Ruling(i)) then WhenRun(i) else [Line(Failed, false)]
  }

  /** Every line of a job whose appends are acknowledged. */
  function Plan(i: Inputs): seq<Line> { [Line(Started, true)] + AfterStart(i) }

  /** What such a job returns. */
  function Outcome(i: Inputs): Result {
    if !i.guardOk || i.zombies > 10 then Err(ResourceLimitExceeded)
    else if i.argsSize.None? then Err(ExecutionFailed)
    else if i.argsSize.value > 1048576 then Err(ResourceLimitExceeded)
    else if i.timeout == 0 then Err(ExecutionFailed)
    else if VerdictFor(i).Unassessable? then Err(SafetyAnalysisFailed)
    else if !Permits(Ruling(i)) then Err(BlockError(Ruling(i)))
    else if !i.runs then Returned(false)
    else if !i.serializes then Err(WalError)
    else Returned(i.statusOk)
  }

  /** The appends a job has tried, and how each of them ended. */
  function Tries(ins: nat -> Inputs, acts: seq<Act>, j: nat): seq<(Entry, Io)> {
    if acts == [] then []
    else
      var s, a := SysRun(ins, acts[..|acts| - 1]), acts[|acts| - 1];
      var e := Attempt(ins(j), PcOf(s, j));
      Tries(ins, acts[..|acts| - 1], j) + if a.job == j && e.Some? then [(e.value, a.io)] else []
  }

  /** What is left of the plan. */
  function Rest(i: Inputs, pc: Pc): seq<Line> {
    match pc
    case Create => Plan(i)
    case Start => Plan(i)
    case Refuse(_) => [Line(Failed, false)]
    case Evaluate => AfterStart(i)
    case Block(_) => [Line(Failed, false)]
    case Execute => WhenRun(i)
    case Audit(k) => if k < |i.found| then Found(i.found[k..]) + [Line(Failed, false)] else []
    case Fail => [Line(Failed, false)]
    case Report => WhenRun(i)
    case Complete => AfterSuccess(i)
    case Dev => [Line(Command, false)]
    case Done(_) => []
  }

  /** What holds of the inputs where a job stands; `ran` tells whether its capability has run. */
  predicate Stands(i: Inputs, pc: Pc, ran: bool) {
    match pc
    case Create => !ran
    case Start => !ran
    case Refuse(e) => !ran && !Admitted(i) && Outcome(i) == Err(e) && AfterStart(i) == [Line(Failed, false)]
    case Evaluate => !ran && Admitted(i)
    case Block(d) => !ran && Admitted(i) && d == Ruling(i) && !Permits(d)
    case Execute => !ran && Admitted(i) && Permits(Ruling(i))
    case Audit(k) => ran && MayRun(i) && !i.runs && k < |i.found| && i.found[k].Some?
    case Fail => ran && MayRun(i) && !i.runs
    case Report => ran && MayRun(i) && i.runs && i.reported.Some?
    case Complete => ran && MayRun(i) && i.runs && i.serializes
    case Dev => ran && MayRun(i) && i.runs && i.serializes && i.shellInDebug
    case Done(_) => ran ==> MayRun(i)
  }

  predicate MayRun(i: Inputs) { Admitted(i) && Permits(Ruling(i)) }

  lemma {:induction false} AuditRest(i: Inputs, k: nat)
    requires MayRun(i) && !i.runs && k <= |i.found|
    ensures Rest(i, NextAudit(i, k)) == Found(i.found[k..]) + [Line(Failed, false)]
    ensures Stands(i, NextAudit(i, k), true)
    decreases |i.found| - k
  {
    if k < |i.found| && i.found[k].None? {
      AuditRest(i, k + 1);
      assert i.found[k..][1..] == i.found[k + 1..];
    }
  }

  /** A step that appends nothing leaves the rest of the plan as it is. */
  lemma SilentStep(i: Inputs, pc: Pc, ran: bool, acked: bool)
    requires Stands(i, pc, ran) && Attempt(i, pc).None? && (acked || pc.Create?)
    ensures var pc' := After(i, pc, acked);
      && Stands(i, pc', ran || pc.Execute?)
      && (acked ==> Rest(i, pc') == Rest(i, pc))
      && (!acked ==> pc' == Done(Err(WalError)))
      && (acked && pc'.Done? ==> pc' == pc || (pc' == Done(Outcome(i)) && (ran || pc.Execute? <==> MayRun(i))))
  {
    if pc.Execute? && !i.runs {
      AuditRest(i, 0);
      assert i.found[0..] == i.found;
    }
  }

  /** A step that appends tries the next line of the plan. */
  lemma LineStep(i: Inputs, pc: Pc, ran: bool, acked: bool)
    requires Stands(i, pc, ran) && Attempt(i, pc).Some?
    ensures Rest(i, pc) != [] && Rest(i, pc)[0].entry == Attempt(i, pc).value
    ensures var pc' := After(i, pc, acked);
      && Stands(i, pc', ran)
      && (acked || !Rest(i, pc)[0].hard ==>
            && Rest(i, pc') == Rest(i, pc)[1..]
            && (pc'.Done? ==> pc' == Done(Outcome(i)) && (ran <==> MayRun(i))))
      && (!acked && Rest(i, pc)[0].hard ==> pc' == Done(Err(WalError)))
  {
    if pc.Audit? {
      AuditRest(i, pc.k + 1);
      assert i.found[pc.k..][1..] == i.found[pc.k + 1..];
    }
    if pc.Refuse? || pc.Block? || pc.Fail? || pc.Dev? { assert Rest(i, pc)[1..] == []; }
  }

  // ---------- over runs ----------

  /** Every try was the next line of the plan, and no hard one failed. */
  predicate OnPlan(plan: seq<Line>, ts: seq<(Entry, Io)>) {
    && |ts| <= |plan|
    && forall k :: 0 <= k < |ts| ==> ts[k].0 == plan[k].entry && (plan[k].hard ==> ts[k].1.Ok?)
  }

  /** The last append tried was a hard one and failed, or the log could not be opened at all. */
  predicate Stopped(plan: seq<Line>, ts: seq<(Entry, Io)>)
    requires |ts| <= |plan|
  {
    ts == [] || (plan[|ts| - 1].hard && !ts[|ts| - 1].1.Ok?)
  }

  /** Every try but the last went as planned; the last stopped the job. */
  predicate WasStopped(plan: seq<Line>, ts: seq<(Entry, Io)>) {
    |ts| <= |plan| && Stopped(plan, ts)
    && (ts != [] ==> OnPlan(plan, ts[..|ts| - 1]) && ts[|ts| - 1].0 == plan[|ts| - 1].entry)
  }

  predicate Going(plan: seq<Line>, rest: seq<Line>, ts: seq<(Entry, Io)>) { OnPlan(plan, ts) && plan[|ts|..] == rest }

  /** The job is where its plan says, or a hard line, or the opening of the log, has just failed. */
  predicate Keeps(i: Inputs, pc: Pc, ran: bool, ts: seq<(Entry, Io)>) {
    && Stands(i, pc, ran)
    && ((pc == Done(Err(WalError)) && WasStopped(Plan(i), ts))
        || (Going(Plan(i), Rest(i, pc), ts)
            && (pc.Create? ==> ts == []) && (pc.Done? ==> pc == Done(Outcome(i)) && (ran <==> MayRun(i)))))
  }

  lemma NextTry(plan: seq<Line>, rest: seq<Line>, ts: seq<(Entry, Io)>, io: Io)
    requires Going(plan, rest, ts) && rest != []
    ensures var more := ts + [(rest[0].entry, io)];
      if rest[0].hard && !io.Ok? then WasStopped(plan, more) else Going(plan, rest[1..], more)
  {
    var more := ts + [(rest[0].entry, io)];
    assert rest[0] == plan[|ts|] && more[..|ts|] == ts && more[|ts|] == (rest[0].entry, io);
    assert forall k :: 0 <= k < |ts| ==> more[k] == ts[k];
  }

  lemma KeepsSilent(i: Inputs, pc: Pc, ran: bool, ts: seq<(Entry, Io)>, acked: bool)
    requires Keeps(i, pc, ran, ts) && Attempt(i, pc).None? && (acked || pc.Create?)
    ensures Keeps(i, After(i, pc, acked), ran || pc.Execute?, ts)
  {
    SilentStep(i, pc, ran, acked);
  }

  lemma KeepsLine(i: Inputs, pc: Pc, ran: bool, ts: seq<(Entry, Io)>, io: Io)
    requires Keeps(i, pc, ran, ts) && Attempt(i, pc).Some?
    ensures Keeps(i, After(i, pc, io.Ok?), ran, ts + [(Attempt(i, pc).value, io)])
  {
    LineStep(i, pc, ran, io.Ok?);
    NextTry(Plan(i), Rest(i, pc), ts, io);
    assert !pc.Create? && !After(i, pc, io.Ok?).Create?;
  }

  lemma {:induction false} KeepsRun(ins: nat -> Inputs, acts: seq<Act>, j: nat)
    ensures var s := SysRun(ins, acts); Keeps(ins(j), PcOf(s, j), j in s.ranAt, Tries(ins, acts, j))
  {
    if acts != [] {
      var s, a := SysRun(ins, acts[..|acts| - 1]), acts[|acts| - 1];
      var ts := Tries(ins, acts[..|acts| - 1], j);
      KeepsRun(ins, acts[..|acts| - 1], j);
      assert ts + [] == ts;
      if a.job != j {
        OthersPlace(ins, s, a, j);
      } else {
        OwnPlace(ins, s, a);
        var pc := PcOf(s, j);
        if Attempt(ins(j), pc).Some? {
          KeepsLine(ins(j), pc, j in s.ranAt, ts, a.io);
        } else {
          KeepsSilent(ins(j), pc, j in s.ranAt, ts, if pc.Create? then a.io.Ok? else true);
        }
      }
    } else {
      assert Plan(ins(j))[0..] == Plan(ins(j));
    }
  }

  lemma StoppedTells(plan: seq<Line>, ts: seq<(Entry, Io)>)
    requires WasStopped(plan, ts)
    ensures forall k :: 0 <= k < |ts| ==> ts[k].0 == plan[k].entry
    ensures forall k :: 0 <= k < |ts| - 1 && plan[k].hard ==> ts[k].1.Ok?
  {
    if ts != [] {
      var init := ts[..|ts| - 1];
      assert forall k :: 0 <= k < |init| ==> ts[k] == init[k];
    }
  }

  lemma FinishedTells(plan: seq<Line>, ts: seq<(Entry, Io)>)
    requires Going(plan, [], ts) && plan != []
    ensures |ts| == |plan| && !Stopped(plan, ts)
  {
    assert |plan[|ts|..]| == |plan| - |ts|;
  }

  /** For any number of interleaved jobs and any failing appends: a job tries the lines of its plan one
      after the other; a hard line that is not acknowledged is the last one tried and ends the job with a
      log error, every other failure is passed over; and a job that is done and was not stopped so has
      tried the whole plan, returns what its inputs determine, and ran if and only if it may run. */
  lemma JobsKeepToTheirPlan(ins: nat -> Inputs, acts: seq<Act>, j: nat)
    ensures var i, ts, s := ins(j), Tries(ins, acts, j), SysRun(ins, acts);
      && |ts| <= |Plan(i)| && (forall k :: 0 <= k < |ts| ==> ts[k].0 == Plan(i)[k].entry)
      && (forall k :: 0 <= k < |ts| - 1 && Plan(i)[k].hard ==> ts[k].1.Ok?)
      && forall r :: PcOf(s, j) == Done(r) ==>
           if Stopped(Plan(i), ts) then r == Err(WalError)
           else r == Outcome(i) && |ts| == |Plan(i)| && (j in s.ranAt <==> MayRun(i))
  {
    KeepsRun(ins, acts, j);
    var plan, ts, pc := Plan(ins(j)), Tries(ins, acts, j), PcOf(SysRun(ins, acts), j);
    assert plan[0] == Line(Started, true);
    if WasStopped(plan, ts) {
      StoppedTells(plan, ts);
    } else if pc.Done? {
      FinishedTells(plan, ts);
    }
  }

  /** Whatever fails: a capability runs only for a job that the guard admits, with at most ten zombies,
      arguments of at most one mebibyte, a positive timeout, and a verdict that allows it, with or
      without a warning. */
  lemma OnlyAdmittedJobsRun(ins: nat -> Inputs, acts: seq<Act>, j: nat)
    requires j in SysRun(ins, acts).ranAt
    ensures var i := ins(j);
      && i.guardOk && i.zombies <= 10 && i.argsSize.Some? && i.argsSize.value <= 1048576 && i.timeout > 0
      && !VerdictFor(i).Unassessable? && DispositionOf(VerdictFor(i)) in {Allow, AllowWithWarning}
  {
    KeepsRun(ins, acts, j);
    assert Stands(ins(j), PcOf(SysRun(ins, acts), j), true);
  }

  /** Whatever fails: what a result or an error other than a log error says about the inputs. */
  lemma ResultsAreHonest(ins: nat -> Inputs, acts: seq<Act>, j: nat, r: Result)
    requires PcOf(SysRun(ins, acts), j) == Done(r) && r != Err(WalError)
    ensures var i := ins(j);
      && (r == Err(ResourceLimitExceeded) <==>
            !i.guardOk || i.zombies > 10 || (i.argsSize.Some? && i.argsSize.value > 1048576))
      && (r == Err(ExecutionFailed) <==>
            i.guardOk && i.zombies <= 10
            && (i.argsSize.None? || (i.argsSize.value <= 1048576 && i.timeout == 0)))
      && (r == Returned(true) <==> MayRun(i) && i.runs && i.serializes && i.statusOk)
      && (r == Returned(false) <==> MayRun(i) && (!i.runs || (i.serializes && !i.statusOk)))
  {
    JobsKeepToTheirPlan(ins, acts, j);
  }

  // ---------- what is written ----------

  /** The entries of the tries whose whole line reached the log. */
  function Landed(ts: seq<(Entry, Io)>): seq<Entry> {
    if ts == [] then []
    else
      var t := ts[|ts| - 1];
      Landed(ts[..|ts| - 1]) + if t.1.Ok? || t.1.Whole? then [t.0] else []
  }

  lemma LandedSnoc(ts: seq<(Entry, Io)>, e: Entry, io: Io)
    ensures Landed(ts + [(e, io)]) == Landed(ts) + if io.Ok? || io.Whole? then [e] else []
  {
    assert (ts + [(e, io)])[..|ts|] == ts;
  }

  lemma {:induction false} WrittenHaveLanded(ins: nat -> Inputs, acts: seq<Act>, j: nat)
    ensures Entries(Written(SysRun(ins, acts), j)) == Landed(Tries(ins, acts, j))
  {
    if acts != [] {
      var s, a := SysRun(ins, acts[..|acts| - 1]), acts[|acts| - 1];
      WrittenHaveLanded(ins, acts[..|acts| - 1], j);
      KeepsRun(ins, acts[..|acts| - 1], j);
      StepAdds(ins, s, a, j);
      var ms := if a.job == j then Adds(ins(j), s, a) else [];
      if ms != [] { MarkSnoc(Written(s, j), ms[0]); } else { assert Written(s, j) + [] == Written(s, j); }
      TriesSnoc(ins, acts, j);
    }
  }

  lemma TriesSnoc(ins: nat -> Inputs, acts: seq<Act>, j: nat)
    requires acts != []
    ensures var s, a := SysRun(ins, acts[..|acts| - 1]), acts[|acts| - 1];
      var ms := if a.job == j then Adds(ins(j), s, a) else [];
      Landed(Tries(ins, acts, j)) == Landed(Tries(ins, acts[..|acts| - 1], j)) + if ms != [] then [ms[0].entry] else []
  {
    var s, a := SysRun(ins, acts[..|acts| - 1]), acts[|acts| - 1];
    var e, ts := Attempt(ins(j), PcOf(s, j)), Tries(ins, acts[..|acts| - 1], j);
    assert ts + [] == ts;
    if a.job == j && e.Some? { LandedSnoc(ts, e.value, a.io); }
  }

  lemma {:induction false} AllLand(ts: seq<(Entry, Io)>)
    requires forall k :: 0 <= k < |ts| ==> ts[k].1.Ok?
    ensures |Landed(ts)| == |ts| && forall k :: 0 <= k < |ts| ==> Landed(ts)[k] == ts[k].0
  {
    if ts != [] {
      AllLand(ts[..|ts| - 1]);
      assert forall k :: 0 <= k < |ts| - 1 ==> ts[k] == ts[..|ts| - 1][k];
    }
  }

  lemma {:induction false} AllTriesAcked(ins: nat -> Inputs, acts: seq<Act>, j: nat)
    requires forall k :: 0 <= k < |acts| && acts[k].job == j ==> acts[k].io.Ok?
    ensures forall k :: 0 <= k < |Tries(ins, acts, j)| ==> Tries(ins, acts, j)[k].1.Ok?
    ensures var pc := PcOf(SysRun(ins, acts), j); pc.Create? || pc.Start? || Tries(ins, acts, j) != []
  {
    if acts != [] {
      var init, a := acts[..|acts| - 1], acts[|acts| - 1];
      assert forall k :: 0 <= k < |init| ==> acts[k] == init[k];
      AllTriesAcked(ins, init, j);
      if a.job == j { OwnPlace(ins, SysRun(ins, init), a); } else { OthersPlace(ins, SysRun(ins, init), a, j); }
    }
  }

  /** A job that is done and all of whose appends were acknowledged, whatever happens to other jobs, has
      written exactly the lines of its plan, has run if and only if it may, and returns its outcome. */
  lemma UndisturbedJobs(ins: nat -> Inputs, acts: seq<Act>, j: nat, r: Result)
    requires forall k :: 0 <= k < |acts| && acts[k].job == j ==> acts[k].io.Ok?
    requires PcOf(SysRun(ins, acts), j) == Done(r)
    ensures var i, s := ins(j), SysRun(ins, acts);
      && r == Outcome(i) && (j in s.ranAt <==> MayRun(i))
      && |Entries(Written(s, j))| == |Plan(i)|
      && forall k :: 0 <= k < |Plan(i)| ==> Entries(Written(s, j))[k] == Plan(i)[k].entry
  {
    JobsKeepToTheirPlan(ins, acts, j);
    AllTriesAcked(ins, acts, j);
    WrittenHaveLanded(ins, acts, j);
    AllLand(Tries(ins, acts, j));
  }
}
