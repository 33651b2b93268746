/** The executor: one job walking through its gates. */
module Executor {
  import opened Common
  import opened Text
  import opened Events
  import opened Safety

  const MAX_ARGS_SIZE := 1048576
  const MAX_ZOMBIES := 10

  /** The job events of the log. `Backup(p)` records the backup `p`. */
  datatype Entry = Started | Evaluated(d: Disposition) | Backup(path: nat) | Completed | Failed | Command

  // ---------- the log ----------

  /** How an append ends: acknowledged, or with an error after nothing, a part or the whole of the
      line was written. */
  datatype Io = Ok | Nothing | Torn | Whole

  /** The events on terminated lines that readers show, and whether the file ends in a piece of a line.
      A last line that lacks only its newline is such a piece, although readers show it too. */
  datatype EventLog<T> = EventLog(entries: seq<T>, torn: bool)

  function Land<T>(l: EventLog<T>, e: T, io: Io): EventLog<T> {
    match io
    case Nothing => l
    case Torn => EventLog(l.entries, true)
    case _ => EventLog(if l.torn then l.entries else l.entries + [e], false)
  }

  /** `create` appends a marker, which no reader shows. */
  function Opened<T>(l: EventLog<T>, io: Io): EventLog<T> {
    match io
    case Nothing => l
    case Torn => EventLog(l.entries, true)
    case _ => EventLog(l.entries, false)
  }

  /** The text-level log that `EventLog` stands for. */
  function Abs(c: Codec, text: string): EventLog<Event> {
    EventLog(Visible(Settled(c, text)), !Blank(Tail(text)))
  }

  /** What of the line reaches the file. */
  predicate WriteOf(c: Codec, e: Event, io: Io, wrote: string) {
    match io
    case Nothing => wrote == ""
    case Torn => exists i :: 0 < i <= |c.render(e)| && wrote == c.render(e)[..i]
    case _ => wrote == Line(c, e)
  }

  /** The event log is what the terminated lines of the file amount to. */
  lemma LandIsWrite(c: Codec, text: string, e: Event, io: Io, wrote: string)
    requires Lawful(c) && WriteOf(c, e, io, wrote)
    ensures Abs(c, text + wrote)
         == if e.kind.WriterInitialized? then Opened(Abs(c, text), io) else Land(Abs(c, text), e, io)
  {
    match io
    case Nothing => assert text + wrote == text;
    case Torn =>
      var i :| 0 < i <= |c.render(e)| && wrote == c.render(e)[..i];
      PartialWrite(c, text, e, i);
      assert !Blank(Tail(text) + wrote) by {
        assert (Tail(text) + wrote)[|Tail(text)|] == c.render(e)[0];
      }
    case _ =>
      CompleteWrite(c, text, e);
      VisibleConcat(Settled(c, text), if Blank(Tail(text)) then [e] else []);
      assert [e][1..] == [];
      assert Visible(Settled(c, text)) + [] == Visible(Settled(c, text));
  }

  class Log {
    var entries: seq<(nat, Entry)>
    var torn: bool

    ghost function Value(): EventLog<(nat, Entry)>
      reads this
    {
      EventLog(entries, torn)
    }

    constructor ()
      ensures Value() == EventLog([], false)
    {
      entries, torn := [], false;
    }

    method Open(io: Io) returns (acked: bool)
      modifies this
      ensures acked == io.Ok? && Value() == Opened(old(Value()), io)
    {
      acked := io.Ok?;
      if io.Torn? { torn := true; }
      if io.Ok? || io.Whole? { torn := false; }
    }

    method Append(job: nat, e: Entry, io: Io) returns (acked: bool)
      modifies this
      ensures acked == io.Ok? && Value() == Land(old(Value()), (job, e), io)
    {
      acked := io.Ok?;
      match io
      case Nothing =>
      case Torn => torn := true;
      case _ =>
        if !torn { entries := entries + [(job, e)]; }
        torn := false;
    }
  }

  // ---------- one job ----------

  datatype Error =
    | WalError | ResourceLimitExceeded | ExecutionFailed | SafetyAnalysisFailed
    | SafetyEscalationRequired | SafetyRejected | SafetyFatal

  datatype Result = Err(error: Error) | Returned(success: bool)

  /** What the world answers to one job: the guard, the process table, the serialized argument size
      (if serialization succeeds), the timeout, the safety inputs, the capability, and what the
      audits find. `found` are the backups located for the keys path, repo_path and dir. */
  datatype Inputs = Inputs(
    guardOk: bool, zombies: nat, argsSize: Option<nat>, timeout: nat,
    fields: seq<Field>, args: Args, assess: Assess,
    runs: bool, statusOk: bool, reported: Option<nat>, serializes: bool, shellInDebug: bool,
    found: seq<Option<nat>>)

  function VerdictFor(i: Inputs): Verdict { VerdictOf(i.fields, i.args, i.assess) }

  function BlockError(d: Disposition): Error {
    match d
    case EscalationRequired => SafetyEscalationRequired
    case Fatal => SafetyFatal
    case _ => SafetyRejected
  }

  /** Where a job stands: what it is about to do. */
  datatype Pc =
    | Create
    | Start
    | Refuse(error: Error)
    | Evaluate
    | Block(d: Disposition)
    | Execute
    | Audit(k: nat)
    | Fail
    | Report
    | Complete
    | Dev
    | Done(result: Result)

  /** The line a step appends. */
  function Attempt(i: Inputs, pc: Pc): Option<Entry> {
    match pc
    case Start => Some(Started)
    case Refuse(_) => Some(Failed)
    case Evaluate => if VerdictFor(i).Unassessable? then None else Some(Evaluated(DispositionOf(VerdictFor(i))))
    case Block(_) => Some(Failed)
    case Audit(k) => if k < |i.found| && i.found[k].Some? then Some(Backup(i.found[k].value)) else None
    case Fail => Some(Failed)
    case Report => if i.reported.Some? then Some(Backup(i.reported.value)) else None
    case Complete => Some(Completed)
    case Dev => Some(Command)
    case _ => None
  }

  function Gates(i: Inputs): Pc {
    if !i.guardOk then Refuse(ResourceLimitExceeded)
    else if i.zombies > MAX_ZOMBIES then Refuse(ResourceLimitExceeded)
    else if i.argsSize.None? then Done(Err(ExecutionFailed))
    else if i.argsSize.value > MAX_ARGS_SIZE then Refuse(ResourceLimitExceeded)
    else if i.timeout == 0 then Refuse(ExecutionFailed)
    else if VerdictFor(i).Unassessable? then Refuse(SafetyAnalysisFailed)
    else Evaluate
  }

  /** The next key under which a backup was located. */
  function NextAudit(i: Inputs, k: nat): Pc
    decreases |i.found| - k
  {
    if k >= |i.found| then Fail else if i.found[k].Some? then Audit(k) else NextAudit(i, k + 1)
  }

  function Finish(i: Inputs): Pc { if i.serializes then Complete else Done(Err(WalError)) }

  /** Where a step leads, given whether its append (if it has one) was acknowledged. */
  function After(i: Inputs, pc: Pc, acked: bool): Pc {
    match pc
    case Create => if acked then Start else Done(Err(WalError))
    case Start => if acked then Gates(i) else Done(Err(WalError))
    case Refuse(e) => Done(Err(e))
    case Evaluate =>
      if !acked || VerdictFor(i).Unassessable? then Done(Err(WalError))
      else if Permits(DispositionOf(VerdictFor(i))) then Execute
      else Block(DispositionOf(VerdictFor(i)))
    case Block(d) => Done(Err(BlockError(d)))
    case Execute => if !i.runs then NextAudit(i, 0) else if i.reported.Some? then Report else Finish(i)
    case Audit(k) => NextAudit(i, k + 1)
    case Fail => Done(Returned(false))
    case Report => if acked then Finish(i) else Done(Err(WalError))
    case Complete => if !acked then Done(Err(WalError)) else if i.shellInDebug then Dev else Done(Returned(i.statusOk))
    case Dev => Done(Returned(i.statusOk))
    case Done(_) => pc
  }

  function Remaining(i: Inputs, pc: Pc): nat {
    match pc
    case Create => |i.found| + 9
    case Start => |i.found| + 8
    case Evaluate => |i.found| + 7
    case Execute => |i.found| + 6
    case Audit(k) => if k < |i.found| then |i.found| - k + 4 else 4
    case Report => 3
    case Complete => 2
    case Done(_) => 0
    case _ => 1
  }

  lemma {:induction false} NextAuditShape(i: Inputs, k: nat)
    ensures var pc := NextAudit(i, k);
      pc == Fail || (pc.Audit? && k <= pc.k < |i.found| && i.found[pc.k].Some?)
    decreases |i.found| - k
  {
    if k < |i.found| && i.found[k].None? { NextAuditShape(i, k + 1); }
  }

  lemma StepsRemain(i: Inputs, pc: Pc, acked: bool)
    requires !pc.Done?
    ensures Remaining(i, After(i, pc, acked)) < Remaining(i, pc)
  {
    NextAuditShape(i, 0);
    if pc.Audit? { NextAuditShape(i, pc.k + 1); }
  }

  /** A job alone on the log from `pc` on; its `n`-th append ends as `io(n)`. */
  function Alone(i: Inputs, job: nat, pc: Pc, l: EventLog<(nat, Entry)>, io: nat -> Io, n: nat)
    : (EventLog<(nat, Entry)>, Result)
    decreases Remaining(i, pc)
  {
    if pc.Done? then (l, pc.result)
    else
      StepsRemain(i, pc, true);
      StepsRemain(i, pc, io(n).Ok?);
      if pc.Create? then Alone(i, job, After(i, pc, io(n).Ok?), Opened(l, io(n)), io, n + 1)
      else
        var e := Attempt(i, pc);
        if e.Some? then Alone(i, job, After(i, pc, io(n).Ok?), Land(l, (job, e.value), io(n)), io, n + 1)
        else Alone(i, job, After(i, pc, true), l, io, n)
  }

  lemma AloneStops(i: Inputs, job: nat, r: Result, l: EventLog<(nat, Entry)>, io: nat -> Io, n: nat)
    ensures Alone(i, job, Done(r), l, io, n) == (l, r)
  {
  }

  /** The log of a best-effort failure, whatever the reason. */
  method LogJobFailed(log: Log, job: nat, io: Io) returns (acked: bool)
    modifies log
    ensures acked == io.Ok? && log.Value() == Land(old(log.Value()), (job, Failed), io)
  {
    acked := log.Append(job, Failed, io);
  }

  /** The audit of a failed execution: a backup found under any of the keys is logged before the
      failure; no failing append stops it. */
  method AuditFailure(log: Log, job: nat, i: Inputs, io: nat -> Io, start: nat)
    modifies log
    ensures (log.Value(), Returned(false)) == Alone(i, job, NextAudit(i, 0), old(log.Value()), io, start)
  {
    var n := start;
    for k := 0 to |i.found|
      invariant Alone(i, job, NextAudit(i, k), log.Value(), io, n)
             == Alone(i, job, NextAudit(i, 0), old(log.Value()), io, start)
    {
      if i.found[k].Some? {
        var _ := log.Append(job, Backup(i.found[k].value), io(n));
        n := n + 1;
      }
    }
    var _ := LogJobFailed(log, job, io(n));
  }

  method ExecuteWithId(log: Log, job: nat, i: Inputs, io: nat -> Io) returns (r: Result)
    modifies log
    ensures (log.Value(), r) == Alone(i, job, Create, old(log.Value()), io, 0)
  {
    var acked := log.Open(io(0));
    if !acked { return Err(WalError); }
    assert Alone(i, job, Create, old(log.Value()), io, 0) == Alone(i, job, Start, log.Value(), io, 1);
    acked := log.Append(job, Started, io(1));
    AloneStops(i, job, Err(WalError), log.Value(), io, 2);
    if !acked { return Err(WalError); }
    assert Alone(i, job, Create, old(log.Value()), io, 0) == Alone(i, job, Gates(i), log.Value(), io, 2);

    if !i.guardOk {
      var _ := LogJobFailed(log, job, io(2));
      return Err(ResourceLimitExceeded);
    }
    if i.zombies > MAX_ZOMBIES {
      var _ := LogJobFailed(log, job, io(2));
      return Err(ResourceLimitExceeded);
    }
    if i.argsSize.None? { return Err(ExecutionFailed); }
    if i.argsSize.value > MAX_ARGS_SIZE {
      var _ := LogJobFailed(log, job, io(2));
      return Err(ResourceLimitExceeded);
    }
    if i.timeout == 0 {
      var _ := LogJobFailed(log, job, io(2));
      return Err(ExecutionFailed);
    }

    var v := Gate(i.fields, i.args, i.assess);
    if v.Unassessable? {
      var _ := LogJobFailed(log, job, io(2));
      return Err(SafetyAnalysisFailed);
    }
    acked := log.Append(job, Evaluated(DispositionOf(v)), io(2));
    AloneStops(i, job, Err(WalError), log.Value(), io, 3);
    if !acked { return Err(WalError); }
    assert Alone(i, job, Create, old(log.Value()), io, 0)
        == Alone(i, job, After(i, Evaluate, true), log.Value(), io, 3);
    if !Permits(DispositionOf(v)) {
      var _ := LogJobFailed(log, job, io(3));
      return Err(BlockError(DispositionOf(v)));
    }

    r := RunCapability(log, job, i, io, 3);
  }

  method RunCapability(log: Log, job: nat, i: Inputs, io: nat -> Io, start: nat) returns (r: Result)
    modifies log
    ensures (log.Value(), r) == Alone(i, job, Execute, old(log.Value()), io, start)
  {
    var acked, n := true, start;
    if !i.runs {
      AuditFailure(log, job, i, io, n);
      return Returned(false);
    }
    if i.reported.Some? {
      acked := log.Append(job, Backup(i.reported.value), io(n));
      n := n + 1;
      AloneStops(i, job, Err(WalError), log.Value(), io, n);
      if !acked { return Err(WalError); }
    }
    if !i.serializes { return Err(WalError); }
    assert Alone(i, job, Execute, old(log.Value()), io, start) == Alone(i, job, Complete, log.Value(), io, n);
    acked := log.Append(job, Completed, io(n));
    n := n + 1;
    AloneStops(i, job, Err(WalError), log.Value(), io, n);
    if !acked { return Err(WalError); }
    assert Alone(i, job, Execute, old(log.Value()), io, start)
        == Alone(i, job, After(i, Complete, true), log.Value(), io, n);
    if i.shellInDebug {
      var _ := log.Append(job, Command, io(n));
      n := n + 1;
    }
    AloneStops(i, job, Returned(i.statusOk), log.Value(), io, n);
    r := Returned(i.statusOk);
  }
}
