/** Any number of jobs on one log whose appends may fail. */
module ExecutorRuns {
  import opened Common
  import opened Safety
  import opened Executor

  /** A line that was written whole: on top of a torn log it is glued to the torn piece, and no
      reader finds it. */
  datatype Mark = Mark(entry: Entry, kept: bool)

  /** `ranAt[j]` is the length of the log when job `j`'s capability ran. `wrote` is the history of
      all lines that were written whole, swallowed ones included. */
  datatype Sys = Sys(
    log: EventLog<(nat, Entry)>, pcs: map<nat, Pc>, ranAt: map<nat, nat>, wrote: seq<(nat, Mark)>)

  const Start0 := Sys(EventLog([], false), map[], map[], [])

  /** Job `job` takes its next step; its append, if it makes one, ends as `io`. */
  datatype Act = Act(job: nat, io: Io)

  function PcOf(s: Sys, j: nat): Pc { if j in s.pcs then s.pcs[j] else Create }

  function SysStep(ins: nat -> Inputs, s: Sys, a: Act): Sys {
    var i, pc := ins(a.job), PcOf(s, a.job);
    if pc.Create? then s.(log := Opened(s.log, a.io), pcs := s.pcs[a.job := After(i, pc, a.io.Ok?)])
    else match Attempt(i, pc)
      case None =>
        s.(pcs := s.pcs[a.job := After(i, pc, true)],
           ranAt := if pc.Execute? then s.ranAt[a.job := |s.log.entries|] else s.ranAt)
      case Some(e) =>
        s.(log := Land(s.log, (a.job, e), a.io), pcs := s.pcs[a.job := After(i, pc, a.io.Ok?)],
           wrote := if a.io.Ok? || a.io.Whole? then s.wrote + [(a.job, Mark(e, !s.log.torn))] else s.wrote)
  }

  function SysRun(ins: nat -> Inputs, acts: seq<Act>): Sys {
    if acts == [] then Start0 else SysStep(ins, SysRun(ins, acts[..|acts| - 1]), acts[|acts| - 1])
  }

  /** What belongs to one job. */
  function Project<T>(es: seq<(nat, T)>, j: nat): seq<T> {
    if es == [] then []
    else Project(es[..|es| - 1], j) + if es[|es| - 1].0 == j then [es[|es| - 1].1] else []
  }

  /** The terminated lines readers find for job `j`, and the lines it wrote whole. */
  function Readable(s: Sys, j: nat): seq<Entry> { Project(s.log.entries, j) }
  function Written(s: Sys, j: nat): seq<Mark> { Project(s.wrote, j) }

  function Entries(ms: seq<Mark>): seq<Entry> {
    if ms == [] then [] else Entries(ms[..|ms| - 1]) + [ms[|ms| - 1].entry]
  }

  function Kept(ms: seq<Mark>): seq<Entry> {
    if ms == [] then []
    else Kept(ms[..|ms| - 1]) + if ms[|ms| - 1].kept then [ms[|ms| - 1].entry] else []
  }

  // ---------- the grammar of one job's lines ----------

  datatype Phase = Fresh | Accepted | Cleared | Blocked | Backed | Succeeded | Ended

  function Delta(q: Phase, e: Entry): Option<Phase> {
    match (q, e)
    case (Fresh, Started) => Some(Accepted)
    case (Accepted, Failed) => Some(Ended)
    case (Accepted, Evaluated(d)) => Some(if Permits(d) then Cleared else Blocked)
    case (Blocked, Failed) => Some(Ended)
    case (Cleared, Backup(_)) => Some(Backed)
    case (Cleared, Completed) => Some(Succeeded)
    case (Cleared, Failed) => Some(Ended)
    case (Backed, Backup(_)) => Some(Backed)
    case (Backed, Completed) => Some(Succeeded)
    case (Backed, Failed) => Some(Ended)
    case (Succeeded, Command) => Some(Ended)
    case _ => None
  }

  function Read(es: seq<Entry>): Option<Phase> {
    if es == [] then Some(Fresh)
    else
      var q := Read(es[..|es| - 1]);
      if q.None? then None else Delta(q.value, es[|es| - 1])
  }

  /** A prefix of: started; then failed; or evaluated, then, if blocked, failed; else backups and
      one terminal line, completed possibly followed by the command record. */
  predicate Legal(es: seq<Entry>) { Read(es).Some? }

  lemma ProjectSnoc<T>(es: seq<(nat, T)>, k: nat, e: T, j: nat)
    ensures Project(es + [(k, e)], j) == Project(es, j) + if k == j then [e] else []
  {
    assert (es + [(k, e)])[..|es|] == es;
  }

  lemma MarkSnoc(ms: seq<Mark>, m: Mark)
    ensures Entries(ms + [m]) == Entries(ms) + [m.entry]
    ensures Kept(ms + [m]) == Kept(ms) + if m.kept then [m.entry] else []
  {
    assert (ms + [m])[..|ms|] == ms;
  }

  lemma {:induction false} MarkOf(ms: seq<Mark>, e: Entry)
    ensures e in Entries(ms) <==> Mark(e, true) in ms || Mark(e, false) in ms
    ensures e in Kept(ms) <==> Mark(e, true) in ms
  {
    if ms != [] {
      var init, last := ms[..|ms| - 1], ms[|ms| - 1];
      assert ms == init + [last];
      MarkOf(init, e);
    }
  }

  /** The line a step writes whole, and whether readers find it. */
  function Adds(i: Inputs, s: Sys, a: Act): seq<Mark> {
    var e := Attempt(i, PcOf(s, a.job));
    if e.Some? && (a.io.Ok? || a.io.Whole?) then [Mark(e.value, !s.log.torn)] else []
  }

  /** What a step does to the two lists. */
  lemma StepLists(ins: nat -> Inputs, s: Sys, a: Act)
    ensures var s', ms := SysStep(ins, s, a), Adds(ins(a.job), s, a);
      && s'.wrote == (if ms == [] then s.wrote else s.wrote + [(a.job, ms[0])])
      && s'.log.entries == if ms == [] || !ms[0].kept then s.log.entries else s.log.entries + [(a.job, ms[0].entry)]
  {
  }

  /** A step adds its own line to its own job, and to no other. */
  lemma StepAdds(ins: nat -> Inputs, s: Sys, a: Act, j: nat)
    ensures var s', ms := SysStep(ins, s, a), if a.job == j then Adds(ins(j), s, a) else [];
      && Written(s', j) == Written(s, j) + ms
      && Readable(s', j) == Readable(s, j) + if ms != [] && ms[0].kept then [ms[0].entry] else []
  {
    StepLists(ins, s, a);
    var ms := Adds(ins(a.job), s, a);
    if ms != [] {
      ProjectSnoc(s.wrote, a.job, ms[0], j);
      ProjectSnoc(s.log.entries, a.job, ms[0].entry, j);
    }
  }

  /** What a step does to its own job's place. */
  lemma OwnPlace(ins: nat -> Inputs, s: Sys, a: Act)
    ensures var i, pc, s' := ins(a.job), PcOf(s, a.job), SysStep(ins, s, a);
      && PcOf(s', a.job) == After(i, pc, if pc.Create? || Attempt(i, pc).Some? then a.io.Ok? else true)
      && (a.job in s'.ranAt <==> a.job in s.ranAt || pc.Execute?)
  {
  }

  lemma OthersPlace(ins: nat -> Inputs, s: Sys, a: Act, j: nat)
    requires a.job != j
    ensures var s' := SysStep(ins, s, a);
      && PcOf(s', j) == PcOf(s, j)
      && (j in s'.ranAt <==> j in s.ranAt) && (j in s.ranAt ==> s'.ranAt[j] == s.ranAt[j])
  {
  }

  /** A step by another job. */
  lemma OthersStep(ins: nat -> Inputs, s: Sys, a: Act, j: nat)
    requires a.job != j
    ensures var s' := SysStep(ins, s, a);
      && PcOf(s', j) == PcOf(s, j) && Written(s', j) == Written(s, j) && Readable(s', j) == Readable(s, j)
      && (j in s'.ranAt <==> j in s.ranAt) && (j in s.ranAt ==> s'.ranAt[j] == s.ranAt[j])
      && s.log.entries <= s'.log.entries
  {
    StepAdds(ins, s, a, j);
    OthersPlace(ins, s, a, j);
    StepLists(ins, s, a);
  }

  // ---------- the evidence for a run ----------

  function Evidence(i: Inputs): seq<Entry>
    requires !VerdictFor(i).Unassessable?
  {
    [Started, Evaluated(DispositionOf(VerdictFor(i)))]
  }

  predicate Allowed(i: Inputs) { !VerdictFor(i).Unassessable? && Permits(DispositionOf(VerdictFor(i))) }

  /** The two evidence lines were written, readable or not. */
  predicate EvidenceWritten(i: Inputs, ms: seq<Mark>)
    requires !VerdictFor(i).Unassessable?
  {
    |ms| >= 2 && ms[0].entry == Started && ms[1].entry == Evaluated(DispositionOf(VerdictFor(i)))
  }

  /** Where a job stands before its capability runs tells what it has written. */
  predicate Evidenced(i: Inputs, pc: Pc, ms: seq<Mark>, ran: bool) {
    match pc
    case Create => ms == [] && !ran
    case Start => ms == [] && !ran
    case Evaluate => |ms| == 1 && ms[0].entry == Started && !VerdictFor(i).Unassessable? && !ran
    case Execute => |ms| == 2 && Allowed(i) && EvidenceWritten(i, ms) && !ran
    case _ => true
  }

  predicate JobEvidenced(i: Inputs, s: Sys, j: nat) { Evidenced(i, PcOf(s, j), Written(s, j), j in s.ranAt) }

  /** What a job whose capability ran had written, and what of it was readable then. */
  predicate RanWithEvidence(i: Inputs, s: Sys, j: nat) {
    j in s.ranAt ==>
      && s.ranAt[j] <= |s.log.entries| && Allowed(i) && EvidenceWritten(i, Written(s, j))
      && Project(s.log.entries[..s.ranAt[j]], j) == Kept(Written(s, j)[..2])
  }

  lemma EvidencedStep(ins: nat -> Inputs, s: Sys, a: Act, j: nat)
    requires JobEvidenced(ins(j), s, j)
    ensures JobEvidenced(ins(j), SysStep(ins, s, a), j)
  {
    if a.job != j {
      OthersStep(ins, s, a, j);
    } else {
      StepAdds(ins, s, a, j);
      OwnPlace(ins, s, a);
      NextEvidenced(ins(j), PcOf(s, j), Written(s, j), j in s.ranAt, a.io, !s.log.torn);
      assert Written(s, j) + [] == Written(s, j);
    }
  }

  lemma NextEvidenced(i: Inputs, pc: Pc, ms: seq<Mark>, ran: bool, io: Io, kept: bool)
    requires Evidenced(i, pc, ms, ran)
    ensures Attempt(i, pc).None? && !pc.Create? ==> Evidenced(i, After(i, pc, true), ms, ran || pc.Execute?)
    ensures pc.Create? ==> Evidenced(i, After(i, pc, io.Ok?), ms, ran)
    ensures var e := Attempt(i, pc);
      var ms' := if io.Ok? || io.Whole? then ms + if e.Some? then [Mark(e.value, kept)] else [] else ms;
      e.Some? ==> Evidenced(i, After(i, pc, io.Ok?), ms', ran)
  {
    NextAuditShape(i, 0);
    if pc.Audit? { NextAuditShape(i, pc.k + 1); }
  }

  lemma RanStep(ins: nat -> Inputs, s: Sys, a: Act, j: nat)
    requires JobEvidenced(ins(j), s, j) && RanWithEvidence(ins(j), s, j) && Readable(s, j) == Kept(Written(s, j))
    ensures RanWithEvidence(ins(j), SysStep(ins, s, a), j)
  {
    var s' := SysStep(ins, s, a);
    StepAdds(ins, s, a, j);
    if j in s.ranAt && (a.job != j || !PcOf(s, j).Execute?) {
      assert s'.log.entries[..s.ranAt[j]] == s.log.entries[..s.ranAt[j]];
      assert Written(s', j)[..2] == Written(s, j)[..2];
    } else if j in s'.ranAt {
      assert s.log.entries[..|s.log.entries|] == s.log.entries;
      assert Written(s, j)[..2] == Written(s, j);
    }
  }

  /** Readers find exactly the lines that were not swallowed. */
  lemma KeptGrows(ms: seq<Mark>, more: seq<Mark>)
    requires |more| <= 1
    ensures Kept(ms + more) == Kept(ms) + if more != [] && more[0].kept then [more[0].entry] else []
  {
    if more == [] {
      assert ms + more == ms && Kept(ms) + [] == Kept(ms);
    } else {
      assert more == [more[0]];
      MarkSnoc(ms, more[0]);
    }
  }

  lemma {:induction false} EvidencedRun(ins: nat -> Inputs, acts: seq<Act>, j: nat)
    ensures var s := SysRun(ins, acts);
      JobEvidenced(ins(j), s, j) && RanWithEvidence(ins(j), s, j) && Readable(s, j) == Kept(Written(s, j))
  {
    if acts != [] {
      var s, a := SysRun(ins, acts[..|acts| - 1]), acts[|acts| - 1];
      EvidencedRun(ins, acts[..|acts| - 1], j);
      EvidencedStep(ins, s, a, j);
      RanStep(ins, s, a, j);
      StepAdds(ins, s, a, j);
      KeptGrows(Written(s, j), if a.job == j then Adds(ins(j), s, a) else []);
    }
  }

  lemma PairKept(ms: seq<Mark>)
    requires |ms| >= 2
    ensures Kept(ms[..2]) == [ms[0].entry, ms[1].entry] <==> ms[0].kept && ms[1].kept
  {
    var one := [ms[0]];
    assert ms[..2] == one + [ms[1]] && one == [] + [ms[0]];
    MarkSnoc(one, ms[1]);
    MarkSnoc([], ms[0]);
  }

  /** Over every interleaving and every pattern of failures: a capability runs only after a
      permitting verdict, and the job's start and that verdict are readable in the log by then if
      and only if neither was written on top of a torn line. */
  lemma EvidenceIsDurableIff(ins: nat -> Inputs, acts: seq<Act>, j: nat)
    requires j in SysRun(ins, acts).ranAt
    ensures var s := SysRun(ins, acts);
      && s.ranAt[j] <= |s.log.entries| && Allowed(ins(j)) && EvidenceWritten(ins(j), Written(s, j))
      && (Project(s.log.entries[..s.ranAt[j]], j) == Evidence(ins(j))
          <==> Written(s, j)[0].kept && Written(s, j)[1].kept)
  {
    EvidencedRun(ins, acts, j);
    PairKept(Written(SysRun(ins, acts), j));
  }

  // ---------- what is written follows the grammar ----------

  predicate Agrees(pc: Pc, q: Phase) {
    match pc
    case Create => q.Fresh?
    case Start => q.Fresh?
    case Refuse(_) => q.Accepted?
    case Evaluate => q.Accepted?
    case Block(_) => q.Blocked?
    case Execute => q.Cleared?
    case Report => q.Cleared?
    case Audit(_) => q.Cleared? || q.Backed?
    case Fail => q.Cleared? || q.Backed?
    case Complete => q.Cleared? || q.Backed?
    case Dev => q.Succeeded?
    case Done(_) => true
  }

  /** `Gates` never skips the evaluation, and an evaluation that is blocked never executes. */
  predicate Consistent(i: Inputs, pc: Pc) {
    && (pc.Evaluate? ==> !VerdictFor(i).Unassessable?)
    && (pc.Block? ==> !Permits(pc.d) && !VerdictFor(i).Unassessable? && pc.d == DispositionOf(VerdictFor(i)))
    && (pc.Audit? ==> pc.k < |i.found| && i.found[pc.k].Some?)
    && (pc.Report? ==> i.reported.Some?)
  }

  /** Verdicts are the job's own, and success comes after a completion. */
  ghost predicate Truthful(i: Inputs, pc: Pc, p: seq<Entry>) {
    && (pc.Dev? || pc == Done(Returned(true)) ==> Completed in p)
    && (forall d :: Evaluated(d) in p ==> !VerdictFor(i).Unassessable? && d == DispositionOf(VerdictFor(i)))
  }

  ghost predicate Grammatical(i: Inputs, s: Sys, j: nat) {
    var p := Entries(Written(s, j));
    && Legal(p) && Agrees(PcOf(s, j), Read(p).value) && Consistent(i, PcOf(s, j)) && Truthful(i, PcOf(s, j), p)
  }

  lemma OwnGrammar(i: Inputs, s: Sys, s': Sys, a: Act)
    requires Grammatical(i, s, a.job) && s' == SysStep(_ => i, s, a)
    ensures Grammatical(i, s', a.job)
  {
    var pc, j := PcOf(s, a.job), a.job;
    var e, p := Attempt(i, pc), Entries(Written(s, j));
    StepAdds(_ => i, s, a, j);
    if e.Some? {
      PcGrammar(i, pc, Read(p).value, a.io);
      TruthfulStep(i, pc, e.value, a.io, p);
      if Adds(i, s, a) != [] {
        MarkSnoc(Written(s, j), Mark(e.value, !s.log.torn));
        assert (p + [e.value])[..|p|] == p;
      } else {
        assert Written(s, j) + [] == Written(s, j);
      }
    } else {
      SilentGrammar(i, pc, Read(p).value, a.io);
      assert Written(s, j) + [] == Written(s, j);
    }
  }

  lemma TruthfulStep(i: Inputs, pc: Pc, e: Entry, io: Io, p: seq<Entry>)
    requires Attempt(i, pc) == Some(e) && Truthful(i, pc, p)
    ensures var pc' := After(i, pc, io.Ok?);
      Truthful(i, pc', p + [e]) && (!io.Ok? ==> Truthful(i, pc', p))
  {
    if pc.Audit? { NextAuditShape(i, pc.k + 1); }
  }

  /** Steps that append nothing: opening the log, running the capability, and being done. */
  lemma SilentGrammar(i: Inputs, pc: Pc, q: Phase, io: Io)
    requires Agrees(pc, q) && Consistent(i, pc) && Attempt(i, pc).None?
    ensures var pc' := After(i, pc, if pc.Create? then io.Ok? else true);
      && Consistent(i, pc') && Agrees(pc', q) && (pc.Create? || pc.Execute? || pc.Done?)
      && !pc'.Dev? && (pc' == Done(Returned(true)) ==> pc' == pc)
  {
    NextAuditShape(i, 0);
  }

  /** What a step appends fits what came before, and what comes next fits the result. */
  lemma PcGrammar(i: Inputs, pc: Pc, q: Phase, io: Io)
    requires Agrees(pc, q) && Consistent(i, pc) && Attempt(i, pc).Some?
    ensures var pc' := After(i, pc, io.Ok?);
      && Consistent(i, pc')
      && (io.Nothing? || io.Torn? ==> Agrees(pc', q))
      && (io.Ok? || io.Whole? ==>
            Delta(q, Attempt(i, pc).value).Some? && Agrees(pc', Delta(q, Attempt(i, pc).value).value))
  {
    if pc.Audit? { NextAuditShape(i, pc.k + 1); }
  }

  lemma GrammarStep(ins: nat -> Inputs, s: Sys, a: Act, j: nat)
    requires Grammatical(ins(j), s, j)
    ensures Grammatical(ins(j), SysStep(ins, s, a), j)
  {
    if a.job == j {
      OwnGrammar(ins(j), s, SysStep(ins, s, a), a);
    } else {
      OthersStep(ins, s, a, j);
    }
  }

  lemma {:induction false} GrammarRun(ins: nat -> Inputs, acts: seq<Act>, j: nat)
    ensures Grammatical(ins(j), SysRun(ins, acts), j)
  {
    if acts != [] {
      GrammarRun(ins, acts[..|acts| - 1], j);
      GrammarStep(ins, SysRun(ins, acts[..|acts| - 1]), acts[|acts| - 1], j);
    }
  }

  // ---------- when what is readable follows it too ----------

  predicate ClearedLost(ms: seq<Mark>) { exists m :: m in ms && !m.kept && m.entry.Evaluated? && Permits(m.entry.d) }
  predicate BackupShown(ms: seq<Mark>) { exists m :: m in ms && m.kept && m.entry.Backup? }

  /** The three ways in which a swallowed line makes the rest illegible: a swallowed start before
      any other line, a swallowed permit before what it permits, and a swallowed completion before
      the command record. */
  predicate Broken(ms: seq<Mark>) {
    || (Mark(Started, false) in ms && Kept(ms) != [])
    || (ClearedLost(ms) && (BackupShown(ms) || Mark(Completed, true) in ms))
    || (Mark(Completed, false) in ms && Mark(Command, true) in ms)
  }

  /** What matters of a list of lines: which ones a reader misses and which it sees. */
  datatype Tally = Tally(
    startLost: bool, clearedLost: bool, blockedLost: bool, doneLost: bool,
    backup: bool, done: bool, command: bool, nothing: bool)

  predicate BlockedLost(ms: seq<Mark>) { exists m :: m in ms && !m.kept && m.entry.Evaluated? && !Permits(m.entry.d) }

  function TallyOf(ms: seq<Mark>): Tally {
    Tally(Mark(Started, false) in ms, ClearedLost(ms), BlockedLost(ms), Mark(Completed, false) in ms,
          BackupShown(ms), Mark(Completed, true) in ms, Mark(Command, true) in ms, Kept(ms) == [])
  }

  function Count(t: Tally, m: Mark): Tally {
    match m.entry
    case Started => t.(startLost := t.startLost || !m.kept, nothing := t.nothing && !m.kept)
    case Evaluated(d) =>
      t.(clearedLost := t.clearedLost || (!m.kept && Permits(d)), nothing := t.nothing && !m.kept,
         blockedLost := t.blockedLost || (!m.kept && !Permits(d)))
    case Backup(_) => t.(backup := t.backup || m.kept, nothing := t.nothing && !m.kept)
    case Completed => t.(done := t.done || m.kept, doneLost := t.doneLost || !m.kept, nothing := t.nothing && !m.kept)
    case Command => t.(command := t.command || m.kept, nothing := t.nothing && !m.kept)
    case Failed => t.(nothing := t.nothing && !m.kept)
  }

  lemma LostSnoc(ms: seq<Mark>, m: Mark)
    ensures ClearedLost(ms + [m]) <==> ClearedLost(ms) || (!m.kept && m.entry.Evaluated? && Permits(m.entry.d))
    ensures BlockedLost(ms + [m]) <==> BlockedLost(ms) || (!m.kept && m.entry.Evaluated? && !Permits(m.entry.d))
  {
    assert forall x :: x in ms ==> x in ms + [m];
    assert m in ms + [m];
  }

  lemma BackupSnoc(ms: seq<Mark>, m: Mark)
    ensures BackupShown(ms + [m]) <==> BackupShown(ms) || (m.kept && m.entry.Backup?)
  {
    assert forall x :: x in ms ==> x in ms + [m];
    assert m in ms + [m];
  }

  lemma MemberSnoc(ms: seq<Mark>, m: Mark, x: Mark)
    ensures x in ms + [m] <==> x in ms || x == m
  {
  }

  lemma NothingSnoc(ms: seq<Mark>, m: Mark)
    ensures Kept(ms + [m]) == [] <==> Kept(ms) == [] && !m.kept
  {
    MarkSnoc(ms, m);
  }

  lemma TallySnoc(ms: seq<Mark>, m: Mark)
    ensures TallyOf(ms + [m]) == Count(TallyOf(ms), m)
  {
    NothingSnoc(ms, m);
    LostSnoc(ms, m);
    BackupSnoc(ms, m);
    MemberSnoc(ms, m, Mark(Started, false));
    MemberSnoc(ms, m, Mark(Completed, false));
    MemberSnoc(ms, m, Mark(Completed, true));
    MemberSnoc(ms, m, Mark(Command, true));
    TallyFields(TallyOf(ms), TallyOf(ms + [m]), m);
  }

  lemma TallyFields(t: Tally, t': Tally, m: Mark)
    requires t'.startLost == (t.startLost || m == Mark(Started, false))
    requires t'.clearedLost == (t.clearedLost || (!m.kept && m.entry.Evaluated? && Permits(m.entry.d)))
    requires t'.blockedLost == (t.blockedLost || (!m.kept && m.entry.Evaluated? && !Permits(m.entry.d)))
    requires t'.doneLost == (t.doneLost || m == Mark(Completed, false))
    requires t'.backup == (t.backup || (m.kept && m.entry.Backup?))
    requires t'.done == (t.done || m == Mark(Completed, true))
    requires t'.command == (t.command || m == Mark(Command, true))
    requires t'.nothing == (t.nothing && !m.kept)
    ensures t' == Count(t, m)
  {
  }

  lemma ReadSnoc(p: seq<Entry>, e: Entry)
    ensures Read(p + [e]) == if Read(p).None? then None else Delta(Read(p).value, e)
  {
    assert (p + [e])[..|p|] == p;
  }

  /** What a tally can be when all lines together lead to `q`. */
  predicate Fits(q: Phase, t: Tally) {
    match q
    case Fresh => t == Tally(false, false, false, false, false, false, false, true)
    case Accepted => t == Tally(t.startLost, false, false, false, false, false, false, t.startLost)
    case Blocked =>
      t == Tally(t.startLost, false, t.blockedLost, false, false, false, false, t.startLost && t.blockedLost)
    case Cleared =>
      t == Tally(t.startLost, t.clearedLost, false, false, false, false, false, t.startLost && t.clearedLost)
    case Backed =>
      && t == Tally(t.startLost, t.clearedLost, false, false, t.backup, false, false, t.nothing)
      && (t.nothing <==> t.startLost && t.clearedLost && !t.backup)
    case Succeeded =>
      && t == Tally(t.startLost, t.clearedLost, false, t.doneLost, t.backup, !t.doneLost, false, t.nothing)
      && (t.nothing <==> t.startLost && t.clearedLost && !t.backup && t.doneLost)
    case Ended => true
  }

  predicate BrokenTally(t: Tally) {
    (t.startLost && !t.nothing) || (t.clearedLost && (t.backup || t.done)) || (t.doneLost && t.command)
  }

  /** How far a reader gets with the lines that were kept when all lines lead to `q`. */
  predicate Reached(q: Phase, t: Tally, k: Option<Phase>) {
    && Fits(q, t) && (k.Some? <==> !BrokenTally(t))
    && (k.Some? && !q.Ended? ==>
          k.value == if t.startLost then Fresh
                     else if t.clearedLost || t.blockedLost then Accepted
                     else if t.done then Succeeded
                     else if t.backup then Backed
                     else if q.Succeeded? || q.Backed? then Cleared
                     else q)
  }

  lemma ReachedStep(q: Phase, t: Tally, k: Option<Phase>, m: Mark)
    requires Reached(q, t, k) && Delta(q, m.entry).Some?
    ensures Reached(Delta(q, m.entry).value, Count(t, m), if m.kept && k.Some? then Delta(k.value, m.entry) else k)
  {
  }

  lemma {:induction false} ReachedRun(ms: seq<Mark>)
    requires Legal(Entries(ms))
    ensures Reached(Read(Entries(ms)).value, TallyOf(ms), Read(Kept(ms)))
  {
    if ms != [] {
      var init, last := ms[..|ms| - 1], ms[|ms| - 1];
      assert ms == init + [last];
      MarkSnoc(init, last);
      TallySnoc(init, last);
      ReadSnoc(Entries(init), last.entry);
      ReadSnoc(Kept(init), last.entry);
      ReachedRun(init);
      ReachedStep(Read(Entries(init)).value, TallyOf(init), Read(Kept(init)), last);
      assert Kept(init) + [] == Kept(init);
    }
  }

  /** For any number of interleaved jobs on one log and any pattern of failing appends: the lines a
      job writes whole, newline included, follow the grammar; readers find those of them that were not
      swallowed by a torn line; and these follow the grammar too if and only if no swallowed line is one
      that a later readable line rests on. A job that reports success has written its completion. */
  lemma JobsFollowTheGrammarIff(ins: nat -> Inputs, acts: seq<Act>, j: nat)
    ensures var s := SysRun(ins, acts);
      && Legal(Entries(Written(s, j))) && Readable(s, j) == Kept(Written(s, j))
      && (Legal(Readable(s, j)) <==> !Broken(Written(s, j)))
      && (PcOf(s, j) == Done(Returned(true)) ==> Completed in Entries(Written(s, j)))
  {
    var s := SysRun(ins, acts);
    GrammarRun(ins, acts, j);
    EvidencedRun(ins, acts, j);
    ReachedRun(Written(s, j));
  }

  lemma {:induction false} AllKept(ms: seq<Mark>)
    requires forall m :: m in ms ==> m.kept
    ensures Kept(ms) == Entries(ms)
  {
    if ms != [] { AllKept(ms[..|ms| - 1]); }
  }

  /** So a job none of whose lines was written on top of a torn log leaves a legal record, with its
      completion in it if it reports success, and with exactly its evidence in it when it ran. */
  lemma JobsFollowTheGrammar(ins: nat -> Inputs, acts: seq<Act>, j: nat)
    requires forall m :: m in Written(SysRun(ins, acts), j) ==> m.kept
    ensures var s := SysRun(ins, acts);
      && Legal(Readable(s, j))
      && (PcOf(s, j) == Done(Returned(true)) ==> Completed in Readable(s, j))
      && (j in s.ranAt ==> s.ranAt[j] <= |s.log.entries| && Allowed(ins(j))
                           && Project(s.log.entries[..s.ranAt[j]], j) == Evidence(ins(j)))
  {
    JobsFollowTheGrammarIff(ins, acts, j);
    AllKept(Written(SysRun(ins, acts), j));
    if j in SysRun(ins, acts).ranAt { EvidenceIsDurableIff(ins, acts, j); }
  }

  // ---------- blocked jobs ----------

  /** The lines of a blocked job. */
  lemma {:induction false} BlockedShape(p: seq<Entry>, d: Disposition)
    requires Legal(p) && Evaluated(d) in p && !Permits(d)
    ensures p == [Started, Evaluated(d)] || p == [Started, Evaluated(d), Failed]
    ensures p == [Started, Evaluated(d)] ==> Read(p) == Some(Blocked)
    ensures p == [Started, Evaluated(d), Failed] ==> Read(p) == Some(Ended)
  {
    var n := |p| - 1;
    var init, e := p[..n], p[n];
    assert p == init + [e];
    if e == Evaluated(d) && Read(init) == Some(Accepted) {
      AcceptedShape(init);
    } else {
      assert Evaluated(d) in init;
      BlockedShape(init, d);
    }
  }

  lemma AcceptedShape(p: seq<Entry>)
    requires Read(p) == Some(Accepted)
    ensures p == [Started]
  {
    assert Read(p[..|p| - 1]) == Some(Fresh);
  }

  /** Over every run and every failure, a job that has written a blocking verdict, readable or not,
      never runs its capability, never returns a result, and writes at most its failure after it. */
  lemma BlockedNeverRuns(ins: nat -> Inputs, acts: seq<Act>, j: nat, d: Disposition)
    requires !Permits(d) && Evaluated(d) in Entries(Written(SysRun(ins, acts), j))
    ensures var s := SysRun(ins, acts);
      && j !in s.ranAt && (forall ok :: PcOf(s, j) != Done(Returned(ok)))
      && Entries(Written(s, j)) in [[Started, Evaluated(d)], [Started, Evaluated(d), Failed]]
      && (forall e :: e in Readable(s, j) ==> e in [Started, Evaluated(d), Failed])
  {
    var s := SysRun(ins, acts);
    GrammarRun(ins, acts, j);
    EvidencedRun(ins, acts, j);
    ToldRun(ins, acts, j);
    BlockedShape(Entries(Written(s, j)), d);
    forall e | e in Readable(s, j) ensures e in [Started, Evaluated(d), Failed] {
      MarkOf(Written(s, j), e);
      assert e in Entries(Written(s, j));
    }
  }

  // ---------- what a caller learns ----------

  /** Whether the capability has run, told from where the job stands. */
  predicate Told(i: Inputs, pc: Pc, ran: bool) {
    match pc
    case Done(Returned(_)) => ran
    case Done(Err(e)) =>
      && (e != WalError ==> !ran)
      && (e.SafetyEscalationRequired? || e.SafetyRejected? || e.SafetyFatal? ==>
            && !VerdictFor(i).Unassessable? && !Permits(DispositionOf(VerdictFor(i)))
            && BlockError(DispositionOf(VerdictFor(i))) == e)
    case Refuse(e) =>
      !ran && e != WalError && !e.SafetyEscalationRequired? && !e.SafetyRejected? && !e.SafetyFatal?
    case Block(d) => !ran && !VerdictFor(i).Unassessable? && d == DispositionOf(VerdictFor(i)) && !Permits(d)
    case Audit(_) => ran
    case Fail => ran
    case Report => ran
    case Complete => ran
    case Dev => ran
    case Evaluate => !ran && !VerdictFor(i).Unassessable?
    case _ => !ran
  }

  lemma NextTold(i: Inputs, pc: Pc, ran: bool, acked: bool)
    requires Told(i, pc, ran)
    ensures Told(i, After(i, pc, acked), ran || pc.Execute?)
  {
    NextAuditShape(i, 0);
    if pc.Audit? { NextAuditShape(i, pc.k + 1); }
  }

  lemma {:induction false} ToldRun(ins: nat -> Inputs, acts: seq<Act>, j: nat)
    ensures var s := SysRun(ins, acts); Told(ins(j), PcOf(s, j), j in s.ranAt)
  {
    if acts != [] {
      var s, a := SysRun(ins, acts[..|acts| - 1]), acts[|acts| - 1];
      ToldRun(ins, acts[..|acts| - 1], j);
      if a.job != j {
        OthersPlace(ins, s, a, j);
      } else {
        OwnPlace(ins, s, a);
        NextTold(ins(j), PcOf(s, j), j in s.ranAt, a.io.Ok?);
        NextTold(ins(j), PcOf(s, j), j in s.ranAt, true);
      }
    }
  }

  /** Whatever fails and however jobs interleave: a job that returns a result has run its
      capability, one that returns any error but a log error has not, and a blocking error names the
      verdict's own disposition. Only after a log error is the caller left in doubt. */
  lemma ResultTellsWhetherItRan(ins: nat -> Inputs, acts: seq<Act>, j: nat, r: Result)
    requires PcOf(SysRun(ins, acts), j) == Done(r)
    ensures r.Returned? ==> j in SysRun(ins, acts).ranAt
    ensures r.Err? && r.error != WalError ==> j !in SysRun(ins, acts).ranAt
    ensures r == Err(SafetyEscalationRequired) ==>
      VerdictFor(ins(j)) == Semantic(VerdictFor(ins(j)).field, EscalationRequired)
    ensures r == Err(SafetyRejected) ==> VerdictFor(ins(j)) == Semantic(VerdictFor(ins(j)).field, Reject)
    ensures r == Err(SafetyFatal) ==> VerdictFor(ins(j)) == Semantic(VerdictFor(ins(j)).field, Fatal)
  {
    ToldRun(ins, acts, j);
  }

  /** The number of the next append after a step from `pc`. */
  function NextIo(i: Inputs, pc: Pc, n: nat): nat { if pc.Create? || Attempt(i, pc).Some? then n + 1 else n }

  /** One step of a job is one step of going on alone. */
  lemma AloneStep(ins: nat -> Inputs, s: Sys, job: nat, io: nat -> Io, n: nat)
    requires !PcOf(s, job).Done?
    ensures var i, pc, s' := ins(job), PcOf(s, job), SysStep(ins, s, Act(job, io(n)));
      && Remaining(i, PcOf(s', job)) < Remaining(i, pc)
      && Alone(i, job, pc, s.log, io, n) == Alone(i, job, PcOf(s', job), s'.log, io, NextIo(i, pc, n))
  {
    StepsRemain(ins(job), PcOf(s, job), true);
    StepsRemain(ins(job), PcOf(s, job), io(n).Ok?);
  }

  /** What `ExecuteWithId` does is one of these runs: from wherever a job stands, going on alone is
      a run in which only that job steps. */
  lemma {:induction false} AloneIsARun(ins: nat -> Inputs, acts: seq<Act>, job: nat, io: nat -> Io, n: nat)
    returns (more: seq<Act>)
    ensures forall k :: 0 <= k < |more| ==> more[k].job == job
    ensures var s, s' := SysRun(ins, acts), SysRun(ins, acts + more);
      var (l, r) := Alone(ins(job), job, PcOf(s, job), s.log, io, n);
      s'.log == l && PcOf(s', job) == Done(r)
    decreases Remaining(ins(job), PcOf(SysRun(ins, acts), job))
  {
    var s, i := SysRun(ins, acts), ins(job);
    var pc := PcOf(s, job);
    if pc.Done? {
      more := [];
      assert acts + more == acts;
    } else {
      var a := Act(job, io(n));
      AloneStep(ins, s, job, io, n);
      assert (acts + [a])[..|acts|] == acts;
      var rest := AloneIsARun(ins, acts + [a], job, io, NextIo(i, pc, n));
      more := [a] + rest;
      assert acts + more == acts + [a] + rest;
    }
  }

  // ---------- witnesses ----------

  /** A job that nothing stops. */
  function Simple(): Inputs {
    Inputs(true, 0, Some(0), 1, [], map[], (t, f) => CannotAssess, true, true, None, true, false, [])
  }

  function AllSimple(): nat -> Inputs { j => Simple() }

  const Started0: seq<(nat, Mark)> := [(0, Mark(Started, true))]
  const Cleared0: seq<(nat, Mark)> := Started0 + [(0, Mark(Evaluated(Allow), true))]
  const Glued0: seq<(nat, Mark)> := Started0 + [(0, Mark(Evaluated(Allow), false))]

  lemma RunReaches(ins: nat -> Inputs, acts: seq<Act>, s: Sys, a: Act, s': Sys)
    requires SysRun(ins, acts) == s && SysStep(ins, s, a) == s'
    ensures SysRun(ins, acts + [a]) == s'
  {
    assert (acts + [a])[..|acts|] == acts;
  }

  lemma UpToEvaluate() returns (acts: seq<Act>)
    ensures SysRun(AllSimple(), acts) == Sys(EventLog([(0, Started)], false), map[0 := Evaluate], map[], Started0)
  {
    assert VerdictFor(Simple()) == ResourceOnly("-", OpaqueData);
    var s1 := Sys(EventLog([], false), map[0 := Start], map[], []);
    assert SysStep(AllSimple(), Start0, Act(0, Ok)) == s1;
    RunReaches(AllSimple(), [], Start0, Act(0, Ok), s1);
    var s2 := Sys(EventLog([(0, Started)], false), map[0 := Evaluate], map[], Started0);
    assert Land(s1.log, (0, Started), Ok).entries == [(0, Started)];
    assert SysStep(AllSimple(), s1, Act(0, Ok)) == s2;
    RunReaches(AllSimple(), [] + [Act(0, Ok)], s1, Act(0, Ok), s2);
    acts := [] + [Act(0, Ok)] + [Act(0, Ok)];
  }

  lemma UpToExecute() returns (acts: seq<Act>, log: EventLog<(nat, Entry)>)
    ensures SysRun(AllSimple(), acts) == Sys(log, map[0 := Execute], map[], Cleared0)
  {
    assert VerdictFor(Simple()) == ResourceOnly("-", OpaqueData);
    var before := UpToEvaluate();
    var s2 := Sys(EventLog([(0, Started)], false), map[0 := Evaluate], map[], Started0);
    log := EventLog([(0, Started)] + [(0, Evaluated(Allow))], false);
    assert SysStep(AllSimple(), s2, Act(0, Ok)) == Sys(log, map[0 := Execute], map[], Cleared0);
    RunReaches(AllSimple(), before, s2, Act(0, Ok), Sys(log, map[0 := Execute], map[], Cleared0));
    acts := before + [Act(0, Ok)];
  }

  /** A log error can hide either outcome: the capability may have run, or not. */
  lemma LogErrorLeavesDoubtWitness() returns (ran: seq<Act>, notRan: seq<Act>)
    ensures PcOf(SysRun(AllSimple(), ran), 0) == Done(Err(WalError)) && 0 in SysRun(AllSimple(), ran).ranAt
    ensures PcOf(SysRun(AllSimple(), notRan), 0) == Done(Err(WalError)) && 0 !in SysRun(AllSimple(), notRan).ranAt
  {
    ran := ErrorAfterRunning();
    notRan := ErrorBeforeRunning();
  }

  lemma ErrorBeforeRunning() returns (acts: seq<Act>)
    ensures SysRun(AllSimple(), acts) == Sys(EventLog([], false), map[0 := Done(Err(WalError))], map[], [])
  {
    var s := Sys(EventLog([], false), map[0 := Done(Err(WalError))], map[], []);
    assert SysStep(AllSimple(), Start0, Act(0, Nothing)) == s;
    RunReaches(AllSimple(), [], Start0, Act(0, Nothing), s);
    acts := [] + [Act(0, Nothing)];
  }

  lemma ErrorAfterRunning() returns (acts: seq<Act>)
    ensures PcOf(SysRun(AllSimple(), acts), 0) == Done(Err(WalError)) && 0 in SysRun(AllSimple(), acts).ranAt
  {
    var before, log := UpToExecute();
    var s3 := Sys(log, map[0 := Execute], map[], Cleared0);
    var s4 := Sys(log, map[0 := Complete], map[0 := |log.entries|], Cleared0);
    assert SysStep(AllSimple(), s3, Act(0, Ok)) == s4;
    RunReaches(AllSimple(), before, s3, Act(0, Ok), s4);
    var s5 := Sys(log, map[0 := Done(Err(WalError))], map[0 := |log.entries|], Cleared0);
    assert SysStep(AllSimple(), s4, Act(0, Nothing)) == s5;
    RunReaches(AllSimple(), before + [Act(0, Ok)], s4, Act(0, Nothing), s5);
    acts := before + [Act(0, Ok)] + [Act(0, Nothing)];
  }

  /** Job 1's failing first append leaves a torn line; job 0's verdict, acknowledged right after,
      is glued to it; job 0's capability runs with no readable verdict in the log, and its completion
      leaves a record that does not follow the grammar. */
  lemma TornNeighbourWitness() returns (acts: seq<Act>)
    ensures var s := SysRun(AllSimple(), acts);
      && s.ranAt == map[0 := 1] && s.log.entries == [(0, Started)] + [(0, Completed)]
      && !Legal(Readable(s, 0))
  {
    assert VerdictFor(Simple()) == ResourceOnly("-", OpaqueData);
    var log := [(0, Started)];
    var before := UpToTornLine();
    var pcs := map[0 := Evaluate, 1 := Done(Err(WalError))];
    var s4 := Sys(EventLog(log, true), pcs, map[], Started0);
    var s5 := Sys(EventLog(log, false), pcs[0 := Execute], map[], Glued0);
    assert SysStep(AllSimple(), s4, Act(0, Ok)) == s5;
    RunReaches(AllSimple(), before, s4, Act(0, Ok), s5);
    acts := before + [Act(0, Ok)];
    var s6 := Sys(EventLog(log, false), pcs[0 := Complete], map[0 := 1], Glued0);
    assert SysStep(AllSimple(), s5, Act(0, Ok)) == s6;
    RunReaches(AllSimple(), acts, s5, Act(0, Ok), s6);
    acts := acts + [Act(0, Ok)];
    RunReaches(AllSimple(), acts, s6, Act(0, Ok), SysStep(AllSimple(), s6, Act(0, Ok)));
    acts := acts + [Act(0, Ok)];
    CompletedAlone();
  }

  lemma CompletedAlone()
    ensures Project([(0, Started)] + [(0, Completed)], 0) == [Started] + [Completed]
    ensures !Legal([Started] + [Completed])
  {
    ProjectSnoc([(0, Started)], 0, Completed, 0);
    ProjectSnoc([], 0, Started, 0);
    assert [] + [(0, Started)] == [(0, Started)];
    ReadSnoc([Started], Completed);
    ReadSnoc([], Started);
    assert [] + [Started] == [Started];
  }

  lemma UpToTornLine() returns (acts: seq<Act>)
    ensures SysRun(AllSimple(), acts)
         == Sys(EventLog([(0, Started)], true), map[0 := Evaluate, 1 := Done(Err(WalError))], map[], Started0)
  {
    assert VerdictFor(Simple()) == ResourceOnly("-", OpaqueData);
    var log := [(0, Started)];
    var before := UpToEvaluate();
    var s2 := Sys(EventLog(log, false), map[0 := Evaluate], map[], Started0);
    var s3 := Sys(EventLog(log, false), map[0 := Evaluate, 1 := Start], map[], Started0);
    assert SysStep(AllSimple(), s2, Act(1, Ok)) == s3;
    RunReaches(AllSimple(), before, s2, Act(1, Ok), s3);
    var s4 := Sys(EventLog(log, true), map[0 := Evaluate, 1 := Done(Err(WalError))], map[], Started0);
    assert SysStep(AllSimple(), s3, Act(1, Torn)) == s4;
    RunReaches(AllSimple(), before + [Act(1, Ok)], s3, Act(1, Torn), s4);
    acts := before + [Act(1, Ok)] + [Act(1, Torn)];
  }
}
