/** One session file under locked adds and unlocked status updates. */
module Sessions {
  import opened Common

  datatype Status = Active | Completed | Terminated

  datatype Session = Session(jobs: seq<nat>, status: Status, updated: nat)

  datatype Kind = Add(job: nat) | Update(status: Status)

  /** The read-modify-write each call performs, on values. */
  function Modify(k: Kind, s: Session, now: nat): Session {
    match k
    case Add(job) => s.(jobs := s.jobs + [job], updated := now)
    case Update(status) => s.(status := status, updated := now)
  }

  /** What an inode holds: nothing, something that does not parse, or a session and the call that
      wrote it. */
  datatype Content = Empty | Torn | Whole(s: Session, author: Option<nat>)

  datatype Phase =
    | Waiting
    | Holding                          // the lock is held, nothing read yet
    | Loaded(s: Session)
    | Writing(s: Session, ino: nat)    // the temporary file is open and truncated
    | Wrote(s: Session, now: nat)
    | Finished(ok: bool)

  datatype Commit = Commit(t: nat, kind: Kind, now: nat)

  /** `tmpAdd` is the temporary file of `save_session`, `tmpUpdate` that of the status update; names
      are bound to inodes. */
  datatype State = State(
    inodes: map<nat, Content>, next: nat, file: nat, tmpAdd: Option<nat>, tmpUpdate: Option<nat>,
    holder: Option<nat>, phase: map<nat, Phase>, locks: seq<nat>, commits: seq<Commit>)

  /** How a write ends: whole; whole, but with the end of a longer earlier text behind it; with an
      error after a part; with an error after nothing. */
  datatype Outcome = Written | Mixed | Partial | Nothing

  /** `removed` tells whether the removal of the temporary file after an error succeeds. */
  datatype Action =
    | Acquire(t: nat)
    | Load(t: nat, ok: bool)
    | Begin(t: nat)
    | End(t: nat, out: Outcome, now: nat, removed: bool)
    | Rename(t: nat, ok: bool, removed: bool)
    | Crash(t: nat)

  /** What call `t` wants to do. */
  type Calls = nat -> Kind

  function PhaseOf(s: State, t: nat): Phase { if t in s.phase then s.phase[t] else Waiting }

  function Read(s: State, ino: nat): Content { if ino in s.inodes then s.inodes[ino] else Empty }

  function Tmp(s: State, k: Kind): Option<nat> { if k.Add? then s.tmpAdd else s.tmpUpdate }

  function SetTmp(s: State, k: Kind, ino: Option<nat>): State {
    if k.Add? then s.(tmpAdd := ino) else s.(tmpUpdate := ino)
  }

  function SetPhase(s: State, t: nat, p: Phase): State { s.(phase := s.phase[t := p]) }

  /** The call returns; the lock goes when its file handle does. */
  function Finish(s: State, t: nat, ok: bool): State {
    SetPhase(s, t, Finished(ok)).(holder := if s.holder == Some(t) then None else s.holder)
  }

  /** `save_session` removes its temporary file on an error, the status update does not. */
  function Fail(s: State, t: nat, k: Kind, removed: bool): State {
    Finish(if k.Add? && removed then s.(tmpAdd := None) else s, t, false)
  }

  predicate Enabled(calls: Calls, s: State, a: Action) {
    var p := PhaseOf(s, a.t);
    match a
    case Acquire(t) => calls(t).Add? && p.Waiting? && s.holder.None?
    case Load(t, _) => if calls(t).Add? then p.Holding? else p.Waiting?
    case Begin(_) => p.Loaded?
    case End(_, out, _, _) => p.Writing? && (out.Mixed? ==> !Read(s, p.ino).Empty?)
    case Rename(_, _, _) => p.Wrote?
    case Crash(_) => !p.Finished?
  }

  /** Opens the temporary file for writing: an existing one is truncated, whoever else has it open. */
  function BeginEffect(s: State, t: nat, k: Kind): State
    requires PhaseOf(s, t).Loaded?
  {
    var loaded := PhaseOf(s, t).s;
    if Tmp(s, k).Some? then
      SetPhase(s, t, Writing(loaded, Tmp(s, k).value)).(inodes := s.inodes[Tmp(s, k).value := Empty])
    else
      var s1 := SetTmp(SetPhase(s, t, Writing(loaded, s.next)), k, Some(s.next));
      s1.(inodes := s.inodes[s.next := Empty], next := s.next + 1)
  }

  /** Writes to the inode that was opened, whatever name it has by now. */
  function EndEffect(s: State, t: nat, k: Kind, out: Outcome, now: nat, removed: bool): State
    requires PhaseOf(s, t).Writing?
  {
    var loaded, ino := PhaseOf(s, t).s, PhaseOf(s, t).ino;
    match out
    case Written =>
      SetPhase(s, t, Wrote(loaded, now)).(inodes := s.inodes[ino := Whole(Modify(k, loaded, now), Some(t))])
    case Mixed => SetPhase(s, t, Wrote(loaded, now)).(inodes := s.inodes[ino := Torn])
    case Partial => Fail(s, t, k, removed).(inodes := s.inodes[ino := Torn])
    case Nothing => Fail(s, t, k, removed)
  }

  predicate Renames(calls: Calls, s: State, a: Action) { a.Rename? && a.ok && Tmp(s, calls(a.t)).Some? }

  function RenameEffect(calls: Calls, s: State, a: Action): State
    requires Enabled(calls, s, a) && Renames(calls, s, a)
  {
    var t, k := a.t, calls(a.t);
    var commits := s.commits + [Commit(t, k, PhaseOf(s, t).now)];
    Finish(SetTmp(s, k, None).(file := Tmp(s, k).value, commits := commits), t, true)
  }

  function Step(calls: Calls, s: State, a: Action): State
    requires Enabled(calls, s, a)
  {
    var t, k := a.t, calls(a.t);
    match a
    case Acquire(_) => SetPhase(s, t, Holding).(holder := Some(t), locks := s.locks + [t])
    case Load(_, ok) =>
      if ok && Read(s, s.file).Whole? then SetPhase(s, t, Loaded(Read(s, s.file).s)) else Finish(s, t, false)
    case Begin(_) => BeginEffect(s, t, k)
    case End(_, out, now, removed) => EndEffect(s, t, k, out, now, removed)
    case Rename(_, _, removed) => if Renames(calls, s, a) then RenameEffect(calls, s, a) else Fail(s, t, k, removed)
    case Crash(_) => Finish(s, t, false)
  }

  function Initial(s: Session): State { State(map[0 := Whole(s, None)], 1, 0, None, None, None, map[], [], []) }

  predicate IsRun(calls: Calls, s: State, acts: seq<Action>)
    decreases |acts|
  {
    acts == [] || (Enabled(calls, s, acts[0]) && IsRun(calls, Step(calls, s, acts[0]), acts[1..]))
  }

  function Run(calls: Calls, s: State, acts: seq<Action>): State
    requires IsRun(calls, s, acts)
    decreases |acts|
  {
    if acts == [] then s else Run(calls, Step(calls, s, acts[0]), acts[1..])
  }

  // ---------- the calls as code ----------

  /** A named file. */
  datatype File = Absent | Broken | Json(s: Session)

  class SessionFile {
    var file: File
    var tmpAdd: File
    var tmpUpdate: File

    constructor (file: File)
      ensures this.file == file && tmpAdd == Absent && tmpUpdate == Absent
    {
      this.file, tmpAdd, tmpUpdate := file, Absent, Absent;
    }

    /** The removal of the temporary file after an error may fail; its result is ignored. */
    method SaveSession(s: Session, writeOk: bool, renameOk: bool, removeOk: bool) returns (ok: bool)
      modifies this`file, this`tmpAdd
      ensures ok == (writeOk && renameOk) && (ok || removeOk ==> tmpAdd == Absent)
      ensures file == if ok then Json(s) else old(file)
    {
      tmpAdd := Broken;
      if !writeOk {
        if removeOk { tmpAdd := Absent; }
        return false;
      }
      tmpAdd := Json(s);
      if !renameOk {
        if removeOk { tmpAdd := Absent; }
        return false;
      }
      file, tmpAdd := tmpAdd, Absent;
      ok := true;
    }

    method AddJob(job: nat, now: nat, readOk: bool, writeOk: bool, renameOk: bool, removeOk: bool) returns (ok: bool)
      modifies this`file, this`tmpAdd
      ensures ok <==> old(file).Json? && readOk && writeOk && renameOk
      ensures file == if ok then Json(Modify(Add(job), old(file).s, now)) else old(file)
    {
      if !readOk || !file.Json? { return false; }
      var session := file.s;
      session := session.(jobs := session.jobs + [job]);
      session := session.(updated := now);
      ok := SaveSession(session, writeOk, renameOk, removeOk);
    }

    method UpdateSessionStatus(status: Status, now: nat, readOk: bool, writeOk: bool, renameOk: bool) returns (ok: bool)
      modifies this`file, this`tmpUpdate
      ensures ok <==> old(file).Json? && readOk && writeOk && renameOk
      ensures file == if ok then Json(Modify(Update(status), old(file).s, now)) else old(file)
      ensures tmpUpdate == if ok then Absent
                           else if !readOk || !old(file).Json? then old(tmpUpdate)
                           else if !writeOk then Broken
                           else Json(Modify(Update(status), old(file).s, now))
    {
      if !readOk || !file.Json? { return false; }
      var session := file.s.(status := status, updated := now);
      tmpUpdate := Broken;
      if !writeOk { return false; }
      tmpUpdate := Json(session);
      if !renameOk { return false; }
      file, tmpUpdate := tmpUpdate, Absent;
      ok := true;
    }
  }

  // ---------- temporary files ----------

  /** An add that is past its lock holds it, and nobody else does. */
  predicate Locked(calls: Calls, s: State, t: nat) {
    var p := PhaseOf(s, t);
    && (calls(t).Add? && !p.Waiting? && !p.Finished? ==> s.holder == Some(t))
    && (s.holder == Some(t) ==> calls(t).Add? && !p.Waiting? && !p.Finished?)
  }

  /** The temporary file of the adds exists only while its maker is between opening and renaming it. */
  predicate Tidy(s: State) {
    s.tmpAdd.Some? ==> s.holder.Some? && (PhaseOf(s, s.holder.value).Writing? || PhaseOf(s, s.holder.value).Wrote?)
  }

  /** Nobody crashes, and a temporary file that is removed after an error goes. */
  predicate Removes(a: Action) { !a.Crash? && (a.End? || a.Rename? ==> a.removed) }

  lemma LockedStep(calls: Calls, s: State, a: Action, t: nat)
    requires Enabled(calls, s, a) && Locked(calls, s, t) && Locked(calls, s, a.t)
    ensures Locked(calls, Step(calls, s, a), t)
  {
    match a
    case Acquire(_) =>
    case Load(_, _) =>
    case Begin(_) =>
    case End(_, _, _, _) =>
    case Rename(_, _, _) =>
    case Crash(_) =>
  }

  lemma TidyStep(calls: Calls, s: State, a: Action)
    requires Enabled(calls, s, a) && Tidy(s) && (forall t :: Locked(calls, s, t)) && Removes(a)
    ensures Tidy(Step(calls, s, a))
  {
    assert Locked(calls, s, a.t);
    match a
    case Acquire(_) =>
    case Load(_, _) =>
    case Begin(_) =>
    case End(_, _, _, _) =>
    case Rename(_, _, _) =>
  }

  lemma {:induction false} TidyRun(calls: Calls, s: State, acts: seq<Action>)
    requires IsRun(calls, s, acts) && Tidy(s) && (forall t :: Locked(calls, s, t))
    requires forall k :: 0 <= k < |acts| ==> Removes(acts[k])
    ensures Tidy(Run(calls, s, acts)) && forall t :: Locked(calls, Run(calls, s, acts), t)
    decreases |acts|
  {
    if acts != [] {
      var s' := Step(calls, s, acts[0]);
      assert Removes(acts[0]);
      TidyStep(calls, s, acts[0]);
      forall t ensures Locked(calls, s', t) { LockedStep(calls, s, acts[0], t); }
      TidyRun(calls, s', acts[1..]);
    }
  }

  /** Over every run of adds and updates with failing calls but no crash, as long as removals work: no
      add leaves its temporary file behind, and the lock is held by the one add that is under way. */
  lemma AddsLeaveNoTemporary(calls: Calls, s0: Session, acts: seq<Action>)
    requires IsRun(calls, Initial(s0), acts) && forall k :: 0 <= k < |acts| ==> Removes(acts[k])
    ensures var s := Run(calls, Initial(s0), acts);
      && (s.holder.None? ==> s.tmpAdd.None?)
      && forall t: nat :: s.holder == Some(t) <==> calls(t).Add? && !PhaseOf(s, t).Waiting? && !PhaseOf(s, t).Finished?
  {
    TidyRun(calls, Initial(s0), acts);
    var s := Run(calls, Initial(s0), acts);
    forall t: nat
      ensures s.holder == Some(t) <==> calls(t).Add? && !PhaseOf(s, t).Waiting? && !PhaseOf(s, t).Finished?
    {
      assert Locked(calls, s, t);
    }
  }

  // ---------- running one after the other ----------

  function Replay(s: Session, commits: seq<Commit>): Session {
    if commits == [] then s
    else
      var c := commits[|commits| - 1];
      Modify(c.kind, Replay(s, commits[..|commits| - 1]), c.now)
  }

  function LastBy(commits: seq<Commit>): Option<nat> { if commits == [] then None else Some(commits[|commits| - 1].t) }

  /** The session file is what the last successful call made of what the ones before it had made. */
  predicate Serial(s0: Session, s: State) { Read(s, s.file) == Whole(Replay(s0, s.commits), LastBy(s.commits)) }

  /** Which inodes the names and the open files are. */
  ghost predicate Bound(s: State) {
    && s.file < s.next
    && (s.tmpAdd.Some? ==> s.tmpAdd.value < s.next && s.tmpAdd.value != s.file)
    && (s.tmpUpdate.Some? ==> s.tmpUpdate.value < s.next && s.tmpUpdate.value != s.file && s.tmpUpdate != s.tmpAdd)
    && (forall x :: x in s.inodes ==> x < s.next)
  }

  ghost predicate Names(s: State) {
    Bound(s) && forall t :: PhaseOf(s, t).Writing? ==> PhaseOf(s, t).ino < s.next
  }

  /** What carries a call's name was written by it, and it is done writing. */
  predicate Authored(calls: Calls, s: State, x: nat) {
    Read(s, x).Whole? && Read(s, x).author.Some? ==>
      var t := Read(s, x).author.value;
      match PhaseOf(s, t)
      case Wrote(loaded, now) => Read(s, x).s == Modify(calls(t), loaded, now)
      case Finished(_) => true
      case _ => false
  }

  predicate Committed(s: State, k: nat) { k < |s.commits| ==> PhaseOf(s, s.commits[k].t).Finished? }

  ghost predicate History(calls: Calls, s: State) {
    Names(s) && (forall x :: Authored(calls, s, x)) && forall k :: Committed(s, k)
  }

  /** A step changes one phase, and inodes only by opening or writing. */
  lemma StepFrame(calls: Calls, s: State, a: Action)
    requires Enabled(calls, s, a)
    ensures var s', p := Step(calls, s, a), PhaseOf(Step(calls, s, a), a.t);
      && s'.phase == s.phase[a.t := p] && (!a.Begin? && !a.End? ==> s'.inodes == s.inodes)
      && (a.Begin? || !p.Writing?) && (a.End? || !p.Wrote?)
  {
    match a
    case Acquire(_) =>
    case Load(_, _) =>
    case Begin(t) => assert Step(calls, s, a) == BeginEffect(s, t, calls(t));
    case End(_, _, _, _) =>
    case Rename(_, _, _) =>
    case Crash(_) =>
  }

  lemma PhaseFrame(s: State, s': State, t: nat, p: Phase, u: nat)
    requires s'.phase == s.phase[t := p]
    ensures PhaseOf(s', u) == if u == t then p else PhaseOf(s, u)
  {
  }

  lemma OpenInodes(calls: Calls, s: State, a: Action, t: nat)
    requires Names(s) && Enabled(calls, s, a) && PhaseOf(Step(calls, s, a), t).Writing?
    ensures PhaseOf(Step(calls, s, a), t).ino < Step(calls, s, a).next
  {
    StepFrame(calls, s, a);
    PhaseFrame(s, Step(calls, s, a), a.t, PhaseOf(Step(calls, s, a), a.t), t);
  }

  lemma BoundStep(calls: Calls, s: State, a: Action)
    requires Names(s) && Enabled(calls, s, a)
    ensures Bound(Step(calls, s, a))
  {
    match a
    case Acquire(_) =>
    case Load(_, _) =>
    case Begin(t) => BeginBound(s, t, calls(t));
    case End(t, out, now, removed) => EndBound(s, t, calls(t), out, now, removed);
    case Rename(_, _, _) =>
    case Crash(_) =>
  }

  lemma BeginBound(s: State, t: nat, k: Kind)
    requires Bound(s) && PhaseOf(s, t).Loaded?
    ensures Bound(BeginEffect(s, t, k))
  {
  }

  lemma EndBound(s: State, t: nat, k: Kind, out: Outcome, now: nat, removed: bool)
    requires Bound(s) && PhaseOf(s, t).Writing? && PhaseOf(s, t).ino < s.next
    ensures Bound(EndEffect(s, t, k, out, now, removed))
  {
  }

  lemma NamesStep(calls: Calls, s: State, a: Action)
    requires Names(s) && Enabled(calls, s, a)
    ensures Names(Step(calls, s, a))
  {
    BoundStep(calls, s, a);
    forall t | PhaseOf(Step(calls, s, a), t).Writing?
      ensures PhaseOf(Step(calls, s, a), t).ino < Step(calls, s, a).next
    {
      OpenInodes(calls, s, a, t);
    }
  }

  lemma AuthoredStep(calls: Calls, s: State, a: Action, x: nat)
    requires Names(s) && Enabled(calls, s, a) && Authored(calls, s, x)
    ensures Authored(calls, Step(calls, s, a), x)
  {
    var s' := Step(calls, s, a);
    StepFrame(calls, s, a);
    if a.Begin? {
      BeginAuthored(calls, s, a, x);
    } else if a.End? {
      EndAuthored(calls, s, a, x);
    } else {
      AuthoredFrame(calls, s, s', a.t, PhaseOf(s', a.t), x);
    }
  }

  lemma AuthoredFrame(calls: Calls, s: State, s': State, t: nat, p: Phase, x: nat)
    requires Authored(calls, s, x) && Read(s', x) == Read(s, x) && s'.phase == s.phase[t := p]
    requires p.Finished? || (!PhaseOf(s, t).Finished? && !PhaseOf(s, t).Wrote?)
    ensures Authored(calls, s', x)
  {
    if Read(s, x).Whole? && Read(s, x).author.Some? { PhaseFrame(s, s', t, p, Read(s, x).author.value); }
  }

  lemma BeginAuthored(calls: Calls, s: State, a: Action, x: nat)
    requires Enabled(calls, s, a) && a.Begin? && Authored(calls, s, x)
    ensures Authored(calls, Step(calls, s, a), x)
  {
    var s' := Step(calls, s, a);
    StepFrame(calls, s, a);
    if !Read(s', x).Empty? { AuthoredFrame(calls, s, s', a.t, PhaseOf(s', a.t), x); }
  }

  lemma EndAuthored(calls: Calls, s: State, a: Action, x: nat)
    requires Enabled(calls, s, a) && a.End? && Authored(calls, s, x)
    ensures Authored(calls, Step(calls, s, a), x)
  {
    var s' := Step(calls, s, a);
    StepFrame(calls, s, a);
    if x != PhaseOf(s, a.t).ino || a.out.Nothing? {
      AuthoredFrame(calls, s, s', a.t, PhaseOf(s', a.t), x);
    }
  }

  lemma CommittedStep(calls: Calls, s: State, a: Action, k: nat)
    requires Enabled(calls, s, a) && Committed(s, k)
    ensures Committed(Step(calls, s, a), k)
  {
  }

  lemma HistoryStep(calls: Calls, s: State, a: Action)
    requires History(calls, s) && Enabled(calls, s, a)
    ensures History(calls, Step(calls, s, a))
  {
    NamesStep(calls, s, a);
    forall x ensures Authored(calls, Step(calls, s, a), x) { AuthoredStep(calls, s, a, x); }
    forall k ensures Committed(Step(calls, s, a), k) { CommittedStep(calls, s, a, k); }
  }

  lemma HistoryStart(calls: Calls, s0: Session)
    ensures History(calls, Initial(s0)) && Serial(s0, Initial(s0))
  {
  }

  // ---------- with the unlocked status update ----------

  /** The call still knows everything it is about to write back. */
  predicate UpToDate(calls: Calls, s: State, t: nat)
    requires PhaseOf(s, t).Wrote? && Read(s, s.file).Whole?
  {
    var loaded, current := PhaseOf(s, t).s, Read(s, s.file).s;
    loaded.jobs == current.jobs && (calls(t).Add? ==> loaded.status == current.status)
  }

  /** A successful rename moves the call's own complete text, made from what the file still holds;
      and no call writes into a file that another has already made the session. */
  predicate Sound(calls: Calls, s: State, a: Action)
    requires Enabled(calls, s, a)
  {
    && (Renames(calls, s, a) ==>
          && Read(s, Tmp(s, calls(a.t)).value).Whole? && Read(s, Tmp(s, calls(a.t)).value).author == Some(a.t)
          && Read(s, s.file).Whole? && UpToDate(calls, s, a.t))
    && (a.End? && PhaseOf(s, a.t).ino == s.file ==> a.out.Nothing?)
  }

  lemma ModifyAgreesIff(k: Kind, loaded: Session, current: Session, now: nat)
    ensures Modify(k, loaded, now) == Modify(k, current, now)
       <==> loaded.jobs == current.jobs && (k.Add? ==> loaded.status == current.status)
  {
    if k.Add? && loaded.jobs != current.jobs {
      assert (loaded.jobs + [k.job])[..|loaded.jobs|] == loaded.jobs;
      assert (current.jobs + [k.job])[..|current.jobs|] == current.jobs;
    }
  }

  lemma RenamedFile(calls: Calls, s: State, a: Action)
    requires Enabled(calls, s, a) && Renames(calls, s, a)
    ensures var s', k := Step(calls, s, a), calls(a.t);
      && Read(s', s'.file) == Read(s, Tmp(s, k).value)
      && s'.commits == s.commits + [Commit(a.t, k, PhaseOf(s, a.t).now)]
  {
  }

  lemma ReplaySnoc(s0: Session, commits: seq<Commit>, c: Commit)
    ensures Replay(s0, commits + [c]) == Modify(c.kind, Replay(s0, commits), c.now)
  {
    assert (commits + [c])[..|commits|] == commits;
  }

  lemma RenameSerialIff(calls: Calls, s0: Session, s: State, a: Action)
    requires History(calls, s) && Serial(s0, s) && Enabled(calls, s, a) && Renames(calls, s, a)
    ensures Serial(s0, Step(calls, s, a)) <==> Sound(calls, s, a)
  {
    var t, k := a.t, calls(a.t);
    RenamedFile(calls, s, a);
    ReplaySnoc(s0, s.commits, Commit(t, k, PhaseOf(s, t).now));
    assert Authored(calls, s, Tmp(s, k).value);
    ModifyAgreesIff(k, PhaseOf(s, t).s, Read(s, s.file).s, PhaseOf(s, t).now);
  }

  lemma EndSerialIff(calls: Calls, s0: Session, s: State, a: Action)
    requires History(calls, s) && Serial(s0, s) && Enabled(calls, s, a) && a.End?
    ensures Serial(s0, Step(calls, s, a)) <==> Sound(calls, s, a)
  {
    if s.commits != [] { assert Committed(s, |s.commits| - 1); }
  }

  lemma OtherSerial(calls: Calls, s0: Session, s: State, a: Action)
    requires History(calls, s) && Serial(s0, s) && Enabled(calls, s, a) && !a.End? && !Renames(calls, s, a)
    ensures Serial(s0, Step(calls, s, a))
  {
  }

  predicate AlwaysSerial(calls: Calls, s0: Session, s: State, acts: seq<Action>)
    requires IsRun(calls, s, acts)
    decreases |acts|
  {
    Serial(s0, s) && (acts == [] || AlwaysSerial(calls, s0, Step(calls, s, acts[0]), acts[1..]))
  }

  predicate AllSound(calls: Calls, s: State, acts: seq<Action>)
    requires IsRun(calls, s, acts)
    decreases |acts|
  {
    acts == [] || (Sound(calls, s, acts[0]) && AllSound(calls, Step(calls, s, acts[0]), acts[1..]))
  }

  lemma {:induction false} SerialRun(calls: Calls, s0: Session, s: State, acts: seq<Action>)
    requires History(calls, s) && Serial(s0, s) && IsRun(calls, s, acts)
    ensures AlwaysSerial(calls, s0, s, acts) <==> AllSound(calls, s, acts)
    ensures AllSound(calls, s, acts) ==> Serial(s0, Run(calls, s, acts))
    decreases |acts|
  {
    if acts != [] {
      var s' := Step(calls, s, acts[0]);
      HistoryStep(calls, s, acts[0]);
      if acts[0].End? {
        EndSerialIff(calls, s0, s, acts[0]);
      } else if Renames(calls, s, acts[0]) {
        RenameSerialIff(calls, s0, s, acts[0]);
      } else {
        OtherSerial(calls, s0, s, acts[0]);
      }
      if Serial(s0, s') { SerialRun(calls, s0, s', acts[1..]); }
    }
  }

  /** Over every run of locked adds and unlocked updates, with failures and crashes at any step: at
      every point the file is whole and is what the successful calls make of each other one after the
      other, if and only if every successful rename moved the call's own complete text made from an
      up-to-date read, and no slow writer wrote into what had become the session file. */
  lemma CallsAreSerialIff(calls: Calls, s0: Session, acts: seq<Action>)
    requires IsRun(calls, Initial(s0), acts)
    ensures AlwaysSerial(calls, s0, Initial(s0), acts) <==> AllSound(calls, Initial(s0), acts)
  {
    HistoryStart(calls, s0);
    SerialRun(calls, s0, Initial(s0), acts);
  }

  // ---------- locked adds alone ----------

  function Succeeded(s: State, ids: seq<nat>): seq<nat> {
    if ids == [] then []
    else
      var t := ids[|ids| - 1];
      Succeeded(s, ids[..|ids| - 1]) + if PhaseOf(s, t) == Finished(true) then [t] else []
  }

  function CommitIds(commits: seq<Commit>): seq<nat> {
    if commits == [] then [] else CommitIds(commits[..|commits| - 1]) + [commits[|commits| - 1].t]
  }

  lemma {:induction false} SucceededFrame(s: State, s': State, ids: seq<nat>)
    requires forall t :: t in ids ==> (PhaseOf(s', t) == Finished(true) <==> PhaseOf(s, t) == Finished(true))
    ensures Succeeded(s', ids) == Succeeded(s, ids)
  {
    if ids != [] { SucceededFrame(s, s', ids[..|ids| - 1]); }
  }

  /** The critical section of a call that only adds: whoever has read the file holds the lock and has
      read what is still there. */
  ghost predicate Section(calls: Calls, s: State, t: nat) {
    var current := Read(s, s.file);
    match PhaseOf(s, t)
    case Waiting => s.holder != Some(t)
    case Finished(_) => s.holder != Some(t)
    case Holding => s.holder == Some(t)
    case Loaded(x) => s.holder == Some(t) && current.Whole? && current.s == x
    case Writing(x, ino) =>
      s.holder == Some(t) && current.Whole? && current.s == x && s.tmpAdd == Some(ino) && Read(s, ino).Empty?
    case Wrote(x, now) =>
      && s.holder == Some(t) && current.Whole? && current.s == x
      && s.tmpAdd.Some? && Read(s, s.tmpAdd.value).Whole? && Read(s, s.tmpAdd.value).author == Some(t)
  }

  ghost predicate LockOrder(s: State) {
    && (s.holder.Some? ==> s.locks != [] && s.locks[|s.locks| - 1] == s.holder.value)
    && (forall i, j :: 0 <= i < j < |s.locks| ==> s.locks[i] != s.locks[j])
    && (forall t :: t in s.locks ==> !PhaseOf(s, t).Waiting?)
    && CommitIds(s.commits) == Succeeded(s, s.locks)
  }

  ghost predicate Inv(calls: Calls, s: State) { Names(s) && (forall t :: Section(calls, s, t)) && LockOrder(s) }

  lemma AcquireOrder(calls: Calls, s: State, a: Action)
    requires Enabled(calls, s, a) && a.Acquire? && LockOrder(s)
    ensures LockOrder(Step(calls, s, a))
  {
    var s' := Step(calls, s, a);
    assert a.t !in s.locks;
    SucceededFrame(s, s', s.locks);
    assert s'.locks[..|s.locks|] == s.locks;
  }

  lemma CommitOrder(calls: Calls, s: State, a: Action)
    requires Enabled(calls, s, a) && a.Rename? && LockOrder(s) && s.holder == Some(a.t)
    ensures LockOrder(Step(calls, s, a))
  {
    var s' := Step(calls, s, a);
    CommitOrderFrom(s, s', a.t, if s'.commits == s.commits then None else Some(s'.commits[|s.commits|]));
  }

  lemma CommitOrderFrom(s: State, s': State, t: nat, c: Option<Commit>)
    requires LockOrder(s) && s.holder == Some(t) && s'.holder == None && s'.locks == s.locks
    requires !PhaseOf(s, t).Finished? && s'.phase == s.phase[t := Finished(c.Some?)]
    requires s'.commits == s.commits + if c.Some? then [c.value] else []
    requires c.Some? ==> c.value.t == t
    ensures LockOrder(s')
  {
    SucceededLast(s, s', t, c.Some?);
    if c.Some? {
      assert s'.commits[..|s.commits|] == s.commits;
    } else {
      assert s'.commits == s.commits;
    }
  }

  /** The call that took the lock last finishes. */
  lemma SucceededLast(s: State, s': State, t: nat, ok: bool)
    requires s.locks != [] && s.locks[|s.locks| - 1] == t && s'.phase == s.phase[t := Finished(ok)]
    requires !PhaseOf(s, t).Finished? && forall i, j :: 0 <= i < j < |s.locks| ==> s.locks[i] != s.locks[j]
    ensures Succeeded(s', s.locks) == Succeeded(s, s.locks) + if ok then [t] else []
  {
    var before := s.locks[..|s.locks| - 1];
    assert forall i :: 0 <= i < |before| ==> before[i] == s.locks[i] && before[i] != t;
    SucceededFrame(s, s', before);
    assert Succeeded(s, s.locks) == Succeeded(s, before) + [];
  }

  lemma OtherOrder(calls: Calls, s: State, a: Action)
    requires Enabled(calls, s, a) && !a.Acquire? && !a.Rename? && LockOrder(s) && calls(a.t).Add?
    requires s.holder == Some(a.t) || (a.Crash? && PhaseOf(s, a.t).Waiting?)
    ensures LockOrder(Step(calls, s, a))
  {
    StepFrame(calls, s, a);
    OtherOrderFrom(s, Step(calls, s, a), a.t);
  }

  lemma OtherOrderFrom(s: State, s': State, t: nat)
    requires LockOrder(s) && s'.locks == s.locks && s'.commits == s.commits
    requires s'.phase == s.phase[t := PhaseOf(s', t)] && PhaseOf(s', t) != Finished(true)
    requires !PhaseOf(s, t).Finished? && (t in s.locks ==> !PhaseOf(s', t).Waiting?)
    requires s'.holder == s.holder || s'.holder == None
    ensures LockOrder(s')
  {
    SucceededFrame(s, s', s.locks);
  }

  lemma OwnSection(calls: Calls, s: State, a: Action)
    requires calls(a.t).Add? && Names(s) && Section(calls, s, a.t) && Enabled(calls, s, a)
    ensures Section(calls, Step(calls, s, a), a.t)
  {
    match a
    case Acquire(_) =>
    case Load(_, _) =>
    case Begin(_) =>
    case End(_, _, _, _) =>
    case Rename(_, _, _) =>
    case Crash(_) =>
  }

  /** Everyone else is outside while a call that holds the lock steps. */
  lemma OtherSection(calls: Calls, s: State, a: Action, t: nat)
    requires calls(a.t).Add? && t != a.t && Enabled(calls, s, a)
    requires Section(calls, s, t) && Section(calls, s, a.t)
    ensures Section(calls, Step(calls, s, a), t)
  {
    StepFrame(calls, s, a);
    PhaseFrame(s, Step(calls, s, a), a.t, PhaseOf(Step(calls, s, a), a.t), t);
  }

  lemma SectionStep(calls: Calls, s: State, a: Action, t: nat)
    requires calls(a.t).Add? && Names(s) && Enabled(calls, s, a)
    requires Section(calls, s, t) && Section(calls, s, a.t)
    ensures Section(calls, Step(calls, s, a), t)
  {
    if t == a.t { OwnSection(calls, s, a); } else { OtherSection(calls, s, a, t); }
  }

  lemma AddIsSound(calls: Calls, s: State, a: Action)
    requires calls(a.t).Add? && Names(s) && Section(calls, s, a.t) && Enabled(calls, s, a)
    ensures Sound(calls, s, a)
  {
  }

  lemma InvStep(calls: Calls, s: State, a: Action)
    requires (forall t :: calls(t).Add?) && Inv(calls, s) && Enabled(calls, s, a)
    ensures Inv(calls, Step(calls, s, a))
  {
    NamesStep(calls, s, a);
    assert Section(calls, s, a.t);
    if a.Acquire? {
      AcquireOrder(calls, s, a);
    } else if a.Rename? {
      CommitOrder(calls, s, a);
    } else {
      OtherOrder(calls, s, a);
    }
    forall t ensures Section(calls, Step(calls, s, a), t) { SectionStep(calls, s, a, t); }
  }

  lemma {:induction false} InvRun(calls: Calls, s: State, acts: seq<Action>)
    requires (forall t :: calls(t).Add?) && Inv(calls, s) && IsRun(calls, s, acts)
    ensures Inv(calls, Run(calls, s, acts)) && AllSound(calls, s, acts)
    decreases |acts|
  {
    if acts != [] {
      assert Section(calls, s, acts[0].t);
      AddIsSound(calls, s, acts[0]);
      InvStep(calls, s, acts[0]);
      InvRun(calls, Step(calls, s, acts[0]), acts[1..]);
    }
  }

  function JobsAdded(commits: seq<Commit>): seq<nat> {
    if commits == [] then []
    else
      var c := commits[|commits| - 1];
      JobsAdded(commits[..|commits| - 1]) + if c.kind.Add? then [c.kind.job] else []
  }

  function LastStatus(s: Session, commits: seq<Commit>): Status {
    if commits == [] then s.status
    else
      var k := commits[|commits| - 1].kind;
      if k.Update? then k.status else LastStatus(s, commits[..|commits| - 1])
  }

  /** What calls one after the other make of a session: the added jobs in their order, the status of the
      last update, the time of the last call. */
  lemma {:induction false} ReplayMeans(s: Session, commits: seq<Commit>)
    ensures Replay(s, commits).jobs == s.jobs + JobsAdded(commits)
    ensures Replay(s, commits).status == LastStatus(s, commits)
    ensures Replay(s, commits).updated == if commits == [] then s.updated else commits[|commits| - 1].now
  {
    if commits != [] { ReplayMeans(s, commits[..|commits| - 1]); }
  }

  /** Any interleaving of locked `add_job` calls, with failures and crashes at any step, leaves the
      file whole and equal to running the calls that returned success one after the other, in the
      order in which they took the lock. */
  lemma AddsAreSerial(calls: Calls, s0: Session, acts: seq<Action>)
    requires (forall t :: calls(t).Add?) && IsRun(calls, Initial(s0), acts)
    ensures var s := Run(calls, Initial(s0), acts);
      && Read(s, s.file).Whole? && Read(s, s.file).s == Replay(s0, s.commits)
      && Read(s, s.file).s.jobs == s0.jobs + JobsAdded(s.commits)
      && CommitIds(s.commits) == Succeeded(s, s.locks)
      && forall i, j :: 0 <= i < j < |s.locks| ==> s.locks[i] != s.locks[j]
  {
    InvRun(calls, Initial(s0), acts);
    HistoryStart(calls, s0);
    SerialRun(calls, s0, Initial(s0), acts);
    ReplayMeans(s0, Run(calls, Initial(s0), acts).commits);
  }

  // ---------- how the unlocked update breaks this ----------

  lemma RunCons(calls: Calls, s: State, a: Action, rest: seq<Action>)
    requires Enabled(calls, s, a) && IsRun(calls, Step(calls, s, a), rest)
    ensures IsRun(calls, s, [a] + rest) && Run(calls, s, [a] + rest) == Run(calls, Step(calls, s, a), rest)
  {
    assert ([a] + rest)[1..] == rest;
  }

  lemma {:induction false} RunConcat(calls: Calls, s: State, a: seq<Action>, b: seq<Action>)
    requires IsRun(calls, s, a) && IsRun(calls, Run(calls, s, a), b)
    ensures IsRun(calls, s, a + b) && Run(calls, s, a + b) == Run(calls, Run(calls, s, a), b)
    decreases |a|
  {
    if a == [] {
      assert a + b == b;
    } else {
      assert (a + b)[1..] == a[1..] + b;
      RunConcat(calls, Step(calls, s, a[0]), a[1..], b);
    }
  }

  /** The last three steps of a call that nothing disturbs. */
  function Save(t: nat, now: nat): seq<Action> { [Begin(t), End(t, Written, now, true), Rename(t, true, true)] }

  lemma SaveRun(calls: Calls, s: State, t: nat, now: nat)
    requires PhaseOf(s, t).Loaded?
    ensures IsRun(calls, s, Save(t, now))
    ensures var s' := Run(calls, s, Save(t, now));
      && Read(s', s'.file) == Whole(Modify(calls(t), PhaseOf(s, t).s, now), Some(t))
      && Tmp(s', calls(t)) == None && (Tmp(s, calls(t)).Some? ==> s'.file == Tmp(s, calls(t)).value)
      && PhaseOf(s', t) == Finished(true) && forall u :: u != t ==> PhaseOf(s', u) == PhaseOf(s, u)
  {
    var s1 := Step(calls, s, Begin(t));
    var s2 := Step(calls, s1, End(t, Written, now, true));
    RunCons(calls, s2, Rename(t, true, true), []);
    RunCons(calls, s1, End(t, Written, now, true), [Rename(t, true, true)]);
    RunCons(calls, s, Begin(t), [End(t, Written, now, true), Rename(t, true, true)]);
  }

  function OneAddOneUpdate(): Calls { t => if t == 0 then Add(7) else Update(Completed) }

  /** A status update that read the session before a job was added and renames after it erases the
      job, although both calls returned success. */
  lemma LostJobWitness()
    ensures var calls, s0 := OneAddOneUpdate(), Session([], Active, 0);
      var acts := [Load(1, true), Acquire(0), Load(0, true)] + Save(0, 1) + Save(1, 2);
      && IsRun(calls, Initial(s0), acts)
      && var s := Run(calls, Initial(s0), acts);
         && PhaseOf(s, 0) == Finished(true) && PhaseOf(s, 1) == Finished(true)
         && Read(s, s.file) == Whole(Session([], Completed, 2), Some(1))
  {
    var calls, s0 := OneAddOneUpdate(), Initial(Session([], Active, 0));
    var s1 := Step(calls, s0, Load(1, true));
    var s2 := Step(calls, s1, Acquire(0));
    var s3 := Step(calls, s2, Load(0, true));
    var loads := [Load(1, true), Acquire(0), Load(0, true)];
    RunCons(calls, s2, Load(0, true), []);
    RunCons(calls, s1, Acquire(0), [Load(0, true)]);
    RunCons(calls, s0, Load(1, true), [Acquire(0), Load(0, true)]);
    assert [Load(1, true)] + [Acquire(0), Load(0, true)] == loads;
    SaveRun(calls, s3, 0, 1);
    RunConcat(calls, s0, loads, Save(0, 1));
    SaveRun(calls, Run(calls, s3, Save(0, 1)), 1, 2);
    RunConcat(calls, s0, loads + Save(0, 1), Save(1, 2));
  }

  function TwoUpdates(): Calls { t => if t == 0 then Update(Completed) else Update(Terminated) }

  lemma TwoLoads()
    ensures var calls, s0, acts := TwoUpdates(), Initial(Session([], Active, 0)),
        [Load(0, true), Load(1, true), Begin(0)];
      && IsRun(calls, s0, acts)
      && Run(calls, s0, acts) == State(
           map[0 := Whole(Session([], Active, 0), None), 1 := Empty], 2, 0, None, Some(1), None,
           map[0 := Writing(Session([], Active, 0), 1), 1 := Loaded(Session([], Active, 0))], [], [])
  {
    var calls, s0 := TwoUpdates(), Initial(Session([], Active, 0));
    var s1 := Step(calls, s0, Load(0, true));
    var s2 := Step(calls, s1, Load(1, true));
    RunCons(calls, s2, Begin(0), []);
    RunCons(calls, s1, Load(1, true), [Begin(0)]);
    RunCons(calls, s0, Load(0, true), [Load(1, true), Begin(0)]);
    assert [Load(0, true)] + ([Load(1, true)] + [Begin(0)]) == [Load(0, true), Load(1, true), Begin(0)];
  }

  /** Two status updates share one temporary file: the first can rename what the second has only
      begun to write, and the session no longer parses. */
  lemma TornSessionWitness()
    ensures var calls, s0 := TwoUpdates(), Initial(Session([], Active, 0));
      var acts := [Load(0, true), Load(1, true), Begin(0)]
          + [End(0, Written, 1, true), Begin(1), Rename(0, true, true)];
      && IsRun(calls, s0, acts)
      && var s := Run(calls, s0, acts); Read(s, s.file) == Empty && PhaseOf(s, 0) == Finished(true)
  {
    TwoLoads();
    var calls, s0, first := TwoUpdates(), Initial(Session([], Active, 0)), [Load(0, true), Load(1, true), Begin(0)];
    var s3 := Run(calls, s0, first);
    var s4 := Step(calls, s3, End(0, Written, 1, true));
    var s5 := Step(calls, s4, Begin(1));
    RunCons(calls, s5, Rename(0, true, true), []);
    RunCons(calls, s4, Begin(1), [Rename(0, true, true)]);
    RunCons(calls, s3, End(0, Written, 1, true), [Begin(1), Rename(0, true, true)]);
    RunConcat(calls, s0, first, [End(0, Written, 1, true), Begin(1), Rename(0, true, true)]);
  }

  /** The slower of two status updates writes into the file the faster has made the session: its own
      rename fails, and yet its text is what the session holds. */
  lemma SlowWriterWitness()
    ensures var calls, s0 := TwoUpdates(), Initial(Session([], Active, 0));
      var acts := [Load(0, true), Load(1, true), Begin(0)] + Save(1, 1)
          + [End(0, Written, 2, true), Rename(0, true, true)];
      && IsRun(calls, s0, acts)
      && var s := Run(calls, s0, acts);
         && PhaseOf(s, 1) == Finished(true) && PhaseOf(s, 0) == Finished(false)
         && Read(s, s.file) == Whole(Session([], Completed, 2), Some(0))
  {
    TwoLoads();
    var calls, s0, first := TwoUpdates(), Initial(Session([], Active, 0)), [Load(0, true), Load(1, true), Begin(0)];
    var s3 := Run(calls, s0, first);
    SaveRun(calls, s3, 1, 1);
    var s6 := Run(calls, s3, Save(1, 1));
    RunConcat(calls, s0, first, Save(1, 1));
    var s7 := Step(calls, s6, End(0, Written, 2, true));
    RunCons(calls, s7, Rename(0, true, true), []);
    RunCons(calls, s6, End(0, Written, 2, true), [Rename(0, true, true)]);
    RunConcat(calls, s0, first + Save(1, 1), [End(0, Written, 2, true), Rename(0, true, true)]);
  }
}
