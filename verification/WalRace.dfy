/** Many writers and one maintenance task on one log path, as steps over inodes: names are bound to
    inodes, every append opens the path anew, and open, lock, write, rename, truncate and unlock are
    separate steps that interleave freely. */
module WalRace {
  import opened Text
  import opened Events
  import opened WalMaintenance

  /** `Arch(i)` is the archive with index `i`. A temporary log has no name here: only the
      maintenance task opens it. */
  datatype Name = Cur | Arch(index: nat)

  datatype Phase = Opened | Writing | Acked | Dead

  /** One append, known by the time of its open. `done` characters of its line are written, from
      `startedAt` on; those before `from` were cut off by a truncation. `glued` lines were begun on
      top of a torn one, unless only blanks of that were left. */
  datatype Append = Append(ev: Event, ino: nat, startedAt: nat, from: nat, done: nat, phase: Phase, glued: bool)

  /** The maintenance task: rotation (`Rot...`) and cleanup (`Cln...`). */
  datatype Maint =
    | Resting
    | RotOpened(ino: nat)
    | RotLocked(ino: nat, shift: nat)
    | RotRenamed(ino: nat, renamed: nat)
    | RotCreated(ino: nat)
    | ClnOpened(ino: nat)
    | ClnLocked(ino: nat)
    | ClnRead(ino: nat, text: string, lines: seq<nat>)
    | ClnBuilt(ino: nat, tmp: nat, reread: nat, cutoff: nat)
    | ClnRenamed(ino: nat)

  datatype Holder = Writer(id: nat) | Maintenance

  /** A rotation's window, from its rename to its re-creation of the current file. */
  datatype Window = Window(renamed: nat, created: nat)

  /** A cleanup's re-read and rename times. */
  datatype Clean = Clean(reread: nat, at: nat)

  datatype State = State(
    next: nat,                    // inodes allocated so far
    text: map<nat, string>,
    dir: map<Name, nat>,
    lock: map<nat, Holder>,
    appends: map<nat, Append>,
    maint: Maint,
    now: nat,
    // history
    logs: map<nat, seq<nat>>,     // the appends whose whole lines each inode holds
    windows: set<Window>,
    cleans: map<nat, Clean>,      // inodes a cleanup replaced
    retired: set<nat>,            // archives that a rename or the removal dropped
    expired: map<nat, nat>,       // appends a cleanup judged too old, with its cutoff
    torn: map<nat, string>)       // pieces of lines that dead writers left at the end of an inode

  const Init := State(0, map[], map[], map[], map[], Resting, 0, map[], {}, map[], {}, map[], map[])

  datatype Action =
    | Touch                                // `create_new` in `create`
    | Open(ev: Event)
    | Lock(id: nat)
    | Chunk(id: nat, n: nat)
    | Unlock(id: nat)
    | Die(id: nat)                         // a crash or a failing write before the line is whole
    | RotOpen | RotLock | RotShift | RotRename | RotCreate | RotFinish
    | RotSkip                              // a shift whose rename failed
    | ClnOpen | ClnLock | ClnReadAll | ClnSkip(cutoff: nat) | ClnBuild(cutoff: nat) | ClnRename | ClnUnlock
    | Abort                                // a failing call or a crash of the maintenance task

  function Length(c: Codec, a: Append): nat { |Line(c, a.ev)| }

  function EventOf(appends: map<nat, Append>, id: nat): Event {
    if id in appends then appends[id].ev else Marker(0, 0)
  }

  function KeptLines(appends: map<nat, Append>, ids: seq<nat>, cutoff: nat): seq<nat> {
    if ids == [] then []
    else (if EventOf(appends, ids[0]).ts >= cutoff then [ids[0]] else []) + KeptLines(appends, ids[1..], cutoff)
  }

  function NewerLines(appends: map<nat, Append>, ids: seq<nat>, last: nat): seq<nat> {
    if ids == [] then []
    else (if EventOf(appends, ids[0]).seq_ > last then [ids[0]] else []) + NewerLines(appends, ids[1..], last)
  }

  function TornPiece(s: State, x: nat): string { if x in s.torn then s.torn[x] else "" }

  predicate HasLine(s: State, x: nat, id: nat) { x in s.logs && id in s.logs[x] }

  // ---------- when a step is possible ----------

  predicate CanLock(s: State, id: nat) {
    id in s.appends && s.appends[id].phase.Opened? && s.appends[id].ino !in s.lock
  }

  predicate CanChunk(c: Codec, s: State, id: nat, n: nat) {
    && id in s.appends && s.appends[id].phase.Writing? && 0 < n <= Length(c, s.appends[id]) - s.appends[id].done
    && s.appends[id].ino in s.text && s.appends[id].ino in s.logs
  }

  predicate CanUnlock(c: Codec, s: State, id: nat) {
    id in s.appends && s.appends[id].phase.Writing? && s.appends[id].done == Length(c, s.appends[id])
  }

  /** At any point of the line before it is whole. */
  predicate CanDie(c: Codec, s: State, id: nat) {
    id in s.appends && s.appends[id].phase.Writing? && s.appends[id].done < Length(c, s.appends[id])
  }

  /** What a cleanup reads does not end in a line that parses and only lacks its newline. */
  predicate CanRead(c: Codec, s: State) {
    && Cur in s.dir && s.dir[Cur] in s.text && s.dir[Cur] in s.logs
    && (s.dir[Cur] in s.torn ==> c.parse(s.torn[s.dir[Cur]]).None?)
  }

  predicate HoldsLock(m: Maint) {
    m.RotLocked? || m.RotRenamed? || m.RotCreated? || m.ClnLocked? || m.ClnRead? || m.ClnBuilt? || m.ClnRenamed?
  }

  predicate NothingExpired(c: Codec, s: State, cutoff: nat)
    requires s.maint.ClnRead?
  {
    |Retained(Scan(c, s.maint.text), cutoff)| == |Scan(c, s.maint.text)|
  }

  predicate Enabled(c: Codec, s: State, a: Action) {
    match a
    case Touch => true
    case Open(_) => true
    case Lock(id) => CanLock(s, id)
    case Chunk(id, n) => CanChunk(c, s, id, n)
    case Unlock(id) => CanUnlock(c, s, id)
    case Die(id) => CanDie(c, s, id)
    case RotOpen => s.maint.Resting? && Cur in s.dir
    case RotLock => s.maint.RotOpened? && s.maint.ino !in s.lock
    case RotShift => s.maint.RotLocked? && s.maint.shift > 0
    case RotSkip => s.maint.RotLocked? && s.maint.shift > 0
    case RotRename => s.maint.RotLocked? && s.maint.shift == 0 && Cur in s.dir
    case RotCreate => s.maint.RotRenamed?
    case RotFinish => s.maint.RotCreated?
    case ClnOpen => s.maint.Resting? && Cur in s.dir
    case ClnLock => s.maint.ClnOpened? && s.maint.ino !in s.lock
    case ClnReadAll => s.maint.ClnLocked? && CanRead(c, s)
    case ClnSkip(cutoff) => s.maint.ClnRead? && NothingExpired(c, s, cutoff)
    case ClnBuild(cutoff) => s.maint.ClnRead? && !NothingExpired(c, s, cutoff) && CanRead(c, s)
    case ClnRename => s.maint.ClnBuilt?
    case ClnUnlock => s.maint.ClnRenamed?
    case Abort => !s.maint.Resting? && !s.maint.ClnBuilt?
  }

  // ---------- what a step does ----------

  function Tick(s: State): State { s.(now := s.now + 1) }

  /** Open with `create(true)`: binds the current name to a new inode when it has none. */
  function Ensure(s: State): (r: State)
    ensures Cur in r.dir
  {
    if Cur in s.dir then s
    else s.(next := s.next + 1, text := s.text[s.next := ""], logs := s.logs[s.next := []], dir := s.dir[Cur := s.next])
  }

  /** Rename: what the target name held before is dropped. */
  function Rename(s: State, from: Name, to: Name): State
    requires from in s.dir && from != to
  {
    s.(dir := s.dir[to := s.dir[from]] - {from},
       retired := s.retired + if to in s.dir then {s.dir[to]} else {})
  }

  function OpenEffect(s: State, ev: Event): State {
    var s1 := Ensure(s);
    s1.(appends := s1.appends[s.now := Append(ev, s1.dir[Cur], 0, 0, 0, Opened, false)])
  }

  function LockEffect(s: State, id: nat): State
    requires CanLock(s, id)
  {
    var a := s.appends[id];
    s.(appends := s.appends[id := a.(phase := Writing)], lock := s.lock[a.ino := Writer(id)])
  }

  /** The next `n` characters of the line reach the inode; with the last of them the line is whole
      unless a truncation took its beginning or it was begun on top of a torn one. */
  function ChunkEffect(c: Codec, s: State, id: nat, n: nat): State
    requires CanChunk(c, s, id, n)
  {
    var a := s.appends[id];
    var x, line, done := a.ino, Line(c, a.ev), a.done + n;
    var glued := if a.done == 0 then !Blank(TornPiece(s, x)) else a.glued;
    var startedAt := if a.done == 0 then s.now else a.startedAt;
    s.(appends := s.appends[id := a.(done := done, startedAt := startedAt, glued := glued)],
       text := s.text[x := s.text[x] + line[a.done..done]],
       logs := if done == |line| && a.from == 0 && !glued then s.logs[x := s.logs[x] + [id]] else s.logs,
       torn := if done == |line| then s.torn - {x} else s.torn)
  }

  function UnlockEffect(c: Codec, s: State, id: nat): State
    requires CanUnlock(c, s, id)
  {
    var a := s.appends[id];
    s.(appends := s.appends[id := a.(phase := Acked)], lock := s.lock - {a.ino})
  }

  /** The lock goes with its holder; what was written stays. */
  function DieEffect(c: Codec, s: State, id: nat): State
    requires CanDie(c, s, id)
  {
    var a := s.appends[id];
    var piece := if a.from <= a.done then Line(c, a.ev)[a.from..a.done] else "";
    s.(appends := s.appends[id := a.(phase := Dead)], lock := s.lock - {a.ino},
       torn := if piece == "" then s.torn else s.torn[a.ino := TornPiece(s, a.ino) + piece])
  }

  /** Steps of the maintenance task that touch no file. */
  predicate QuietStep(a: Action) {
    || a.RotOpen? || a.RotLock? || a.RotSkip? || a.ClnOpen? || a.ClnLock? || a.ClnReadAll? || a.ClnSkip? || a.ClnUnlock?
    || a.Abort?
  }

  /** What the maintenance task does next. */
  function NextMaint(c: Codec, limit: nat, s: State, a: Action): Maint
    requires Enabled(c, s, a) && QuietStep(a)
  {
    match a
    case RotOpen => RotOpened(s.dir[Cur])
    case RotLock => RotLocked(s.maint.ino, if limit == 0 then 0 else limit - 1)
    case RotSkip => RotLocked(s.maint.ino, s.maint.shift - 1)
    case ClnOpen => ClnOpened(s.dir[Cur])
    case ClnLock => ClnLocked(s.maint.ino)
    case ClnReadAll => ClnRead(s.maint.ino, s.text[s.dir[Cur]], s.logs[s.dir[Cur]])
    case _ => Resting
  }

  function NextLock(c: Codec, s: State, a: Action): map<nat, Holder>
    requires Enabled(c, s, a) && QuietStep(a)
  {
    if a.RotLock? || a.ClnLock? then s.lock[s.maint.ino := Maintenance]
    else if a.ClnSkip? || a.ClnUnlock? || (a.Abort? && HoldsLock(s.maint)) then s.lock - {s.maint.ino}
    else s.lock
  }

  function Release(s: State): State
    requires !s.maint.Resting?
  {
    s.(maint := Resting, lock := s.lock - {s.maint.ino})
  }

  function ShiftEffect(s: State): State
    requires s.maint.RotLocked? && s.maint.shift > 0
  {
    var i := s.maint.shift;
    (if Arch(i) in s.dir then Rename(s, Arch(i), Arch(i + 1)) else s).(maint := RotLocked(s.maint.ino, i - 1))
  }

  function MoveEffect(s: State): State
    requires s.maint.RotLocked? && Cur in s.dir
  {
    Rename(s, Cur, Arch(1)).(maint := RotRenamed(s.maint.ino, s.now))
  }

  /** A truncation catches a writer in the middle of its line. */
  function Cut(c: Codec, a: Append, ino: nat): Append {
    if a.phase.Writing? && a.ino == ino && a.done < Length(c, a) then a.(from := a.done) else a
  }

  /** `fs::write(path, "")`: opens with create-and-truncate, takes no lock. */
  function CreateEffect(c: Codec, s: State): State
    requires s.maint.RotRenamed?
  {
    var s1 := Ensure(s);
    var x := s1.dir[Cur];
    s1.(text := s1.text[x := ""], logs := s1.logs[x := []],
        appends := map id | id in s.appends :: Cut(c, s.appends[id], x),
        windows := s.windows + {Window(s.maint.renamed, s.now)}, torn := s1.torn - {x},
        maint := RotCreated(s.maint.ino))
  }

  /** Removes the archive beyond the limit. */
  function DropEffect(limit: nat, s: State): State {
    var last := Arch(limit + 1);
    s.(dir := s.dir - {last}, retired := s.retired + (if last in s.dir then {s.dir[last]} else {}))
  }

  /** Builds the replacement from the first read and the re-read. */
  function BuildEffect(c: Codec, s: State, cutoff: nat): State
    requires s.maint.ClnRead? && CanRead(c, s)
  {
    var x, t := s.dir[Cur], s.next;
    var kept := Retained(Scan(c, s.maint.text), cutoff);
    var last := LastSeqOr0(kept);
    var marker := Marker(0, s.now);
    s.(next := t + 1,
       appends := s.appends[s.now := Append(marker, t, s.now, 0, |Line(c, marker)|, Acked, false)],
       text := s.text[t := Line(c, marker) + Render(c, kept) + Render(c, Newer(Scan(c, s.text[x]), last))],
       logs := s.logs[t := [s.now] + KeptLines(s.appends, s.maint.lines, cutoff)
                           + NewerLines(s.appends, s.logs[x], last)],
       maint := ClnBuilt(s.maint.ino, t, s.now, cutoff))
  }

  /** Renames the replacement over the current file. */
  function ReplaceEffect(s: State): State
    requires s.maint.ClnBuilt?
  {
    var x, t := s.maint.ino, s.maint.tmp;
    s.(dir := s.dir[Cur := t], cleans := s.cleans[x := Clean(s.maint.reread, s.now)],
       expired := s.expired + (map id | id in s.appends && HasLine(s, x, id) && !HasLine(s, t, id) :: s.maint.cutoff),
       maint := ClnRenamed(x))
  }

  function Quiet(c: Codec, limit: nat, s: State, a: Action): State
    requires Enabled(c, s, a) && QuietStep(a)
  {
    s.(maint := NextMaint(c, limit, s, a), lock := NextLock(c, s, a))
  }

  function Effect(c: Codec, limit: nat, s: State, a: Action): State
    requires Enabled(c, s, a)
  {
    match a
    case Touch => Ensure(s)
    case Open(ev) => OpenEffect(s, ev)
    case Lock(id) => LockEffect(s, id)
    case Chunk(id, n) => ChunkEffect(c, s, id, n)
    case Unlock(id) => UnlockEffect(c, s, id)
    case Die(id) => DieEffect(c, s, id)
    case RotShift => ShiftEffect(s)
    case RotRename => MoveEffect(s)
    case RotCreate => CreateEffect(c, s)
    case RotFinish => Release(DropEffect(limit, s))
    case ClnBuild(cutoff) => BuildEffect(c, s, cutoff)
    case ClnRename => ReplaceEffect(s)
    case _ => Quiet(c, limit, s, a)
  }

  function Apply(c: Codec, limit: nat, s: State, a: Action): State
    requires Enabled(c, s, a)
  {
    Tick(Effect(c, limit, s, a))
  }

  predicate IsRun(c: Codec, limit: nat, s: State, acts: seq<Action>)
    decreases |acts|
  {
    acts == [] || (Enabled(c, s, acts[0]) && IsRun(c, limit, Apply(c, limit, s, acts[0]), acts[1..]))
  }

  function Run(c: Codec, limit: nat, s: State, acts: seq<Action>): State
    requires IsRun(c, limit, s, acts)
    decreases |acts|
  {
    if acts == [] then s else Run(c, limit, Apply(c, limit, s, acts[0]), acts[1..])
  }

  // ---------- where an append ends up ----------

  ghost predicate Reachable(s: State, id: nat) {
    exists n :: n in s.dir && s.dir[n] in s.logs && id in s.logs[s.dir[n]]
  }

  /** Opened the path after a rotation's rename and began writing before its re-creation. */
  ghost predicate InRotationWindow(windows: set<Window>, id: nat, startedAt: nat) {
    exists w :: w in windows && w.renamed < id && startedAt < w.created
  }

  /** Opened an inode that a cleanup replaced, and began writing after the cleanup's re-read. */
  predicate InCleanupWindow(s: State, id: nat)
    requires id in s.appends
  {
    var a := s.appends[id];
    a.ino in s.cleans && a.startedAt > s.cleans[a.ino].reread
  }

  ghost predicate DroppedByRetention(s: State, id: nat) {
    exists x :: x in s.retired && x in s.logs && id in s.logs[x]
  }

  // ---------- invariants ----------

  /** The inode of a temporary log that is not yet renamed. */
  predicate IsTmp(s: State, x: nat) { s.maint.ClnBuilt? && s.maint.tmp == x }

  /** Names, inodes and their fates. */
  ghost predicate Names(s: State) {
    && (forall x: nat :: x in s.logs <==> x < s.next)
    && (forall n :: n in s.dir ==>
          s.dir[n] < s.next && s.dir[n] !in s.retired && s.dir[n] !in s.cleans && !IsTmp(s, s.dir[n]))
    && (forall m, n :: m in s.dir && n in s.dir && s.dir[m] == s.dir[n] ==> m == n)
    && (forall x :: x in s.retired ==> x < s.next && x !in s.cleans && !IsTmp(s, x))
    && (forall x :: x in s.cleans ==> x < s.next && !IsTmp(s, x))
  }

  /** Every inode is named, dropped, replaced, or the temporary log. */
  ghost predicate Fate(s: State, x: nat) {
    x < s.next ==> x in s.retired || x in s.cleans || IsTmp(s, x) || exists n :: n in s.dir && s.dir[n] == x
  }

  /** The maintenance task holds the lock of the file it opened, and until it renames that file it
      is the current one. */
  predicate Holding(s: State) {
    && (HoldsLock(s.maint) ==> s.maint.ino in s.lock && s.lock[s.maint.ino] == Maintenance)
    && (|| s.maint.RotOpened? || s.maint.RotLocked? || s.maint.ClnOpened? || s.maint.ClnLocked? || s.maint.ClnRead?
        || s.maint.ClnBuilt? ==>
          Cur in s.dir && s.dir[Cur] == s.maint.ino)
    && (s.maint.ClnRead? ==> s.maint.ino in s.logs && s.maint.lines == s.logs[s.maint.ino])
    && (s.maint.RotRenamed? ==> s.maint.renamed < s.now && Arch(1) in s.dir && s.dir[Arch(1)] == s.maint.ino)
    && (s.maint.ClnBuilt? ==> s.maint.reread < s.now && s.maint.tmp < s.next)
    && (s.maint.ClnRenamed? ==> s.maint.ino in s.cleans)
  }

  /** Recorded times lie in the past, and only known appends are recorded. */
  ghost predicate History(s: State) {
    && (forall w :: w in s.windows ==> w.created < s.now)
    && (forall x :: x in s.cleans ==> s.cleans[x].reread < s.cleans[x].at < s.now)
    && (forall x, id :: x in s.logs && id in s.logs[x] ==> id in s.appends)
    && (forall id :: id in s.expired || id in s.appends ==> id in s.appends && id < s.now)
  }

  /** Times, progress and lock of one append. */
  predicate Progress(c: Codec, s: State, id: nat)
    requires id in s.appends
  {
    var a := s.appends[id];
    && a.ino < s.next && a.from <= a.done <= Length(c, a)
    && (a.phase.Opened? ==> a.done == 0)
    && (a.done == 0 ==> a.from == 0)
    && (a.done > 0 ==> id <= a.startedAt < s.now && (id == a.startedAt ==> a.phase.Acked?))
    && (a.phase.Acked? ==> a.done == Length(c, a))
    && (a.phase.Dead? ==> a.done < Length(c, a))
    && (a.phase.Writing? ==> a.ino in s.lock && s.lock[a.ino] == Writer(id))
  }

  /** Rotation windows: a whole line never fell into one and was not glued, and a line in progress
      has lost its beginning exactly when it fell into one. Between rename and re-creation the appends that opened since
      the rename are exactly those on the inode they created. */
  ghost predicate Rotating(c: Codec, s: State, id: nat)
    requires id in s.appends
  {
    var a := s.appends[id];
    && (forall x :: x in s.logs && id in s.logs[x] ==>
          a.done == Length(c, a) && !a.glued && !InRotationWindow(s.windows, id, a.startedAt))
    && (0 < a.done < Length(c, a) && !a.phase.Dead? ==> (a.from > 0 <==> InRotationWindow(s.windows, id, a.startedAt)))
    && (s.maint.RotRenamed? ==>
          && (id > s.maint.renamed <==> Cur in s.dir && a.ino == s.dir[Cur])
          && (forall x :: x in s.logs && id in s.logs[x] ==>
                (id > s.maint.renamed <==> Cur in s.dir && x == s.dir[Cur])))
  }

  /** Cleanup: a whole line outside its own inode is a copy made before the re-read; an append on a
      replaced inode opened before the rename, and wrote before the re-read or after the rename. */
  ghost predicate Cleaning(s: State, id: nat)
    requires id in s.appends
  {
    var a := s.appends[id];
    && (forall x :: x in s.logs && id in s.logs[x] && x != a.ino ==>
          && a.phase.Acked?
          && (|| (a.ino in s.cleans && a.startedAt < s.cleans[a.ino].reread)
              || (IsTmp(s, x) && a.ino == s.maint.ino && a.startedAt < s.maint.reread)))
    && (a.ino in s.cleans ==>
          var w := s.cleans[a.ino];
          && id < w.at
          && (a.done > 0 ==> a.startedAt > w.at || ((a.phase.Acked? || a.phase.Dead?) && a.startedAt < w.reread)))
    && (!a.phase.Acked? ==> !IsTmp(s, a.ino))
    && (s.maint.ClnBuilt? && a.ino == s.maint.ino && a.done > 0 ==>
          (a.phase.Acked? || a.phase.Dead?) && a.startedAt < s.maint.reread)
    && (s.maint.ClnBuilt? && HasLine(s, s.maint.ino, id) && !HasLine(s, s.maint.tmp, id) ==> a.ev.ts < s.maint.cutoff)
    && (id in s.expired ==>
          a.phase.Acked? && a.ev.ts < s.expired[id] && forall x :: x in s.logs && id in s.logs[x] ==> x in s.cleans)
  }

  /** One line lives in one inode, replaced ones and the unfinished copy aside. */
  ghost predicate Unique(s: State, id: nat) {
    forall x, y :: x in s.logs && id in s.logs[x] && y in s.logs && id in s.logs[y] && x != y ==>
      || x in s.cleans || y in s.cleans
      || (s.maint.ClnBuilt? && (x == s.maint.tmp || y == s.maint.tmp) && (x == s.maint.ino || y == s.maint.ino))
  }

  /** Every completely written append is somewhere, or its loss has a name. */
  ghost predicate Accounted(c: Codec, s: State, id: nat)
    requires id in s.appends
  {
    var a := s.appends[id];
    a.done == Length(c, a) ==>
      if IsTmp(s, a.ino) then a.ino in s.logs && id in s.logs[a.ino]
      else
        || a.glued || InRotationWindow(s.windows, id, a.startedAt) || InCleanupWindow(s, id) || id in s.expired
        || exists x :: x in s.logs && id in s.logs[x] && x !in s.cleans && !IsTmp(s, x)
  }

  /** Everything known about one append. */
  ghost predicate Thread(c: Codec, s: State, id: nat) {
    id in s.appends ==>
      Progress(c, s, id) && Rotating(c, s, id) && Cleaning(s, id) && Unique(s, id) && Accounted(c, s, id)
  }

  ghost predicate Inv(c: Codec, s: State) {
    Names(s) && Holding(s) && History(s) && (forall x :: Fate(s, x)) && (forall id :: Thread(c, s, id))
  }

  // ---------- names ----------

  lemma EnsureNames(s: State)
    requires Names(s) && (s.maint.ClnBuilt? ==> s.maint.tmp < s.next)
    ensures Names(Ensure(s))
  {
    if Cur !in s.dir {
      var s' := Ensure(s);
      assert forall n :: n in s'.dir ==> (n == Cur && s'.dir[n] == s.next) || (n in s.dir && s'.dir[n] == s.dir[n]);
    }
  }

  lemma RenameNames(s: State, from: Name, to: Name)
    requires Names(s) && from in s.dir && from != to
    ensures Names(Rename(s, from, to))
  {
  }

  lemma DropNames(limit: nat, s: State)
    requires Names(s)
    ensures Names(DropEffect(limit, s))
  {
  }

  lemma BuildNames(c: Codec, s: State, k: nat)
    requires Names(s) && s.maint.ClnRead? && CanRead(c, s)
    ensures Names(BuildEffect(c, s, k))
  {
    var s' := BuildEffect(c, s, k);
    assert forall x: nat :: x in s'.logs <==> x in s.logs || x == s.next;
  }

  lemma ReplaceNames(s: State)
    requires Names(s) && Holding(s) && s.maint.ClnBuilt?
    ensures Names(ReplaceEffect(s))
  {
    var s' := ReplaceEffect(s);
    assert forall x :: x in s'.cleans <==> x in s.cleans || x == s.maint.ino;
  }

  /** Nothing about names depends on the fields that most steps change. */
  lemma NamesFrame(s: State, s': State)
    requires Names(s) && (s'.maint == s.maint || !s'.maint.ClnBuilt?)
    requires s'.logs.Keys == s.logs.Keys && s'.next == s.next && s'.dir == s.dir && s'.retired == s.retired
    requires s'.cleans == s.cleans
    ensures Names(s')
  {
    assert forall x: nat :: x in s'.logs <==> x in s'.logs.Keys;
    assert forall x: nat :: x in s.logs <==> x in s.logs.Keys;
  }

  // ---------- fates ----------

  lemma EnsureFate(s: State, x: nat)
    requires Fate(s, x)
    ensures Fate(Ensure(s), x)
  {
    var s' := Ensure(s);
    if x == s.next && Cur !in s.dir {
      assert s'.dir[Cur] == x;
    } else if n :| n in s.dir && s.dir[n] == x {
      assert n in s'.dir && (n == Cur ==> Cur in s.dir) && s'.dir[n] == x;
    }
  }

  lemma RenameFate(s: State, from: Name, to: Name, x: nat)
    requires Fate(s, x) && from in s.dir && from != to
    ensures Fate(Rename(s, from, to), x)
  {
    var s' := Rename(s, from, to);
    if n :| n in s.dir && s.dir[n] == x {
      var n' := if n == from then to else n;
      assert x in s'.retired || (n' in s'.dir && s'.dir[n'] == x);
    }
  }

  lemma DropFate(limit: nat, s: State, x: nat)
    requires Fate(s, x)
    ensures Fate(DropEffect(limit, s), x)
  {
    if n :| n in s.dir && s.dir[n] == x { assert n != Arch(limit + 1) ==> DropEffect(limit, s).dir[n] == x; }
  }

  lemma ReplaceFate(s: State, x: nat)
    requires Holding(s) && Fate(s, x) && s.maint.ClnBuilt?
    ensures Fate(ReplaceEffect(s), x)
  {
    var s' := ReplaceEffect(s);
    if n :| n in s.dir && s.dir[n] == x { assert n != Cur ==> s'.dir[n] == x; }
    assert s'.dir[Cur] == s.maint.tmp;
  }

  lemma FateFrame(s: State, s': State, x: nat)
    requires Fate(s, x) && (s'.maint == s.maint || !s.maint.ClnBuilt?)
    requires s'.dir == s.dir && s'.retired == s.retired && s'.cleans == s.cleans
    requires s'.next == s.next || (s'.next == s.next + 1 && IsTmp(s', s.next))
    ensures Fate(s', x)
  {
  }
}
