/** Rotation into numbered archives, any call of which may fail. */
module WalRotation {
  import opened Common

  // ---------- the code ----------

  /** Which calls fail: the shift renames by source index, the rename of the current file, the
      creation of the new one, and the removal beyond the limit. */
  datatype Faults = Faults(shift: set<nat>, rename: bool, create: bool, remove: bool)

  const NoFaults := Faults({}, false, false, false)

  /** One shift rename; a failure is logged and passed over. */
  function ShiftOne<T>(arch: map<nat, T>, i: nat, failed: set<nat>): map<nat, T> {
    if i in arch && i !in failed then arch[i + 1 := arch[i]] - {i} else arch
  }

  /** Shifts archives `top`, `top - 1`, ..., 1. */
  function Shift<T>(arch: map<nat, T>, top: nat, failed: set<nat>): map<nat, T>
    decreases top
  {
    if top == 0 then arch else Shift(ShiftOne(arch, top, failed), top - 1, failed)
  }

  function Top(limit: nat): nat { if limit == 0 then 0 else limit - 1 }

  class LogDir {
    var cur: Option<string>
    var arch: map<nat, string>

    constructor (cur: Option<string>, arch: map<nat, string>)
      ensures this.cur == cur && this.arch == arch
    {
      this.cur, this.arch := cur, arch;
    }

    /** Opens with `create(true)`: a missing current file is created. */
    method Append(line: string)
      modifies this
      ensures cur == Some(if old(cur).Some? then old(cur).value + line else line)
      ensures arch == old(arch)
    {
      cur := Some(if cur.Some? then cur.value + line else line);
    }

    method Rotate(maxSize: nat, limit: nat, f: Faults) returns (ok: bool)
      modifies this
      ensures var due := old(cur).Some? && |old(cur).value| >= maxSize;
        && (ok, cur, arch) == RotateSpec(old(cur), old(arch), due, "", limit, f)
        && (ok <==> !due || (!f.rename && !f.create))
    {
      if cur.None? || |cur.value| < maxSize { return true; }
      var i: nat := if limit == 0 then 0 else limit - 1;
      ghost var top := i;
      while i > 0
        invariant i <= top && cur == old(cur)
        invariant Shift(arch, i, f.shift) == Shift(old(arch), top, f.shift)
      {
        arch := ShiftOne(arch, i, f.shift);
        i := i - 1;
      }
      if f.rename { return false; }
      arch := arch[1 := cur.value];
      cur := None;
      if f.create { return false; }
      cur := Some("");
      assert limit + 1 !in arch ==> arch - {limit + 1} == arch;
      if limit + 1 in arch && !f.remove { arch := arch - {limit + 1}; }
      ok := true;
    }
  }

  /** Rotation as a function of the directory; `empty` is what a new current file holds. */
  function RotateSpec<T>(cur: Option<T>, arch: map<nat, T>, due: bool, empty: T, limit: nat, f: Faults)
    : (bool, Option<T>, map<nat, T>)
  {
    if cur.None? || !due then (true, cur, arch)
    else
      var shifted := Shift(arch, Top(limit), f.shift);
      if f.rename then (false, cur, shifted)
      else if f.create then (false, None, shifted[1 := cur.value])
      else (true, Some(empty), if f.remove then shifted[1 := cur.value] else shifted[1 := cur.value] - {limit + 1})
  }

  /** Archive `i` is shifted. */
  predicate Moves<T>(arch: map<nat, T>, i: int, top: nat, failed: set<nat>) {
    1 <= i <= top && i in arch && i !in failed
  }

  /** The shift loop takes every archive it can one index up; what stays is overwritten if the one
      below it moves. */
  lemma {:induction false} ShiftAt<T>(arch: map<nat, T>, top: nat, failed: set<nat>, k: nat)
    ensures var r := Shift(arch, top, failed);
      if Moves(arch, k - 1, top, failed) then k in r && r[k] == arch[k - 1]
      else if Moves(arch, k, top, failed) then k !in r
      else (k in r <==> k in arch) && (k in arch ==> r[k] == arch[k])
    decreases top
  {
    if top > 0 { ShiftAt(ShiftOne(arch, top, failed), top - 1, failed, k); }
  }

  // ---------- which segments are kept ----------

  /** A directory with its history: `segs` are all segments ever begun, oldest first; the files hold
      the segments whose numbers are given. */
  datatype Dir = Dir(cur: Option<nat>, arch: map<nat, nat>, segs: seq<string>)

  const EmptyLog := Dir(Some(0), map[], [""])

  /** The number of closed segments. */
  function Closed(d: Dir): int { if d.cur.Some? then |d.segs| - 1 else |d.segs| }

  ghost predicate Well(d: Dir, limit: nat) {
    && (d.cur.Some? ==> d.cur.value == |d.segs| - 1)
    && forall i :: i in d.arch ==> 1 <= i && (i <= limit || i == 1) && d.arch[i] < Closed(d)
  }

  datatype DirOp = Write(line: string) | Rotation(maxSize: nat, faults: Faults)

  predicate Due(d: Dir, maxSize: nat) { d.cur.Some? && d.cur.value < |d.segs| && |d.segs[d.cur.value]| >= maxSize }

  function DirStep(d: Dir, limit: nat, op: DirOp): Dir {
    match op
    case Write(line) =>
      if d.cur.Some? && d.cur.value < |d.segs| then d.(segs := d.segs[d.cur.value := d.segs[d.cur.value] + line])
      else Dir(Some(|d.segs|), d.arch, d.segs + [line])
    case Rotation(maxSize, f) =>
      var (_, cur, arch) := RotateSpec<nat>(d.cur, d.arch, Due(d, maxSize), |d.segs|, limit, f);
      Dir(cur, arch, if cur == Some(|d.segs|) then d.segs + [""] else d.segs)
  }

  function DirRun(d: Dir, limit: nat, ops: seq<DirOp>): Dir
    decreases |ops|
  {
    if ops == [] then d else DirRun(DirStep(d, limit, ops[0]), limit, ops[1..])
  }

  predicate InRange(arch: map<nat, nat>, segs: seq<string>) { forall i :: i in arch ==> arch[i] < |segs| }

  /** What the files named by `arch` hold. */
  function Texts(arch: map<nat, nat>, segs: seq<string>): map<nat, string>
    requires InRange(arch, segs)
  {
    map i | i in arch :: segs[arch[i]]
  }

  function Current(d: Dir): Option<string> {
    if d.cur.Some? && d.cur.value < |d.segs| then Some(d.segs[d.cur.value]) else None
  }

  lemma {:induction false} ShiftTexts(arch: map<nat, nat>, segs: seq<string>, top: nat, failed: set<nat>)
    requires InRange(arch, segs)
    ensures InRange(Shift<nat>(arch, top, failed), segs)
    ensures Texts(Shift<nat>(arch, top, failed), segs) == Shift<string>(Texts(arch, segs), top, failed)
    decreases top
  {
    if top > 0 {
      assert Texts(ShiftOne<nat>(arch, top, failed), segs) == ShiftOne<string>(Texts(arch, segs), top, failed);
      ShiftTexts(ShiftOne<nat>(arch, top, failed), segs, top - 1, failed);
    }
  }

  lemma TextsAfter(arch: map<nat, nat>, segs: seq<string>, n: nat, gone: nat)
    requires InRange(arch, segs) && n < |segs|
    ensures var more := segs + [""];
      && InRange(arch[1 := n], segs) && Texts(arch[1 := n], segs) == Texts(arch, segs)[1 := segs[n]]
      && InRange(arch[1 := n], more) && Texts(arch[1 := n], more) == Texts(arch, segs)[1 := segs[n]]
      && InRange(arch[1 := n] - {gone}, more)
      && Texts(arch[1 := n] - {gone}, more) == Texts(arch, segs)[1 := segs[n]] - {gone}
  {
  }

  /** The numbered directory rotates as the files do. */
  lemma RotationOnDisk(d: Dir, limit: nat, maxSize: nat, f: Faults)
    requires Well(d, limit)
    ensures var d' := DirStep(d, limit, Rotation(maxSize, f));
      var due := Current(d).Some? && |Current(d).value| >= maxSize;
      var (_, cur, arch) := RotateSpec<string>(Current(d), Texts(d.arch, d.segs), due, "", limit, f);
      InRange(d'.arch, d'.segs) && Current(d') == cur && Texts(d'.arch, d'.segs) == arch
  {
    ShiftTexts(d.arch, d.segs, Top(limit), f.shift);
    if Due(d, maxSize) {
      TextsAfter(Shift<nat>(d.arch, Top(limit), f.shift), d.segs, d.cur.value, limit + 1);
    }
  }

  /** Higher archives are older. */
  ghost predicate InOrder(d: Dir) { forall i, j :: i in d.arch && j in d.arch && i < j ==> d.arch[i] > d.arch[j] }

  /** No closed segment is missing that is newer than one which is kept. */
  ghost predicate NoHole(d: Dir) {
    forall i, s :: i in d.arch && d.arch[i] <= s < Closed(d) ==> s in d.arch.Values
  }

  /** The files hold the newest segments, in order: only oldest ones are gone. */
  ghost predicate NewestKept(d: Dir) { InOrder(d) && NoHole(d) }

  /** Archive `i` stays where it is and another file is renamed over it. */
  predicate Overwritten(arch: map<nat, nat>, i: nat, limit: nat, f: Faults) {
    && i in arch && !Moves(arch, i, Top(limit), f.shift)
    && (Moves(arch, i - 1, Top(limit), f.shift) || (i == 1 && !f.rename))
  }

  /** No archive is overwritten but the oldest. */
  ghost predicate Harmless(d: Dir, limit: nat, op: DirOp) {
    op.Rotation? && Due(d, op.maxSize) ==>
      forall i, j :: i in d.arch && j in d.arch && i < j ==> !Overwritten(d.arch, i, limit, op.faults)
  }

  /** Where archive `i` is after the shifts. */
  function Place(arch: map<nat, nat>, i: nat, limit: nat, f: Faults): nat {
    if Moves(arch, i, Top(limit), f.shift) then i + 1 else i
  }

  /** The archives after a rotation that was due: the survivors in their places, and the closed
      segment as archive 1. */
  lemma RotatedAt(d: Dir, limit: nat, maxSize: nat, f: Faults, k: nat)
    requires Well(d, limit) && Due(d, maxSize)
    ensures var d' := DirStep(d, limit, Rotation(maxSize, f));
      && (k in d'.arch && !(k == 1 && !f.rename) ==>
            exists i :: i in d.arch && !Overwritten(d.arch, i, limit, f) && k == Place(d.arch, i, limit, f)
                        && d'.arch[k] == d.arch[i])
      && (k in d'.arch && k == 1 && !f.rename ==> d'.arch[k] == Closed(d))
  {
    ShiftAt(d.arch, Top(limit), f.shift, k);
    if k > 0 && Moves(d.arch, k - 1, Top(limit), f.shift) {
      assert Place(d.arch, k - 1, limit, f) == k;
    } else if k in d.arch && !Moves(d.arch, k, Top(limit), f.shift) {
      assert Place(d.arch, k, limit, f) == k;
    }
  }

  /** No survivor is lost. */
  lemma SurvivorAt(d: Dir, limit: nat, maxSize: nat, f: Faults, i: nat)
    requires Well(d, limit) && Due(d, maxSize) && i in d.arch && !Overwritten(d.arch, i, limit, f)
    ensures var d', p := DirStep(d, limit, Rotation(maxSize, f)), Place(d.arch, i, limit, f);
      p in d'.arch && d'.arch[p] == d.arch[i]
  {
    ShiftAt(d.arch, Top(limit), f.shift, Place(d.arch, i, limit, f));
  }

  lemma RotatedCurrent(d: Dir, limit: nat, maxSize: nat, f: Faults)
    requires Well(d, limit) && Due(d, maxSize)
    ensures var d' := DirStep(d, limit, Rotation(maxSize, f));
      && Closed(d') == (if f.rename then Closed(d) else Closed(d) + 1)
      && (!f.rename && (limit > 0 || f.create || f.remove) ==> 1 in d'.arch)
      && (!f.rename && limit == 0 && !f.create && !f.remove ==> 1 !in d'.arch)
  {
  }

  lemma WellStep(d: Dir, limit: nat, op: DirOp)
    requires Well(d, limit)
    ensures Well(DirStep(d, limit, op), limit)
  {
    if op.Rotation? && Due(d, op.maxSize) {
      var d' := DirStep(d, limit, op);
      RotatedCurrent(d, limit, op.maxSize, op.faults);
      forall k | k in d'.arch ensures 1 <= k && (k <= limit || k == 1) && d'.arch[k] < Closed(d') {
        RotatedAt(d, limit, op.maxSize, op.faults, k);
      }
    }
  }

  /** Survivors keep their order, and the newly closed segment comes first. */
  lemma OrderStep(d: Dir, limit: nat, maxSize: nat, f: Faults)
    requires Well(d, limit) && Due(d, maxSize) && InOrder(d)
    ensures InOrder(DirStep(d, limit, Rotation(maxSize, f)))
  {
    var d' := DirStep(d, limit, Rotation(maxSize, f));
    forall k, l | k in d'.arch && l in d'.arch && k < l ensures d'.arch[k] > d'.arch[l] {
      RotatedAt(d, limit, maxSize, f, k);
      RotatedAt(d, limit, maxSize, f, l);
    }
  }

  lemma HarmlessKeeps(d: Dir, limit: nat, maxSize: nat, f: Faults)
    requires Well(d, limit) && Due(d, maxSize) && NewestKept(d) && Harmless(d, limit, Rotation(maxSize, f))
    ensures NoHole(DirStep(d, limit, Rotation(maxSize, f)))
  {
    var d' := DirStep(d, limit, Rotation(maxSize, f));
    RotatedCurrent(d, limit, maxSize, f);
    forall k, s | k in d'.arch && d'.arch[k] <= s < Closed(d') ensures s in d'.arch.Values {
      RotatedAt(d, limit, maxSize, f, k);
      if s == Closed(d) {
        RotatedAt(d, limit, maxSize, f, 1);
        assert d'.arch[1] == s;
      } else {
        var i :| i in d.arch && !Overwritten(d.arch, i, limit, f) && d'.arch[k] == d.arch[i];
        assert s in d.arch.Values;
        var j :| j in d.arch && d.arch[j] == s;
        if j != i { assert j < i; }
        SurvivorAt(d, limit, maxSize, f, j);
      }
    }
  }

  /** The archive next above `i`. */
  lemma {:induction false} NextUp(arch: map<nat, nat>, i: nat, j: nat) returns (k: nat)
    requires j in arch && i < j
    ensures k in arch && i < k <= j && forall m :: i < m < k ==> m !in arch
    decreases j - i
  {
    if i + 1 in arch { k := i + 1; } else { k := NextUp(arch, i + 1, j); }
  }

  lemma OverwrittenIsGone(d: Dir, limit: nat, maxSize: nat, f: Faults, i: nat)
    requires Well(d, limit) && Due(d, maxSize) && InOrder(d) && Overwritten(d.arch, i, limit, f)
    ensures d.arch[i] !in DirStep(d, limit, Rotation(maxSize, f)).arch.Values
  {
    var d' := DirStep(d, limit, Rotation(maxSize, f));
    forall l | l in d'.arch ensures d'.arch[l] != d.arch[i] { RotatedAt(d, limit, maxSize, f, l); }
  }

  lemma NextSurvives(d: Dir, limit: nat, maxSize: nat, f: Faults, i: nat, j: nat) returns (k: nat)
    requires Well(d, limit) && Due(d, maxSize) && Overwritten(d.arch, i, limit, f) && j in d.arch && i < j
    ensures k in d.arch && i < k && !Overwritten(d.arch, k, limit, f)
  {
    k := NextUp(d.arch, i, j);
  }

  lemma HarmLoses(d: Dir, limit: nat, maxSize: nat, f: Faults)
    requires Well(d, limit) && Due(d, maxSize) && NewestKept(d) && !Harmless(d, limit, Rotation(maxSize, f))
    ensures !NoHole(DirStep(d, limit, Rotation(maxSize, f)))
  {
    var d' := DirStep(d, limit, Rotation(maxSize, f));
    var i, j :| i in d.arch && j in d.arch && i < j && Overwritten(d.arch, i, limit, f);
    var k := NextSurvives(d, limit, maxSize, f, i, j);
    SurvivorAt(d, limit, maxSize, f, k);
    RotatedCurrent(d, limit, maxSize, f);
    OverwrittenIsGone(d, limit, maxSize, f, i);
    HoleAt(d', Place(d.arch, k, limit, f), d.arch[i]);
  }

  lemma HoleAt(d: Dir, i: nat, s: nat)
    requires i in d.arch && d.arch[i] <= s < Closed(d) && s !in d.arch.Values
    ensures !NoHole(d)
  {
  }

  /** A rotation, whatever fails in it, keeps the newest segments if and only if no archive but the
      oldest is overwritten. */
  lemma RotateKeepsNewestIff(d: Dir, limit: nat, op: DirOp)
    requires Well(d, limit) && NewestKept(d)
    ensures NewestKept(DirStep(d, limit, op)) <==> Harmless(d, limit, op)
  {
    if op.Rotation? && Due(d, op.maxSize) {
      OrderStep(d, limit, op.maxSize, op.faults);
      if Harmless(d, limit, op) {
        HarmlessKeeps(d, limit, op.maxSize, op.faults);
      } else {
        HarmLoses(d, limit, op.maxSize, op.faults);
      }
    }
  }

  ghost predicate AlwaysNewest(d: Dir, limit: nat, ops: seq<DirOp>)
    decreases |ops|
  {
    NewestKept(d) && (ops == [] || AlwaysNewest(DirStep(d, limit, ops[0]), limit, ops[1..]))
  }

  ghost predicate AllHarmless(d: Dir, limit: nat, ops: seq<DirOp>)
    decreases |ops|
  {
    ops == [] || (Harmless(d, limit, ops[0]) && AllHarmless(DirStep(d, limit, ops[0]), limit, ops[1..]))
  }

  lemma {:induction false} WellRun(d: Dir, limit: nat, ops: seq<DirOp>)
    requires Well(d, limit)
    ensures Well(DirRun(d, limit, ops), limit)
    decreases |ops|
  {
    if ops != [] {
      WellStep(d, limit, ops[0]);
      WellRun(DirStep(d, limit, ops[0]), limit, ops[1..]);
    }
  }

  /** Over every run of appends and rotations, any call of which may fail: the files hold the newest
      segments, in order, at every point if and only if no rotation overwrites an archive that is not
      the oldest. */
  lemma {:induction false} RotationKeepsNewestIff(d: Dir, limit: nat, ops: seq<DirOp>)
    requires Well(d, limit) && NewestKept(d)
    ensures AlwaysNewest(d, limit, ops) <==> AllHarmless(d, limit, ops)
    decreases |ops|
  {
    if ops != [] {
      var d' := DirStep(d, limit, ops[0]);
      WellStep(d, limit, ops[0]);
      RotateKeepsNewestIff(d, limit, ops[0]);
      if NewestKept(d') { RotationKeepsNewestIff(d', limit, ops[1..]); }
    }
  }

  lemma {:induction false} EndsNewest(d: Dir, limit: nat, ops: seq<DirOp>)
    requires AlwaysNewest(d, limit, ops)
    ensures NewestKept(DirRun(d, limit, ops))
    decreases |ops|
  {
    if ops != [] { EndsNewest(DirStep(d, limit, ops[0]), limit, ops[1..]); }
  }

  // ---------- contiguous archives ----------

  predicate Contiguous(arch: map<nat, nat>, n: nat) {
    (forall i :: i in arch ==> 1 <= i <= n) && forall i: nat :: 1 <= i <= n ==> i in arch
  }

  /** The newest segments, as archives 1 to some `n` within the limit. */
  ghost predicate Tidy(d: Dir, limit: nat) { NewestKept(d) && exists n: nat :: n <= limit && Contiguous(d.arch, n) }

  /** No shift fails but that of the oldest archive; or the rename fails and every shift with it. */
  ghost predicate Clean(d: Dir, limit: nat, op: DirOp) {
    op.Rotation? && Due(d, op.maxSize) ==>
      if op.faults.rename then forall i :: i in d.arch && i < limit ==> i in op.faults.shift
      else
        && (forall i :: i in d.arch && i + 1 in d.arch ==> i !in op.faults.shift)
        && (limit == 0 ==> !op.faults.create && !op.faults.remove)
  }

  /** How many archives a clean rotation leaves of `n`. */
  function NextCount(n: nat, limit: nat, f: Faults): nat {
    if limit == 0 then 0 else if n == limit || (n >= 1 && n in f.shift) then n else n + 1
  }

  lemma CleanCount(d: Dir, limit: nat, maxSize: nat, f: Faults, n: nat)
    requires Well(d, limit) && Due(d, maxSize) && n <= limit && Contiguous(d.arch, n)
    requires !f.rename && Clean(d, limit, Rotation(maxSize, f))
    ensures Contiguous(DirStep(d, limit, Rotation(maxSize, f)).arch, NextCount(n, limit, f))
  {
    var d', m := DirStep(d, limit, Rotation(maxSize, f)), NextCount(n, limit, f);
    RotatedCurrent(d, limit, maxSize, f);
    forall k | k in d'.arch ensures 1 <= k <= m { RotatedAt(d, limit, maxSize, f, k); }
    forall k: nat | 1 <= k <= m ensures k in d'.arch {
      if k > 1 {
        assert k <= n ==> k - 1 in d.arch && k - 1 + 1 in d.arch;
        assert Moves(d.arch, k - 1, Top(limit), f.shift);
        SurvivorAt(d, limit, maxSize, f, k - 1);
      }
    }
  }

  lemma CleanIsHarmless(d: Dir, limit: nat, op: DirOp, n: nat)
    requires n <= limit && Contiguous(d.arch, n) && Clean(d, limit, op)
    ensures Harmless(d, limit, op)
  {
    if op.Rotation? && Due(d, op.maxSize) {
      forall i, j | i in d.arch && j in d.arch && i < j ensures !Overwritten(d.arch, i, limit, op.faults) {
        assert i + 1 in d.arch;
      }
    }
  }

  /** The lowest archive that is shifted. */
  lemma {:induction false} LowestMover(arch: map<nat, nat>, top: nat, failed: set<nat>, i: nat) returns (k: nat)
    requires Moves(arch, i, top, failed)
    ensures Moves(arch, k, top, failed) && !Moves(arch, k - 1, top, failed)
  {
    if Moves(arch, i - 1, top, failed) { k := LowestMover(arch, top, failed, i - 1); } else { k := i; }
  }

  /** A rename that fails after a shift leaves a gap. */
  lemma StrandedShift(d: Dir, limit: nat, maxSize: nat, f: Faults, n: nat)
    requires Well(d, limit) && Due(d, maxSize) && f.rename && !Clean(d, limit, Rotation(maxSize, f))
    ensures !Contiguous(DirStep(d, limit, Rotation(maxSize, f)).arch, n)
  {
    var i :| i in d.arch && i < limit && i !in f.shift;
    var k := LowestMover(d.arch, Top(limit), f.shift, i);
    ShiftAt(d.arch, Top(limit), f.shift, k);
    ShiftAt(d.arch, Top(limit), f.shift, k + 1);
  }

  lemma NothingShifted(d: Dir, limit: nat, maxSize: nat, f: Faults)
    requires Well(d, limit) && Due(d, maxSize) && f.rename && Clean(d, limit, Rotation(maxSize, f))
    ensures DirStep(d, limit, Rotation(maxSize, f)) == d
  {
    forall k: nat
      ensures k in Shift(d.arch, Top(limit), f.shift) <==> k in d.arch
      ensures k in d.arch ==> Shift(d.arch, Top(limit), f.shift)[k] == d.arch[k]
    {
      ShiftAt(d.arch, Top(limit), f.shift, k);
    }
    assert Shift(d.arch, Top(limit), f.shift) == d.arch;
  }

  /** The lowest archive that is not the oldest and whose shift fails. */
  lemma {:induction false} LowestFailure(arch: map<nat, nat>, failed: set<nat>, n: nat, i: nat) returns (k: nat)
    requires Contiguous(arch, n) && 1 <= i < n && i in failed
    ensures 1 <= k < n && k in failed && (k == 1 || k - 1 !in failed)
  {
    if i > 1 && i - 1 in failed { k := LowestFailure(arch, failed, n, i - 1); } else { k := i; }
  }

  lemma UncleanHarms(d: Dir, limit: nat, maxSize: nat, f: Faults, n: nat)
    requires Well(d, limit) && Due(d, maxSize) && !f.rename && n <= limit && Contiguous(d.arch, n)
    requires exists i :: i in d.arch && i + 1 in d.arch && i in f.shift
    ensures !Harmless(d, limit, Rotation(maxSize, f))
  {
    var i :| i in d.arch && i + 1 in d.arch && i in f.shift;
    var k := LowestFailure(d.arch, f.shift, n, i);
    assert Overwritten(d.arch, k, limit, f) && k + 1 in d.arch;
  }

  /** From archives 1 to n a rotation leads to archives 1 to some n' within the limit, holding the
      newest segments, if and only if no shift fails but that of the oldest; or, when the rename
      fails, every shift does. */
  lemma RotateStaysTidyIff(d: Dir, limit: nat, op: DirOp)
    requires Well(d, limit) && Tidy(d, limit)
    ensures Tidy(DirStep(d, limit, op), limit) <==> Clean(d, limit, op)
  {
    if op.Rotation? && Due(d, op.maxSize) {
      var d', f := DirStep(d, limit, op), op.faults;
      var n: nat :| n <= limit && Contiguous(d.arch, n);
      RotateKeepsNewestIff(d, limit, op);
      if f.rename {
        if Clean(d, limit, op) {
          NothingShifted(d, limit, op.maxSize, f);
        } else {
          forall m: nat | Contiguous(d'.arch, m) ensures false { StrandedShift(d, limit, op.maxSize, f, m); }
        }
      } else if Clean(d, limit, op) {
        CleanIsHarmless(d, limit, op, n);
        CleanCount(d, limit, op.maxSize, f, n);
      } else if limit == 0 && (f.create || f.remove) {
        RotatedCurrent(d, limit, op.maxSize, f);
      } else {
        UncleanHarms(d, limit, op.maxSize, f, n);
      }
    }
  }

  ghost predicate AlwaysTidy(d: Dir, limit: nat, ops: seq<DirOp>)
    decreases |ops|
  {
    Tidy(d, limit) && (ops == [] || AlwaysTidy(DirStep(d, limit, ops[0]), limit, ops[1..]))
  }

  ghost predicate AllClean(d: Dir, limit: nat, ops: seq<DirOp>)
    decreases |ops|
  {
    ops == [] || (Clean(d, limit, ops[0]) && AllClean(DirStep(d, limit, ops[0]), limit, ops[1..]))
  }

  /** Over every run of appends and rotations, any call of which may fail: the archives are a
      contiguous 1 to k with k at most the limit, and hold the newest closed segments, at every point
      if and only if every rotation is clean. */
  lemma {:induction false} RotationStaysTidyIff(d: Dir, limit: nat, ops: seq<DirOp>)
    requires Well(d, limit) && Tidy(d, limit)
    ensures AlwaysTidy(d, limit, ops) <==> AllClean(d, limit, ops)
    decreases |ops|
  {
    if ops != [] {
      var d' := DirStep(d, limit, ops[0]);
      WellStep(d, limit, ops[0]);
      RotateStaysTidyIff(d, limit, ops[0]);
      if Tidy(d', limit) { RotationStaysTidyIff(d', limit, ops[1..]); }
    }
  }

  // ---------- the text that is kept ----------

  function Flatten(segs: seq<string>): string { if segs == [] then "" else segs[0] + Flatten(segs[1..]) }

  function Appended(ops: seq<DirOp>): string {
    if ops == [] then "" else (if ops[0].Write? then ops[0].line else "") + Appended(ops[1..])
  }

  /** Archive k, ..., archive 1 run together, missing ones passed over. */
  function Archives(arch: map<nat, string>, k: nat): string {
    if k == 0 then "" else (if k in arch then arch[k] else "") + Archives(arch, k - 1)
  }

  lemma {:induction false} FlattenConcat(a: seq<string>, b: seq<string>)
    ensures Flatten(a + b) == Flatten(a) + Flatten(b)
  {
    if a == [] {
      assert a + b == b;
    } else {
      assert (a + b)[1..] == a[1..] + b;
      FlattenConcat(a[1..], b);
    }
  }

  lemma FlattenOne(s: string)
    ensures Flatten([s]) == s
  {
    assert [s][1..] == [];
  }

  lemma StepAppends(d: Dir, limit: nat, op: DirOp)
    requires Well(d, limit)
    ensures Flatten(DirStep(d, limit, op).segs) == Flatten(d.segs) + if op.Write? then op.line else ""
  {
    if op.Write? && d.cur.Some? && d.cur.value < |d.segs| {
      var init, last := d.segs[..d.cur.value], d.segs[d.cur.value];
      assert d.segs == init + [last] && DirStep(d, limit, op).segs == init + [last + op.line];
      FlattenConcat(init, [last]);
      FlattenConcat(init, [last + op.line]);
      FlattenOne(last);
      FlattenOne(last + op.line);
    } else {
      var more := if op.Write? then op.line else "";
      FlattenConcat(d.segs, [more]);
      FlattenOne(more);
    }
  }

  lemma {:induction false} SegmentsAreWhatWasAppended(d: Dir, limit: nat, ops: seq<DirOp>)
    requires Well(d, limit)
    ensures Flatten(DirRun(d, limit, ops).segs) == Flatten(d.segs) + Appended(ops)
    decreases |ops|
  {
    if ops == [] {
      assert Flatten(d.segs) + "" == Flatten(d.segs);
    } else {
      StepAppends(d, limit, ops[0]);
      WellStep(d, limit, ops[0]);
      SegmentsAreWhatWasAppended(DirStep(d, limit, ops[0]), limit, ops[1..]);
      Assoc(Flatten(d.segs), if ops[0].Write? then ops[0].line else "", Appended(ops[1..]));
    }
  }

  /** The oldest segment kept in archives 1 to `k`, or the first that is not closed. */
  function Oldest(d: Dir, k: nat): int {
    if k == 0 then Closed(d) else if k in d.arch then d.arch[k] else Oldest(d, k - 1)
  }

  lemma {:induction false} OldestBounds(d: Dir, limit: nat, k: nat)
    requires Well(d, limit) && InOrder(d)
    ensures 0 <= Oldest(d, k) <= Closed(d) <= |d.segs|
    ensures forall i :: i in d.arch && i <= k ==> Oldest(d, k) <= d.arch[i]
    ensures Oldest(d, k) == Closed(d) || exists i :: i in d.arch && i <= k && d.arch[i] == Oldest(d, k)
  {
    if k > 0 { OldestBounds(d, limit, k - 1); }
  }

  /** The segments of archives in order have no gap between neighbours. */
  lemma NextOlder(d: Dir, limit: nat, k: nat)
    requires Well(d, limit) && NewestKept(d) && k > 0 && k in d.arch
    ensures Oldest(d, k - 1) == d.arch[k] + 1
  {
    OldestBounds(d, limit, k - 1);
    var s := d.arch[k] + 1;
    if s < Closed(d) {
      assert s in d.arch.Values;
      var i :| i in d.arch && d.arch[i] == s;
      assert i < k;
    }
  }

  lemma {:induction false} ArchivesAreSegments(d: Dir, limit: nat, k: nat)
    requires Well(d, limit) && NewestKept(d)
    ensures 0 <= Oldest(d, k) <= Closed(d) <= |d.segs|
    ensures Archives(Texts(d.arch, d.segs), k) == Flatten(d.segs[Oldest(d, k)..Closed(d)])
  {
    OldestBounds(d, limit, k);
    if k == 0 {
      assert d.segs[Closed(d)..Closed(d)] == [];
    } else {
      ArchivesAreSegments(d, limit, k - 1);
      if k in d.arch {
        NextOlder(d, limit, k);
        var from := d.arch[k];
        assert d.segs[from..Closed(d)] == [d.segs[from]] + d.segs[from + 1..Closed(d)];
      }
    }
  }

  function CurrentText(d: Dir): string { if Current(d).Some? then Current(d).value else "" }

  lemma KeptInDir(d: Dir, limit: nat)
    requires Well(d, limit) && NewestKept(d)
    ensures var lost := Oldest(d, limit + 1);
      && 0 <= lost <= |d.segs| && InRange(d.arch, d.segs)
      && Flatten(d.segs) == Flatten(d.segs[..lost]) + (Archives(Texts(d.arch, d.segs), limit + 1) + CurrentText(d))
  {
    ArchivesAreSegments(d, limit, limit + 1);
    KeptText(d.segs, Oldest(d, limit + 1), Closed(d), CurrentText(d));
  }

  /** After a run of harmless rotations the archives from the highest to the first and then the
      current file hold, in order and without a hole, everything appended except the oldest segments,
      which are lost whole. */
  lemma KeptIsASuffix(limit: nat, ops: seq<DirOp>)
    requires AllHarmless(EmptyLog, limit, ops)
    ensures var d := DirRun(EmptyLog, limit, ops);
      var lost := Oldest(d, limit + 1);
      && 0 <= lost <= |d.segs| && InRange(d.arch, d.segs) && (forall i :: i in d.arch ==> i <= limit + 1)
      && Appended(ops) == Flatten(d.segs[..lost]) + (Archives(Texts(d.arch, d.segs), limit + 1) + CurrentText(d))
  {
    RotationKeepsNewestIff(EmptyLog, limit, ops);
    EndsNewest(EmptyLog, limit, ops);
    WellRun(EmptyLog, limit, ops);
    EmptyAppends(limit, ops);
    KeptInDir(DirRun(EmptyLog, limit, ops), limit);
  }

  lemma EmptyAppends(limit: nat, ops: seq<DirOp>)
    ensures Flatten(DirRun(EmptyLog, limit, ops).segs) == Appended(ops)
  {
    SegmentsAreWhatWasAppended(EmptyLog, limit, ops);
    FlattenOne("");
    assert "" + Appended(ops) == Appended(ops);
  }

  lemma KeptText(segs: seq<string>, lost: int, closed: int, cur: string)
    requires 0 <= lost <= closed <= |segs|
    requires if closed == |segs| then cur == "" else closed == |segs| - 1 && cur == segs[closed]
    ensures Flatten(segs) == Flatten(segs[..lost]) + (Flatten(segs[lost..closed]) + cur)
  {
    var last := segs[closed..];
    assert Flatten(last) == cur by {
      if closed == |segs| { assert last == []; } else { assert last == [cur]; FlattenOne(cur); }
    }
    assert segs == segs[..lost] + (segs[lost..closed] + last);
    FlattenConcat(segs[..lost], segs[lost..closed] + last);
    FlattenConcat(segs[lost..closed], last);
  }

  // ---------- without faults ----------

  predicate FaultFree(ops: seq<DirOp>) { forall k :: 0 <= k < |ops| && ops[k].Rotation? ==> ops[k].faults == NoFaults }

  lemma {:induction false} FaultFreeRun(d: Dir, limit: nat, ops: seq<DirOp>)
    requires Well(d, limit) && d.cur.Some? && |d.segs| >= 1 && Tidy(d, limit) && FaultFree(ops)
    requires Contiguous(d.arch, Min(|d.segs| - 1, limit))
    ensures var d' := DirRun(d, limit, ops);
      && AllClean(d, limit, ops) && Tidy(d', limit) && Current(d').Some? && |d'.segs| >= 1
      && Contiguous(d'.arch, Min(|d'.segs| - 1, limit))
    decreases |ops|
  {
    if ops != [] {
      var d' := DirStep(d, limit, ops[0]);
      assert Clean(d, limit, ops[0]);
      WellStep(d, limit, ops[0]);
      RotateStaysTidyIff(d, limit, ops[0]);
      if ops[0].Rotation? && Due(d, ops[0].maxSize) {
        CleanCount(d, limit, ops[0].maxSize, NoFaults, Min(|d.segs| - 1, limit));
      }
      FaultFreeRun(d', limit, ops[1..]);
    }
  }

  lemma EmptyIsTidy(limit: nat)
    ensures Well(EmptyLog, limit) && Tidy(EmptyLog, limit) && Contiguous(EmptyLog.arch, 0)
  {
    assert Contiguous(EmptyLog.arch, 0);
  }

  /** Without faults, for every limit, 0 and 1 included: the archives are exactly the `limit` newest
      closed segments, numbered from 1 without a gap. */
  lemma RotationKeepsASuffix(limit: nat, ops: seq<DirOp>)
    requires FaultFree(ops)
    ensures var d := DirRun(EmptyLog, limit, ops);
      && |d.segs| >= 1 && d.cur == Some(|d.segs| - 1)
      && (forall i: nat :: i in d.arch <==> 1 <= i <= Min(|d.segs| - 1, limit))
      && (forall i :: i in d.arch ==> d.arch[i] == |d.segs| - 1 - i)
  {
    EmptyIsTidy(limit);
    FaultFreeRun(EmptyLog, limit, ops);
    WellRun(EmptyLog, limit, ops);
    var d := DirRun(EmptyLog, limit, ops);
    forall i: nat | i in d.arch ensures d.arch[i] == |d.segs| - 1 - i {
      Numbered(d, limit, Min(|d.segs| - 1, limit), i);
    }
  }

  lemma {:induction false} Numbered(d: Dir, limit: nat, n: nat, i: nat)
    requires Well(d, limit) && NewestKept(d) && Contiguous(d.arch, n) && 1 <= i <= n
    ensures d.arch[i] == Closed(d) - i
  {
    NextOlder(d, limit, i);
    if i > 1 { Numbered(d, limit, n, i - 1); }
  }

  /** One failed shift is only logged, and then a newer segment is lost while an older one stays. */
  lemma FailedShiftWitness()
    ensures var arch, f := map[1 := "b", 2 := "a"], Faults({1}, false, false, false);
      RotateSpec(Some("c"), arch, true, "", 2, f) == (true, Some(""), map[1 := "c", 2 := "a"])
  {
    var arch := map[1 := "b", 2 := "a"];
    assert Shift(arch, 1, {1}) == Shift(ShiftOne(arch, 1, {1}), 0, {1}) == arch;
    assert arch[1 := "c"] - {3} == map[1 := "c", 2 := "a"];
  }
}
