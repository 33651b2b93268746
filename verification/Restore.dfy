/** Restoring a backup, and what a crash may leave. */
module Restore {
  import opened Common
  import opened FileTrees
  import opened Leftovers

  /** The calls of the copy to the pre-restore path, of the copy to the temporary path, of the
      verification, and of the exchange or the rollback after it; each counts from zero. */
  datatype Faults = Faults(save: Io, temp: Io, verify: Io, swap: Io)

  /** The backup, the restore target, the pre-restore copy of the target, and the temporary copy. */
  datatype Snap = Snap(backup: Option<Node>, target: Option<Node>, pre: Option<Node>, temp: Option<Node>)

  /** Regular trees, and nothing fails but, possibly, the first removal at the pre-restore path and at
      the temporary one. */
  ghost predicate Undisturbed(s: Snap, io: Faults) {
    && s.backup.Some? && Regular(s.backup.value) && (s.target.Some? ==> Regular(s.target.value))
    && io.save(0).None? && NoFaultsFrom(io.save, 2) && NoFaultsFrom(io.temp, 1)
    && NoFaults(io.verify) && NoFaults(io.swap)
  }

  /** Then a restore succeeds exactly when its copies fit what those removals leave, the size check does
      not notice that, and no directory is to replace a file. */
  ghost predicate Succeeds(s: Snap, io: Faults)
    requires s.backup.Some?
  {
    && (s.target.Some? ==> Fits(s.target.value, LeftBy(s.pre, io.save(1))))
    && Passes(s.backup.value, LeftBy(s.temp, io.temp(0)), SizeCheck(s.backup.value))
    && !(s.target.Some? && s.target.value.File? && s.backup.value.Dir?)
  }

  /** The backup is untouched, and the target's old content is complete at the target or at the
      pre-restore path. */
  predicate Safe(before: Snap, s: Snap) {
    && s.backup == before.backup
    && (before.target.Some? ==>
          || (s.target.Some? && Covers(s.target.value, before.target.value))
          || (s.pre.Some? && Covers(s.pre.value, before.target.value)))
  }

  // ---------- single calls ----------

  /** A removal that fails leaves a part of the tree. */
  method RemoveDirAll(cur: Option<Node>, io: Io, start: nat) returns (ok: bool, now: Option<Node>, t: nat)
    ensures ok ==> now == None && io(start).None?
    ensures IsPart(now, cur) && t == start + 1
    ensures now ==
      if io(start).Some? then Remains(cur, io(start).value) else if cur.Some? && cur.value.Dir? then None else cur
    ensures io(start).None? && cur.Some? && cur.value.Dir? ==> ok
  {
    t := start + 1;
    PartOfItself(cur);
    if io(start).Some? { return false, Remains(cur, io(start).value), t; }
    if cur.Some? && cur.value.Dir? { return true, None, t; }
    ok, now := false, cur;
  }

  method RemoveFile(cur: Option<Node>, io: Io, start: nat) returns (now: Option<Node>, t: nat)
    ensures now == None || now == cur
    ensures io(start).None? ==> now == (if cur.Some? && !cur.value.Dir? then None else cur)
    ensures t == start + 1
  {
    t := start + 1;
    now := if io(start).None? && cur.Some? && !cur.value.Dir? then None else cur;
  }

  /** Removal tried both ways, errors ignored. */
  method Discard(cur: Option<Node>, io: Io, start: nat) returns (now: Option<Node>, t: nat)
    ensures IsPart(now, cur) && t == start + 2
    ensures io(start + 1).None? ==> now == LeftBy(cur, io(start))
  {
    var ok;
    ok, now, t := RemoveDirAll(cur, io, start);
    now, t := RemoveFile(now, io, t);
  }

  /** A directory does not replace a file, and nothing replaces a directory that still stands. */
  predicate CanRename(from: Option<Node>, to: Option<Node>) {
    from.Some? && (to.None? || (!to.value.Dir? && !from.value.Dir?))
  }

  /** What a recursive removal that does not fail leaves: it does not remove a file. */
  function Unremoved(cur: Option<Node>): Option<Node> { if cur.Some? && cur.value.Dir? then None else cur }

  class Site {
    var backup: Option<Node>
    var target: Option<Node>
    var pre: Option<Node>
    var temp: Option<Node>
    /** Every state a crash could have left so far: a crash inside a call leaves anything at the
        path the call works on. */
    ghost var crashes: iset<Snap>

    ghost function Now(): Snap
      reads this
    {
      Snap(backup, target, pre, temp)
    }

    constructor (backup: Option<Node>, target: Option<Node>, pre: Option<Node>, temp: Option<Node>)
      ensures Now() == Snap(backup, target, pre, temp) && crashes == iset{}
    {
      this.backup, this.target, this.pre, this.temp := backup, target, pre, temp;
      crashes := iset{};
    }

    /** Copies the target aside; `left` is what could not be removed from the place. */
    method SaveTarget(io: Io) returns (ok: bool, ghost left: Option<Node>)
      requires target.Some?
      modifies this`pre, this`crashes
      ensures ok ==> pre == Some(Overlay(target.value, left)) && Covers(pre.value, target.value)
      ensures ok && !Foreign(old(pre), target.value, Unchecked) ==> pre == target
      ensures IsPart(left, old(pre))
      ensures io(0).Some? ==> !ok && pre == old(pre)
      ensures io(0).None? && NoFaultsFrom(io, 2) && Regular(target.value) ==>
        left == LeftBy(old(pre), io(1)) && (ok <==> Fits(target.value, left))
      ensures crashes == old(crashes) + iset v | true :: Snap(backup, target, v, temp)
    {
      crashes := crashes + iset v | true :: Snap(backup, target, v, temp);
      left := None;
      ok := io(0).None?;
      if !ok { return; }
      var t;
      pre, t := Discard(pre, io, 1);
      left := pre;
      ok, pre, t := CopyRecursive(target.value, pre, io, t);
      OverlayCovers(target.value, left);
      if ok { ExactUnlessForeign(target.value, old(pre), left, Unchecked); }
    }

    method CopyToTemp(io: Io) returns (ok: bool, ghost left: Option<Node>)
      requires backup.Some?
      modifies this`temp, this`crashes
      ensures ok ==> temp == Some(Overlay(backup.value, left)) && Fits(backup.value, left)
      ensures IsPart(left, old(temp))
      ensures NoFaultsFrom(io, 1) && Regular(backup.value) ==>
        left == LeftBy(old(temp), io(0)) && (ok <==> Fits(backup.value, left))
      ensures crashes == old(crashes) + iset v | true :: Snap(backup, target, pre, v)
    {
      crashes := crashes + iset v | true :: Snap(backup, target, pre, v);
      var t;
      temp, t := Discard(temp, io, 0);
      left := temp;
      ok, temp, t := CopyRecursive(backup.value, temp, io, t);
    }

    /** After a failed integrity check: drop the temporary copy and, when there is one, put the
        pre-restore copy back; errors are ignored. */
    method RollBack(saved: bool, io: Io)
      requires saved ==> pre.Some?
      modifies this`target, this`temp, this`crashes
      ensures !saved ==> target == old(target)
      ensures NoFaults(io) ==> temp == Unremoved(old(temp))
      ensures NoFaults(io) && saved && Regular(pre.value) && Fits(pre.value, Unremoved(old(target))) ==>
        target == Some(Overlay(pre.value, Unremoved(old(target))))
      ensures crashes == old(crashes) + (iset v | true :: Snap(backup, old(target), pre, v))
                         + (if saved then iset v | true :: Snap(backup, v, pre, temp) else iset{})
    {
      crashes := crashes + iset v | true :: Snap(backup, target, pre, v);
      var ok, t;
      ok, temp, t := RemoveDirAll(temp, io, 0);
      if saved {
        crashes := crashes + iset v | true :: Snap(backup, v, pre, temp);
        ok, target, t := RemoveDirAll(target, io, t);
        ok, target, t := CopyRecursive(pre.value, target, io, t);
      }
    }

    /** Moves the verified copy into the place of the target; a directory there is removed first. */
    method Exchange(io: Io) returns (ok: bool)
      requires temp.Some?
      modifies this`target, this`temp, this`crashes
      ensures ok ==> target == old(temp) && temp == None && io(0).None?
      ensures ok && old(target).Some? && old(target).value.Dir? ==> io(1).None?
      ensures !ok ==> temp == old(temp) && (target == old(target) || (old(target).Some? && old(target).value.Dir?))
      ensures NoFaults(io) ==> (ok <==> !(old(target).Some? && !old(target).value.Dir? && old(temp).value.Dir?))
      ensures crashes == old(crashes) + if old(target).Some? && old(target).value.Dir?
                                        then iset v | true :: Snap(backup, v, pre, old(temp)) else iset{}
    {
      var t := 0;
      if target.Some? && target.value.Dir? {
        crashes := crashes + iset v | true :: Snap(backup, v, pre, temp);
        ok, target, t := RemoveDirAll(target, io, 0);
        if !ok { return; }
      }
      ok := io(t).None? && CanRename(temp, target);
      if ok { target, temp := temp, None; }
    }

    /** Verifies the temporary copy and moves it into the place of the target, or rolls back. The target
        is at risk only when a copy of it was saved. */
    method Commit(saved: bool, io: Faults) returns (ok: bool)
      requires backup.Some? && temp.Some? && (saved ==> pre.Some?) && (target.Some? ==> saved)
      modifies this`target, this`temp, this`crashes
      ensures ok ==> target == old(temp) && temp == None
      ensures ok ==> Regular(old(temp).value) && SameCappedSize(backup.value, old(temp).value)
      ensures !saved && !ok ==> target == None
      ensures forall s :: s in crashes && s !in old(crashes) ==>
        s.backup == backup && s.pre == pre && (s.target == old(target) || saved)
      ensures !ok && NoFaults(io.swap) && (saved ==> pre == old(target) && Regular(pre.value)) ==> target == old(target)
      ensures !ok && NoFaults(io.swap) ==> temp == old(temp) || temp == None
      ensures NoFaults(io.verify) && NoFaults(io.swap) && Regular(backup.value) ==>
        (ok <==> && Regular(old(temp).value) && SameCappedSize(backup.value, old(temp).value)
                 && !(old(target).Some? && !old(target).value.Dir? && old(temp).value.Dir?))
    {
      var t;
      ok, t := VerifyIntegrity(backup.value, temp.value, io.verify, 0);
      if ok {
        ok := Exchange(io.swap);
      } else {
        if saved { FitsItself(pre.value); }
        RollBack(saved, io.swap);
      }
    }

    /** Copies the backup to the temporary path, verifies the copy, and puts it in place. */
    method Install(saved: bool, io: Faults) returns (ok: bool, ghost left: Option<Node>)
      requires backup.Some? && (saved ==> pre.Some?) && (target.Some? ==> saved)
      modifies this`target, this`temp, this`crashes
      ensures IsPart(left, old(temp))
      ensures ok ==> target == Some(Overlay(backup.value, left)) && temp == None
      ensures ok && !Foreign(old(temp), backup.value, SizeCheck(backup.value)) ==> target == backup
      ensures !saved && !ok ==> target == None
      ensures !ok && NoFaults(io.swap) && (saved ==> pre == old(target) && Regular(pre.value)) ==> target == old(target)
      ensures forall s :: s in crashes && s !in old(crashes) ==>
        s.backup == backup && s.pre == pre && (s.target == old(target) || saved)
      ensures NoFaultsFrom(io.temp, 1) && NoFaults(io.verify) && NoFaults(io.swap) && Regular(backup.value) ==>
        && left == LeftBy(old(temp), io.temp(0))
        && (ok <==> && Passes(backup.value, left, SizeCheck(backup.value))
                    && !(old(target).Some? && !old(target).value.Dir? && backup.value.Dir?))
    {
      ok, left := CopyToTemp(io.temp);
      if !ok { return; }
      ok := Commit(saved, io);
      if ok { ExactUnlessForeign(backup.value, old(temp), left, SizeCheck(backup.value)); }
    }

    /** `early` stands for the checks of the store's root directory. Exactness depends on what stood
        at the temporary and at the pre-restore path before, and on nothing that fails. */
    method Restore(early: bool, io: Faults)
      returns (ok: bool, ghost leftPre: Option<Node>, ghost leftTemp: Option<Node>)
      modifies this
      ensures backup == old(backup)
      ensures Safe(old(Now()), Now())
      ensures forall s :: s in crashes && s !in old(crashes) ==> Safe(old(Now()), s)
      ensures ok ==> early && backup.Some? && target == Some(Overlay(backup.value, leftTemp)) && temp == None
      ensures ok ==> pre == if old(target).Some? then Some(Overlay(old(target).value, leftPre)) else old(pre)
      ensures IsPart(leftPre, old(pre)) && IsPart(leftTemp, old(temp))
      ensures ok && !Foreign(old(temp), backup.value, SizeCheck(backup.value)) ==> target == backup
      ensures ok && old(target).Some? && !Foreign(old(pre), old(target).value, Unchecked) ==> pre == old(target)
      ensures !ok && NoFaults(io.swap)
              && (old(target).Some? ==>
                    Regular(old(target).value) && !Foreign(old(pre), old(target).value, Unchecked)) ==>
        target == old(target)
      ensures early && Undisturbed(old(Now()), io) ==>
        && (ok <==> Succeeds(old(Now()), io))
        && (ok ==> leftTemp == LeftBy(old(temp), io.temp(0)))
        && (ok && old(target).Some? ==> leftPre == LeftBy(old(pre), io.save(1)))
    {
      ghost var before := Now();
      ok, leftPre, leftTemp := false, None, None;
      if before.target.Some? { CoversItself(before.target.value); }
      if !early || backup.None? { return; }

      var saved := target.Some?;
      if saved {
        ok, leftPre := SaveTarget(io.save);
        if !ok { return; }
      }

      ok, leftTemp := Install(saved, io);
    }
  }

  /** Whenever a part of a stale temporary tree can go unnoticed, a restore of a regular backup can
      succeed and leave a target that is not the backup: the first removal stops at that part. */
  method RestoreOverLeftovers(
      backup: Node, target: Option<Node>, pre: Option<Node>, temp: Option<Node>, left: Node)
      returns (site: Site, ok: bool)
    requires Regular(backup) && (target.Some? ==> target.value.Dir? && Regular(target.value))
    requires IsPart(Some(left), temp) && Passes(backup, Some(left), SizeCheck(backup))
    requires Overlay(backup, Some(left)) != backup
    ensures ok && site.backup == Some(backup) && site.target == Some(Overlay(backup, Some(left)))
    ensures site.target != site.backup
  {
    site := new Site(Some(backup), target, pre, temp);
    var fine: Io := _ => None;
    OverlayIsSourceIff(backup, Some(left));
    if target.Some? { OverlayOnNothing(target.value); }
    ghost var leftPre, leftTemp;
    var stops: Io := n => if n == 0 then Some(Some(left)) else None;
    ok, leftPre, leftTemp := site.Restore(true, Faults(fine, stops, fine, fine));
  }

  /** An empty file in a stale temporary tree: the restored target has it too. */
  method StaleTempWitness() returns (site: Site, ok: bool)
    ensures ok && site.backup == Some(Dir(map["a" := File("x", 0)], 0))
    ensures site.target == Some(Dir(map["a" := File("x", 0), "junk" := File("", 0)], 0))
  {
    var backup, left := Dir(map["a" := File("x", 0)], 0), Dir(map["junk" := File("", 0)], 0);
    OneNameOverlay(backup, "junk", File("", 0));
    OneNameFits(backup, "junk", File("", 0));
    SameSize(backup, "junk", File("", 0));
    CoversItself(left);
    site, ok := RestoreOverLeftovers(backup, None, None, Some(left), left);
  }
}
