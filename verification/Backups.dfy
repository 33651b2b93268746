/** Numbered backups in one job directory, and finding the first. */
module Backups {
  import opened Common
  import opened Numerals
  import opened FileTrees

  const MAX_BACKUP_SIZE := 100 * 1024 * 1024
  const U32_MAX := 0xFFFF_FFFF

  predicate ValidJobId(id: string) { id != "" && '/' !in id && '\\' !in id && id != ".." }

  function Suffixed(base: string, k: nat): string
  {
    if k == 0 then base else base + "." + Dec(k)
  }

  lemma SuffixedInjective(base: string, j: nat, k: nat)
    requires Suffixed(base, j) == Suffixed(base, k)
    ensures j == k
  {
    assert j > 0 ==> |Suffixed(base, j)| > |base|;
    assert k > 0 ==> |Suffixed(base, k)| > |base|;
    if j > 0 {
      assert Suffixed(base, j)[|base| + 1..] == Dec(j) && Suffixed(base, k)[|base| + 1..] == Dec(k);
      DecInjective(j, k);
    }
  }

  /** The first name in the series that is not taken. */
  ghost predicate FreshName(dir: map<string, Node>, base: string, name: string) {
    name !in dir && exists k: nat :: name == Suffixed(base, k) && forall j: nat :: j < k ==> Suffixed(base, j) in dir
  }

  /** A series fully taken up to `n` needs `n` names. */
  lemma {:induction false} OccupiedBound(names: set<string>, base: string, n: nat)
    requires forall j: nat :: j < n ==> Suffixed(base, j) in names
    ensures n <= |names|
  {
    if n > 0 {
      forall j: nat | j < n - 1 ensures Suffixed(base, j) in names - {Suffixed(base, n - 1)} {
        if Suffixed(base, j) == Suffixed(base, n - 1) { SuffixedInjective(base, j, n - 1); }
      }
      OccupiedBound(names - {Suffixed(base, n - 1)}, base, n - 1);
    }
  }

  /** A name of the series is free within the range of the counter. */
  ghost predicate HasRoom(dir: map<string, Node>, base: string) {
    exists k: nat :: k <= U32_MAX && Suffixed(base, k) !in dir
  }

  /** Up to 2^32 - 1 entries leave room for any name. */
  lemma FewEntriesLeaveRoom(dir: map<string, Node>, base: string)
    requires |dir| <= U32_MAX
    ensures HasRoom(dir, base)
  {
    if !HasRoom(dir, base) { OccupiedBound(dir.Keys, base, U32_MAX + 1); }
  }

  function SaturatingNext(k: nat): nat { if k >= U32_MAX then U32_MAX else k + 1 }

  /** The name search. Its counter saturates at 2^32 - 1, so it ends exactly when a name up to there
      is free. */
  method FindFreshName(dir: map<string, Node>, base: string) returns (name: string)
    requires HasRoom(dir, base)
    ensures FreshName(dir, base, name)
  {
    assert Suffixed(base, 0) == base;
    if base !in dir { return base; }
    var counter: nat := 1;
    name := base + "." + Dec(counter);
    while name in dir
      invariant 1 <= counter <= U32_MAX && name == Suffixed(base, counter)
      invariant forall j: nat :: j < counter ==> Suffixed(base, j) in dir
      decreases U32_MAX - counter
    {
      assert counter < U32_MAX;
      counter := SaturatingNext(counter);
      name := base + "." + Dec(counter);
    }
  }

  // ---------- one backup ----------

  /** How a call ends: with the path of a verified copy; with an error although the copy is complete;
      or with an error before that. */
  datatype Outcome = Made(name: string) | Unverified | Failed

  /** What one call does to the job's directory: nothing, or something at one fresh name, which is a
      faithful copy unless the copying failed. */
  ghost predicate BackupStep(dir: map<string, Node>, src: Node, base: string, o: Outcome, dir': map<string, Node>) {
    exists name ::
      && FreshName(dir, base, name) && (dir' == dir || (name in dir' && dir' == dir[name := dir'[name]]))
      && (o.Made? ==> o.name == name) && (!o.Failed? ==> name in dir' && dir'[name] == src && Regular(src))
  }

  /** How the calls of one backup end, phase by phase; `mkdir` tells whether creating the job's directory
      fails. */
  datatype Faults = Faults(size: Io, mkdir: bool, copy: Io, verify: Io)

  class JobDir {
    var entries: map<string, Node>

    constructor ()
      ensures entries == map[]
    {
      entries := map[];
    }

    /** `early` stands for the checks of the store's root directory. */
    method CreateBackup(src: Option<Node>, base: Option<string>, jobId: string, early: bool, io: Faults)
      returns (r: Option<string>, ghost o: Outcome)
      requires base.Some? ==> HasRoom(entries, base.value)
      modifies this
      ensures r == if o.Made? then Some(o.name) else None
      ensures src.None? || base.None? || !early ==> o.Failed? && entries == old(entries)
      ensures jobId == "" || '/' in jobId || '\\' in jobId || jobId == ".." ==> o.Failed? && entries == old(entries)
      ensures src.Some? && TotalSize(src.value) > 104857600 ==> o.Failed? && entries == old(entries)
      ensures src.Some? && base.Some? ==> BackupStep(old(entries), src.value, base.value, o, entries)
      ensures io.mkdir || io.size(0).Some? || io.copy(0).Some? ==> o.Failed? && entries == old(entries)
      ensures io.verify(0).Some? ==> r.None?
      ensures (early && src.Some? && base.Some?
               && jobId != "" && '/' !in jobId && '\\' !in jobId && jobId != ".."
               && Regular(src.value) && TotalSize(src.value) <= 104857600
               && NoFaults(io.size) && !io.mkdir && NoFaults(io.copy)) ==>
        !o.Failed? && (NoFaults(io.verify) ==> r.Some?)
    {
      r, o := None, Failed;
      ghost var before := entries;
      if src.Some? && base.Some? {
        ghost var fresh_ := FindFreshName(entries, base.value);
        assert BackupStep(before, src.value, base.value, Failed, before);
      }
      if !early || src.None? || !ValidJobId(jobId) { return; }
      var ok, size, t := CalculateSize(src.value, io.size, 0);
      if !ok || size > MAX_BACKUP_SIZE { return; }
      if base.None? { return; }
      if io.mkdir { return; }
      var name := FindFreshName(entries, base.value);
      var now;
      ok, now, t := CopyRecursive(src.value, None, io.copy, 0);
      if now.Some? { entries := entries[name := now.value]; }
      assert entries == before || (name in entries && entries == before[name := entries[name]]);
      OverlayOnNothing(src.value);
      if !ok { return; }
      o := Unverified;
      var same;
      same, t := VerifyIntegrity(src.value, entries[name], io.verify, 0);
      if same { r, o := Some(name), Made(name); }
    }
  }

  // ---------- any sequence of backups ----------

  datatype Call = Call(src: Node, base: string)

  ghost predicate StepAt(dirs: seq<map<string, Node>>, calls: seq<Call>, os: seq<Outcome>, k: nat)
    requires |dirs| == |calls| + 1 && |os| == |calls| && k < |calls|
  {
    BackupStep(dirs[k], calls[k].src, calls[k].base, os[k], dirs[k + 1])
  }

  ghost predicate IsRun(dirs: seq<map<string, Node>>, calls: seq<Call>, os: seq<Outcome>) {
    |dirs| == |calls| + 1 && |os| == |calls| && forall k :: 0 <= k < |calls| ==> StepAt(dirs, calls, os, k)
  }

  lemma NextKeeps(dirs: seq<map<string, Node>>, calls: seq<Call>, os: seq<Outcome>, i: nat, n: string)
    requires IsRun(dirs, calls, os) && i < |calls| && n in dirs[i]
    ensures n in dirs[i + 1] && dirs[i + 1][n] == dirs[i][n]
  {
    assert StepAt(dirs, calls, os, i);
  }

  lemma {:induction false} RunKeeps(
      dirs: seq<map<string, Node>>, calls: seq<Call>, os: seq<Outcome>, i: nat, j: nat, n: string)
    requires IsRun(dirs, calls, os) && i <= j <= |calls| && n in dirs[i]
    ensures n in dirs[j] && dirs[j][n] == dirs[i][n]
    decreases j - i
  {
    if i < j {
      NextKeeps(dirs, calls, os, i, n);
      RunKeeps(dirs, calls, os, i + 1, j, n);
    }
  }

  /** No call ever touches an earlier backup, and no two calls return the same path. */
  lemma BackupsAreKeptApart(dirs: seq<map<string, Node>>, calls: seq<Call>, os: seq<Outcome>, i: nat, j: nat)
    requires IsRun(dirs, calls, os) && i < j <= |calls| && os[i].Made?
    ensures os[i].name in dirs[j] && dirs[j][os[i].name] == calls[i].src
    ensures j < |calls| && os[j].Made? ==> os[j].name != os[i].name
  {
    assert StepAt(dirs, calls, os, i);
    RunKeeps(dirs, calls, os, i + 1, j, os[i].name);
    if j < |calls| { assert StepAt(dirs, calls, os, j); }
  }

  // ---------- finding the first copy ----------

  /** The executor's lookup: the bare name, then suffixes 1 to 10. */
  method FindBackupCandidate(dir: map<string, Node>, base: string) returns (r: Option<string>)
    ensures r == Candidate(dir, base, 0)
    ensures base in dir ==> r == Some(base)
    ensures base !in dir ==>
      if r.Some? then exists i :: 1 <= i <= 10 && r.value == base + "." + Dec(i) && r.value in dir
                                  && forall k :: 1 <= k < i ==> base + "." + Dec(k) !in dir
      else forall i :: 1 <= i <= 10 ==> base + "." + Dec(i) !in dir
  {
    assert Suffixed(base, 0) == base;
    if base in dir { return Some(base); }
    for i := 1 to 11
      invariant Candidate(dir, base, 0) == Candidate(dir, base, i)
      invariant base !in dir && forall k :: 1 <= k < i ==> base + "." + Dec(k) !in dir
    {
      assert Suffixed(base, i) == base + "." + Dec(i);
      if base + "." + Dec(i) in dir { return Some(base + "." + Dec(i)); }
    }
    r := None;
  }

  function Candidate(dir: map<string, Node>, base: string, k: nat): Option<string>
    decreases 11 - k
  {
    if k > 10 then None
    else if Suffixed(base, k) in dir then Some(Suffixed(base, k))
    else Candidate(dir, base, k + 1)
  }

  /** No call for another file can land on the bare name. */
  ghost predicate Unclaimed(calls: seq<Call>, base: string) {
    forall k :: 0 <= k < |calls| && calls[k].base != base ==> forall c: nat :: Suffixed(calls[k].base, c) != base
  }

  /** In a job that starts without the name, when no other file's series claims it, the bare name
      stays free until a call for `base` leaves something. */
  lemma {:induction false} FreeUntilFirst(
      dirs: seq<map<string, Node>>, calls: seq<Call>, os: seq<Outcome>, base: string, first: nat)
    requires IsRun(dirs, calls, os) && Unclaimed(calls, base) && base !in dirs[0] && first <= |calls|
    requires forall k :: 0 <= k < first && calls[k].base == base ==> dirs[k + 1] == dirs[k]
    ensures base !in dirs[first]
  {
    if first > 0 {
      FreeUntilFirst(dirs, calls, os, base, first - 1);
      var k := first - 1;
      assert StepAt(dirs, calls, os, k);
    }
  }

  /** Let call `k` for `base` leave anything in the directory. Ever after the lookup returns the bare
      name, and what it finds there is what this call left if and only if the name was free when it
      was made; otherwise it is what was there before. What the call left is the pre-mutation source
      whatever happened after a complete copy. */
  lemma CandidateIsThisCopyIff(
      dirs: seq<map<string, Node>>, calls: seq<Call>, os: seq<Outcome>, base: string, k: nat, j: nat)
    requires IsRun(dirs, calls, os) && k < j <= |calls| && calls[k].base == base && dirs[k + 1] != dirs[k]
    ensures Candidate(dirs[j], base, 0) == Some(base) && base in dirs[j]
    ensures base in dirs[k + 1].Keys - dirs[k].Keys <==> base !in dirs[k]
    ensures base !in dirs[k] ==> dirs[j][base] == dirs[k + 1][base]
    ensures base !in dirs[k] && !os[k].Failed? ==> dirs[j][base] == calls[k].src
    ensures base in dirs[k] ==> dirs[j][base] == dirs[k][base]
  {
    assert StepAt(dirs, calls, os, k);
    assert Suffixed(base, 0) == base;
    var name :| FreshName(dirs[k], base, name)
      && (dirs[k + 1] == dirs[k] || (name in dirs[k + 1] && dirs[k + 1] == dirs[k][name := dirs[k + 1][name]]))
      && (!os[k].Failed? ==> name in dirs[k + 1] && dirs[k + 1][name] == calls[k].src);
    assert base !in dirs[k] ==> name == base;
    RunKeeps(dirs, calls, os, k + 1, j, base);
  }

  /** A copy that fails half way keeps the bare name: a second call succeeds elsewhere, and the
      lookup still returns the broken piece. */
  lemma BrokenFirstCopyWitness(src: Node, piece: Node)
    requires src == File("ab", 0) && piece == File("a", 0)
    ensures var dirs := [map[], map["f" := piece], map["f" := piece, "f.1" := src]];
      && IsRun(dirs, [Call(src, "f"), Call(src, "f")], [Failed, Made("f.1")])
      && Candidate(dirs[2], "f", 0) == Some("f") && dirs[2]["f"] != src
  {
    var d0: map<string, Node>, d1, d2 := map[], map["f" := piece], map["f" := piece, "f.1" := src];
    assert Dec(1) == "1";
    assert Suffixed("f", 0) == "f" && Suffixed("f", 1) == "f.1";
    assert FreshName(d0, "f", "f");
    assert FreshName(d1, "f", "f.1");
    assert d1 == d0["f" := d1["f"]];
    assert d2 == d1["f.1" := d2["f.1"]];
    assert BackupStep(d0, src, "f", Failed, d1);
    assert BackupStep(d1, src, "f", Made("f.1"), d2);
  }

  /** A file whose own name looks like a numbered backup of another file is looked up wrongly. */
  lemma ClaimedNameWitness(a: Node, b: Node, c: Node)
    requires Regular(a) && Regular(b) && Regular(c) && b != c
    ensures var dirs := [map[], map["f" := a], map["f" := a, "f.1" := b], map["f" := a, "f.1" := b, "f.1.1" := c]];
      && IsRun(dirs, [Call(a, "f"), Call(b, "f"), Call(c, "f.1")], [Made("f"), Made("f.1"), Made("f.1.1")])
      && Candidate(dirs[3], "f.1", 0) == Some("f.1") && dirs[3]["f.1"] != c
  {
    var d0: map<string, Node>, d1, d2 := map[], map["f" := a], map["f" := a, "f.1" := b];
    var d3 := map["f" := a, "f.1" := b, "f.1.1" := c];
    assert Dec(1) == "1";
    assert Suffixed("f", 0) == "f" && Suffixed("f", 1) == "f.1";
    assert Suffixed("f.1", 0) == "f.1" && Suffixed("f.1", 1) == "f.1.1";
    assert FreshName(d0, "f", "f");
    assert FreshName(d1, "f", "f.1");
    assert FreshName(d2, "f.1", "f.1.1");
    assert d1 == d0["f" := d1["f"]] && d2 == d1["f.1" := d2["f.1"]] && d3 == d2["f.1.1" := d3["f.1.1"]];
    assert BackupStep(d0, a, "f", Made("f"), d1);
    assert BackupStep(d1, b, "f", Made("f.1"), d2);
    assert BackupStep(d2, c, "f.1", Made("f.1.1"), d3);
  }
}
