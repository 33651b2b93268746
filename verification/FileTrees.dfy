/** File trees, their recursive copy and size. */
module FileTrees {
  import opened Common

  const U64_MAX := 0xFFFF_FFFF_FFFF_FFFF

  datatype Node =
    | File(data: string, mode: nat)
    | Dir(entries: map<string, Node>, mode: nat)
    | Link
    | Special

  const DEFAULT_MODE: nat := 493

  /** How the `t`-th filesystem call ends: normally, or with an error that leaves something at the
      path it was working on. */
  type Io = nat -> Option<Option<Node>>

  ghost predicate NoFaultsFrom(io: Io, start: nat) { forall t :: t >= start ==> io(t).None? }

  /** No call from the `start`-th to before the `end`-th failed. */
  ghost predicate Worked(io: Io, start: nat, end: nat) { forall t :: start <= t < end ==> io(t).None? }

  ghost predicate NoFaults(io: Io) { NoFaultsFrom(io, 0) }

  function EntriesOf(o: Option<Node>): map<string, Node> {
    if o.Some? && o.value.Dir? then o.value.entries else map[]
  }

  /** Neither links nor special files anywhere. */
  predicate Regular(t: Node) {
    match t
    case File(_, _) => true
    case Dir(es, _) => forall n :: n in es ==> Regular(es[n])
    case _ => false
  }

  /** No file stands where a directory must go, nor the other way round. */
  predicate Fits(src: Node, dst: Option<Node>) {
    match src
    case File(_, _) => dst.Some? ==> dst.value.File?
    case Dir(es, _) => (dst.Some? ==> dst.value.Dir?) && forall n :: n in es ==> Fits(es[n], Get(EntriesOf(dst), n))
    case _ => true
  }

  /** A copy lands on top of what is already there. */
  function Overlay(src: Node, dst: Option<Node>): Node {
    match src
    case Dir(es, mode) =>
      var old_ := EntriesOf(dst);
      Dir(map n | n in es.Keys + old_.Keys :: if n in es then Overlay(es[n], Get(old_, n)) else old_[n], mode)
    case _ => src
  }

  /** Everything in `small` is in `big`. */
  predicate Covers(big: Node, small: Node)
    decreases small
  {
    match small
    case Dir(es, _) => big.Dir? && forall n :: n in es ==> n in big.entries && Covers(big.entries[n], es[n])
    case _ => big == small
  }

  lemma {:induction false} OverlayOnNothing(src: Node)
    ensures Overlay(src, None) == src && Fits(src, None)
  {
    if src.Dir? {
      forall n | n in src.entries
        ensures Overlay(src.entries[n], None) == src.entries[n] && Fits(src.entries[n], None)
      {
        OverlayOnNothing(src.entries[n]);
      }
      var nothing: map<string, Node> := map[];
      assert forall n :: Get(nothing, n) == None;
      assert Overlay(src, None).entries == src.entries;
    }
  }

  lemma {:induction false} OverlayCovers(src: Node, dst: Option<Node>)
    ensures Covers(Overlay(src, dst), src)
  {
    if src.Dir? {
      forall n | n in src.entries
        ensures n in Overlay(src, dst).entries && Covers(Overlay(src, dst).entries[n], src.entries[n])
      {
        OverlayCovers(src.entries[n], Get(EntriesOf(dst), n));
      }
    }
  }

  // ---------- copying ----------

  /** What a directory copy has produced when the entries in `done` are copied. */
  function Partly(es: map<string, Node>, old_: map<string, Node>, done: set<string>): map<string, Node>
    requires done <= es.Keys
  {
    map n | n in done + old_.Keys :: if n in done then Overlay(es[n], Get(old_, n)) else old_[n]
  }

  lemma PartlyMore(es: map<string, Node>, old_: map<string, Node>, done: set<string>, n: string)
    requires done <= es.Keys && n in es && n !in done
    ensures Partly(es, old_, done + {n}) == Partly(es, old_, done)[n := Overlay(es[n], Get(old_, n))]
    ensures Get(Partly(es, old_, done), n) == Get(old_, n)
  {
  }

  /** Copies `src` to a path that holds `dst`; `now` is what the path holds afterwards. */
  method CopyRecursive(src: Node, dst: Option<Node>, io: Io, start: nat) returns (ok: bool, now: Option<Node>, t: nat)
    ensures io(start).Some? || src.Link? ==> !ok && now == dst
    ensures ok ==> now == Some(Overlay(src, dst)) && Regular(src) && Fits(src, dst)
    ensures ok ==> Worked(io, start, t)
    ensures NoFaultsFrom(io, start) && Regular(src) && Fits(src, dst) ==> ok
    ensures t > start
    decreases src, 2
  {
    now, t := dst, start;
    if io(t).Some? { return false, now, t + 1; }
    t := t + 1;
    if src.Link? { return false, now, t; }
    if src.Dir? {
      ok, now, t := CopyDirectory(src, dst, io, t);
    } else {
      if io(t).Some? { return false, io(t).value, t + 1; }
      if src.Special? || (dst.Some? && !dst.value.File?) { return false, now, t; }
      ok, now, t := true, Some(src), t + 1;
    }
  }

  method CopyDirectory(src: Node, dst: Option<Node>, io: Io, start: nat) returns (ok: bool, now: Option<Node>, t: nat)
    requires src.Dir?
    ensures ok ==> now == Some(Overlay(src, dst)) && Regular(src) && Fits(src, dst)
    ensures ok ==> Worked(io, start, t)
    ensures NoFaultsFrom(io, start) && Regular(src) && Fits(src, dst) ==> ok
    ensures t > start
    decreases src, 1
  {
    now, t := dst, start;
    // create_dir_all
    if io(t).Some? { return false, io(t).value, t + 1; }
    if dst.Some? && !dst.value.Dir? { return false, now, t + 1; }
    now, t := Some(Dir(EntriesOf(dst), if dst.Some? then dst.value.mode else DEFAULT_MODE)), t + 1;
    var made;
    ok, made, t := CopyEntries(src, dst, now.value, io, t);
    now := Some(made);
    if !ok { return; }
    // copy_permissions
    if io(t).Some? { return false, now, t + 1; }
    now, t := Some(Dir(made.entries, src.mode)), t + 1;
    assert made.entries == Overlay(src, dst).entries;
  }

  /** The entries of `src` one after the other, in any order, into the directory `made`. */
  method CopyEntries(src: Node, dst: Option<Node>, made: Node, io: Io, start: nat)
      returns (ok: bool, now: Node, t: nat)
    requires src.Dir? && made.Dir? && made.entries == EntriesOf(dst)
    ensures now.Dir? && t > start && (ok ==> Worked(io, start, t))
    ensures ok ==> now.entries == Partly(src.entries, EntriesOf(dst), src.entries.Keys)
    ensures ok ==> forall n :: n in src.entries ==>
      Regular(src.entries[n]) && Fits(src.entries[n], Get(EntriesOf(dst), n))
    ensures (NoFaultsFrom(io, start) && forall n :: n in src.entries ==>
      Regular(src.entries[n]) && Fits(src.entries[n], Get(EntriesOf(dst), n))) ==> ok
    decreases src, 0
  {
    // read_dir
    now, t := made, start + 1;
    if io(start).Some? { return false, now, t; }
    var rest := src.entries.Keys;
    while rest != {}
      invariant rest <= src.entries.Keys && now.Dir? && t > start && Worked(io, start, t)
      invariant now.entries == Partly(src.entries, EntriesOf(dst), src.entries.Keys - rest)
      invariant forall n :: n in src.entries && n !in rest ==>
        Regular(src.entries[n]) && Fits(src.entries[n], Get(EntriesOf(dst), n))
      decreases rest
    {
      var n :| n in rest;
      if io(t).Some? { return false, now, t + 1; }
      t := t + 1;
      var copied, child;
      ghost var done := src.entries.Keys - rest;
      PartlyMore(src.entries, EntriesOf(dst), done, n);
      assert src.entries.Keys - (rest - {n}) == done + {n};
      copied, child, t := CopyRecursive(src.entries[n], Get(now.entries, n), io, t);
      if !copied {
        now := now.(entries := if child.Some? then now.entries[n := child.value] else now.entries - {n});
        return false, now, t;
      }
      now := now.(entries := now.entries[n := child.value]);
      rest := rest - {n};
    }
    assert src.entries.Keys - {} == src.entries.Keys;
    ok := true;
  }

  // ---------- sizes ----------

  /** The true number of bytes. */
  ghost function TotalSize(t: Node): nat
    decreases t, 1
  {
    match t
    case File(data, _) => |data|
    case Dir(es, _) => SizeOfEntries(t, es.Keys)
    case _ => 0
  }

  ghost function SizeOfEntries(t: Node, names: set<string>): nat
    requires t.Dir? && names <= t.entries.Keys
    decreases t, 0, names
  {
    if names == {} then 0
    else
      var n :| n in names;
      TotalSize(t.entries[n]) + SizeOfEntries(t, names - {n})
  }

  lemma {:induction false} SizeWithout(t: Node, names: set<string>, n: string)
    requires t.Dir? && names <= t.entries.Keys && n in names
    ensures SizeOfEntries(t, names) == TotalSize(t.entries[n]) + SizeOfEntries(t, names - {n})
    decreases names
  {
    var m :| m in names && SizeOfEntries(t, names) == TotalSize(t.entries[m]) + SizeOfEntries(t, names - {m});
    if m != n {
      SizeWithout(t, names - {m}, n);
      SizeWithout(t, names - {n}, m);
      assert names - {m} - {n} == names - {n} - {m};
    }
  }

  /** The size of a file is its length, that of a directory the sum over its entries. */
  lemma SizesAddUp(t: Node, n: string)
    ensures t.File? ==> TotalSize(t) == |t.data|
    ensures t.Dir? && t.entries == map[] ==> TotalSize(t) == 0
    ensures t.Dir? && n in t.entries ==>
      TotalSize(t) == TotalSize(t.entries[n]) + TotalSize(Dir(t.entries - {n}, t.mode))
  {
    if t.Dir? && n in t.entries {
      SizeWithout(t, t.entries.Keys, n);
      SameEntriesSize(t, Dir(t.entries - {n}, t.mode), t.entries.Keys - {n});
      assert (t.entries - {n}).Keys == t.entries.Keys - {n};
    }
  }

  lemma {:induction false} SameEntriesSize(a: Node, b: Node, names: set<string>)
    requires a.Dir? && b.Dir? && names <= a.entries.Keys && names <= b.entries.Keys
    requires forall n :: n in names ==> a.entries[n] == b.entries[n]
    ensures SizeOfEntries(a, names) == SizeOfEntries(b, names)
    decreases names
  {
    if names != {} {
      var n :| n in names;
      SizeWithout(a, names, n);
      SizeWithout(b, names, n);
      SameEntriesSize(a, b, names - {n});
    }
  }

  function SaturatingAdd(a: nat, b: nat): nat { Min(a + b, U64_MAX) }

  /** Sums the tree with saturating additions, in any order of the entries. */
  method CalculateSize(tree: Node, io: Io, start: nat) returns (ok: bool, size: nat, t: nat)
    ensures ok ==> size == Min(TotalSize(tree), U64_MAX) && Regular(tree)
    ensures ok ==> Worked(io, start, t)
    ensures NoFaultsFrom(io, start) && Regular(tree) ==> ok
    ensures t > start
    decreases tree
  {
    ok, size, t := false, 0, start + 1;
    if io(start).Some? || tree.Link? || tree.Special? { return; }
    if tree.File? {
      ok, size := true, Min(|tree.data|, U64_MAX);
      return;
    }
    if io(t).Some? { t := t + 1; return; }
    t := t + 1;
    var rest := tree.entries.Keys;
    var total: nat := 0;
    assert tree.entries.Keys - rest == {};
    while rest != {}
      invariant rest <= tree.entries.Keys && t > start && Worked(io, start, t)
      invariant total == Min(SizeOfEntries(tree, tree.entries.Keys - rest), U64_MAX)
      invariant forall n :: n in tree.entries && n !in rest ==> Regular(tree.entries[n])
      decreases rest
    {
      var n :| n in rest;
      if io(t).Some? { t := t + 1; return; }
      var counted, s;
      counted, s, t := CalculateSize(tree.entries[n], io, t + 1);
      if !counted { return; }
      ghost var done := tree.entries.Keys - rest;
      SizeWithout(tree, done + {n}, n);
      assert done + {n} - {n} == done;
      total := SaturatingAdd(total, s);
      rest := rest - {n};
      assert tree.entries.Keys - rest == done + {n};
    }
    assert tree.entries.Keys - {} == tree.entries.Keys;
    ok, size := true, total;
  }

  /** Equal total sizes, as far as 64 bits tell them. */
  ghost predicate SameCappedSize(a: Node, b: Node) { Min(TotalSize(a), U64_MAX) == Min(TotalSize(b), U64_MAX) }

  method VerifyIntegrity(src: Node, dst: Node, io: Io, start: nat) returns (ok: bool, t: nat)
    ensures ok ==> SameCappedSize(src, dst) && Regular(src) && Regular(dst) && Worked(io, start, t)
    ensures t > start
    ensures NoFaultsFrom(io, start) && Regular(src) && Regular(dst) && SameCappedSize(src, dst) ==> ok
  {
    var srcSize, dstSize;
    ok, srcSize, t := CalculateSize(src, io, start);
    if !ok { return; }
    ok, dstSize, t := CalculateSize(dst, io, t);
    if !ok { return; }
    ok := srcSize == dstSize;
  }
}
