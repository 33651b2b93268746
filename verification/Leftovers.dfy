/** Copies over what a failed removal left. */
module Leftovers {
  import opened Common
  import opened FileTrees

  // ---------- parts of a tree ----------

  /** `left` is nothing, or a part of what is in `cur`. */
  predicate IsPart(left: Option<Node>, cur: Option<Node>) {
    left.Some? ==> cur.Some? && Covers(cur.value, left.value)
  }

  /** What a failing recursive removal leaves: `left` if that is a part of the tree, else everything. */
  function Remains(cur: Option<Node>, left: Option<Node>): Option<Node> {
    if IsPart(left, cur) then left else cur
  }

  /** What is left when the recursive removal ends as `fault` and the removal of a file works. */
  function LeftBy(cur: Option<Node>, fault: Option<Option<Node>>): Option<Node> {
    if fault.None? then None
    else
      var left := Remains(cur, fault.value);
      if left.Some? && !left.value.Dir? then None else left
  }

  lemma {:induction false} CoversItself(t: Node)
    ensures Covers(t, t)
  {
    if t.Dir? {
      forall n | n in t.entries ensures Covers(t.entries[n], t.entries[n]) { CoversItself(t.entries[n]); }
    }
  }

  lemma PartOfItself(cur: Option<Node>)
    ensures IsPart(cur, cur)
  {
    if cur.Some? { CoversItself(cur.value); }
  }

  // ---------- exact copies ----------

  /** Every name in `dst` also is one of `src`. */
  predicate Inside(dst: Option<Node>, src: Node)
    decreases src
  {
    src.Dir? ==> forall n :: n in EntriesOf(dst) ==> n in src.entries && Inside(Some(EntriesOf(dst)[n]), src.entries[n])
  }

  /** A copy onto leftovers is exact if and only if the leftovers have no name of their own. */
  lemma {:induction false} OverlayIsSourceIff(src: Node, dst: Option<Node>)
    ensures Overlay(src, dst) == src <==> Inside(dst, src)
  {
    if src.Dir? {
      var es, old_ := src.entries, EntriesOf(dst);
      forall n | n in es
        ensures n in old_ ==> (Overlay(es[n], Some(old_[n])) == es[n] <==> Inside(Some(old_[n]), es[n]))
      {
        OverlayIsSourceIff(es[n], Get(old_, n));
      }
      forall n | n in es && n !in old_ ensures Overlay(es[n], Get(old_, n)) == es[n] { OverlayOnNothing(es[n]); }
      var r := Overlay(src, dst).entries;
      assert forall n :: n in r <==> n in es || n in old_;
      if Inside(dst, src) {
        assert r == es;
      } else if r == es {
        forall n | n in old_ ensures n in es && Inside(Some(old_[n]), es[n]) {
          assert n in r;
          assert r[n] == Overlay(es[n], Get(old_, n));
        }
      }
    }
  }

  // ---------- what a check lets through ----------

  /** What a copy is checked for afterwards: nothing, or its size; `full` when the source alone fills
      the 64 bits of the comparison. */
  datatype Check = Unchecked | Sized(full: bool)

  ghost function SizeCheck(src: Node): Check { Sized(TotalSize(src) >= U64_MAX) }

  /** A node of which some part goes unnoticed: a directory can be left empty. */
  predicate Slips(v: Node, check: Check) {
    check.Unchecked? || v.Dir? || (v.File? && (v.data == "" || check.full))
  }

  /** Along directories that both trees have, `dst` has a name of its own that goes unnoticed. */
  predicate Foreign(dst: Option<Node>, src: Node, check: Check)
    decreases src, 1
  {
    src.Dir? && exists n :: n in EntriesOf(dst) && ForeignAt(EntriesOf(dst)[n], src, n, check)
  }

  predicate ForeignAt(v: Node, src: Node, n: string, check: Check)
    requires src.Dir?
    decreases src, 0
  {
    if n in src.entries then Foreign(Some(v), src.entries[n], check) else Slips(v, check)
  }

  /** The copy over `left` succeeds and its check finds nothing. */
  ghost predicate Passes(src: Node, left: Option<Node>, check: Check) {
    && Fits(src, left)
    && (check.Sized? ==> Regular(Overlay(src, left)) && SameCappedSize(src, Overlay(src, left)))
  }

  lemma {:induction false} NotInside(dst: Option<Node>, src: Node)
    ensures !Inside(dst, src) <==> Foreign(dst, src, Unchecked)
    decreases src
  {
    if src.Dir? {
      forall n | n in EntriesOf(dst)
        ensures !(n in src.entries && Inside(Some(EntriesOf(dst)[n]), src.entries[n]))
           <==> ForeignAt(EntriesOf(dst)[n], src, n, Unchecked)
      {
        if n in src.entries { NotInside(Some(EntriesOf(dst)[n]), src.entries[n]); }
      }
    }
  }

  /** A tree can be copied onto itself and onto nothing, and is itself afterwards. */
  lemma {:induction false} FitsItself(t: Node)
    ensures Fits(t, Some(t)) && Fits(t, None) && Overlay(t, Some(t)) == t && Overlay(t, None) == t
  {
    OverlayOnNothing(t);
    if t.Dir? {
      forall n | n in t.entries
        ensures Fits(t.entries[n], Get(t.entries, n)) && Overlay(t.entries[n], Get(t.entries, n)) == t.entries[n]
      {
        FitsItself(t.entries[n]);
      }
      assert Overlay(t, Some(t)).entries == t.entries;
    }
  }

  /** What a part lets slip, the whole does. */
  lemma {:induction false} ForeignPart(big: Node, small: Node, src: Node, check: Check)
    requires Covers(big, small) && Foreign(Some(small), src, check)
    ensures Foreign(Some(big), src, check)
    decreases src
  {
    var es, all := EntriesOf(Some(small)), EntriesOf(Some(big));
    var n :| n in es && ForeignAt(es[n], src, n, check);
    assert n in all && Covers(all[n], es[n]);
    if n in src.entries { ForeignPart(all[n], es[n], src.entries[n], check); }
    assert ForeignAt(all[n], src, n, check);
  }

  // ---------- sizes ----------

  /** Every name of `small` is one of `big`, at least as large there. */
  ghost predicate Grown(small: Node, big: Node) {
    && small.Dir? && big.Dir?
    && forall n :: n in small.entries ==> n in big.entries && TotalSize(small.entries[n]) <= TotalSize(big.entries[n])
  }

  lemma {:induction false} EntriesGrow(small: Node, big: Node, names: set<string>, more: set<string>)
    requires small.Dir? && big.Dir? && names <= small.entries.Keys && names <= more <= big.entries.Keys
    requires forall n :: n in names ==> TotalSize(small.entries[n]) <= TotalSize(big.entries[n])
    ensures SizeOfEntries(small, names) <= SizeOfEntries(big, more)
    decreases names
  {
    if names != {} {
      var n :| n in names;
      SizeWithout(small, names, n);
      SizeWithout(big, more, n);
      EntriesGrow(small, big, names - {n}, more - {n});
    }
  }

  /** One name alone bounds the difference from below. */
  lemma SizeGap(small: Node, big: Node, n: string)
    requires Grown(small, big) && n in big.entries
    ensures TotalSize(big) - TotalSize(small)
         >= TotalSize(big.entries[n]) - (if n in small.entries then TotalSize(small.entries[n]) else 0)
  {
    SizeWithout(big, big.entries.Keys, n);
    if n in small.entries { SizeWithout(small, small.entries.Keys, n); }
    EntriesGrow(small, big, small.entries.Keys - {n}, big.entries.Keys - {n});
    assert n !in small.entries ==> small.entries.Keys - {n} == small.entries.Keys;
  }

  lemma {:induction false} OverlayGrows(src: Node, dst: Option<Node>)
    ensures TotalSize(src) <= TotalSize(Overlay(src, dst))
    ensures src.Dir? ==> Grown(src, Overlay(src, dst))
  {
    if src.Dir? {
      var r := Overlay(src, dst);
      forall n | n in src.entries ensures n in r.entries && TotalSize(src.entries[n]) <= TotalSize(r.entries[n]) {
        OverlayGrows(src.entries[n], Get(EntriesOf(dst), n));
      }
      EntriesGrow(src, r, src.entries.Keys, r.entries.Keys);
    }
  }

  /** An own name that the size check does not notice is one that can slip through it. */
  lemma {:induction false} UnnoticedIsForeign(src: Node, left: Option<Node>, check: Check)
    requires check.Sized? && !Inside(left, src) && Regular(Overlay(src, left))
    requires check.full || TotalSize(Overlay(src, left)) == TotalSize(src)
    ensures Foreign(left, src, check)
    decreases src
  {
    var es, r := EntriesOf(left), Overlay(src, left);
    var n :| n in es && !(n in src.entries && Inside(Some(es[n]), src.entries[n]));
    OverlayGrows(src, left);
    SizeGap(src, r, n);
    assert Regular(r.entries[n]);
    if n in src.entries {
      OverlayGrows(src.entries[n], Some(es[n]));
      UnnoticedIsForeign(src.entries[n], Some(es[n]), check);
    }
    assert ForeignAt(es[n], src, n, check);
  }

  /** Without such a name at the place before, a copy that passes is exact, whatever was left there. */
  lemma ExactUnlessForeign(src: Node, cur: Option<Node>, left: Option<Node>, check: Check)
    requires IsPart(left, cur) && Passes(src, left, check) && (check.Sized? ==> check == SizeCheck(src))
    ensures Foreign(cur, src, check) || Overlay(src, left) == src
  {
    OverlayIsSourceIff(src, left);
    if !Inside(left, src) {
      if check.Sized? { UnnoticedIsForeign(src, left, check); } else { NotInside(left, src); }
      ForeignPart(cur.value, left.value, src, check);
    }
  }

  // ---------- a part that goes unnoticed ----------

  function Emptied(v: Node): Node { if v.Dir? then Dir(map[], v.mode) else v }

  lemma OneNameFits(src: Node, n: string, w: Node)
    requires src.Dir? && (n in src.entries ==> Fits(src.entries[n], Some(w)))
    ensures Fits(src, Some(Dir(map[n := w], 0)))
  {
    forall m | m in src.entries ensures Fits(src.entries[m], Get(map[n := w], m)) {
      if m != n { OverlayOnNothing(src.entries[m]); }
    }
  }

  /** The overlay of a directory with one name, which it may have itself. */
  lemma OneNameOverlay(src: Node, n: string, w: Node)
    requires src.Dir?
    ensures Overlay(src, Some(Dir(map[n := w], 0)))
         == Dir(src.entries[n := if n in src.entries then Overlay(src.entries[n], Some(w)) else w], src.mode)
  {
    var all := src.entries[n := if n in src.entries then Overlay(src.entries[n], Some(w)) else w];
    var r := Overlay(src, Some(Dir(map[n := w], 0))).entries;
    assert r.Keys == all.Keys;
    forall m | m in all ensures r[m] == all[m] { OneNameAt(src, n, w, m); }
    assert r == all;
  }

  lemma OneNameAt(src: Node, n: string, w: Node, m: string)
    requires src.Dir? && (m == n || m in src.entries)
    ensures var r := Overlay(src, Some(Dir(map[n := w], 0))).entries;
      && m in r
      && r[m] == if m != n then src.entries[m] else if n in src.entries then Overlay(src.entries[n], Some(w)) else w
  {
    if m in src.entries { OverlayOnNothing(src.entries[m]); }
    assert Get(map[n := w], m) == if m == n then Some(w) else None;
  }

  /** Putting a node of the same size in the place of an entry, or an empty one in a new place. */
  lemma SameSize(src: Node, n: string, w: Node)
    requires src.Dir? && TotalSize(w) == if n in src.entries then TotalSize(src.entries[n]) else 0
    ensures TotalSize(Dir(src.entries[n := w], src.mode)) == TotalSize(src)
  {
    var r, keys := Dir(src.entries[n := w], src.mode), src.entries.Keys;
    EntriesGrow(src, r, keys, keys);
    EntriesGrow(r, src, keys, keys);
    if n in src.entries {
      assert r.entries.Keys == keys;
    } else {
      SizeWithout(r, r.entries.Keys, n);
      assert r.entries.Keys - {n} == keys;
    }
  }

  /** The way to one own name, and nothing else, is a part of which nobody notices. */
  lemma {:induction false} ThinPart(dst: Option<Node>, src: Node, check: Check) returns (p: Node)
    requires Regular(src) && Foreign(dst, src, check)
    ensures IsPart(Some(p), dst) && Fits(src, Some(p)) && !Inside(Some(p), src)
    ensures check.Sized? ==>
      Regular(Overlay(src, Some(p))) && (check.full || TotalSize(Overlay(src, Some(p))) == TotalSize(src))
    decreases src
  {
    var es := EntriesOf(dst);
    var n :| n in es && ForeignAt(es[n], src, n, check);
    var w := Emptied(es[n]);
    if n in src.entries { w := ThinPart(Some(es[n]), src.entries[n], check); } else { CoversItself(es[n]); }
    p := Dir(map[n := w], 0);
    OneNameOverlay(src, n, w);
    OneNameFits(src, n, w);
    if check.Sized? {
      ThinSize(src, n, if n in src.entries then Overlay(src.entries[n], Some(w)) else w, check);
    }
  }

  lemma ThinSize(src: Node, n: string, w: Node, check: Check)
    requires src.Dir? && Regular(src) && Regular(w) && check.Sized?
    requires check.full || TotalSize(w) == if n in src.entries then TotalSize(src.entries[n]) else 0
    ensures var r := Dir(src.entries[n := w], src.mode); Regular(r) && (check.full || TotalSize(r) == TotalSize(src))
  {
    if !check.full { SameSize(src, n, w); }
  }

  /** Some part of what is at a place can be left so that the copy passes its check and yet is not
      exact, if and only if the place has, next to names of the source, one of its own that can slip
      through: a directory, an empty file, or any file when the source alone fills the comparison. */
  lemma InexactIff(src: Node, cur: Option<Node>, check: Check)
    requires Regular(src) && (check.Sized? ==> check == SizeCheck(src))
    ensures Foreign(cur, src, check)
       <==> exists left :: IsPart(left, cur) && Passes(src, left, check) && Overlay(src, left) != src
  {
    if Foreign(cur, src, check) {
      var p := ThinPart(cur, src, check);
      OverlayIsSourceIff(src, Some(p));
      OverlayGrows(src, Some(p));
      assert IsPart(Some(p), cur) && Passes(src, Some(p), check) && Overlay(src, Some(p)) != src;
    }
    if left :| IsPart(left, cur) && Passes(src, left, check) && Overlay(src, left) != src {
      ExactUnlessForeign(src, cur, left, check);
    }
  }
}
