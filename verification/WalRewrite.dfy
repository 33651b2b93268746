/** The lines of a rewritten log, and their order. */
module WalRewrite {
  import opened Common
  import opened Events
  import opened WalMaintenance

  /** The positions of the unexpired events. */
  function KeptAt(es: seq<Event>, cutoff: nat): seq<nat> {
    if es == [] then []
    else KeptAt(es[..|es| - 1], cutoff) + if es[|es| - 1].ts >= cutoff then [|es| - 1] else []
  }

  function NewerAt(es: seq<Event>, last: nat): seq<nat> {
    if es == [] then []
    else NewerAt(es[..|es| - 1], last) + if es[|es| - 1].seq_ > last then [|es| - 1] else []
  }

  /** The positions of the lines that a cleanup writes after its marker. */
  function RewrittenAt(es: seq<Event>, cutoff: nat): seq<nat> {
    KeptAt(es, cutoff) + NewerAt(es, LastSeqOr0(Retained(es, cutoff)))
  }

  predicate Within(at: seq<nat>, n: nat) { forall i :: 0 <= i < |at| ==> at[i] < n }

  predicate Rising(at: seq<nat>) { forall i, j :: 0 <= i < j < |at| ==> at[i] < at[j] }

  predicate Distinct<T(==)>(xs: seq<T>) { forall i, j :: 0 <= i < j < |xs| ==> xs[i] != xs[j] }

  function Pick<T>(xs: seq<T>, at: seq<nat>): (r: seq<T>)
    requires Within(at, |xs|)
    ensures |r| == |at| && forall i :: 0 <= i < |at| ==> r[i] == xs[at[i]]
  {
    if at == [] then [] else Pick(xs, at[..|at| - 1]) + [xs[at[|at| - 1]]]
  }

  lemma SnocAt(at: seq<nat>, n: nat)
    requires Within(at, n) && Rising(at)
    ensures Within(at + [n], n + 1) && Rising(at + [n]) && forall i :: i in at + [n] <==> i in at || i == n
  {
  }

  lemma {:induction false} KeptAtIs(es: seq<Event>, cutoff: nat)
    ensures Within(KeptAt(es, cutoff), |es|) && Rising(KeptAt(es, cutoff))
    ensures forall i: nat :: i in KeptAt(es, cutoff) <==> i < |es| && es[i].ts >= cutoff
  {
    if es != [] {
      var init := es[..|es| - 1];
      KeptAtIs(init, cutoff);
      SnocAt(KeptAt(init, cutoff), |init|);
      assert es == init + [es[|init|]];
    }
  }

  lemma {:induction false} NewerAtIs(es: seq<Event>, last: nat)
    ensures Within(NewerAt(es, last), |es|) && Rising(NewerAt(es, last))
    ensures forall i: nat :: i in NewerAt(es, last) <==> i < |es| && es[i].seq_ > last
  {
    if es != [] {
      var init := es[..|es| - 1];
      NewerAtIs(init, last);
      SnocAt(NewerAt(init, last), |init|);
      assert es == init + [es[|init|]];
    }
  }

  lemma {:induction false} PickPrefix<T>(xs: seq<T>, x: T, at: seq<nat>)
    requires Within(at, |xs|)
    ensures Pick(xs + [x], at) == Pick(xs, at)
  {
  }

  lemma {:induction false} PickKept(es: seq<Event>, cutoff: nat)
    ensures Within(KeptAt(es, cutoff), |es|) && Pick(es, KeptAt(es, cutoff)) == Retained(es, cutoff)
  {
    KeptAtIs(es, cutoff);
    if es != [] {
      var init, last := es[..|es| - 1], es[|es| - 1];
      assert es == init + [last];
      PickKept(init, cutoff);
      PickPrefix(init, last, KeptAt(init, cutoff));
      RetainedSnoc(init, last, cutoff);
    }
  }

  lemma {:induction false} PickNewer(es: seq<Event>, last: nat)
    ensures Within(NewerAt(es, last), |es|) && Pick(es, NewerAt(es, last)) == Newer(es, last)
  {
    NewerAtIs(es, last);
    if es != [] {
      var init, end := es[..|es| - 1], es[|es| - 1];
      assert es == init + [end];
      PickNewer(init, last);
      PickPrefix(init, end, NewerAt(init, last));
      NewerSnoc(init, end, last);
    }
  }

  /** Event `j` is unexpired and everything behind it is expired. */
  predicate LastUnexpired(es: seq<Event>, cutoff: nat, j: nat) {
    j < |es| && es[j].ts >= cutoff && forall k :: j < k < |es| ==> es[k].ts < cutoff
  }

  /** No event standing before the last unexpired one is numbered above it. */
  predicate NoneOvertakes(es: seq<Event>, cutoff: nat) {
    forall i, j :: 0 <= i < j < |es| && LastUnexpired(es, cutoff, j) ==> es[i].seq_ <= es[j].seq_
  }

  /** No unexpired event is numbered above the last unexpired one. */
  predicate NoneDoubles(es: seq<Event>, cutoff: nat) {
    forall i, j :: 0 <= i < j < |es| && es[i].ts >= cutoff && LastUnexpired(es, cutoff, j) ==> es[i].seq_ <= es[j].seq_
  }

  lemma LastIsHighest(at: seq<nat>)
    requires Rising(at)
    ensures forall k :: k in at ==> k <= at[|at| - 1]
  {
  }

  /** The last position kept is that of the last unexpired event, whose number decides what is newer. */
  lemma LastKept(es: seq<Event>, cutoff: nat)
    ensures var at := KeptAt(es, cutoff);
      && (at == [] ==> LastSeqOr0(Retained(es, cutoff)) == 0)
      && (at != [] ==> LastUnexpired(es, cutoff, at[|at| - 1])
                       && LastSeqOr0(Retained(es, cutoff)) == es[at[|at| - 1]].seq_)
  {
    KeptAtIs(es, cutoff);
    PickKept(es, cutoff);
    var at := KeptAt(es, cutoff);
    if at != [] {
      assert at[|at| - 1] in at;
      LastIsHighest(at);
    }
  }

  lemma OnlyLast(es: seq<Event>, cutoff: nat, j: nat)
    requires LastUnexpired(es, cutoff, j)
    ensures KeptAt(es, cutoff) != [] && KeptAt(es, cutoff)[|KeptAt(es, cutoff)| - 1] == j
  {
    KeptAtIs(es, cutoff);
    LastKept(es, cutoff);
    assert j in KeptAt(es, cutoff);
  }

  lemma RisingConcat(a: seq<nat>, b: seq<nat>)
    requires Rising(a) && Rising(b)
    ensures Rising(a + b) <==> forall j :: 0 <= j < |b| && a != [] ==> a[|a| - 1] < b[j]
  {
    if Rising(a + b) {
      forall j | 0 <= j < |b| && a != [] ensures a[|a| - 1] < b[j] {
        assert (a + b)[|a| - 1] == a[|a| - 1] && (a + b)[|a| + j] == b[j];
      }
    } else {
      var i, j :| 0 <= i < j < |a + b| && (a + b)[i] >= (a + b)[j];
      assert i < |a| <= j && a[i] <= a[|a| - 1] && b[j - |a|] == (a + b)[j];
    }
  }

  lemma NewerFollow(es: seq<Event>, cutoff: nat, j: nat, newer: seq<nat>)
    requires NoneOvertakes(es, cutoff) && LastUnexpired(es, cutoff, j)
    requires forall i: nat :: i in newer <==> i < |es| && es[i].seq_ > es[j].seq_
    ensures forall k :: 0 <= k < |newer| ==> j < newer[k]
  {
    forall k | 0 <= k < |newer| ensures j < newer[k] { assert newer[k] in newer; }
  }

  /** A rewrite keeps the lines in order if and only if no event before the last unexpired one is
      numbered above it. */
  lemma RewriteKeepsOrderIff(es: seq<Event>, cutoff: nat)
    ensures Rising(RewrittenAt(es, cutoff)) <==> NoneOvertakes(es, cutoff)
  {
    var kept, last := KeptAt(es, cutoff), LastSeqOr0(Retained(es, cutoff));
    var newer := NewerAt(es, last);
    KeptAtIs(es, cutoff);
    NewerAtIs(es, last);
    LastKept(es, cutoff);
    RisingConcat(kept, newer);
    if NoneOvertakes(es, cutoff) {
      if kept != [] { NewerFollow(es, cutoff, kept[|kept| - 1], newer); }
    } else {
      var i, j :| 0 <= i < j < |es| && LastUnexpired(es, cutoff, j) && es[i].seq_ > es[j].seq_;
      OnlyLast(es, cutoff, j);
      assert i in newer;
    }
  }

  lemma DistinctConcat(a: seq<nat>, b: seq<nat>)
    requires Distinct(a) && Distinct(b)
    ensures Distinct(a + b) <==> forall i :: i in a ==> i !in b
  {
    if i :| i in a && i in b {
      var m, k :| 0 <= m < |a| && a[m] == i && 0 <= k < |b| && b[k] == i;
      assert (a + b)[m] == (a + b)[|a| + k];
    } else {
      forall i, j | 0 <= i < |a| && 0 <= j < |b| ensures a[i] != b[j] { assert a[i] in a && b[j] in b; }
    }
  }

  /** A rewrite holds no line twice if and only if no unexpired event is numbered above the last
      unexpired one. */
  lemma RewriteDoublesNothingIff(es: seq<Event>, cutoff: nat)
    ensures Distinct(RewrittenAt(es, cutoff)) <==> NoneDoubles(es, cutoff)
  {
    var kept, last := KeptAt(es, cutoff), LastSeqOr0(Retained(es, cutoff));
    var newer := NewerAt(es, last);
    KeptAtIs(es, cutoff);
    NewerAtIs(es, last);
    LastKept(es, cutoff);
    DistinctConcat(kept, newer);
    if NoneDoubles(es, cutoff) {
      forall i | i in kept ensures i !in newer {
        assert i < |es| && es[i].ts >= cutoff;
      }
    } else {
      var i, j :| 0 <= i < j < |es| && es[i].ts >= cutoff && LastUnexpired(es, cutoff, j) && es[i].seq_ > es[j].seq_;
      OnlyLast(es, cutoff, j);
      assert i in newer && i in kept;
    }
  }

  lemma RewrittenWithin(es: seq<Event>, cutoff: nat)
    ensures Within(RewrittenAt(es, cutoff), |es|)
  {
    KeptAtIs(es, cutoff);
    NewerAtIs(es, LastSeqOr0(Retained(es, cutoff)));
  }

  lemma PickConcat<T>(xs: seq<T>, a: seq<nat>, b: seq<nat>)
    requires Within(a, |xs|) && Within(b, |xs|)
    ensures Within(a + b, |xs|) && Pick(xs, a + b) == Pick(xs, a) + Pick(xs, b)
  {
  }

  // ---------- on event values ----------

  /** Picking lines of a log without repeated events gives a subsequence exactly when their positions
      rise. */
  lemma PickInOrderIff(es: seq<Event>, at: seq<nat>)
    requires Distinct(es) && Within(at, |es|)
    ensures Subseq(Pick(es, at), es) <==> Rising(at)
  {
    if Rising(at) { RisingIsSubseq(es, at, |es|); }
    if Subseq(Pick(es, at), es) {
      assert es[..|es|] == es;
      SubseqIsRising(es, at, |es|);
    }
    assert es[..|es|] == es;
  }

  lemma {:induction false} RisingIsSubseq(es: seq<Event>, at: seq<nat>, n: nat)
    requires n <= |es| && Within(at, n) && Rising(at)
    ensures Subseq(Pick(es, at), es[..n])
    decreases n
  {
    if at != [] {
      assert at[|at| - 1] < n;
      assert es[..n][..n - 1] == es[..n - 1];
      if at[|at| - 1] == n - 1 {
        RisingIsSubseq(es, at[..|at| - 1], n - 1);
        assert Pick(es, at)[..|at| - 1] == Pick(es, at[..|at| - 1]);
      } else {
        forall i | 0 <= i < |at| ensures at[i] < n - 1 { assert i < |at| - 1 ==> at[i] < at[|at| - 1]; }
        RisingIsSubseq(es, at, n - 1);
      }
    }
  }

  lemma {:induction false} SubseqIsRising(es: seq<Event>, at: seq<nat>, n: nat)
    requires Distinct(es) && n <= |es| && Within(at, |es|) && Subseq(Pick(es, at), es[..n])
    ensures Rising(at) && Within(at, n)
    decreases n
  {
    if at != [] {
      assert n > 0;
      assert es[..n][..n - 1] == es[..n - 1];
      if Subseq(Pick(es, at), es[..n - 1]) {
        SubseqIsRising(es, at, n - 1);
      } else {
        var m := |at| - 1;
        assert Pick(es, at)[..m] == Pick(es, at[..m]);
        SubseqIsRising(es, at[..m], n - 1);
        assert es[at[m]] == es[n - 1];
        assert at[m] == n - 1;
      }
    }
  }

  /** The log a cleanup leaves holds its marker and then lines of the old log; they stand in the old
      order if and only if no event before the last unexpired one is numbered above it, and none stands
      twice if and only if no unexpired event is. Every log, whatever its times and numbers. */
  lemma CleanupKeepsOrderIff(c: Codec, text: string, cutoff: nat, now: nat)
    requires Lawful(c)
    ensures var es, at := Scan(c, text), RewrittenAt(Scan(c, text), cutoff);
      && Within(at, |es|)
      && Scan(c, CleanupText(c, text, "", cutoff, now)) == [Marker(0, now)] + Pick(es, at)
      && (Rising(at) <==> NoneOvertakes(es, cutoff)) && (Distinct(at) <==> NoneDoubles(es, cutoff))
      && (Distinct(es) ==> (Subseq(Pick(es, at), es) <==> NoneOvertakes(es, cutoff)))
  {
    var es := Scan(c, text);
    var kept, newer := KeptAt(es, cutoff), NewerAt(es, LastSeqOr0(Retained(es, cutoff)));
    FreshCleanupScan(c, text, cutoff, now);
    PickKept(es, cutoff);
    PickNewer(es, LastSeqOr0(Retained(es, cutoff)));
    PickConcat(es, kept, newer);
    Assoc([Marker(0, now)], Pick(es, kept), Pick(es, newer));
    RewriteKeepsOrderIff(es, cutoff);
    RewriteDoublesNothingIff(es, cutoff);
    if Distinct(es) { PickInOrderIff(es, kept + newer); }
  }

  /** A cleanup can change the order of events whose numbers go back: an expired event with a higher
      number comes back behind a later one. */
  lemma CleanupReordersWitness(c: Codec, first: Event, second: Event, cutoff: nat, now: nat)
    requires Lawful(c) && first.ts < cutoff <= second.ts && first.seq_ > second.seq_
    ensures var text := Line(c, first) + Line(c, second);
      && Scan(c, text) == [first, second]
      && Scan(c, CleanupText(c, text, "", cutoff, now)) == [Marker(0, now)] + [second] + [first]
  {
    var text := Line(c, first) + Line(c, second);
    TwoLines(c, first, second);
    assert [] + [first] == [first] && [first] + [second] == [first, second];
    RetainedSnoc([], first, cutoff);
    RetainedSnoc([first], second, cutoff);
    NewerSnoc([], first, second.seq_);
    NewerSnoc([first], second, second.seq_);
    FreshCleanupScan(c, text, cutoff, now);
  }

  lemma TwoLines(c: Codec, first: Event, second: Event)
    requires Lawful(c)
    ensures Scan(c, Line(c, first) + Line(c, second)) == [first, second]
  {
    EmptyStale(c);
    CompleteWrite(c, "", first);
    assert "" + Line(c, first) == Line(c, first) && [] + [first] == [first];
    CompleteWrite(c, Line(c, first), second);
    assert [first] + [second] == [first, second];
  }

  /** An unexpired event numbered above the last unexpired one is written twice. */
  lemma CleanupDoublesWitness(c: Codec, old_: Event, a: Event, b: Event, cutoff: nat, now: nat)
    requires Lawful(c) && old_.ts < cutoff <= a.ts && cutoff <= b.ts && old_.seq_ <= b.seq_ < a.seq_
    ensures var text := Line(c, old_) + Line(c, a) + Line(c, b);
      && Scan(c, text) == [old_, a, b]
      && Scan(c, CleanupText(c, text, "", cutoff, now)) == [Marker(0, now)] + [a, b] + [a]
  {
    ThreeLines(c, old_, a, b);
    ThreeRewritten(old_, a, b, cutoff);
    FreshCleanupScan(c, Line(c, old_) + Line(c, a) + Line(c, b), cutoff, now);
  }

  lemma ThreeLines(c: Codec, e1: Event, e2: Event, e3: Event)
    requires Lawful(c)
    ensures Scan(c, Line(c, e1) + Line(c, e2) + Line(c, e3)) == [e1, e2, e3]
  {
    EmptyStale(c);
    CompleteWrite(c, "", e1);
    assert "" + Line(c, e1) == Line(c, e1);
    CompleteWrite(c, Line(c, e1), e2);
    CompleteWrite(c, Line(c, e1) + Line(c, e2), e3);
  }

  lemma ThreeRewritten(old_: Event, a: Event, b: Event, cutoff: nat)
    requires old_.ts < cutoff <= a.ts && cutoff <= b.ts && old_.seq_ <= b.seq_ < a.seq_
    ensures Retained([old_, a, b], cutoff) == [a, b] && Newer([old_, a, b], b.seq_) == [a]
  {
    assert [old_, a, b][1..] == [a, b] && [a, b][1..] == [b] && [b][1..] == [];
    assert Retained([b], cutoff) == [b] && Retained([a, b], cutoff) == [a, b];
    assert Newer([b], b.seq_) == [] && Newer([a, b], b.seq_) == [a];
  }
}
