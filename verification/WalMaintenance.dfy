/** Age-based cleanup by rewriting the log, one pass at a time. */
module WalMaintenance {
  import opened Common
  import opened Text
  import opened Events
  import opened WalCrash

  function Retained(es: seq<Event>, cutoff: nat): seq<Event> {
    if es == [] then [] else (if es[0].ts >= cutoff then [es[0]] else []) + Retained(es[1..], cutoff)
  }

  function Newer(es: seq<Event>, last: nat): seq<Event> {
    if es == [] then [] else (if es[0].seq_ > last then [es[0]] else []) + Newer(es[1..], last)
  }

  function LastSeqOr0(es: seq<Event>): nat { if es == [] then 0 else es[|es| - 1].seq_ }

  function Render(c: Codec, es: seq<Event>): string {
    if es == [] then "" else Line(c, es[0]) + Render(c, es[1..])
  }

  /** The temporary log: what a stale one held, a marker, the retained events, then every event
      numbered above the last retained one. */
  function CleanupText(c: Codec, text: string, stale: string, cutoff: nat, now: nat): string {
    var all := Scan(c, text);
    var kept := Retained(all, cutoff);
    stale + Line(c, Marker(RecoverBase(c, stale), now)) + Render(c, kept) + Render(c, Newer(all, LastSeqOr0(kept)))
  }

  lemma {:induction false} RenderSnoc(c: Codec, es: seq<Event>, e: Event)
    ensures Render(c, es + [e]) == Render(c, es) + Line(c, e)
  {
    if es == [] {
      assert es + [e] == [e] && [e][1..] == [];
      assert Line(c, e) + "" == Line(c, e) && "" + Line(c, e) == Line(c, e);
    } else {
      assert (es + [e])[1..] == es[1..] + [e];
      RenderSnoc(c, es[1..], e);
    }
  }

  lemma {:induction false} RetainedSnoc(es: seq<Event>, e: Event, n: nat)
    ensures Retained(es + [e], n) == Retained(es, n) + (if e.ts >= n then [e] else [])
  {
    var last := if e.ts >= n then [e] else [];
    if es == [] {
      assert es + [e] == [e] && [e][1..] == [];
    } else {
      assert (es + [e])[1..] == es[1..] + [e];
      RetainedSnoc(es[1..], e, n);
      Assoc(if es[0].ts >= n then [es[0]] else [], Retained(es[1..], n), last);
    }
  }

  lemma {:induction false} NewerSnoc(es: seq<Event>, e: Event, n: nat)
    ensures Newer(es + [e], n) == Newer(es, n) + (if e.seq_ > n then [e] else [])
  {
    var last := if e.seq_ > n then [e] else [];
    if es == [] {
      assert es + [e] == [e] && [e][1..] == [];
    } else {
      assert (es + [e])[1..] == es[1..] + [e];
      NewerSnoc(es[1..], e, n);
      Assoc(if es[0].seq_ > n then [es[0]] else [], Newer(es[1..], n), last);
    }
  }

  /** Every event of a text, markers included, blank and broken lines passed over. */
  method ReadEvents(c: Codec, text: string) returns (all: seq<Event>)
    requires Lawful(c)
    ensures all == Scan(c, text)
  {
    all := [];
    var ls := Lines(text);
    for i := 0 to |ls|
      invariant all == ParseAll(c, ls[..i])
    {
      OneMoreLine(c, ls, i);
      var p := c.parse(ls[i]);
      if p.Some? { all := all + [p.value]; }
    }
    assert ls[..|ls|] == ls;
    LinesScan(c, text);
  }

  /** Appends one event after another; the `n`-th write of the pass ends as `io(n)`, and the first
      failure ends the pass. */
  method AppendEach(c: Codec, w: WalWriter, es: seq<Event>, io: nat -> Io, start: nat) returns (ok: bool, n: nat)
    modifies w, w.log
    ensures ok ==> w.log.text == old(w.log.text) + Render(c, es)
    ensures (forall k :: io(k).Done?) ==> ok
  {
    ok, n := true, start;
    assert old(w.log.text) + "" == old(w.log.text);
    for i := 0 to |es|
      invariant ok && w.log.text == old(w.log.text) + Render(c, es[..i])
    {
      RenderSnoc(c, es[..i], es[i]);
      assert es[..i + 1] == es[..i] + [es[i]];
      ok := w.Append(c, es[i], io(n));
      n := n + 1;
      if !ok { return; }
    }
    assert es[..|es|] == es;
  }

  method KeepUnexpired(all: seq<Event>, cutoff: nat) returns (kept: seq<Event>)
    ensures kept == Retained(all, cutoff) && |kept| <= |all|
  {
    kept := [];
    for i := 0 to |all|
      invariant kept == Retained(all[..i], cutoff) && |kept| <= i
    {
      RetainedSnoc(all[..i], all[i], cutoff);
      assert all[..i + 1] == all[..i] + [all[i]];
      if all[i].ts >= cutoff { kept := kept + [all[i]]; }
    }
    assert all[..|all|] == all;
  }

  method KeepNewer(all: seq<Event>, last: nat) returns (newer: seq<Event>)
    ensures newer == Newer(all, last)
  {
    newer := [];
    for i := 0 to |all|
      invariant newer == Newer(all[..i], last)
    {
      NewerSnoc(all[..i], all[i], last);
      assert all[..i + 1] == all[..i] + [all[i]];
      if all[i].seq_ > last { newer := newer + [all[i]]; }
    }
    assert all[..|all|] == all;
  }

  /** Rewrites the log into `tmp` and renames it over the log; `newCur` is the file the path names
      afterwards. Whatever write or rename fails, the path keeps naming the old, untouched log. */
  method Cleanup(c: Codec, cur: LogFile, tmp: LogFile, cutoff: nat, now: nat, io: nat -> Io, renames: bool)
    returns (removed: Option<nat>, newCur: LogFile)
    requires Lawful(c) && cur != tmp
    modifies tmp
    ensures var gone := |Scan(c, cur.text)| - |Retained(Scan(c, cur.text), cutoff)|;
      && (removed.Some? ==> removed.value == gone)
      && (removed == None || gone == 0 ==> newCur == cur)
      && (removed.Some? && gone > 0 ==>
            newCur == tmp && tmp.text == CleanupText(c, cur.text, old(tmp.text), cutoff, now))
      && ((forall k :: io(k).Done?) && renames ==> removed.Some?)
  {
    var all := ReadEvents(c, cur.text);
    var kept := KeepUnexpired(all, cutoff);
    newCur := cur;
    if |kept| < |all| {
      var w := WalWriter.Create(c, tmp, now, io(0));
      if w == null { return None, cur; }
      var ok, n := AppendEach(c, w, kept, io, 1);
      if !ok { return None, cur; }
      var again := ReadEvents(c, cur.text);
      var newer := KeepNewer(again, LastSeqOr0(kept));
      ok, n := AppendEach(c, w, newer, io, n);
      if !ok || !renames { return None, cur; }
      newCur := tmp;
    }
    removed := Some(|all| - |kept|);
  }

  lemma {:induction false} RenderedTextScans(c: Codec, s: string, es: seq<Event>)
    requires Lawful(c) && Tail(s) == ""
    ensures Tail(s + Render(c, es)) == "" && Settled(c, s + Render(c, es)) == Settled(c, s) + es
    ensures Scan(c, s + Render(c, es)) == Settled(c, s) + es
    decreases |es|
  {
    if es == [] {
      assert s + "" == s;
      ScanIsSettledAndTail(c, s);
    } else {
      CompleteWrite(c, s, es[0]);
      RenderedTextScans(c, s + Line(c, es[0]), es[1..]);
      assert s + Line(c, es[0]) + Render(c, es[1..]) == s + Render(c, es);
      assert Settled(c, s) + [es[0]] + es[1..] == Settled(c, s) + es;
    }
  }

  /** What the rewritten log holds. Lines of a stale temporary log survive into it. */
  lemma CleanupScan(c: Codec, text: string, stale: string, cutoff: nat, now: nat)
    requires Lawful(c)
    ensures var all := Scan(c, text);
      var kept := Retained(all, cutoff);
      Scan(c, CleanupText(c, text, stale, cutoff, now))
      == Settled(c, stale) + (if Blank(Tail(stale)) then [Marker(RecoverBase(c, stale), now)] else [])
         + kept + Newer(all, LastSeqOr0(kept))
  {
    var all := Scan(c, text);
    var kept := Retained(all, cutoff);
    var newer := Newer(all, LastSeqOr0(kept));
    var m := Marker(RecoverBase(c, stale), now);
    CompleteWrite(c, stale, m);
    RenderedTextScans(c, stale + Line(c, m), kept);
    RenderedTextScans(c, stale + Line(c, m) + Render(c, kept), newer);
  }

  predicate OldestFirst(es: seq<Event>) {
    forall i, j :: 0 <= i < j < |es| ==> es[i].ts <= es[j].ts && es[i].seq_ <= es[j].seq_
  }

  lemma {:induction false} NewerEmptyIff(es: seq<Event>, last: nat)
    ensures Newer(es, last) == [] <==> forall i :: 0 <= i < |es| ==> es[i].seq_ <= last
  {
    if es != [] {
      NewerEmptyIff(es[1..], last);
      assert forall i :: 0 < i < |es| ==> es[i] == es[1..][i - 1];
      if Newer(es, last) == [] {
        assert |Newer(es[1..], last)| == 0;
      }
    }
  }

  lemma {:induction false} RetainedHasFresh(es: seq<Event>, cutoff: nat)
    requires Retained(es, cutoff) != []
    ensures exists i :: 0 <= i < |es| && es[i].ts >= cutoff
  {
    if es[0].ts < cutoff {
      RetainedHasFresh(es[1..], cutoff);
      var i :| 0 <= i < |es[1..]| && es[1..][i].ts >= cutoff;
      assert es[i + 1].ts >= cutoff;
    }
  }

  lemma RetainedEndsWithLast(es: seq<Event>, cutoff: nat)
    requires OldestFirst(es) && Retained(es, cutoff) != []
    ensures Retained(es, cutoff)[|Retained(es, cutoff)| - 1] == es[|es| - 1]
  {
    RetainedHasFresh(es, cutoff);
    var init, last := es[..|es| - 1], es[|es| - 1];
    assert es == init + [last];
    RetainedSnoc(init, last, cutoff);
    assert last.ts >= cutoff;
  }

  lemma EmptyStale(c: Codec)
    requires Lawful(c)
    ensures Settled(c, "") == [] && Tail("") == "" && RecoverBase(c, "") == 0
  {
    assert Split("") == [""];
    ParseAllOne(c, "");
  }

  /** What is left when no stale temporary log is in the way. */
  lemma FreshCleanupScan(c: Codec, text: string, cutoff: nat, now: nat)
    requires Lawful(c)
    ensures var all := Scan(c, text);
      var kept := Retained(all, cutoff);
      Scan(c, CleanupText(c, text, "", cutoff, now)) == [Marker(0, now)] + kept + Newer(all, LastSeqOr0(kept))
  {
    CleanupScan(c, text, "", cutoff, now);
    EmptyStale(c);
    var kept := Retained(Scan(c, text), cutoff);
    assert [] + [Marker(0, now)] + kept == [Marker(0, now)] + kept;
  }

  /** For every log: the rewritten one holds exactly the marker and the unexpired events if and only
      if no event of the log is numbered above the last unexpired one. */
  lemma CleanupExactIff(c: Codec, text: string, cutoff: nat, now: nat)
    requires Lawful(c)
    ensures var all := Scan(c, text);
      Scan(c, CleanupText(c, text, "", cutoff, now)) == [Marker(0, now)] + Retained(all, cutoff)
      <==> forall i :: 0 <= i < |all| ==> all[i].seq_ <= LastSeqOr0(Retained(all, cutoff))
  {
    var all := Scan(c, text);
    var kept := Retained(all, cutoff);
    var newer := Newer(all, LastSeqOr0(kept));
    FreshCleanupScan(c, text, cutoff, now);
    NewerEmptyIff(all, LastSeqOr0(kept));
    NothingBehind([Marker(0, now)] + kept, newer);
  }

  lemma NothingBehind(head: seq<Event>, more: seq<Event>)
    ensures head + more == head <==> more == []
  {
    assert |head + more| == |head| + |more|;
    if more == [] { assert head + [] == head; }
  }

  /** On a log whose times and numbers never go back this means: something is unexpired, or no event
      carries a positive number. */
  lemma CleanupInOrderIff(c: Codec, text: string, cutoff: nat, now: nat)
    requires Lawful(c) && OldestFirst(Scan(c, text))
    ensures var all := Scan(c, text);
      Scan(c, CleanupText(c, text, "", cutoff, now)) == [Marker(0, now)] + Retained(all, cutoff)
      <==> Retained(all, cutoff) != [] || forall i :: 0 <= i < |all| ==> all[i].seq_ == 0
  {
    CleanupExactIff(c, text, cutoff, now);
    if Retained(Scan(c, text), cutoff) != [] { RetainedEndsWithLast(Scan(c, text), cutoff); }
  }

  /** When every event is expired, all of them are reported as removed, and yet every one with a
      positive number is kept. */
  lemma AllExpiredAreKept(c: Codec, text: string, cutoff: nat, now: nat)
    requires Lawful(c) && Retained(Scan(c, text), cutoff) == []
    ensures Scan(c, CleanupText(c, text, "", cutoff, now)) == [Marker(0, now)] + Newer(Scan(c, text), 0)
  {
    FreshCleanupScan(c, text, cutoff, now);
    assert [Marker(0, now)] + [] == [Marker(0, now)];
  }
}
