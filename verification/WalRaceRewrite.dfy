/** What a cleanup makes of a log of the race. */
module WalRaceRewrite {
  import opened Events
  import opened WalMaintenance
  import opened WalRewrite
  import opened WalRace
  import opened WalRaceLoss
  import opened WalRaceSteps
  import opened WalRaceText
  import opened WalRaceRead

  // ---------- what a rewrite lists ----------

  lemma {:induction false} KeptLinesSnoc(appends: map<nat, Append>, ids: seq<nat>, id: nat, cutoff: nat)
    ensures KeptLines(appends, ids + [id], cutoff)
         == KeptLines(appends, ids, cutoff) + if EventOf(appends, id).ts >= cutoff then [id] else []
  {
    if ids == [] {
      assert ids + [id] == [id] && [id][1..] == [];
    } else {
      assert (ids + [id])[1..] == ids[1..] + [id];
      KeptLinesSnoc(appends, ids[1..], id, cutoff);
    }
  }

  lemma {:induction false} NewerLinesSnoc(appends: map<nat, Append>, ids: seq<nat>, id: nat, last: nat)
    ensures NewerLines(appends, ids + [id], last)
         == NewerLines(appends, ids, last) + if EventOf(appends, id).seq_ > last then [id] else []
  {
    if ids == [] {
      assert ids + [id] == [id] && [id][1..] == [];
    } else {
      assert (ids + [id])[1..] == ids[1..] + [id];
      NewerLinesSnoc(appends, ids[1..], id, last);
    }
  }

  lemma EventsOfSnoc(appends: map<nat, Append>, ids: seq<nat>, id: nat)
    ensures EventsOf(appends, ids + [id]) == EventsOf(appends, ids) + [EventOf(appends, id)]
  {
    EventsOfConcat(appends, ids, [id]);
    EventsOfOne(appends, id);
  }

  lemma {:induction false} EventsOfAt(appends: map<nat, Append>, ids: seq<nat>)
    ensures |EventsOf(appends, ids)| == |ids|
    ensures forall i :: 0 <= i < |ids| ==> EventsOf(appends, ids)[i] == EventOf(appends, ids[i])
  {
    if ids != [] { EventsOfAt(appends, ids[1..]); }
  }

  lemma KeptAtSnoc(es: seq<Event>, e: Event, cutoff: nat)
    ensures KeptAt(es + [e], cutoff) == KeptAt(es, cutoff) + if e.ts >= cutoff then [|es|] else []
  {
    assert (es + [e])[..|es|] == es;
  }

  lemma NewerAtSnoc(es: seq<Event>, e: Event, last: nat)
    ensures NewerAt(es + [e], last) == NewerAt(es, last) + if e.seq_ > last then [|es|] else []
  {
    assert (es + [e])[..|es|] == es;
  }

  lemma PickSnoc(xs: seq<nat>, x: nat, at: seq<nat>, keep: bool)
    requires Within(at, |xs|)
    ensures var more := at + if keep then [|xs|] else [];
      && Within(more, |xs + [x]|)
      && Pick(xs + [x], more) == Pick(xs, at) + if keep then [x] else []
  {
  }

  lemma {:induction false} KeptLinesAt(appends: map<nat, Append>, ids: seq<nat>, cutoff: nat)
    ensures Within(KeptAt(EventsOf(appends, ids), cutoff), |ids|)
    ensures KeptLines(appends, ids, cutoff) == Pick(ids, KeptAt(EventsOf(appends, ids), cutoff))
  {
    if ids != [] {
      var init, id := ids[..|ids| - 1], ids[|ids| - 1];
      var es, e := EventsOf(appends, init), EventOf(appends, id);
      assert ids == init + [id];
      KeptLinesAt(appends, init, cutoff);
      EventsOfAt(appends, init);
      EventsOfSnoc(appends, init, id);
      KeptAtSnoc(es, e, cutoff);
      KeptLinesSnoc(appends, init, id, cutoff);
      PickSnoc(init, id, KeptAt(es, cutoff), e.ts >= cutoff);
    }
  }

  lemma {:induction false} NewerLinesAt(appends: map<nat, Append>, ids: seq<nat>, last: nat)
    ensures Within(NewerAt(EventsOf(appends, ids), last), |ids|)
    ensures NewerLines(appends, ids, last) == Pick(ids, NewerAt(EventsOf(appends, ids), last))
  {
    if ids != [] {
      var init, id := ids[..|ids| - 1], ids[|ids| - 1];
      var es, e := EventsOf(appends, init), EventOf(appends, id);
      assert ids == init + [id];
      NewerLinesAt(appends, init, last);
      EventsOfAt(appends, init);
      EventsOfSnoc(appends, init, id);
      NewerAtSnoc(es, e, last);
      NewerLinesSnoc(appends, init, id, last);
      PickSnoc(init, id, NewerAt(es, last), e.seq_ > last);
    }
  }

  /** What the task's first read found, as positions in the history of the file it has locked. */
  lemma ReadLines(c: Codec, s: State, cutoff: nat)
    requires Inv(c, s) && Disk(c, s) && s.maint.ClnRead?
    ensures var ids, es := s.maint.lines, Scan(c, s.maint.text);
      && s.maint.ino in s.logs && ids == s.logs[s.maint.ino] && es == EventsOf(s.appends, ids) && |es| == |ids|
      && (forall i :: 0 <= i < |ids| ==> ids[i] in s.appends && es[i] == s.appends[ids[i]].ev && ids[i] < s.now)
      && Within(RewrittenAt(es, cutoff), |ids|)
  {
    EventsOfAt(s.appends, s.maint.lines);
    RewrittenWithin(Scan(c, s.maint.text), cutoff);
  }

  /** A rewrite lists its marker and then appends of the old history, at the positions `RewrittenAt`
      gives for the events read. */
  lemma BuiltLog(c: Codec, limit: nat, s: State, cutoff: nat)
    requires Inv(c, s) && Disk(c, s) && Enabled(c, s, ClnBuild(cutoff))
    ensures var s', at := Apply(c, limit, s, ClnBuild(cutoff)), RewrittenAt(Scan(c, s.maint.text), cutoff);
      && Within(at, |s.maint.lines|)
      && s'.logs == s.logs[s.next := [s.now] + Pick(s.maint.lines, at)]
      && (var m := Marker(0, s.now);
          s'.appends == s.appends[s.now := Append(m, s.next, s.now, 0, |Line(c, m)|, Acked, false)])
      && s'.lock == s.lock && s.now !in s.appends && s.next !in s.logs
  {
    NotYetLogged(s);
    ReadLines(c, s, cutoff);
    BuiltIds(s.appends, s.maint.lines, Scan(c, s.maint.text), cutoff, s.now);
  }

  lemma BuiltIds(appends: map<nat, Append>, ids: seq<nat>, es: seq<Event>, cutoff: nat, now: nat)
    requires es == EventsOf(appends, ids)
    ensures var at, last := RewrittenAt(es, cutoff), LastSeqOr0(Retained(es, cutoff));
      && Within(at, |ids|)
      && [now] + KeptLines(appends, ids, cutoff) + NewerLines(appends, ids, last) == [now] + Pick(ids, at)
  {
    var last := LastSeqOr0(Retained(es, cutoff));
    KeptLinesAt(appends, ids, cutoff);
    NewerLinesAt(appends, ids, last);
    PickConcat(ids, KeptAt(es, cutoff), NewerAt(es, last));
    var kept, newer := KeptLines(appends, ids, cutoff), NewerLines(appends, ids, last);
    assert [now] + kept + newer == [now] + (kept + newer);
  }

  // ---------- what the other steps list ----------

  /** The other steps of the maintenance task change no line and give no writer a lock. */
  lemma TaskKeeps(c: Codec, limit: nat, s: State, a: Action, x: nat)
    requires Holding(s) && Enabled(c, s, a) && !WriterStep(a) && !a.RotCreate? && !a.ClnBuild?
    ensures var s' := Apply(c, limit, s, a);
      && s'.appends == s.appends && s'.logs == s.logs
      && (x in s'.lock && s'.lock[x].Writer? ==> x in s.lock && s.lock[x] == s'.lock[x])
  {
    if QuietStep(a) { QuietLocks(c, s, a); }
  }

  lemma CreateKeeps(c: Codec, s: State, x: nat)
    requires s.maint.RotRenamed?
    ensures var s' := Tick(CreateEffect(c, s));
      && s'.lock == s.lock && s'.appends.Keys == s.appends.Keys
      && (x in s'.logs ==> s'.logs[x] == [] || (x in s.logs && s'.logs[x] == s.logs[x]))
  {
    assert CreateEffect(c, s).logs == Ensure(s).logs[Ensure(s).dir[Cur] := []];
  }

  predicate Once(s: State, x: nat) { x in s.logs ==> Distinct(s.logs[x]) }

  lemma ChunkOnce(c: Codec, s: State, p: nat, n: nat, x: nat)
    requires Thread(c, s, p) && CanChunk(c, s, p, n) && Once(s, x)
    ensures Once(Tick(ChunkEffect(c, s, p, n)), x)
  {
    assert forall y :: y in s.logs ==> p !in s.logs[y];
  }

  lemma OnceStep(c: Codec, limit: nat, s: State, a: Action, x: nat)
    requires Inv(c, s) && Enabled(c, s, a) && !a.ClnBuild? && Once(s, x)
    ensures Once(Apply(c, limit, s, a), x)
  {
    if a.Chunk? {
      assert Thread(c, s, a.id);
      ChunkOnce(c, s, a.id, a.n, x);
    } else if a.RotCreate? {
      CreateKeeps(c, s, x);
    } else if !WriterStep(a) {
      TaskKeeps(c, limit, s, a, x);
    } else {
      QuietWriter(c, limit, s, a, x);
    }
  }

  lemma QuietWriter(c: Codec, limit: nat, s: State, a: Action, x: nat)
    requires Enabled(c, s, a) && WriterStep(a) && !a.Chunk?
    ensures var s' := Apply(c, limit, s, a);
      x in s'.logs ==> s'.logs[x] == [] || (x in s.logs && s'.logs[x] == s.logs[x])
  {
  }

  lemma PickDistinctIff(xs: seq<nat>, at: seq<nat>)
    requires Distinct(xs) && Within(at, |xs|)
    ensures Distinct(Pick(xs, at)) <==> Distinct(at)
  {
    if i, j :| 0 <= i < j < |at| && at[i] == at[j] {
      assert Pick(xs, at)[i] == Pick(xs, at)[j];
    }
  }

  lemma ConsDistinctIff(x: nat, xs: seq<nat>)
    requires x !in xs
    ensures Distinct([x] + xs) <==> Distinct(xs)
  {
    var ys := [x] + xs;
    assert forall i :: 0 <= i < |xs| ==> ys[i + 1] == xs[i];
    if Distinct(xs) {
      forall i, j | 0 <= i < j < |ys| ensures ys[i] != ys[j] {
        assert ys[j] == xs[j - 1];
        if i > 0 { assert ys[i] == xs[i - 1]; }
      }
    } else {
      var i, j :| 0 <= i < j < |xs| && xs[i] == xs[j];
      assert ys[i + 1] == ys[j + 1];
    }
  }

  lemma RewrittenDistinctIff(es: seq<Event>, ids: seq<nat>, cutoff: nat, now: nat)
    requires Distinct(ids) && now !in ids && Within(RewrittenAt(es, cutoff), |ids|)
    ensures Distinct([now] + Pick(ids, RewrittenAt(es, cutoff))) <==> NoneDoubles(es, cutoff)
  {
    RewriteDoublesNothingIff(es, cutoff);
    PickDistinctIff(ids, RewrittenAt(es, cutoff));
    ConsDistinctIff(now, Pick(ids, RewrittenAt(es, cutoff)));
  }

  /** A rewrite lists an append twice if and only if an unexpired event it read is numbered above the
      last unexpired one. */
  lemma BuildOnceIff(c: Codec, limit: nat, s: State, cutoff: nat)
    requires Inv(c, s) && Disk(c, s) && Enabled(c, s, ClnBuild(cutoff)) && forall x :: Once(s, x)
    ensures (forall x :: Once(Apply(c, limit, s, ClnBuild(cutoff)), x))
       <==> NoneDoubles(Scan(c, s.maint.text), cutoff)
  {
    var s', at := Apply(c, limit, s, ClnBuild(cutoff)), RewrittenAt(Scan(c, s.maint.text), cutoff);
    ReadLines(c, s, cutoff);
    BuiltLog(c, limit, s, cutoff);
    assert Once(s, s.maint.ino);
    RewrittenDistinctIff(Scan(c, s.maint.text), s.maint.lines, cutoff, s.now);
    forall x | x != s.next ensures Once(s', x) { assert Once(s, x); }
    assert Once(s', s.next) <==> Distinct(s'.logs[s.next]);
  }

  lemma OnceStepIff(c: Codec, limit: nat, s: State, a: Action)
    requires Inv(c, s) && Disk(c, s) && Enabled(c, s, a) && forall x :: Once(s, x)
    ensures (forall x :: Once(Apply(c, limit, s, a), x))
       <==> (a.ClnBuild? ==> NoneDoubles(Scan(c, s.maint.text), a.cutoff))
  {
    if a.ClnBuild? {
      BuildOnceIff(c, limit, s, a.cutoff);
    } else {
      forall x ensures Once(Apply(c, limit, s, a), x) { OnceStep(c, limit, s, a, x); }
    }
  }

  // ---------- over runs ----------

  /** At every point of the run no inode lists an append twice. */
  ghost predicate NeverTwice(c: Codec, limit: nat, s: State, acts: seq<Action>)
    requires IsRun(c, limit, s, acts)
    decreases |acts|
  {
    (forall x :: Once(s, x)) && (acts == [] || NeverTwice(c, limit, Apply(c, limit, s, acts[0]), acts[1..]))
  }

  /** No rewrite of the run reads an unexpired event numbered above the last unexpired one. */
  predicate RewritesDoubleNothing(c: Codec, limit: nat, s: State, acts: seq<Action>)
    requires IsRun(c, limit, s, acts)
    decreases |acts|
  {
    acts == []
    || ((acts[0].ClnBuild? ==> NoneDoubles(Scan(c, s.maint.text), acts[0].cutoff))
        && RewritesDoubleNothing(c, limit, Apply(c, limit, s, acts[0]), acts[1..]))
  }

  lemma {:induction false} NeverTwiceIffFrom(c: Codec, limit: nat, s: State, acts: seq<Action>)
    requires Lawful(c) && Inv(c, s) && Disk(c, s) && IsRun(c, limit, s, acts) && forall x :: Once(s, x)
    ensures NeverTwice(c, limit, s, acts) <==> RewritesDoubleNothing(c, limit, s, acts)
    decreases |acts|, 1
  {
    if acts != [] {
      OnceStepIff(c, limit, s, acts[0]);
      NeverTwiceFromNext(c, limit, s, acts);
    }
  }

  lemma {:induction false} NeverTwiceFromNext(c: Codec, limit: nat, s: State, acts: seq<Action>)
    requires Lawful(c) && Inv(c, s) && Disk(c, s) && IsRun(c, limit, s, acts) && acts != []
    ensures var s' := Apply(c, limit, s, acts[0]);
      (forall x :: Once(s', x)) ==>
        (NeverTwice(c, limit, s', acts[1..]) <==> RewritesDoubleNothing(c, limit, s', acts[1..]))
    decreases |acts|, 0
  {
    InvStep(c, limit, s, acts[0]);
    DiskOneStep(c, limit, s, acts[0]);
    var s' := Apply(c, limit, s, acts[0]);
    if forall x :: Once(s', x) { NeverTwiceIffFrom(c, limit, s', acts[1..]); }
  }

  /** Over every interleaving: no file ever lists an append twice if and only if no rewrite reads an
      unexpired event numbered above the last unexpired one; a run without a rewrite lists none twice. */
  lemma ListedOnceIff(c: Codec, limit: nat, acts: seq<Action>)
    requires Lawful(c) && IsRun(c, limit, Init, acts)
    ensures NeverTwice(c, limit, Init, acts) <==> RewritesDoubleNothing(c, limit, Init, acts)
    ensures (forall i :: 0 <= i < |acts| ==> !acts[i].ClnBuild?) ==> NeverTwice(c, limit, Init, acts)
  {
    InvInit(c);
    NeverTwiceIffFrom(c, limit, Init, acts);
    if forall i :: 0 <= i < |acts| ==> !acts[i].ClnBuild? { NoRewriteDoublesNothing(c, limit, Init, acts); }
  }

  lemma {:induction false} NoRewriteDoublesNothing(c: Codec, limit: nat, s: State, acts: seq<Action>)
    requires IsRun(c, limit, s, acts) && forall i :: 0 <= i < |acts| ==> !acts[i].ClnBuild?
    ensures RewritesDoubleNothing(c, limit, s, acts)
    decreases |acts|
  {
    if acts != [] { NoRewriteDoublesNothing(c, limit, Apply(c, limit, s, acts[0]), acts[1..]); }
  }
}
