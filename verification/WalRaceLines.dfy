/** The order of the lines in each file of the race: what every single step leaves of it, and what a
    rewrite makes of the order it finds. */
module WalRaceLines {
  import opened Events
  import opened WalMaintenance
  import opened WalRewrite
  import opened WalRace
  import opened WalRaceSteps
  import opened WalRaceText
  import opened WalRaceRewrite

  function StartOf(appends: map<nat, Append>, id: nat): nat {
    if id in appends then appends[id].startedAt else 0
  }

  /** Not the marker of a cleanup, which is written at the time it is known by. */
  predicate ByWriter(appends: map<nat, Append>, id: nat) { StartOf(appends, id) != id }

  /** The lines of writers stand in the order in which they began to write. */
  predicate Rows(appends: map<nat, Append>, ids: seq<nat>) {
    forall i, j :: 0 <= i < j < |ids| && ByWriter(appends, ids[i]) && ByWriter(appends, ids[j]) ==>
      StartOf(appends, ids[i]) < StartOf(appends, ids[j])
  }

  /** Cleanup markers stand before all other lines, and their number is zero. */
  predicate Heads(appends: map<nat, Append>, ids: seq<nat>) {
    && (forall i, j :: 0 <= i < j < |ids| && !ByWriter(appends, ids[j]) ==> !ByWriter(appends, ids[i]))
    && (forall i :: 0 <= i < |ids| && !ByWriter(appends, ids[i]) ==> EventOf(appends, ids[i]).seq_ == 0)
  }

  predicate InOrder(s: State, x: nat) { x in s.logs ==> Rows(s.appends, s.logs[x]) }

  predicate Headed(s: State, x: nat) { x in s.logs ==> Heads(s.appends, s.logs[x]) }

  /** `id` is half way through a line on inode `x`. */
  predicate MidLine(c: Codec, s: State, x: nat, id: nat) {
    && x in s.lock && s.lock[x] == Writer(id) && id in s.appends && s.appends[id].ino == x
    && 0 < s.appends[id].done < Length(c, s.appends[id])
  }

  ghost predicate Behind(c: Codec, s: State, x: nat) {
    forall id, e :: MidLine(c, s, x, id) && x in s.logs && e in s.logs[x] ==>
      StartOf(s.appends, e) < s.appends[id].startedAt
  }

  ghost predicate Lined(c: Codec, s: State, x: nat) { Headed(s, x) && Behind(c, s, x) }

  /** What a step leaves of all this. */
  ghost predicate Steady(c: Codec, s: State, s': State, x: nat) {
    Lined(c, s', x) && (InOrder(s, x) ==> InOrder(s', x))
  }

  // ---------- steps other than a rewrite ----------

  /** Nothing about these lines has changed. */
  predicate SameLines(appends: map<nat, Append>, appends': map<nat, Append>, ids: seq<nat>) {
    forall e :: e in ids ==> StartOf(appends', e) == StartOf(appends, e) && EventOf(appends', e) == EventOf(appends, e)
  }

  lemma RowsCarry(appends: map<nat, Append>, appends': map<nat, Append>, ids: seq<nat>)
    requires SameLines(appends, appends', ids) && Rows(appends, ids)
    ensures Rows(appends', ids)
  {
    forall i, j | 0 <= i < j < |ids| && ByWriter(appends', ids[i]) && ByWriter(appends', ids[j])
      ensures StartOf(appends', ids[i]) < StartOf(appends', ids[j])
    {
      assert ids[i] in ids && ids[j] in ids;
    }
  }

  lemma HeadsCarry(appends: map<nat, Append>, appends': map<nat, Append>, ids: seq<nat>)
    requires SameLines(appends, appends', ids) && Heads(appends, ids)
    ensures Heads(appends', ids)
  {
    forall i | 0 <= i < |ids|
      ensures ByWriter(appends', ids[i]) == ByWriter(appends, ids[i])
      ensures EventOf(appends', ids[i]) == EventOf(appends, ids[i])
    {
      assert ids[i] in ids;
    }
  }

  lemma LinesFrame(appends: map<nat, Append>, appends': map<nat, Append>, ids: seq<nat>)
    requires SameLines(appends, appends', ids)
    ensures Rows(appends', ids) <==> Rows(appends, ids)
    ensures Heads(appends, ids) ==> Heads(appends', ids)
  {
    if Rows(appends, ids) { RowsCarry(appends, appends', ids); }
    if Rows(appends', ids) { RowsCarry(appends', appends, ids); }
    if Heads(appends, ids) { HeadsCarry(appends, appends', ids); }
  }

  lemma LinesSnoc(appends: map<nat, Append>, ids: seq<nat>, p: nat)
    requires ByWriter(appends, p) && forall e :: e in ids ==> StartOf(appends, e) < StartOf(appends, p)
    ensures Rows(appends, ids) ==> Rows(appends, ids + [p])
    ensures Heads(appends, ids) ==> Heads(appends, ids + [p])
  {
    assert forall i :: 0 <= i < |ids| ==> ids[i] in ids;
  }

  lemma SteadyFrame(c: Codec, s: State, s': State, x: nat)
    requires Lined(c, s, x)
    requires x in s'.logs ==> s'.logs[x] == [] || (x in s.logs && s'.logs[x] == s.logs[x])
    requires x in s'.logs ==> SameLines(s.appends, s'.appends, s'.logs[x])
    requires forall id :: MidLine(c, s', x, id) ==>
      MidLine(c, s, x, id) && s'.appends[id].startedAt == s.appends[id].startedAt
    ensures Steady(c, s, s', x)
  {
    if x in s'.logs && s'.logs[x] != [] { LinesFrame(s.appends, s'.appends, s'.logs[x]); }
  }

  lemma LoggedStarted(c: Codec, s: State, x: nat)
    requires Inv(c, s)
    ensures forall e :: x in s.logs && e in s.logs[x] ==>
      e in s.appends && s.appends[e].startedAt < s.now && s.appends[e].done == Length(c, s.appends[e])
  {
    forall e | x in s.logs && e in s.logs[x]
      ensures e in s.appends && s.appends[e].startedAt < s.now && s.appends[e].done == Length(c, s.appends[e])
    {
      assert Thread(c, s, e);
      assert Length(c, s.appends[e]) > 0;
    }
  }

  lemma ChunkSteady(c: Codec, s: State, p: nat, n: nat, x: nat)
    requires Inv(c, s) && Lined(c, s, x) && CanChunk(c, s, p, n)
    ensures Steady(c, s, Tick(ChunkEffect(c, s, p, n)), x)
  {
    var s', a := Tick(ChunkEffect(c, s, p, n)), s.appends[p];
    assert Thread(c, s, p);
    LoggedStarted(c, s, x);
    if x == a.ino {
      ChunkMine(c, s, s', p, x);
    } else {
      SteadyFrame(c, s, s', x);
    }
  }

  lemma ChunkMine(c: Codec, s: State, s': State, p: nat, x: nat)
    requires Lined(c, s, x) && p in s.appends && s.appends[p].ino == x && x in s.lock
    requires s.lock[x] == Writer(p) && s'.lock == s.lock && p < s.now
    requires s.appends[p].done < Length(c, s.appends[p]) && p in s'.appends
    requires s.appends[p].done > 0 ==> s.appends[p].startedAt > p
    requires s'.appends == s.appends[p := s'.appends[p]] && s'.appends[p].ev == s.appends[p].ev
    requires s'.appends[p].startedAt == if s.appends[p].done == 0 then s.now else s.appends[p].startedAt
    requires x in s.logs && x in s'.logs && (s'.logs[x] == s.logs[x] || s'.logs[x] == s.logs[x] + [p])
    requires forall e :: e in s.logs[x] ==>
      e in s.appends && s.appends[e].startedAt < s.now && s.appends[e].done == Length(c, s.appends[e])
    requires s'.appends[p].done < Length(c, s'.appends[p]) ==> s'.logs[x] == s.logs[x]
    ensures Steady(c, s, s', x)
  {
    assert s.appends[p].done > 0 ==> MidLine(c, s, x, p);
    assert forall e :: e in s.logs[x] ==> e != p && StartOf(s'.appends, e) < s'.appends[p].startedAt;
    LinesFrame(s.appends, s'.appends, s.logs[x]);
    LinesSnoc(s'.appends, s.logs[x], p);
  }

  lemma OpenKeeps(s: State, ev: Event, x: nat)
    requires s.now !in s.appends
    ensures var s' := Tick(OpenEffect(s, ev));
      && s'.lock == s.lock && (x in s'.logs ==> s'.logs[x] == [] || (x in s.logs && s'.logs[x] == s.logs[x]))
      && (forall id :: id in s.appends ==> id in s'.appends && s'.appends[id] == s.appends[id])
      && forall id :: id in s'.appends && id !in s.appends ==> s'.appends[id].done == 0
  {
  }

  lemma OpenSteady(c: Codec, s: State, ev: Event, x: nat)
    requires Inv(c, s) && Lined(c, s, x)
    ensures Steady(c, s, Tick(OpenEffect(s, ev)), x)
  {
    NotYetLogged(s);
    OpenKeeps(s, ev, x);
    LoggedStarted(c, s, x);
    SteadyFrame(c, s, Tick(OpenEffect(s, ev)), x);
  }

  lemma LockSteady(c: Codec, s: State, p: nat, x: nat)
    requires Inv(c, s) && Lined(c, s, x) && CanLock(s, p)
    ensures Steady(c, s, Tick(LockEffect(s, p)), x)
  {
    assert Thread(c, s, p);
    SteadyFrame(c, s, Tick(LockEffect(s, p)), x);
  }

  lemma UnlockSteady(c: Codec, s: State, p: nat, x: nat)
    requires Inv(c, s) && Lined(c, s, x) && CanUnlock(c, s, p)
    ensures Steady(c, s, Tick(UnlockEffect(c, s, p)), x)
  {
    SteadyFrame(c, s, Tick(UnlockEffect(c, s, p)), x);
  }

  lemma DieSteady(c: Codec, s: State, p: nat, x: nat)
    requires Inv(c, s) && Lined(c, s, x) && CanDie(c, s, p)
    ensures Steady(c, s, Tick(DieEffect(c, s, p)), x)
  {
    SteadyFrame(c, s, Tick(DieEffect(c, s, p)), x);
  }

  /** The re-creation changes no event's start and moves nobody into the middle of a line. */
  lemma CreateCuts(c: Codec, s: State, id: nat)
    requires s.maint.RotRenamed? && id in s.appends
    ensures var s' := Tick(CreateEffect(c, s));
      && id in s'.appends && s'.appends[id].startedAt == s.appends[id].startedAt
      && s'.appends[id].ino == s.appends[id].ino && s'.appends[id].done == s.appends[id].done
      && s'.appends[id].ev == s.appends[id].ev
  {
    assert Tick(CreateEffect(c, s)).appends[id] == Cut(c, s.appends[id], Ensure(s).dir[Cur]);
  }

  lemma CreateSteady(c: Codec, s: State, x: nat)
    requires Lined(c, s, x) && s.maint.RotRenamed?
    requires forall e :: x in s.logs && e in s.logs[x] ==> e in s.appends
    ensures Steady(c, s, Tick(CreateEffect(c, s)), x)
  {
    var s' := Tick(CreateEffect(c, s));
    CreateKeeps(c, s, x);
    forall id | MidLine(c, s', x, id)
      ensures MidLine(c, s, x, id) && s'.appends[id].startedAt == s.appends[id].startedAt
    {
      CreateCuts(c, s, id);
    }
    if x in s'.logs {
      forall e | e in s'.logs[x]
        ensures StartOf(s'.appends, e) == StartOf(s.appends, e) && EventOf(s'.appends, e) == EventOf(s.appends, e)
      {
        CreateCuts(c, s, e);
      }
    }
    SteadyFrame(c, s, s', x);
  }

  lemma TaskSteady(c: Codec, limit: nat, s: State, a: Action, x: nat)
    requires Holding(s) && Lined(c, s, x) && Enabled(c, s, a) && !WriterStep(a) && !a.RotCreate? && !a.ClnBuild?
    ensures Steady(c, s, Apply(c, limit, s, a), x)
  {
    TaskKeeps(c, limit, s, a, x);
    SteadyFrame(c, s, Apply(c, limit, s, a), x);
  }

  lemma TouchSteady(c: Codec, s: State, x: nat)
    requires Lined(c, s, x)
    ensures Steady(c, s, Tick(Ensure(s)), x)
  {
    SteadyFrame(c, s, Tick(Ensure(s)), x);
  }

  lemma WriterSteady(c: Codec, limit: nat, s: State, a: Action, x: nat)
    requires Inv(c, s) && Lined(c, s, x) && Enabled(c, s, a) && WriterStep(a)
    ensures Steady(c, s, Apply(c, limit, s, a), x)
  {
    match a
    case Touch => TouchSteady(c, s, x);
    case Open(ev) => OpenSteady(c, s, ev, x);
    case Lock(p) => LockSteady(c, s, p, x);
    case Chunk(p, n) => ChunkSteady(c, s, p, n, x);
    case Unlock(p) => UnlockSteady(c, s, p, x);
    case Die(p) => DieSteady(c, s, p, x);
  }

  lemma OtherSteady(c: Codec, limit: nat, s: State, a: Action, x: nat)
    requires Inv(c, s) && Lined(c, s, x) && Enabled(c, s, a) && !a.ClnBuild?
    ensures Steady(c, s, Apply(c, limit, s, a), x)
  {
    if WriterStep(a) {
      WriterSteady(c, limit, s, a, x);
    } else if a.RotCreate? {
      LoggedStarted(c, s, x);
      CreateSteady(c, s, x);
    } else {
      TaskSteady(c, limit, s, a, x);
    }
  }

  // ---------- a rewrite ----------

  /** A rewrite leaves every other inode alone. */
  lemma BuildSteady(c: Codec, limit: nat, s: State, cutoff: nat, x: nat)
    requires Inv(c, s) && Disk(c, s) && Lined(c, s, x) && Enabled(c, s, ClnBuild(cutoff)) && x != s.next
    ensures Steady(c, s, Apply(c, limit, s, ClnBuild(cutoff)), x)
  {
    BuiltLog(c, limit, s, cutoff);
    LoggedStarted(c, s, x);
    SteadyFrame(c, s, Apply(c, limit, s, ClnBuild(cutoff)), x);
  }

  /** The lines a rewrite reads. */
  predicate Readable(appends: map<nat, Append>, ids: seq<nat>, es: seq<Event>) {
    && Heads(appends, ids) && |es| == |ids|
    && forall i :: 0 <= i < |ids| ==> es[i] == EventOf(appends, ids[i])
  }

  lemma NewerByWriters(appends: map<nat, Append>, ids: seq<nat>, es: seq<Event>, last: nat)
    requires Readable(appends, ids, es)
    ensures var at := NewerAt(es, last);
      Within(at, |ids|) && forall k :: 0 <= k < |at| ==> ByWriter(appends, ids[at[k]])
  {
    NewerAtIs(es, last);
    var at := NewerAt(es, last);
    forall k | 0 <= k < |at| ensures ByWriter(appends, ids[at[k]]) { assert at[k] in at; }
  }

  lemma PickedHeads(appends: map<nat, Append>, ids: seq<nat>, kept: seq<nat>, newer: seq<nat>)
    requires Heads(appends, ids) && Within(kept, |ids|) && Within(newer, |ids|) && Rising(kept)
    requires forall k :: 0 <= k < |newer| ==> ByWriter(appends, ids[newer[k]])
    ensures Heads(appends, Pick(ids, kept) + Pick(ids, newer))
  {
    var head, more := Pick(ids, kept), Pick(ids, newer);
    forall i, j | 0 <= i < j < |head| && !ByWriter(appends, head[j]) ensures !ByWriter(appends, head[i]) {
      assert kept[i] < kept[j];
    }
    HeadsThen(appends, head, more);
  }

  lemma HeadsThen(appends: map<nat, Append>, head: seq<nat>, more: seq<nat>)
    requires Heads(appends, head) && forall k :: 0 <= k < |more| ==> ByWriter(appends, more[k])
    ensures Heads(appends, head + more)
  {
    var all := head + more;
    forall i | 0 <= i < |all| && !ByWriter(appends, all[i]) ensures i < |head| && all[i] == head[i] {}
  }

  lemma RewrittenHeads(appends: map<nat, Append>, ids: seq<nat>, es: seq<Event>, cutoff: nat)
    requires Readable(appends, ids, es) && Within(RewrittenAt(es, cutoff), |ids|)
    ensures Heads(appends, Pick(ids, RewrittenAt(es, cutoff)))
  {
    var last := LastSeqOr0(Retained(es, cutoff));
    KeptAtIs(es, cutoff);
    NewerByWriters(appends, ids, es, last);
    PickedHeads(appends, ids, KeptAt(es, cutoff), NewerAt(es, last));
    PickConcat(ids, KeptAt(es, cutoff), NewerAt(es, last));
  }

  lemma RisingRows(appends: map<nat, Append>, ids: seq<nat>, at: seq<nat>)
    requires Rows(appends, ids) && Within(at, |ids|) && Rising(at)
    ensures Rows(appends, Pick(ids, at))
  {
  }

  /** Two lines that a rewrite puts the other way round. */
  lemma Overtaken(es: seq<Event>, cutoff: nat) returns (i: nat, j: nat, m: nat, k: nat)
    requires !NoneOvertakes(es, cutoff)
    ensures var at := RewrittenAt(es, cutoff);
      m < k < |at| && at[m] == j && at[k] == i && i < j < |es| && es[i].seq_ > es[j].seq_
  {
    var kept, newer := KeptAt(es, cutoff), NewerAt(es, LastSeqOr0(Retained(es, cutoff)));
    i, j :| 0 <= i < j < |es| && LastUnexpired(es, cutoff, j) && es[i].seq_ > es[j].seq_;
    OnlyLast(es, cutoff, j);
    LastKept(es, cutoff);
    NewerAtIs(es, LastSeqOr0(Retained(es, cutoff)));
    assert i in newer;
    var n :| 0 <= n < |newer| && newer[n] == i;
    m, k := |kept| - 1, |kept| + n;
  }

  /** The lines of writers stand in the new log in the order in which they began if and only if no
      line before the last unexpired one is numbered above it. */
  lemma RewrittenRowsIff(appends: map<nat, Append>, ids: seq<nat>, es: seq<Event>, cutoff: nat)
    requires Readable(appends, ids, es) && Within(RewrittenAt(es, cutoff), |ids|) && Rows(appends, ids)
    ensures Rows(appends, Pick(ids, RewrittenAt(es, cutoff))) <==> NoneOvertakes(es, cutoff)
  {
    var at := RewrittenAt(es, cutoff);
    RewriteKeepsOrderIff(es, cutoff);
    if NoneOvertakes(es, cutoff) {
      RisingRows(appends, ids, at);
    } else {
      var i, j, m, k := Overtaken(es, cutoff);
      assert ByWriter(appends, ids[i]) && ByWriter(appends, ids[j]);
      assert Pick(ids, at)[m] == ids[j] && Pick(ids, at)[k] == ids[i];
    }
  }

  lemma MarkerFirst(appends: map<nat, Append>, marker: nat, ids: seq<nat>)
    requires !ByWriter(appends, marker) && EventOf(appends, marker).seq_ == 0
    ensures Rows(appends, [marker] + ids) <==> Rows(appends, ids)
    ensures Heads(appends, ids) ==> Heads(appends, [marker] + ids)
  {
    var all := [marker] + ids;
    assert forall i :: 0 <= i < |ids| ==> all[i + 1] == ids[i];
    if Rows(appends, ids) {
      forall i, j | 0 <= i < j < |all| && ByWriter(appends, all[i]) && ByWriter(appends, all[j])
        ensures StartOf(appends, all[i]) < StartOf(appends, all[j])
      {
        assert all[i] == ids[i - 1] && all[j] == ids[j - 1];
      }
    } else {
      var i, j :| 0 <= i < j < |ids| && ByWriter(appends, ids[i]) && ByWriter(appends, ids[j])
        && StartOf(appends, ids[i]) >= StartOf(appends, ids[j]);
      assert all[i + 1] == ids[i] && all[j + 1] == ids[j];
    }
  }

  lemma BuildOwn(c: Codec, limit: nat, s: State, cutoff: nat)
    requires Inv(c, s) && Disk(c, s) && Enabled(c, s, ClnBuild(cutoff)) && Lined(c, s, s.maint.ino)
    ensures var s' := Apply(c, limit, s, ClnBuild(cutoff));
      && Lined(c, s', s.next)
      && (InOrder(s, s.maint.ino) ==> (InOrder(s', s.next) <==> NoneOvertakes(Scan(c, s.maint.text), cutoff)))
  {
    ReadLines(c, s, cutoff);
    BuiltLog(c, limit, s, cutoff);
    BuildOwnFrom(c, s, Apply(c, limit, s, ClnBuild(cutoff)), s.maint.lines, Scan(c, s.maint.text), cutoff);
  }

  lemma BuildOwnFrom(c: Codec, s: State, s': State, ids: seq<nat>, es: seq<Event>, cutoff: nat)
    requires Inv(c, s) && Heads(s.appends, ids) && Within(RewrittenAt(es, cutoff), |ids|)
    requires |es| == |ids| && forall i :: 0 <= i < |ids| ==> ids[i] in s.appends && es[i] == s.appends[ids[i]].ev
    requires s.next in s'.logs && s'.logs[s.next] == [s.now] + Pick(ids, RewrittenAt(es, cutoff))
    requires var m := Marker(0, s.now);
      s'.appends == s.appends[s.now := Append(m, s.next, s.now, 0, |Line(c, m)|, Acked, false)]
    requires s'.lock == s.lock && s.now !in s.appends
    ensures Lined(c, s', s.next) && (Rows(s.appends, ids) ==> (InOrder(s', s.next) <==> NoneOvertakes(es, cutoff)))
  {
    forall e | e in ids ensures e in s.appends {}
    RebuiltLines(s.appends, s'.appends, ids, es, cutoff, s.now);
    NobodyOnNext(c, s, s');
  }

  lemma RebuiltLines(
      appends: map<nat, Append>, appends': map<nat, Append>, ids: seq<nat>, es: seq<Event>, cutoff: nat, now: nat)
    requires Readable(appends, ids, es) && Within(RewrittenAt(es, cutoff), |ids|) && SameLines(appends, appends', ids)
    requires !ByWriter(appends', now) && EventOf(appends', now).seq_ == 0
    ensures var all := [now] + Pick(ids, RewrittenAt(es, cutoff));
      Heads(appends', all) && (Rows(appends, ids) ==> (Rows(appends', all) <==> NoneOvertakes(es, cutoff)))
  {
    var picked := Pick(ids, RewrittenAt(es, cutoff));
    RewrittenHeads(appends, ids, es, cutoff);
    if Rows(appends, ids) { RewrittenRowsIff(appends, ids, es, cutoff); }
    LinesFrame(appends, appends', picked);
    MarkerFirst(appends', now, picked);
  }

  lemma NobodyOnNext(c: Codec, s: State, s': State)
    requires Inv(c, s) && s'.lock == s.lock && s'.appends.Keys == s.appends.Keys + {s.now}
    requires forall id :: id in s.appends ==> id in s'.appends && s'.appends[id] == s.appends[id]
    requires s.now in s'.appends && s'.appends[s.now].done == Length(c, s'.appends[s.now])
    ensures forall id :: !MidLine(c, s', s.next, id)
  {
    forall id ensures !MidLine(c, s', s.next, id) {
      assert id in s'.appends ==> id in s'.appends.Keys;
      assert Thread(c, s, id);
    }
  }
}
