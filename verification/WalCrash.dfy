/** One writer at a time, with failures and crashes. */
module WalCrash {
  import opened Common
  import opened Text
  import opened Events
  import opened WalReader

  const TAIL_WINDOW := 8192

  /** How the write-flush-fsync sequence of one line ends: acknowledged, or with an error after
      `wrote` bytes reached the file. */
  datatype Io = Done | Failed(wrote: nat)

  function Written(line: string, io: Io): string {
    if io.Failed? && io.wrote < |line| then line[..io.wrote] else line
  }

  function MaxSeq(es: seq<Event>): nat {
    if es == [] then 0
    else
      var m := MaxSeq(es[1..]);
      if es[0].seq_ > m then es[0].seq_ else m
  }

  /** The sequence number a new writer continues from. */
  function RecoverBase(c: Codec, text: string): nat {
    var last := Last(Scan(c, Window(text, TAIL_WINDOW)));
    if last.Some? then last.value else MaxSeq(Scan(c, text))
  }

  // ---------- the code ----------

  /** The file: its bytes, and how many of them an fsync has made durable. */
  class LogFile {
    var text: string
    var synced: nat

    constructor (initial: string)
      ensures text == initial && synced == |initial|
    {
      text, synced := initial, |initial|;
    }

    method WriteLine(line: string, io: Io) returns (ok: bool)
      modifies this
      ensures text == old(text) + Written(line, io)
      ensures ok == io.Done?
      ensures synced == if ok then |text| else old(synced)
    {
      text := text + Written(line, io);
      ok := io.Done?;
      if ok { synced := |text|; }
    }
  }

  class WalWriter {
    const log: LogFile
    var seq_: nat

    constructor (log: LogFile, seq_: nat)
      ensures this.log == log && this.seq_ == seq_
    {
      this.log, this.seq_ := log, seq_;
    }

    static method Create(c: Codec, log: LogFile, now: nat, io: Io) returns (w: WalWriter?)
      requires Lawful(c)
      modifies log
      ensures var base := RecoverBase(c, old(log.text));
              && log.text == old(log.text) + Written(Line(c, Marker(base, now)), io)
              && (io.Done? ==> w != null && fresh(w) && w.log == log && w.seq_ == base + 1 && log.synced == |log.text|)
              && (io.Failed? ==> w == null && log.synced == old(log.synced))
    {
      var base: nat;
      var last := ReadLastSeq(c, log.text, TAIL_WINDOW);
      if last.Some? {
        base := last.value;
      } else {
        // full scan: the maximum over all parseable lines
        var ls := Lines(log.text);
        var m: nat := 0;
        var i := |ls|;
        while i > 0
          invariant 0 <= i <= |ls|
          invariant m == MaxSeq(ParseAll(c, ls[i..]))
        {
          i := i - 1;
          assert ls[i..] == [ls[i]] + ls[i + 1..];
          var p := c.parse(ls[i]);
          if p.Some? {
            assert ParseAll(c, ls[i..])[1..] == ParseAll(c, ls[i + 1..]);
            if p.value.seq_ > m { m := p.value.seq_; }
          } else {
            assert ParseAll(c, ls[i..]) == ParseAll(c, ls[i + 1..]);
          }
        }
        assert ls[0..] == ls;
        LinesScan(c, log.text);
        base := m;
      }
      var ok := log.WriteLine(Line(c, Marker(base, now)), io);
      if ok { w := new WalWriter(log, base + 1); } else { w := null; }
    }

    method Append(c: Codec, e: Event, io: Io) returns (ok: bool)
      modifies this, log
      ensures ok == io.Done?
      ensures log.text == old(log.text) + Written(Line(c, e), io)
      ensures log.synced == if ok then |log.text| else old(log.synced)
      ensures seq_ == old(seq_) + if ok then 1 else 0
    {
      ok := log.WriteLine(Line(c, e), io);
      if ok { seq_ := seq_ + 1; }
    }
  }

  // ---------- runs ----------

  /** `Spoiled`: an append of this writer returned an error. */
  datatype Writer = NoWriter | Ready(seq_: nat) | Spoiled(seq_: nat)

  datatype State = State(text: string, synced: nat, writer: Writer, acked: seq<Event>)

  /** `Crash(cut)` ends the writer; any bytes past the last fsync may be gone. */
  datatype Op = Create(now: nat, io: Io) | Append(e: Event, io: Io) | Crash(cut: nat)

  predicate Enabled(s: State, op: Op) {
    match op
    case Create(_, _) => true
    case Append(e, _) => !s.writer.NoWriter? && !e.kind.WriterInitialized?
    case Crash(cut) => s.synced <= cut <= |s.text|
  }

  function Step(c: Codec, s: State, op: Op): State
    requires Enabled(s, op)
  {
    match op
    case Create(now, io) =>
      var base := RecoverBase(c, s.text);
      var text := s.text + Written(Line(c, Marker(base, now)), io);
      State(text, if io.Done? then |text| else s.synced, if io.Done? then Ready(base + 1) else NoWriter, s.acked)
    case Append(e, io) =>
      var text := s.text + Written(Line(c, e), io);
      if io.Done? then
        var n := s.writer.seq_ + 1;
        State(text, |text|, if s.writer.Ready? then Ready(n) else Spoiled(n), s.acked + [e])
      else State(text, s.synced, Spoiled(s.writer.seq_), s.acked)
    case Crash(cut) => State(s.text[..cut], cut, NoWriter, s.acked)
  }

  predicate IsRun(c: Codec, s: State, ops: seq<Op>)
    decreases |ops|
  {
    ops == [] || (Enabled(s, ops[0]) && IsRun(c, Step(c, s, ops[0]), ops[1..]))
  }

  function Run(c: Codec, s: State, ops: seq<Op>): State
    requires IsRun(c, s, ops)
    decreases |ops|
  {
    if ops == [] then s else Run(c, Step(c, s, ops[0]), ops[1..])
  }

  /** No append goes through a writer that has already failed once. */
  predicate Orderly(c: Codec, s: State, ops: seq<Op>)
    requires IsRun(c, s, ops)
    decreases |ops|
  {
    ops == [] || ((ops[0].Append? ==> s.writer.Ready?) && Orderly(c, Step(c, s, ops[0]), ops[1..]))
  }

  function Start(text: string): State { State(text, |text|, NoWriter, []) }

  lemma VisibleOne(es: seq<Event>, e: Event)
    requires !e.kind.WriterInitialized?
    ensures Visible(es + [e]) == Visible(es) + [e]
  {
    VisibleConcat(es, [e]);
    assert [e][1..] == [];
  }

  lemma VisiblePrefix(a: seq<Event>, b: seq<Event>)
    requires a <= b
    ensures Visible(b) == Visible(a) + Visible(b[|a|..])
  {
    assert b == a + b[|a|..];
    VisibleConcat(a, b[|a|..]);
  }

  // ---------- acknowledged events are returned ----------

  /** The events a reader can never lose again, whatever is appended or cut off later. */
  function Durable(c: Codec, s: State): seq<Event>
    requires s.synced <= |s.text|
  {
    Visible(Settled(c, s.text[..s.synced]))
  }

  /** After a successful `create` the file ends in a newline: a torn last line is absorbed by the
      marker, and nothing readable before it is lost. */
  lemma CreateAbsorbsTornLine(c: Codec, s: State, now: nat)
    requires Lawful(c)
    ensures var s' := Step(c, s, Create(now, Done));
            && Tail(s'.text) == ""
            && Visible(Settled(c, s'.text)) == Visible(Settled(c, s.text))
  {
    var m := Marker(RecoverBase(c, s.text), now);
    CompleteWrite(c, s.text, m);
    VisibleConcat(Settled(c, s.text), if Blank(Tail(s.text)) then [m] else []);
  }

  /** A whole line adds its event to what readers see exactly when only whitespace stood after the
      last newline. */
  lemma WholeLineSeen(c: Codec, text: string, e: Event)
    requires Lawful(c) && !e.kind.WriterInitialized?
    ensures Visible(Settled(c, text + Line(c, e))) == Visible(Settled(c, text)) + if Blank(Tail(text)) then [e] else []
  {
    CompleteWrite(c, text, e);
    VisibleOne(Settled(c, text), e);
    assert Settled(c, text) + [] == Settled(c, text) && Visible(Settled(c, text)) + [] == Visible(Settled(c, text));
  }

  lemma WholeLineLoaded(c: Codec, text: string, e: Event)
    requires Lawful(c)
    ensures View(c, text + Line(c, e)).events == Visible(Settled(c, text + Line(c, e)))
  {
    CompleteWrite(c, text, e);
    LinesScan(c, text + Line(c, e));
  }

  /** An acknowledged append shows up for readers exactly on a clean tail. */
  lemma AckedIffCleanTail(c: Codec, s: State, e: Event)
    requires Lawful(c) && Enabled(s, Append(e, Done))
    ensures var s' := Step(c, s, Append(e, Done));
      && Visible(Settled(c, s'.text)) == Visible(Settled(c, s.text)) + (if Blank(Tail(s.text)) then [e] else [])
      && View(c, s'.text).events == Visible(Settled(c, s'.text))
  {
    WholeLineSeen(c, s.text, e);
    WholeLineLoaded(c, s.text, e);
  }

  /** The acknowledged appends that found a clean tail. */
  function CleanAcks(c: Codec, s: State, ops: seq<Op>): seq<Event>
    requires IsRun(c, s, ops)
    decreases |ops|
  {
    if ops == [] then []
    else (if ops[0].Append? && ops[0].io.Done? && Blank(Tail(s.text)) then [ops[0].e] else [])
         + CleanAcks(c, Step(c, s, ops[0]), ops[1..])
  }

  /** `clean` can never be lost again. */
  ghost predicate Safe(c: Codec, s: State, clean: seq<Event>) {
    s.synced <= |s.text| && Subseq(clean, Durable(c, s))
  }

  lemma DurableGrows(c: Codec, s: State, clean: seq<Event>, text: string, n: nat)
    requires Safe(c, s, clean) && s.text[..s.synced] <= text && s.synced <= n <= |text|
    ensures Subseq(clean, Visible(Settled(c, text[..n])))
  {
    var a := s.text[..s.synced];
    assert text[..n] == a + text[|a|..n];
    SettledMonotone(c, a, text[|a|..n]);
    VisiblePrefix(Settled(c, a), Settled(c, text[..n]));
    SubseqGrow(clean, Durable(c, s), Visible(Settled(c, text[..n])[|Settled(c, a)|..]));
  }

  lemma SafeStep(c: Codec, s: State, op: Op, clean: seq<Event>)
    requires Lawful(c) && Safe(c, s, clean) && Enabled(s, op)
    ensures Safe(c, Step(c, s, op), clean + if op.Append? && op.io.Done? && Blank(Tail(s.text)) then [op.e] else [])
  {
    var s' := Step(c, s, op);
    assert clean + [] == clean;
    DurableGrows(c, s, clean, s'.text, s'.synced);
    if op.Append? && op.io.Done? && Blank(Tail(s.text)) {
      assert s.text[..|s.text|] == s.text && s'.text[..|s'.text|] == s'.text;
      DurableGrows(c, s, clean, s.text, |s.text|);
      AckedIffCleanTail(c, s, op.e);
      SubseqSnoc(clean, Visible(Settled(c, s.text)), op.e);
    }
  }

  lemma {:induction false} SafeRun(c: Codec, s: State, ops: seq<Op>, clean: seq<Event>)
    requires Lawful(c) && Safe(c, s, clean) && IsRun(c, s, ops)
    ensures Safe(c, Run(c, s, ops), clean + CleanAcks(c, s, ops))
    decreases |ops|
  {
    if ops == [] {
      assert clean + [] == clean;
    } else {
      var now := if ops[0].Append? && ops[0].io.Done? && Blank(Tail(s.text)) then [ops[0].e] else [];
      SafeStep(c, s, ops[0], clean);
      SafeRun(c, Step(c, s, ops[0]), ops[1..], clean + now);
      Assoc(clean, now, CleanAcks(c, Step(c, s, ops[0]), ops[1..]));
    }
  }

  /** Over every run of creates, appends, failed writes and crashes, started on any file, `load`
      returns every event whose append was acknowledged on a clean tail, in order. */
  lemma CleanAcksAreLoaded(c: Codec, text: string, ops: seq<Op>)
    requires Lawful(c) && IsRun(c, Start(text), ops)
    ensures Subseq(CleanAcks(c, Start(text), ops), View(c, Run(c, Start(text), ops).text).events)
  {
    var clean := CleanAcks(c, Start(text), ops);
    SafeRun(c, Start(text), ops, []);
    assert [] + clean == clean;
    var s := Run(c, Start(text), ops);
    DurableGrows(c, s, clean, s.text, |s.text|);
    assert s.text[..|s.text|] == s.text;
    LinesScan(c, s.text);
    ScanIsSettledAndTail(c, s.text);
    VisibleConcat(Settled(c, s.text), Opt(c.parse(Tail(s.text))));
    SubseqGrow(clean, Visible(Settled(c, s.text)), Visible(Opt(c.parse(Tail(s.text)))));
  }

  lemma {:induction false} OrderlyAcksAreClean(c: Codec, s: State, ops: seq<Op>)
    requires Lawful(c) && IsRun(c, s, ops) && Orderly(c, s, ops) && (s.writer.Ready? ==> Tail(s.text) == "")
    ensures Run(c, s, ops).acked == s.acked + CleanAcks(c, s, ops)
    decreases |ops|
  {
    if ops == [] {
      assert s.acked + [] == s.acked;
    } else {
      var s' := Step(c, s, ops[0]);
      match ops[0] {
        case Create(now, io) => if io.Done? { CreateAbsorbsTornLine(c, s, now); }
        case Append(e, io) => if io.Done? { CompleteWrite(c, s.text, e); }
        case Crash(_) =>
      }
      OrderlyAcksAreClean(c, s', ops[1..]);
      var now := if ops[0].Append? && ops[0].io.Done? && Blank(Tail(s.text)) then [ops[0].e] else [];
      assert s'.acked == s.acked + now;
      Assoc(s.acked, now, CleanAcks(c, s', ops[1..]));
    }
  }

  /** So no acknowledged event is ever lost as long as no writer goes on after a failed append. */
  lemma AckedEventsAreLoaded(c: Codec, text: string, ops: seq<Op>)
    requires Lawful(c) && IsRun(c, Start(text), ops) && Orderly(c, Start(text), ops)
    ensures var s := Run(c, Start(text), ops);
            Subseq(s.acked, View(c, s.text).events)
  {
    CleanAcksAreLoaded(c, text, ops);
    OrderlyAcksAreClean(c, Start(text), ops);
    assert [] + CleanAcks(c, Start(text), ops) == CleanAcks(c, Start(text), ops);
  }

  lemma ThreeSteps(c: Codec, s: State, ops: seq<Op>)
    requires |ops| == 3 && Enabled(s, ops[0])
    requires Enabled(Step(c, s, ops[0]), ops[1]) && Enabled(Step(c, Step(c, s, ops[0]), ops[1]), ops[2])
    ensures IsRun(c, s, ops)
    ensures Run(c, s, ops) == Step(c, Step(c, Step(c, s, ops[0]), ops[1]), ops[2])
  {
    var s1 := Step(c, s, ops[0]);
    var s2 := Step(c, s1, ops[1]);
    var s3 := Step(c, s2, ops[2]);
    assert ops[1..][1..][1..] == [];
    assert ops[1..][1..][0] == ops[2] && ops[1..][0] == ops[1];
    assert IsRun(c, s3, ops[1..][1..][1..]) && Run(c, s3, ops[1..][1..][1..]) == s3;
    assert IsRun(c, s2, ops[1..][1..]) && Run(c, s2, ops[1..][1..]) == s3;
    assert IsRun(c, s1, ops[1..]) && Run(c, s1, ops[1..]) == s3;
  }

  /** A writer that goes on after a torn append loses the next, acknowledged, event. */
  lemma SpoiledWriterWitness(c: Codec, e: Event)
    requires Lawful(c) && !e.kind.WriterInitialized?
    ensures var ops := [Create(0, Done), Append(e, Failed(1)), Append(e, Done)];
            && IsRun(c, Start(""), ops)
            && Run(c, Start(""), ops).acked == [e]
            && View(c, Run(c, Start(""), ops).text).events == []
  {
    var ops := [Create(0, Done), Append(e, Failed(1)), Append(e, Done)];
    var s0 := Start("");
    var s1 := Step(c, s0, ops[0]);
    CreateAbsorbsTornLine(c, s0, 0);
    assert Split("") == [""] && Settled(c, s0.text) == [];
    var s2 := Step(c, s1, ops[1]);
    var k := Written(Line(c, e), Failed(1));
    assert k == c.render(e)[..1];
    PartialWrite(c, s1.text, e, 1);
    assert "" + k == k;
    assert !Blank(Tail(s2.text)) by { assert !Ws(k[0]); }
    var s3 := Step(c, s2, ops[2]);
    AckedIffCleanTail(c, s2, e);
    assert [] + [e] == [e];
    ThreeSteps(c, s0, ops);
  }

  // ---------- sequence numbers ----------

  predicate NonDecreasing(es: seq<Event>) {
    forall i, j :: 0 <= i < j < |es| ==> es[i].seq_ <= es[j].seq_
  }

  predicate Increasing(es: seq<Event>) {
    forall i, j :: 0 <= i < j < |es| ==> es[i].seq_ < es[j].seq_
  }

  predicate Below(es: seq<Event>, n: nat) { forall i :: 0 <= i < |es| ==> es[i].seq_ < n }

  /** Sequence numbers of the lines that parse never go back, and those of real events go up. */
  predicate Sorted(es: seq<Event>) { NonDecreasing(es) && Increasing(Visible(es)) }

  lemma SortedPrefix(a: seq<Event>, b: seq<Event>)
    requires a <= b && Sorted(b)
    ensures Sorted(a)
  {
    VisiblePrefix(a, b);
    assert Visible(a) <= Visible(b);
  }

  lemma {:induction false} VisibleBelow(es: seq<Event>, n: nat)
    requires Below(es, n)
    ensures Below(Visible(es), n)
  {
    if es != [] { VisibleBelow(es[1..], n); }
  }

  /** A marker may repeat the last number; an event must exceed it. */
  lemma SortedSnoc(es: seq<Event>, e: Event)
    requires Sorted(es) && Below(es, e.seq_ + if e.kind.WriterInitialized? then 1 else 0)
    ensures Sorted(es + [e])
  {
    VisibleConcat(es, [e]);
    assert [e][1..] == [];
    if !e.kind.WriterInitialized? { VisibleBelow(es, e.seq_); }
  }

  lemma {:induction false} MaxSeqBounds(es: seq<Event>, n: nat)
    ensures Below(es, n + 1) <==> MaxSeq(es) <= n
  {
    if es != [] {
      MaxSeqBounds(es[1..], n);
      assert forall i :: 0 < i < |es| ==> es[i] == es[1..][i - 1];
      assert Below(es, n + 1) <==> es[0].seq_ < n + 1 && Below(es[1..], n + 1) by {
        if Below(es, n + 1) { assert forall i :: 0 <= i < |es[1..]| ==> es[1..][i] == es[i + 1]; }
      }
    }
  }

  /** A recovery that would go on from too low a number: the window opens inside a line, the piece it
      leaves parses, nothing after it does, and a line of the file has a higher number. */
  predicate Misled(c: Codec, text: string) {
    var g := Split(Window(text, TAIL_WINDOW));
    && !HarmlessCut(c, text, TAIL_WINDOW) && ParseAll(c, g[1..]) == []
    && c.parse(g[0]).value.seq_ < MaxSeq(Scan(c, text))
  }

  lemma LastIsHighest(es: seq<Event>)
    requires NonDecreasing(es) && es != []
    ensures Below(es, es[|es| - 1].seq_ + 1)
  {
  }

  /** In a file whose numbers never go back, `create` continues above all of them unless misled. */
  lemma RecoveryIsRightIff(c: Codec, text: string)
    requires Lawful(c) && Sorted(Scan(c, text))
    ensures Below(Scan(c, text), RecoverBase(c, text) + 1) <==> !Misled(c, text)
  {
    var last := Last(Scan(c, Window(text, TAIL_WINDOW)));
    MaxSeqBounds(Scan(c, text), RecoverBase(c, text));
    if last.Some? {
      if HarmlessCut(c, text, TAIL_WINDOW) {
        TailScanRefines(c, text, TAIL_WINDOW);
        LastIsHighest(Scan(c, text));
      } else {
        TailScanOtherwise(c, text, TAIL_WINDOW);
        if ParseAll(c, Split(Window(text, TAIL_WINDOW))[1..]) != [] { LastIsHighest(Scan(c, text)); }
      }
    } else if !HarmlessCut(c, text, TAIL_WINDOW) {
      TailScanOtherwise(c, text, TAIL_WINDOW);
    }
  }

  /** The last window of a log: a whole line, a torn one with a whole line glued to it, and a rest that
      does not parse. If the window opens at the glued line, the scan finds that line alone. */
  lemma GluedLineWindow(c: Codec, e: Event, torn: string, m: Event, rest: string)
    requires Lawful(c) && '\n' !in torn && !Blank(torn) && '\n' !in rest && c.parse(rest).None?
    requires |Line(c, m)| + |rest| == TAIL_WINDOW
    ensures var text := Line(c, e) + torn + Line(c, m) + rest;
      && Scan(c, text) == [e] && Tail(Before(text, TAIL_WINDOW)) == torn
      && Split(Window(text, TAIL_WINDOW)) == [c.render(m), rest]
  {
    var head := Line(c, e) + torn;
    var text := head + Line(c, m) + rest;
    assert text == head + (Line(c, m) + rest);
    assert Before(text, TAIL_WINDOW) == head && Window(text, TAIL_WINDOW) == Line(c, m) + rest;
    AppendLine("", c.render(e));
    assert "" + Line(c, e) == Line(c, e);
    AppendPiece(Line(c, e), torn);
    assert "" + torn == torn;
    SplitLine(c.render(m));
    SplitConcat(Line(c, m), rest);
    SplitOneLine(rest);
    assert "" + rest == rest;
    GluedLineScan(c, e, torn, m, rest);
  }

  lemma GluedLineScan(c: Codec, e: Event, torn: string, m: Event, rest: string)
    requires Lawful(c) && '\n' !in torn && !Blank(torn) && '\n' !in rest && c.parse(rest).None?
    ensures Scan(c, Line(c, e) + torn + Line(c, m) + rest) == [e]
  {
    var head := Line(c, e) + torn;
    assert Split("") == [""];
    CompleteWrite(c, "", e);
    assert "" + Line(c, e) == Line(c, e);
    AppendPiece(Line(c, e), torn);
    assert "" + torn == torn;
    CompleteWrite(c, head, m);
    AppendPiece(head + Line(c, m), rest);
    assert "" + rest == rest;
    ScanIsSettledAndTail(c, head + Line(c, m) + rest);
  }

  /** At the window the code uses: a log whose numbers never go back, and a recovery that goes on from a
      number below one the log holds. */
  lemma MisledRecoveryWitness(c: Codec, e: Event, m: Event) returns (text: string)
    requires Lawful(c) && e.seq_ > m.seq_ && |Line(c, m)| <= TAIL_WINDOW
    ensures Scan(c, text) == [e] && Sorted(Scan(c, text)) && Misled(c, text)
    ensures |text| == |Line(c, e)| + 1 + 8192 && Line(c, e) + "x" + Line(c, m) <= text
    ensures RecoverBase(c, text) == m.seq_ < e.seq_
  {
    var rest := seq(TAIL_WINDOW - |Line(c, m)|, _ => ' ');
    text := Line(c, e) + "x" + Line(c, m) + rest;
    assert !Ws("x"[0]);
    BlankDoesNotParse(c, rest);
    GluedLineWindow(c, e, "x", m, rest);
    ParseAllOne(c, rest);
    assert [c.render(m), rest][1..] == [rest];
    TailScanOtherwise(c, text, TAIL_WINDOW);
    assert [e][1..] == [];
  }

  /** The caller's side: an event carries the number the writer reports, and no recovery is misled. */
  predicate Careful(c: Codec, s: State, op: Op)
    requires Enabled(s, op)
  {
    match op
    case Create(_, _) => !Misled(c, s.text)
    case Append(e, _) => e.seq_ == s.writer.seq_
    case Crash(_) => true
  }

  predicate CarefulRun(c: Codec, s: State, ops: seq<Op>)
    requires IsRun(c, s, ops)
    decreases |ops|
  {
    ops == [] || (Careful(c, s, ops[0]) && CarefulRun(c, Step(c, s, ops[0]), ops[1..]))
  }

  /** The log is ahead of the writer's counter once a failed append has left its whole line, newline
      included, on a clean tail, until the writer ends or an append of it is acknowledged. */
  predicate AheadAfter(c: Codec, s: State, ahead: bool, op: Op) {
    op.Append? && op.io.Failed? && (ahead || (Blank(Tail(s.text)) && op.io.wrote >= |Line(c, op.e)|))
  }

  /** While the log is ahead an append leaves a readable event. */
  predicate Repeats(c: Codec, s: State, ahead: bool, op: Op) {
    op.Append? && ahead && Blank(Tail(s.text)) && |Written(Line(c, op.e), op.io)| >= |c.render(op.e)|
  }

  predicate NeverRepeats(c: Codec, s: State, ahead: bool, ops: seq<Op>)
    requires IsRun(c, s, ops)
    decreases |ops|
  {
    ops == [] || (!Repeats(c, s, ahead, ops[0])
                  && NeverRepeats(c, Step(c, s, ops[0]), AheadAfter(c, s, ahead, ops[0]), ops[1..]))
  }

  /** At every point of the run, what `load` returns carries strictly increasing numbers. */
  predicate AlwaysIncreasing(c: Codec, s: State, ops: seq<Op>)
    requires IsRun(c, s, ops)
    decreases |ops|
  {
    Increasing(View(c, s.text).events) && (ops == [] || AlwaysIncreasing(c, Step(c, s, ops[0]), ops[1..]))
  }

  /** What is left of the text after `cut` bytes is in order. */
  predicate SortedCut(c: Codec, text: string, cut: nat) { cut <= |text| ==> Sorted(Scan(c, text[..cut])) }

  ghost predicate Shows(es: seq<Event>, n: nat) { exists i :: 0 <= i < |es| && es[i].seq_ == n }

  /** Whatever a crash cuts off, the numbers that remain are in order; and the live writer's number
      is above all settled ones, or the log is ahead and shows that very number. */
  ghost predicate Numbered(c: Codec, s: State, ahead: bool) {
    && s.synced <= |s.text|
    && (forall cut: nat :: s.synced <= cut ==> SortedCut(c, s.text, cut))
    && (!s.writer.NoWriter? ==>
          && Below(Scan(c, s.text), s.writer.seq_ + 1)
          && (!ahead ==> Below(Settled(c, s.text), s.writer.seq_)))
    && (ahead ==> !s.writer.NoWriter? && Shows(Visible(Settled(c, s.text)), s.writer.seq_))
  }

  /** What a reader finds after `i` bytes of a line. */
  lemma LineScan(c: Codec, text: string, e: Event, i: nat)
    requires Lawful(c) && i <= |Line(c, e)|
    ensures var t, lands := text + Line(c, e)[..i], if Blank(Tail(text)) then [e] else [];
      && Settled(c, t) == (if i == |Line(c, e)| then Settled(c, text) + lands else Settled(c, text))
      && Scan(c, t) == if i == 0 then Scan(c, text)
                       else if i >= |c.render(e)| then Settled(c, text) + lands
                       else Settled(c, text)
  {
    if i == 0 {
      assert text + Line(c, e)[..0] == text;
    } else if i <= |c.render(e)| {
      PartialWrite(c, text, e, i);
      assert Line(c, e)[..i] == c.render(e)[..i];
      assert Settled(c, text) + [] == Settled(c, text);
    } else {
      CompleteWrite(c, text, e);
      assert Line(c, e)[..i] == Line(c, e);
    }
  }

  lemma CutInLine(text: string, line: string, io: Io, cut: nat)
    requires |text| <= cut <= |text + Written(line, io)|
    ensures cut - |text| <= |Written(line, io)| <= |line|
    ensures (text + Written(line, io))[..cut] == text + line[..cut - |text|]
  {
    var w := Written(line, io);
    assert w == line[..|w|];
    assert (text + w)[..cut] == text + w[..cut - |text|];
  }

  /** The event that a write makes readable fits behind the settled ones. */
  predicate FitsBehind(c: Codec, text: string, e: Event, io: Io) {
    && Sorted(Scan(c, text)) && Sorted(Settled(c, text))
    && (|Written(Line(c, e), io)| >= |c.render(e)| && Blank(Tail(text)) ==> Sorted(Settled(c, text) + [e]))
  }

  lemma PartSorted(c: Codec, text: string, e: Event, io: Io, i: nat, t: string)
    requires Lawful(c) && FitsBehind(c, text, e, io) && i <= |Written(Line(c, e), io)|
    requires t == text + Line(c, e)[..i]
    ensures Sorted(Scan(c, t))
  {
    LineScan(c, text, e, i);
    SortedAfter(Scan(c, text), Settled(c, text), e, Scan(c, t));
  }

  lemma SortedAfter(scan: seq<Event>, settled: seq<Event>, e: Event, scan': seq<Event>)
    requires Sorted(scan) && Sorted(settled)
    requires scan' == scan || scan' == settled || scan' == settled + []
        || (scan' == settled + [e] && Sorted(settled + [e]))
    ensures Sorted(scan')
  {
    assert settled + [] == settled;
  }

  lemma MoreSorted(c: Codec, text: string, e: Event, io: Io, cut: nat)
    requires Lawful(c) && FitsBehind(c, text, e, io) && |text| <= cut <= |text + Written(Line(c, e), io)|
    ensures Sorted(Scan(c, (text + Written(Line(c, e), io))[..cut]))
  {
    CutInLine(text, Line(c, e), io, cut);
    PartSorted(c, text, e, io, cut - |text|, (text + Written(Line(c, e), io))[..cut]);
  }

  lemma CutOfMore(c: Codec, text: string, more: string, cut: nat)
    requires SortedCut(c, text, cut)
    requires |text| <= cut <= |text + more| ==> Sorted(Scan(c, (text + more)[..cut]))
    ensures SortedCut(c, text + more, cut)
  {
    if cut <= |text| {
      assert (text + more)[..cut] == text[..cut];
    }
  }

  /** The part of a line that ends at `cut`, on top of a text in order. */
  lemma CutSorted(c: Codec, text: string, e: Event, io: Io, cut: nat)
    requires Lawful(c) && FitsBehind(c, text, e, io) && SortedCut(c, text, cut)
    ensures SortedCut(c, text + Written(Line(c, e), io), cut)
  {
    if |text| <= cut <= |text + Written(Line(c, e), io)| {
      MoreSorted(c, text, e, io, cut);
    }
    CutOfMore(c, text, Written(Line(c, e), io), cut);
  }

  lemma WholeText(c: Codec, s: State, ahead: bool)
    requires Numbered(c, s, ahead)
    ensures Sorted(Scan(c, s.text)) && Sorted(Settled(c, s.text)) && Settled(c, s.text) <= Scan(c, s.text)
  {
    assert SortedCut(c, s.text, |s.text|);
    assert s.text[..|s.text|] == s.text;
    ScanIsSettledAndTail(c, s.text);
    SortedPrefix(Settled(c, s.text), Scan(c, s.text));
  }

  lemma BelowPrefix(a: seq<Event>, b: seq<Event>, n: nat)
    requires a <= b && Below(b, n)
    ensures Below(a, n)
  {
    assert forall k :: 0 <= k < |a| ==> a[k] == b[k];
  }

  lemma CutsSorted(c: Codec, s: State, e: Event, io: Io)
    requires Lawful(c) && FitsBehind(c, s.text, e, io)
    requires forall cut: nat :: s.synced <= cut ==> SortedCut(c, s.text, cut)
    ensures forall cut: nat :: s.synced <= cut ==> SortedCut(c, s.text + Written(Line(c, e), io), cut)
  {
    forall cut: nat | s.synced <= cut ensures SortedCut(c, s.text + Written(Line(c, e), io), cut) {
      CutSorted(c, s.text, e, io, cut);
    }
  }

  /** The texts before and after a write, finished or not. */
  lemma WrittenScan(c: Codec, text: string, e: Event, io: Io)
    requires Lawful(c)
    ensures var w, lands := |Written(Line(c, e), io)|, if Blank(Tail(text)) then [e] else [];
      var t := text + Written(Line(c, e), io);
      && Settled(c, t) == (if w == |Line(c, e)| then Settled(c, text) + lands else Settled(c, text))
      && Scan(c, t) == if w == 0 then Scan(c, text)
                       else if w >= |c.render(e)| then Settled(c, text) + lands
                       else Settled(c, text)
  {
    var w := Written(Line(c, e), io);
    assert w == Line(c, e)[..|w|];
    LineScan(c, text, e, |w|);
  }

  lemma BelowAfter(scan: seq<Event>, settled: seq<Event>, lands: seq<Event>,
                   scan': seq<Event>, settled': seq<Event>, n: nat)
    requires Below(scan, n) && Below(settled, n) && Below(lands, n)
    requires settled' == settled || settled' == settled + lands
    requires scan' == scan || scan' == settled || scan' == settled + lands
    ensures Below(scan', n) && Below(settled', n)
  {
  }

  /** A write of an event below `n` on a text below `n`. */
  lemma WriteBelow(c: Codec, text: string, e: Event, io: Io, n: nat)
    requires Lawful(c) && Below(Scan(c, text), n) && Below(Settled(c, text), n) && e.seq_ < n
    ensures var t := text + Written(Line(c, e), io); Below(Scan(c, t), n) && Below(Settled(c, t), n)
  {
    var t, lands := text + Written(Line(c, e), io), if Blank(Tail(text)) then [e] else [];
    WrittenScan(c, text, e, io);
    BelowAfter(Scan(c, text), Settled(c, text), lands, Scan(c, t), Settled(c, t), n);
  }

  lemma RecoveredBelow(c: Codec, s: State, ahead: bool)
    requires Lawful(c) && Numbered(c, s, ahead) && !Misled(c, s.text)
    ensures var n := RecoverBase(c, s.text) + 1; Below(Scan(c, s.text), n) && Below(Settled(c, s.text), n)
  {
    WholeText(c, s, ahead);
    RecoveryIsRightIff(c, s.text);
    BelowPrefix(Settled(c, s.text), Scan(c, s.text), RecoverBase(c, s.text) + 1);
  }

  lemma CreateOrdered(c: Codec, s: State, ahead: bool, m: Event, io: Io)
    requires Lawful(c) && Numbered(c, s, ahead) && m.kind.WriterInitialized? && Below(Settled(c, s.text), m.seq_ + 1)
    ensures forall cut: nat :: s.synced <= cut ==> SortedCut(c, s.text + Written(Line(c, m), io), cut)
  {
    WholeText(c, s, ahead);
    SortedSnoc(Settled(c, s.text), m);
    CutsSorted(c, s, m, io);
  }

  lemma CreateNumbered(c: Codec, s: State, ahead: bool, now: nat, io: Io)
    requires Lawful(c) && Numbered(c, s, ahead) && !Misled(c, s.text)
    ensures Numbered(c, Step(c, s, Create(now, io)), false)
  {
    var m := Marker(RecoverBase(c, s.text), now);
    RecoveredBelow(c, s, ahead);
    CreateOrdered(c, s, ahead, m, io);
    WriteBelow(c, s.text, m, io, m.seq_ + 1);
  }

  /** An append that repeats no number. */
  lemma AppendOrdered(c: Codec, s: State, ahead: bool, e: Event, io: Io)
    requires Lawful(c) && Numbered(c, s, ahead) && Enabled(s, Append(e, io)) && e.seq_ == s.writer.seq_
    requires !Repeats(c, s, ahead, Append(e, io))
    ensures forall cut: nat :: s.synced <= cut ==> SortedCut(c, s.text + Written(Line(c, e), io), cut)
  {
    WholeText(c, s, ahead);
    if !ahead { SortedSnoc(Settled(c, s.text), e); }
    CutsSorted(c, s, e, io);
  }

  /** How an append leaves the counter and the log to each other. */
  lemma AppendBelow(c: Codec, s: State, ahead: bool, e: Event, io: Io)
    requires Lawful(c) && Numbered(c, s, ahead) && Enabled(s, Append(e, io)) && e.seq_ == s.writer.seq_
    ensures var s' := Step(c, s, Append(e, io));
      && Below(Scan(c, s'.text), s'.writer.seq_ + 1)
      && (!AheadAfter(c, s, ahead, Append(e, io)) ==> Below(Settled(c, s'.text), s'.writer.seq_))
  {
    WholeText(c, s, ahead);
    BelowPrefix(Settled(c, s.text), Scan(c, s.text), s.writer.seq_ + 1);
    WriteBelow(c, s.text, e, io, s.writer.seq_ + 1);
    if io.Failed? && !AheadAfter(c, s, ahead, Append(e, io)) { NothingSettles(c, s.text, e, io); }
  }

  /** A failed write settles nothing unless its whole line lands on a clean tail. */
  lemma NothingSettles(c: Codec, text: string, e: Event, io: Io)
    requires Lawful(c) && io.Failed? && !(Blank(Tail(text)) && io.wrote >= |Line(c, e)|)
    ensures Settled(c, text + Written(Line(c, e), io)) == Settled(c, text)
  {
    WrittenScan(c, text, e, io);
    assert Settled(c, text) + [] == Settled(c, text);
  }

  lemma AppendShows(c: Codec, s: State, ahead: bool, e: Event, io: Io)
    requires Lawful(c) && Numbered(c, s, ahead) && Enabled(s, Append(e, io)) && e.seq_ == s.writer.seq_
    requires AheadAfter(c, s, ahead, Append(e, io))
    ensures var s' := Step(c, s, Append(e, io)); Shows(Visible(Settled(c, s'.text)), s'.writer.seq_)
  {
    var s' := Step(c, s, Append(e, io));
    SettledMonotone(c, s.text, Written(Line(c, e), io));
    VisiblePrefix(Settled(c, s.text), Settled(c, s'.text));
    var before, after := Visible(Settled(c, s.text)), Visible(Settled(c, s'.text));
    if ahead {
      var i :| 0 <= i < |before| && before[i].seq_ == s.writer.seq_;
      assert after[i] == before[i];
    } else {
      WrittenScan(c, s.text, e, io);
      VisibleOne(Settled(c, s.text), e);
      assert after[|before|] == e;
    }
  }

  lemma NumberedStep(c: Codec, s: State, ahead: bool, op: Op)
    requires Lawful(c) && Numbered(c, s, ahead) && Enabled(s, op) && Careful(c, s, op) && !Repeats(c, s, ahead, op)
    ensures Numbered(c, Step(c, s, op), AheadAfter(c, s, ahead, op))
  {
    match op
    case Create(now, io) => CreateNumbered(c, s, ahead, now, io);
    case Append(e, io) =>
      AppendOrdered(c, s, ahead, e, io);
      AppendBelow(c, s, ahead, e, io);
      if AheadAfter(c, s, ahead, op) { AppendShows(c, s, ahead, e, io); }
    case Crash(cut) =>
      assert SortedCut(c, s.text, cut);
      assert s.text[..cut][..cut] == s.text[..cut];
  }

  /** A write that leaves a readable event shows it behind the settled ones. */
  lemma ReadableShown(c: Codec, text: string, e: Event, io: Io)
    requires Lawful(c) && !e.kind.WriterInitialized? && Blank(Tail(text)) && |Written(Line(c, e), io)| >= |c.render(e)|
    ensures View(c, text + Written(Line(c, e), io)).events == Visible(Settled(c, text)) + [e]
  {
    var t := text + Written(Line(c, e), io);
    assert Scan(c, t) == Settled(c, text) + [e] by { WrittenScan(c, text, e, io); }
    LinesScan(c, t);
    VisibleOne(Settled(c, text), e);
  }

  lemma TwiceIsNotIncreasing(es: seq<Event>, e: Event)
    requires Shows(es, e.seq_)
    ensures !Increasing(es + [e])
  {
    var i :| 0 <= i < |es| && es[i].seq_ == e.seq_;
    assert (es + [e])[i].seq_ == (es + [e])[|es|].seq_;
  }

  /** A readable append while the log is ahead shows its number twice. */
  lemma RepeatShows(c: Codec, s: State, ahead: bool, op: Op)
    requires Lawful(c) && Numbered(c, s, ahead) && Enabled(s, op) && Careful(c, s, op) && Repeats(c, s, ahead, op)
    ensures !Increasing(View(c, Step(c, s, op).text).events)
  {
    ReadableShown(c, s.text, op.e, op.io);
    TwiceIsNotIncreasing(Visible(Settled(c, s.text)), op.e);
  }

  lemma {:induction false} NumbersRun(c: Codec, s: State, ahead: bool, ops: seq<Op>)
    requires Lawful(c) && Numbered(c, s, ahead) && IsRun(c, s, ops) && CarefulRun(c, s, ops)
    ensures AlwaysIncreasing(c, s, ops) <==> NeverRepeats(c, s, ahead, ops)
    decreases |ops|
  {
    WholeText(c, s, ahead);
    LinesScan(c, s.text);
    if ops != [] {
      var s' := Step(c, s, ops[0]);
      if Repeats(c, s, ahead, ops[0]) {
        RepeatShows(c, s, ahead, ops[0]);
        assert !AlwaysIncreasing(c, s', ops[1..]);
      } else {
        NumberedStep(c, s, ahead, ops[0]);
        NumbersRun(c, s', AheadAfter(c, s, ahead, ops[0]), ops[1..]);
      }
    }
  }

  /** Over every run on a file in order, through any number of failed writes, crashes and recoveries:
      the events `load` returns carry strictly increasing numbers at every point if and only if no
      append leaves a readable event through a writer one of whose failed appends had left its whole
      line on a clean tail, with none acknowledged in between. */
  lemma SequenceNumbersIncreaseIff(c: Codec, text: string, ops: seq<Op>)
    requires Lawful(c) && Sorted(Scan(c, text)) && IsRun(c, Start(text), ops) && CarefulRun(c, Start(text), ops)
    ensures AlwaysIncreasing(c, Start(text), ops) <==> NeverRepeats(c, Start(text), false, ops)
  {
    forall cut: nat | |text| <= cut ensures SortedCut(c, text, cut) {
      if cut == |text| { assert text[..cut] == text; }
    }
    NumbersRun(c, Start(text), false, ops);
  }

  /** An append whose line reached the file before its fsync failed leaves the counter behind: the
      next append repeats the number. */
  lemma RepeatedNumberWitness(c: Codec, e: Event)
    requires Lawful(c) && !e.kind.WriterInitialized? && e.seq_ == 1
    ensures var ops := [Create(0, Done), Append(e, Failed(|Line(c, e)|)), Append(e, Done)];
            && IsRun(c, Start(""), ops)
            && View(c, Run(c, Start(""), ops).text).events == [e, e]
  {
    var ops := [Create(0, Done), Append(e, Failed(|Line(c, e)|)), Append(e, Done)];
    var s0 := Start("");
    var s1 := Step(c, s0, ops[0]);
    FreshLog(c);
    var s2 := Step(c, s1, ops[1]);
    UnacknowledgedLine(c, s1, e);
    AckedIffCleanTail(c, s2, e);
    assert [e] + [e] == [e, e];
    ThreeSteps(c, s0, ops);
  }

  /** A failed append whose whole line reached the file. */
  lemma UnacknowledgedLine(c: Codec, s: State, e: Event)
    requires Lawful(c) && !e.kind.WriterInitialized? && Tail(s.text) == "" && Visible(Settled(c, s.text)) == []
    ensures Written(Line(c, e), Failed(|Line(c, e)|)) == Line(c, e)
    ensures Tail(s.text + Line(c, e)) == "" && Visible(Settled(c, s.text + Line(c, e))) == [e]
  {
    CompleteWrite(c, s.text, e);
    VisibleConcat(Settled(c, s.text), [e]);
    assert [e][1..] == [] && Visible([e]) == [e];
  }

  lemma FreshLog(c: Codec)
    requires Lawful(c)
    ensures var s := Step(c, Start(""), Create(0, Done));
      s.writer.Ready? && Tail(s.text) == "" && Visible(Settled(c, s.text)) == []
  {
    CreateAbsorbsTornLine(c, Start(""), 0);
    assert Split("") == [""] && Settled(c, "") == [];
  }
}
