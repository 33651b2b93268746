/** Log events, their text form, and parsing a log. */
module Events {
  import opened Common
  import opened Text

  datatype Kind =
    | JobSubmitted | JobValidated | JobStarted | JobCompleted | JobFailed | JobRolledBack
    | CommandExecuted | BackupCreated | SafetyEvaluated | WriterInitialized

  /** `job` and `body` are opaque tokens for the job id and for everything else an event carries. */
  datatype Event = Event(seq_: nat, ts: nat, kind: Kind, job: nat, body: nat)

  /** The marker `WalWriter::create` writes: all other fields are defaults. */
  function Marker(base: nat, ts: nat): Event { Event(base, ts, WriterInitialized, 0, 0) }

  /** The serializer and deserializer of one event line. */
  datatype Codec = Codec(render: Event -> string, parse: string -> Option<Event>)

  /** What JSON promises about event lines, and nothing else (sections 2 and 7 of RFC 8259):
      an event prints to one line that opens with a brace; a text that ends inside an event object
      never parses, whatever stands before it; an event glued to earlier text never parses; a
      proper suffix of an event never parses; surrounding whitespace is insignificant. */
  ghost predicate Lawful(c: Codec) {
    && (forall e :: c.parse(c.render(e)) == Some(e))
    && (forall e :: '\n' !in c.render(e) && c.render(e) != "" && !Ws(c.render(e)[0]))
    && (forall u: string, e, i :: 0 < i < |c.render(e)| ==> c.parse(u + c.render(e)[..i]) == None)
    && (forall u: string, e :: !Blank(u) ==> c.parse(u + c.render(e)) == None)
    && (forall e, i :: 0 < i < |c.render(e)| ==> c.parse(c.render(e)[i..]) == None)
    && (forall l: string {:trigger c.parse(Trim(l))} :: c.parse(Trim(l)) == c.parse(l))
    && c.parse("") == None
  }

  function Line(c: Codec, e: Event): string { c.render(e) + "\n" }

  function Opt(o: Option<Event>): seq<Event> { if o.Some? then [o.value] else [] }

  function ParseAll(c: Codec, ls: seq<string>): seq<Event> {
    if ls == [] then [] else Opt(c.parse(ls[0])) + ParseAll(c, ls[1..])
  }

  /** Every event a scan of all lines finds, markers included. */
  function Scan(c: Codec, s: string): seq<Event> { ParseAll(c, Split(s)) }

  /** The events on newline-terminated lines. Later appends cannot change these. */
  function Settled(c: Codec, s: string): seq<Event> { ParseAll(c, Terminated(s)) }

  function Visible(es: seq<Event>): seq<Event> {
    if es == [] then []
    else (if es[0].kind.WriterInitialized? then [] else [es[0]]) + Visible(es[1..])
  }

  /** Non-blank lines that do not parse. */
  function Dropped(c: Codec, ls: seq<string>): nat {
    if ls == [] then 0
    else (if !Blank(ls[0]) && c.parse(ls[0]).None? then 1 else 0) + Dropped(c, ls[1..])
  }

  lemma {:induction false} ParseAllConcat(c: Codec, a: seq<string>, b: seq<string>)
    ensures ParseAll(c, a + b) == ParseAll(c, a) + ParseAll(c, b)
  {
    if a == [] {
      assert a + b == b;
    } else {
      assert (a + b)[1..] == a[1..] + b;
      ParseAllConcat(c, a[1..], b);
    }
  }

  lemma {:induction false} VisibleConcat(a: seq<Event>, b: seq<Event>)
    ensures Visible(a + b) == Visible(a) + Visible(b)
  {
    if a == [] {
      assert a + b == b;
    } else {
      assert (a + b)[1..] == a[1..] + b;
      VisibleConcat(a[1..], b);
    }
  }

  predicate Subseq(a: seq<Event>, b: seq<Event>) {
    a == [] || (b != [] && (Subseq(a, b[..|b| - 1])
                            || (a[|a| - 1] == b[|b| - 1] && Subseq(a[..|a| - 1], b[..|b| - 1]))))
  }

  lemma {:induction false} SubseqGrow(a: seq<Event>, b: seq<Event>, extra: seq<Event>)
    requires Subseq(a, b)
    ensures Subseq(a, b + extra)
  {
    if extra == [] {
      assert b + extra == b;
    } else {
      SubseqGrow(a, b, extra[..|extra| - 1]);
      assert (b + extra)[..|b + extra| - 1] == b + extra[..|extra| - 1];
    }
  }

  lemma SubseqSnoc(a: seq<Event>, b: seq<Event>, e: Event)
    requires Subseq(a, b)
    ensures Subseq(a + [e], b + [e])
  {
    assert (a + [e])[..|a|] == a && (b + [e])[..|b|] == b;
  }

  /** Every event but the markers of `create`, as often as it is there. */
  ghost predicate AllButMarkers(shown: seq<Event>, all: seq<Event>) {
    forall e :: multiset(shown)[e] == if e.kind == WriterInitialized then 0 else multiset(all)[e]
  }

  lemma AllButMarkersConcat(a: seq<Event>, all: seq<Event>, b: seq<Event>, more: seq<Event>)
    requires AllButMarkers(a, all) && AllButMarkers(b, more)
    ensures AllButMarkers(a + b, all + more)
  {
  }

  lemma VisibleSnoc(es: seq<Event>, e: Event)
    ensures Visible(es + [e]) == if e.kind == WriterInitialized then Visible(es) else Visible(es) + [e]
  {
    VisibleConcat(es, [e]);
    assert [e][1..] == [] && Visible(es) + [] == Visible(es);
  }

  /** Readers show the events in the order of the file, each one as often as it is there, the markers
      of `create` excepted. */
  lemma {:induction false} VisibleIsTheRest(es: seq<Event>)
    ensures AllButMarkers(Visible(es), es) && Subseq(Visible(es), es)
  {
    if es != [] {
      var init, last := es[..|es| - 1], es[|es| - 1];
      assert es == init + [last];
      VisibleIsTheRest(init);
      VisibleSnoc(init, last);
      if last.kind == WriterInitialized {
        SubseqGrow(Visible(init), init, [last]);
      } else {
        SubseqSnoc(Visible(init), init, last);
        AllButMarkersConcat(Visible(init), init, [last], [last]);
      }
    }
  }

  /** Dropped lines are the non-blank ones that do not parse. */
  lemma {:induction false} DroppedCounts(c: Codec, ls: seq<string>)
    ensures Dropped(c, ls) == |set i | 0 <= i < |ls| && !Blank(ls[i]) && c.parse(ls[i]).None?|
  {
    if ls != [] {
      var init, n := ls[..|ls| - 1], |ls| - 1;
      assert ls == init + [ls[n]];
      DroppedConcat(c, init, [ls[n]]);
      assert Dropped(c, [ls[n]][1..]) == 0;
      DroppedCounts(c, init);
      var before := set i | 0 <= i < |init| && !Blank(init[i]) && c.parse(init[i]).None?;
      var all := set i | 0 <= i < |ls| && !Blank(ls[i]) && c.parse(ls[i]).None?;
      assert all == if !Blank(ls[n]) && c.parse(ls[n]).None? then before + {n} else before;
    }
  }

  lemma {:induction false} DroppedConcat(c: Codec, a: seq<string>, b: seq<string>)
    ensures Dropped(c, a + b) == Dropped(c, a) + Dropped(c, b)
  {
    if a == [] {
      assert a + b == b;
    } else {
      assert (a + b)[1..] == a[1..] + b;
      DroppedConcat(c, a[1..], b);
    }
  }

  lemma ParseAllOne(c: Codec, l: string)
    ensures ParseAll(c, [l]) == Opt(c.parse(l))
  {
    assert ParseAll(c, [l][1..]) == [];
  }

  /** What one more line adds to a scan, and why the readers may skip blank lines. */
  lemma OneMoreLine(c: Codec, ls: seq<string>, i: nat)
    requires Lawful(c) && i < |ls|
    ensures ParseAll(c, ls[..i + 1]) == ParseAll(c, ls[..i]) + Opt(c.parse(ls[i]))
    ensures Visible(ParseAll(c, ls[..i + 1])) == Visible(ParseAll(c, ls[..i])) + Visible(Opt(c.parse(ls[i])))
    ensures Dropped(c, ls[..i + 1])
         == Dropped(c, ls[..i]) + if Trim(ls[i]) != "" && c.parse(ls[i]).None? then 1 else 0
    ensures Trim(ls[i]) == "" ==> c.parse(ls[i]).None?
  {
    assert ls[..i + 1] == ls[..i] + [ls[i]];
    ParseAllConcat(c, ls[..i], [ls[i]]);
    ParseAllOne(c, ls[i]);
    VisibleConcat(ParseAll(c, ls[..i]), Opt(c.parse(ls[i])));
    DroppedConcat(c, ls[..i], [ls[i]]);
    assert Dropped(c, [ls[i]][1..]) == 0;
    if Trim(ls[i]) == "" {
      TrimEmptyIsBlank(ls[i]);
      BlankDoesNotParse(c, ls[i]);
    } else if Blank(ls[i]) {
      BlankTrimsAway(ls[i]);
    }
  }

  lemma ScanIsSettledAndTail(c: Codec, s: string)
    ensures Scan(c, s) == Settled(c, s) + Opt(c.parse(Tail(s)))
  {
    assert Split(s) == Terminated(s) + [Tail(s)];
    ParseAllConcat(c, Terminated(s), [Tail(s)]);
    ParseAllOne(c, Tail(s));
  }

  lemma BlankDoesNotParse(c: Codec, u: string)
    requires Lawful(c) && Blank(u)
    ensures c.parse(u) == None
  {
    BlankTrimsAway(u);
    assert c.parse(Trim(u)) == c.parse(u);
  }

  lemma ParseStripCr(c: Codec, l: string)
    requires Lawful(c)
    ensures c.parse(StripCr(l)) == c.parse(l)
  {
    StripCrTrims(l);
    assert c.parse(Trim(StripCr(l))) == c.parse(StripCr(l));
    assert c.parse(Trim(l)) == c.parse(l);
  }

  lemma {:induction false} ParseAllStripCr(c: Codec, ls: seq<string>)
    requires Lawful(c)
    ensures ParseAll(c, StripCrAll(ls)) == ParseAll(c, ls)
  {
    if ls != [] {
      ParseStripCr(c, ls[0]);
      assert StripCrAll(ls)[1..] == StripCrAll(ls[1..]);
      ParseAllStripCr(c, ls[1..]);
    }
  }

  /** Reading by `lines()` and reading by splitting at newlines find the same events. */
  lemma LinesScan(c: Codec, s: string)
    requires Lawful(c)
    ensures ParseAll(c, Lines(s)) == Scan(c, s)
  {
    ScanIsSettledAndTail(c, s);
    ParseAllStripCr(c, Terminated(s));
    ParseAllConcat(c, StripCrAll(Terminated(s)), if Tail(s) == "" then [] else [Tail(s)]);
    ParseAllOne(c, Tail(s));
  }

  lemma EventAfterBlank(c: Codec, u: string, e: Event)
    requires Lawful(c) && Blank(u)
    ensures c.parse(u + c.render(e)) == Some(e)
  {
    TrimStartBlankPrefix(u, c.render(e));
    assert Trim(u + c.render(e)) == Trim(c.render(e));
    assert c.parse(Trim(u + c.render(e))) == c.parse(u + c.render(e));
    assert c.parse(Trim(c.render(e))) == c.parse(c.render(e));
  }

  /** A complete append is legible exactly when nothing but whitespace stood after the last
      newline: otherwise the event is glued to that text and neither can be read again. */
  lemma CompleteWrite(c: Codec, s: string, e: Event)
    requires Lawful(c)
    ensures Tail(s + Line(c, e)) == ""
    ensures Settled(c, s + Line(c, e)) == Settled(c, s) + (if Blank(Tail(s)) then [e] else [])
    ensures Scan(c, s + Line(c, e)) == Settled(c, s + Line(c, e))
  {
    AppendLine(s, c.render(e));
    ParseAllConcat(c, Terminated(s), [Tail(s) + c.render(e)]);
    ParseAllOne(c, Tail(s) + c.render(e));
    if Blank(Tail(s)) { EventAfterBlank(c, Tail(s), e); }
    ScanIsSettledAndTail(c, s + Line(c, e));
  }

  /** A write that stops inside the line, or just before its newline. */
  lemma PartialWrite(c: Codec, s: string, e: Event, i: nat)
    requires Lawful(c) && i <= |c.render(e)|
    ensures var s' := s + c.render(e)[..i];
            && Settled(c, s') == Settled(c, s) && Tail(s') == Tail(s) + c.render(e)[..i]
            && Scan(c, s') == Settled(c, s) + (if i == 0 then Opt(c.parse(Tail(s)))
                                               else if i == |c.render(e)| && Blank(Tail(s)) then [e]
                                               else [])
  {
    var p := c.render(e)[..i];
    AppendPiece(s, p);
    ScanIsSettledAndTail(c, s + p);
    if i == 0 {
      assert s + p == s;
    } else if i == |c.render(e)| {
      assert p == c.render(e);
      if Blank(Tail(s)) { EventAfterBlank(c, Tail(s), e); }
    }
  }

  lemma SettledMonotone(c: Codec, a: string, b: string)
    ensures Settled(c, a) <= Settled(c, a + b)
  {
    TerminatedMonotone(a, b);
    var n := |Terminated(a)|;
    var t := Terminated(a + b);
    assert t == Terminated(a) + t[n..];
    ParseAllConcat(c, Terminated(a), t[n..]);
  }
}
