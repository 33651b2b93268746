/** A small codec that keeps the laws assumed of event lines, so that what is proved from these laws is not proved
    of nothing. */
module CodecWitness {
  import opened Common
  import opened Text
  import opened Events

  function Unary(n: nat): string { if n == 0 then "" else "a" + Unary(n - 1) }

  function KindNumber(k: Kind): nat {
    match k
    case JobSubmitted => 0
    case JobValidated => 1
    case JobStarted => 2
    case JobCompleted => 3
    case JobFailed => 4
    case JobRolledBack => 5
    case CommandExecuted => 6
    case BackupCreated => 7
    case SafetyEvaluated => 8
    case WriterInitialized => 9
  }

  function Fields(ns: seq<nat>): string { if ns == [] then "}" else Unary(ns[0]) + "," + Fields(ns[1..]) }

  function FieldsOf(e: Event): seq<nat> { [e.seq_, e.ts, KindNumber(e.kind), e.job, e.body] }

  function Rendered(e: Event): string { "{" + Fields(FieldsOf(e)) }

  ghost function Parsed(s: string): Option<Event> {
    if exists e :: Trim(s) == Rendered(e) then
      var e :| Trim(s) == Rendered(e);
      Some(e)
    else None
  }

  predicate BodyChar(ch: char) { ch == 'a' || ch == ',' || ch == '}' }

  lemma {:induction false} UnaryShape(n: nat)
    ensures |Unary(n)| == n && forall i :: 0 <= i < n ==> Unary(n)[i] == 'a'
  {
    if n > 0 { UnaryShape(n - 1); }
  }

  lemma {:induction false} FieldsShape(ns: seq<nat>)
    ensures var f := Fields(ns);
      && |f| > 0 && f[|f| - 1] == '}'
      && (forall i :: 0 <= i < |f| ==> BodyChar(f[i]))
      && (forall i :: 0 <= i < |f| - 1 ==> f[i] != '}')
  {
    if ns != [] {
      UnaryShape(ns[0]);
      FieldsShape(ns[1..]);
      var u, r := Unary(ns[0]), Fields(ns[1..]);
      assert Fields(ns) == u + "," + r;
      forall i | 0 <= i < |Fields(ns)|
        ensures BodyChar(Fields(ns)[i]) && (i < |Fields(ns)| - 1 ==> Fields(ns)[i] != '}')
      {
        assert Fields(ns)[i] == if i < |u| then u[i] else if i == |u| then ',' else r[i - |u| - 1];
      }
    }
  }

  lemma {:induction false} FieldsInjective(a: seq<nat>, b: seq<nat>)
    requires |a| == |b| && Fields(a) == Fields(b)
    ensures a == b
  {
    if a != [] {
      UnaryShape(a[0]);
      UnaryShape(b[0]);
      var f, g := Fields(a), Fields(b);
      assert forall i :: 0 <= i < a[0] ==> f[i] == 'a';
      assert forall i :: 0 <= i < b[0] ==> g[i] == 'a';
      assert f[a[0]] == ',' && g[b[0]] == ',';
      assert a[0] == b[0];
      assert f[a[0] + 1..] == Fields(a[1..]) && g[b[0] + 1..] == Fields(b[1..]);
      FieldsInjective(a[1..], b[1..]);
      assert a == [a[0]] + a[1..] && b == [b[0]] + b[1..];
    }
  }

  lemma RenderedShape(e: Event)
    ensures var r := Rendered(e);
      && |r| > 1 && r[0] == '{' && r[|r| - 1] == '}'
      && (forall i :: 0 < i < |r| ==> BodyChar(r[i]))
      && (forall i :: 0 <= i < |r| - 1 ==> r[i] != '}')
  {
    FieldsShape(FieldsOf(e));
    assert forall i :: 0 < i < |Rendered(e)| ==> Rendered(e)[i] == Fields(FieldsOf(e))[i - 1];
  }

  lemma RenderedInjective(d: Event, e: Event)
    requires Rendered(d) == Rendered(e)
    ensures d == e
  {
    assert Rendered(d)[1..] == Fields(FieldsOf(d)) && Rendered(e)[1..] == Fields(FieldsOf(e));
    FieldsInjective(FieldsOf(d), FieldsOf(e));
    assert FieldsOf(d)[0] == FieldsOf(e)[0] && FieldsOf(d)[1] == FieldsOf(e)[1] && FieldsOf(d)[2] == FieldsOf(e)[2]
        && FieldsOf(d)[3] == FieldsOf(e)[3] && FieldsOf(d)[4] == FieldsOf(e)[4];
  }

  /** A text without outer blanks trims to itself. */
  lemma TrimNothing(s: string)
    requires s != "" ==> !Ws(s[0]) && !Ws(s[|s| - 1])
    ensures Trim(s) == s
  {
  }

  lemma {:induction false} TrimStartShape(s: string)
    ensures var t := TrimStart(s);
      && |t| <= |s| && t == s[|s| - |t|..] && Blank(s[..|s| - |t|]) && (t != "" ==> !Ws(t[0]))
  {
    if s != "" && Ws(s[0]) {
      TrimStartShape(s[1..]);
      var t := TrimStart(s[1..]);
      assert s[..|s| - |t|] == [s[0]] + s[1..][..|s[1..]| - |t|];
    }
  }

  lemma {:induction false} TrimEndIdempotent(s: string)
    ensures TrimEnd(TrimEnd(s)) == TrimEnd(s)
    ensures s != "" && !Ws(s[0]) ==> TrimEnd(s) != "" && TrimEnd(s)[0] == s[0]
  {
    if s != "" && Ws(s[|s| - 1]) { TrimEndIdempotent(s[..|s| - 1]); }
  }

  lemma TrimIdempotent(s: string)
    ensures Trim(Trim(s)) == Trim(s)
  {
    TrimStartShape(s);
    TrimEndIdempotent(TrimStart(s));
    assert TrimStart(Trim(s)) == Trim(s);
  }

  lemma ParsedRendered(e: Event)
    ensures Parsed(Rendered(e)) == Some(e)
  {
    RenderedShape(e);
    TrimNothing(Rendered(e));
    assert Trim(Rendered(e)) == Rendered(e);
    var d :| Parsed(Rendered(e)) == Some(d) && Trim(Rendered(e)) == Rendered(d);
    RenderedInjective(d, e);
  }

  lemma CutShort(u: string, e: Event, i: nat)
    requires 0 < i < |Rendered(e)|
    ensures Parsed(u + Rendered(e)[..i]) == None
  {
    RenderedShape(e);
    var s := u + Rendered(e)[..i];
    assert s[|s| - 1] == Rendered(e)[i - 1];
    TrimStartShape(s);
    forall d ensures Trim(s) != Rendered(d) { RenderedShape(d); }
  }

  lemma Glued(u: string, e: Event)
    requires !Blank(u)
    ensures Parsed(u + Rendered(e)) == None
  {
    RenderedShape(e);
    var s := u + Rendered(e);
    TrimStartShape(s);
    var t := TrimStart(s);
    var k := |s| - |t|;
    assert forall i :: 0 <= i < |u| && i < k ==> s[..k][i] == u[i];
    assert k < |u|;
    assert t[|u| - k] == '{' && t[|t| - 1] == '}';
    forall d ensures Trim(s) != Rendered(d) { RenderedShape(d); }
  }

  lemma Beheaded(e: Event, i: nat)
    requires 0 < i < |Rendered(e)|
    ensures Parsed(Rendered(e)[i..]) == None
  {
    RenderedShape(e);
    var s := Rendered(e)[i..];
    TrimNothing(s);
    forall d ensures Trim(s) != Rendered(d) { RenderedShape(d); }
  }

  ghost function Small(): Codec { Codec(e => Rendered(e), s => Parsed(s)) }

  /** The assumptions about event lines are consistent. */
  lemma LawfulIsPossible()
    ensures exists c: Codec :: Lawful(c)
  {
    var c := Small();
    forall e ensures c.parse(c.render(e)) == Some(e) { ParsedRendered(e); }
    forall e ensures '\n' !in c.render(e) && c.render(e) != "" && !Ws(c.render(e)[0]) { RenderedShape(e); }
    forall u: string, e, i | 0 < i < |c.render(e)| ensures c.parse(u + c.render(e)[..i]) == None { CutShort(u, e, i); }
    forall u: string, e | !Blank(u) ensures c.parse(u + c.render(e)) == None { Glued(u, e); }
    forall e, i | 0 < i < |c.render(e)| ensures c.parse(c.render(e)[i..]) == None { Beheaded(e, i); }
    forall l: string ensures c.parse(Trim(l)) == c.parse(l) { TrimIdempotent(l); SameTrim(Trim(l), l); }
    forall e ensures Trim("") != Rendered(e) { RenderedShape(e); }
    assert c.parse("") == None;
    assert Lawful(c);
  }

  lemma SameTrim(s: string, t: string)
    requires Trim(s) == Trim(t)
    ensures Parsed(s) == Parsed(t)
  {
    if d, e :| Parsed(s) == Some(d) && Trim(s) == Rendered(d) && Parsed(t) == Some(e) && Trim(t) == Rendered(e) {
      RenderedInjective(d, e);
    }
  }
}
