/** Text in lines, as a log is read and written, and the blanks around what stands on them; a `char` stands for
    one byte. */
module Text {

  // ---------- lines ----------

  /** Puts one more character in front of a split text. */
  function Push(ch: char, r: seq<string>): (q: seq<string>)
    requires |r| >= 1
    ensures |q| >= 1
  {
    if ch == '\n' then [""] + r else [[ch] + r[0]] + r[1..]
  }

  /** Every piece of `s` between newlines; the last piece is the unterminated one. */
  function Split(s: string): (r: seq<string>)
    ensures |r| >= 1
  {
    if s == "" then [""] else Push(s[0], Split(s[1..]))
  }

  /** The pieces that a newline closes. */
  function Terminated(s: string): seq<string> {
    var r := Split(s); r[..|r| - 1]
  }

  /** What follows the last newline. */
  function Tail(s: string): string {
    var r := Split(s); r[|r| - 1]
  }

  function StripCr(l: string): string {
    if l != "" && l[|l| - 1] == '\r' then l[..|l| - 1] else l
  }

  function StripCrAll(ls: seq<string>): (r: seq<string>)
    ensures |r| == |ls|
    ensures forall i :: 0 <= i < |ls| ==> r[i] == StripCr(ls[i])
  {
    if ls == [] then [] else [StripCr(ls[0])] + StripCrAll(ls[1..])
  }

  /** `str::lines`: a final newline opens no further line, and "\r\n" ends a line too. */
  function Lines(s: string): seq<string> {
    StripCrAll(Terminated(s)) + (if Tail(s) == "" then [] else [Tail(s)])
  }

  /** Two split texts run together: the last piece of one meets the first piece of the other. */
  function Join(x: seq<string>, y: seq<string>): seq<string>
    requires |x| >= 1 && |y| >= 1
  {
    x[..|x| - 1] + [x[|x| - 1] + y[0]] + y[1..]
  }

  lemma JoinPush(ch: char, x: seq<string>, y: seq<string>)
    requires |x| >= 1 && |y| >= 1
    ensures Join(Push(ch, x), y) == Push(ch, Join(x, y))
  {
    if ch != '\n' {
      if |x| == 1 {
        assert [ch] + (x[0] + y[0]) == ([ch] + x[0]) + y[0];
        assert Join(Push(ch, x), y) == [([ch] + x[0]) + y[0]] + y[1..];
      } else {
        assert Push(ch, x)[|x| - 1] == x[|x| - 1];
        assert Join(x, y)[0] == x[0];
      }
    } else {
      assert Push(ch, x)[|x|] == x[|x| - 1];
    }
  }

  lemma {:induction false} SplitConcat(a: string, b: string)
    ensures Split(a + b) == Join(Split(a), Split(b))
  {
    if a == "" {
      assert a + b == b;
      assert "" + Split(b)[0] == Split(b)[0];
    } else {
      SplitConcat(a[1..], b);
      assert (a + b)[1..] == a[1..] + b;
      JoinPush(a[0], Split(a[1..]), Split(b));
    }
  }

  lemma {:induction false} SplitOneLine(l: string)
    requires '\n' !in l
    ensures Split(l) == [l]
  {
    if l != "" {
      SplitOneLine(l[1..]);
      assert [l[0]] + l[1..] == l;
    }
  }

  lemma AppendPiece(a: string, p: string)
    requires '\n' !in p
    ensures Terminated(a + p) == Terminated(a) && Tail(a + p) == Tail(a) + p
  {
    SplitConcat(a, p);
    SplitOneLine(p);
  }

  lemma SplitLine(p: string)
    requires '\n' !in p
    ensures Split(p + "\n") == [p, ""]
  {
    SplitConcat(p, "\n");
    SplitOneLine(p);
    assert "\n"[1..] == "";
    assert Split("\n") == ["", ""];
    assert p + "" == p;
  }

  lemma AppendLine(a: string, p: string)
    requires '\n' !in p
    ensures Terminated(a + (p + "\n")) == Terminated(a) + [Tail(a) + p] && Tail(a + (p + "\n")) == ""
  {
    SplitLine(p);
    SplitConcat(a, p + "\n");
    var x, y := Split(a), [p, ""];
    assert y[1..] == [""];
    assert Join(x, y) == x[..|x| - 1] + [x[|x| - 1] + p] + [""];
  }

  lemma TerminatedMonotone(a: string, b: string)
    ensures Terminated(a) <= Terminated(a + b)
  {
    SplitConcat(a, b);
  }

  // ---------- blanks ----------

  /** Insignificant whitespace of section 2 of RFC 8259. */
  predicate Ws(ch: char) { ch == ' ' || ch == '\t' || ch == '\r' || ch == '\n' }

  predicate Blank(s: string) { forall i :: 0 <= i < |s| ==> Ws(s[i]) }

  function TrimStart(s: string): string {
    if s != "" && Ws(s[0]) then TrimStart(s[1..]) else s
  }

  function TrimEnd(s: string): string {
    if s != "" && Ws(s[|s| - 1]) then TrimEnd(s[..|s| - 1]) else s
  }

  function Trim(s: string): string { TrimEnd(TrimStart(s)) }

  lemma {:induction false} TrimStartBlankPrefix(u: string, s: string)
    requires Blank(u)
    ensures TrimStart(u + s) == TrimStart(s)
  {
    if u == "" {
      assert u + s == s;
    } else {
      assert (u + s)[1..] == u[1..] + s;
      TrimStartBlankPrefix(u[1..], s);
    }
  }

  lemma {:induction false} BlankTrimsAway(u: string)
    requires Blank(u)
    ensures Trim(u) == ""
  {
    TrimStartBlankPrefix(u, "");
    assert u + "" == u;
  }

  lemma {:induction false} TrimStartKeepsEnd(s: string, ch: char)
    requires Ws(ch)
    ensures TrimEnd(TrimStart(s + [ch])) == TrimEnd(TrimStart(s))
  {
    if s == "" {
      assert s + [ch] == [ch];
    } else if Ws(s[0]) {
      assert (s + [ch])[1..] == s[1..] + [ch];
      TrimStartKeepsEnd(s[1..], ch);
    } else {
      assert TrimStart(s + [ch]) == s + [ch];
      assert (s + [ch])[..|s|] == s;
    }
  }

  lemma StripCrTrims(l: string)
    ensures Trim(StripCr(l)) == Trim(l)
  {
    if l != "" && l[|l| - 1] == '\r' {
      TrimStartKeepsEnd(l[..|l| - 1], '\r');
      assert l[..|l| - 1] + ['\r'] == l;
    }
  }

  /** A blank text is exactly one that trims to nothing. */
  lemma {:induction false} TrimEmptyIsBlank(s: string)
    requires Trim(s) == ""
    ensures Blank(s)
    decreases |s|
  {
    if s != "" {
      if Ws(s[0]) {
        TrimEmptyIsBlank(s[1..]);
        assert forall i :: 0 < i < |s| ==> s[i] == s[1..][i - 1];
      } else {
        TrimEndEmpty(s);
      }
    }
  }

  lemma {:induction false} TrimEndEmpty(s: string)
    requires TrimEnd(s) == ""
    ensures Blank(s)
  {
    if s != "" {
      TrimEndEmpty(s[..|s| - 1]);
    }
  }
}
