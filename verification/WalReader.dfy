/** Reading a log: `load`, `tail`, the tail scan and `load_all`. */
module WalReader {
  import opened Common
  import opened Text
  import opened Events
  import opened Numerals

  datatype Reader = Reader(events: seq<Event>, dropped: nat)

  /** What one file contributes. */
  function View(c: Codec, text: string): Reader {
    Reader(Visible(ParseAll(c, Lines(text))), Dropped(c, Lines(text)))
  }

  lemma NextVisible(c: Codec, ls: seq<string>, i: nat)
    requires Lawful(c) && i < |ls|
    ensures var p := c.parse(ls[i]);
      Visible(ParseAll(c, ls[..i + 1]))
      == if p.Some? && !p.value.kind.WriterInitialized? then Visible(ParseAll(c, ls[..i])) + [p.value]
         else Visible(ParseAll(c, ls[..i]))
  {
    OneMoreLine(c, ls, i);
    assert Visible([]) == [];
    if c.parse(ls[i]).Some? { assert [c.parse(ls[i]).value][1..] == []; }
  }

  lemma NextDropped(c: Codec, ls: seq<string>, i: nat)
    requires Lawful(c) && i < |ls|
    ensures Dropped(c, ls[..i + 1]) == Dropped(c, ls[..i]) + if Trim(ls[i]) != "" && c.parse(ls[i]).None? then 1 else 0
    ensures Trim(ls[i]) == "" ==> c.parse(ls[i]).None?
  {
    OneMoreLine(c, ls, i);
  }

  /** The line loop shared by `load` and `load_all`. */
  method ReadFile(c: Codec, text: string) returns (events: seq<Event>, dropped: nat)
    requires Lawful(c)
    ensures Reader(events, dropped) == View(c, text)
    ensures Subseq(events, Scan(c, text))
    ensures AllButMarkers(events, Scan(c, text))
    ensures dropped == |set i | 0 <= i < |Lines(text)| && !Blank(Lines(text)[i]) && c.parse(Lines(text)[i]).None?|
  {
    events, dropped := [], 0;
    var ls := Lines(text);
    for i := 0 to |ls|
      invariant events == Visible(ParseAll(c, ls[..i]))
      invariant dropped == Dropped(c, ls[..i])
    {
      NextVisible(c, ls, i);
      NextDropped(c, ls, i);
      if Trim(ls[i]) == "" { continue; }
      match c.parse(ls[i])
      case Some(e) => if !e.kind.WriterInitialized? { events := events + [e]; }
      case None => dropped := dropped + 1;
    }
    assert ls[..|ls|] == ls;
    LinesScan(c, text);
    VisibleIsTheRest(Scan(c, text));
    DroppedCounts(c, ls);
  }

  /** The last `n` events, or all of them when there are fewer. */
  function LastN(es: seq<Event>, n: nat): seq<Event> {
    if |es| <= n then es else es[|es| - n..]
  }

  /** One more event enters the window and the oldest leaves a full one. */
  function Slide(w: seq<Event>, e: Event, n: nat): seq<Event> {
    if |w| + 1 > n then (w + [e])[1..] else w + [e]
  }

  lemma LastNSnoc(es: seq<Event>, e: Event, n: nat)
    ensures LastN(es + [e], n) == Slide(LastN(es, n), e, n)
  {
  }

  lemma NextWindow(c: Codec, ls: seq<string>, i: nat, n: nat)
    requires Lawful(c) && i < |ls|
    ensures var w := LastN(ParseAll(c, ls[..i]), n);
      LastN(ParseAll(c, ls[..i + 1]), n) == match c.parse(ls[i]) case None => w case Some(e) => Slide(w, e, n)
  {
    OneMoreLine(c, ls, i);
    match c.parse(ls[i])
    case None => assert ParseAll(c, ls[..i]) + [] == ParseAll(c, ls[..i]);
    case Some(e) => LastNSnoc(ParseAll(c, ls[..i]), e, n);
  }

  /** Keeps a bounded window while streaming; markers are not filtered here. */
  method TailWindow(c: Codec, text: string, n: nat) returns (r: Reader)
    requires Lawful(c)
    ensures r.dropped == Dropped(c, Lines(text))
    ensures r.events == LastN(Scan(c, text), n)
  {
    var window: seq<Event>, dropped := [], 0;
    var ls := Lines(text);
    for i := 0 to |ls|
      invariant dropped == Dropped(c, ls[..i])
      invariant window == LastN(ParseAll(c, ls[..i]), n)
    {
      NextWindow(c, ls, i, n);
      NextDropped(c, ls, i);
      if Trim(ls[i]) == "" { continue; }
      match c.parse(ls[i])
      case Some(e) =>
        ghost var before := window;
        window := window + [e];
        if |window| > n { window := window[1..]; }
        assert window == Slide(before, e, n);
      case None => dropped := dropped + 1;
    }
    assert ls[..|ls|] == ls;
    LinesScan(c, text);
    r := Reader(window, dropped);
  }

  // ---------- the tail-window scan ----------

  function Last(es: seq<Event>): Option<nat> {
    if es == [] then None else Some(es[|es| - 1].seq_)
  }

  function WindowStart(text: string, window: nat): (r: nat)
    ensures r <= |text|
  {
    if |text| <= window then 0 else |text| - window
  }

  function Before(text: string, window: nat): string { text[..WindowStart(text, window)] }
  function Window(text: string, window: nat): string { text[WindowStart(text, window)..] }

  /** The window opens at a line start, or the line it cuts leaves a piece that does not parse. */
  predicate HarmlessCut(c: Codec, text: string, window: nat) {
    || Tail(Before(text, window)) == ""
    || c.parse(Split(Window(text, window))[0]).None?
  }

  /** Scans the last `window` bytes backwards for a line that parses. */
  method ReadLastSeq(c: Codec, text: string, window: nat) returns (r: Option<nat>)
    requires Lawful(c)
    ensures r == Last(Scan(c, Window(text, window)))
  {
    if |text| == 0 {
      ParseAllOne(c, "");
      return None;
    }
    var lines := Split(Window(text, window));
    var i := |lines|;
    while i > 0
      invariant 0 <= i <= |lines|
      invariant ParseAll(c, lines[i..]) == []
    {
      i := i - 1;
      assert lines[i..] == [lines[i]] + lines[i + 1..];
      assert c.parse(Trim(lines[i])) == c.parse(lines[i]);
      if lines[i] != "" && c.parse(Trim(lines[i])).Some? {
        assert lines == lines[..i] + lines[i..];
        ParseAllConcat(c, lines[..i], lines[i..]);
        assert ParseAll(c, lines[i..]) == [c.parse(lines[i]).value];
        return Some(c.parse(Trim(lines[i])).value.seq_);
      }
    }
    assert lines[0..] == lines;
    return None;
  }

  /** The scans of the whole file and of the window, side by side. */
  lemma WindowSplit(c: Codec, text: string, window: nat)
    ensures var a, g := Before(text, window), Split(Window(text, window));
            && Scan(c, Window(text, window)) == Opt(c.parse(g[0])) + ParseAll(c, g[1..])
            && Scan(c, text) == Settled(c, a) + Opt(c.parse(Tail(a) + g[0])) + ParseAll(c, g[1..])
  {
    var a, g := Before(text, window), Split(Window(text, window));
    assert a + Window(text, window) == text;
    SplitConcat(a, Window(text, window));
    ParseAllConcat(c, Terminated(a) + [Tail(a) + g[0]], g[1..]);
    ParseAllConcat(c, Terminated(a), [Tail(a) + g[0]]);
    ParseAllOne(c, Tail(a) + g[0]);
  }

  /** Whenever the cut is harmless and the window scan finds an event, it is the last event of
      the whole file, for every file and every window size. */
  lemma TailScanRefines(c: Codec, text: string, window: nat)
    requires Lawful(c) && HarmlessCut(c, text, window)
    requires Last(Scan(c, Window(text, window))).Some?
    ensures Last(Scan(c, Window(text, window))) == Last(Scan(c, text))
  {
    WindowSplit(c, text, window);
    var g := Split(Window(text, window));
    if Tail(Before(text, window)) == "" {
      assert "" + g[0] == g[0];
    }
  }

  /** With any other cut the scan is still right as soon as a later line of the window parses;
      otherwise it reports the stray piece, which is no line of the file. */
  lemma TailScanOtherwise(c: Codec, text: string, window: nat)
    requires Lawful(c) && !HarmlessCut(c, text, window)
    ensures var g := Split(Window(text, window));
            Last(Scan(c, Window(text, window))) ==
            if ParseAll(c, g[1..]) != [] then Last(Scan(c, text)) else Some(c.parse(g[0]).value.seq_)
  {
    WindowSplit(c, text, window);
  }

  /** Pieces of a file in which every terminated line is one whole event and nothing follows. */
  ghost predicate WholeLines(c: Codec, text: string) {
    && Tail(text) == ""
    && forall i :: 0 <= i < |Terminated(text)| ==> exists e :: Terminated(text)[i] == c.render(e)
  }

  /** In a file of whole event lines no window size can mislead the scan. */
  lemma WholeLinesHarmless(c: Codec, text: string, window: nat)
    requires Lawful(c) && WholeLines(c, text)
    ensures HarmlessCut(c, text, window)
  {
    var a, w := Before(text, window), Window(text, window);
    assert a + w == text;
    SplitConcat(a, w);
    var g := Split(w);
    var n := |Terminated(a)|;
    assert Split(text)[n] == Tail(a) + g[0];
    if Tail(a) != "" {
      if |g| != 1 {
        assert Terminated(text)[n] == Tail(a) + g[0];
        var e :| Terminated(text)[n] == c.render(e);
        if g[0] != "" {
          assert c.render(e)[|Tail(a)|..] == g[0];
        }
      }
    }
  }

  // ---------- load_all ----------

  /** `rotation_path_for` */
  function RotationName(base: string, index: nat): string { base + "." + Dec(index) }

  /** The archive index a directory entry's name carries, if any. */
  function IndexOf(base: string, name: string): Option<nat> {
    if base <= name && |name| > |base| && name[|base|] == '.' then
      var n := ParseUsize(name[|base| + 1..]);
      if n.Some? && n.value > 0 then n else None
    else None
  }

  lemma IndexOfRotationName(base: string, index: nat)
    ensures IndexOf(base, RotationName(base, index))
         == if 0 < index <= USIZE_MAX then Some(index) else None
  {
    var name := RotationName(base, index);
    assert name[|base|] == '.';
    assert name[|base| + 1..] == Dec(index);
    assert name[..|base|] == base;
    ParseDec(index);
  }

  function Indices(base: string, names: seq<string>): seq<nat> {
    if names == [] then []
    else (var o := IndexOf(base, names[0]); if o.Some? then [o.value] else []) + Indices(base, names[1..])
  }

  lemma {:induction false} IndicesSnoc(base: string, names: seq<string>, i: nat)
    requires i < |names|
    ensures Indices(base, names[..i + 1])
         == Indices(base, names[..i]) + (var o := IndexOf(base, names[i]); if o.Some? then [o.value] else [])
  {
    if i == 0 {
      assert names[..1] == [names[0]] && names[..0] == [] && names[..1][1..] == [];
    } else {
      IndicesSnoc(base, names[1..], i - 1);
      assert names[..i + 1][1..] == names[1..][..i] && names[..i][1..] == names[1..][..i - 1];
    }
  }

  /** What archive `i` contributes; an archive that cannot be read contributes nothing. */
  function Archive(c: Codec, files: map<string, string>, base: string, i: nat): Reader {
    if RotationName(base, i) in files then View(c, files[RotationName(base, i)]) else Reader([], 0)
  }

  /** Events of the archives numbered in `order`, in that order. */
  function Gather(c: Codec, files: map<string, string>, base: string, order: seq<nat>): seq<Event> {
    if order == [] then []
    else Archive(c, files, base, order[0]).events + Gather(c, files, base, order[1..])
  }

  function GatherDropped(c: Codec, files: map<string, string>, base: string, order: seq<nat>): nat {
    if order == [] then 0
    else Archive(c, files, base, order[0]).dropped + GatherDropped(c, files, base, order[1..])
  }

  function Reverse(s: seq<nat>): (r: seq<nat>) { if s == [] then [] else Reverse(s[1..]) + [s[0]] }

  predicate Descending(s: seq<nat>) { forall i, j :: 0 <= i < j < |s| ==> s[i] >= s[j] }
  predicate Ascending(s: seq<nat>) { forall i, j :: 0 <= i < j < |s| ==> s[i] <= s[j] }

  lemma {:induction false} ReverseSnoc(s: seq<nat>, x: nat)
    ensures Reverse(s + [x]) == [x] + Reverse(s)
  {
    if s == [] {
      assert s + [x] == [x];
      assert [x][1..] == [];
    } else {
      assert (s + [x])[1..] == s[1..] + [x];
      ReverseSnoc(s[1..], x);
    }
  }

  lemma {:induction false} ReverseFacts(s: seq<nat>)
    ensures |Reverse(s)| == |s| && multiset(Reverse(s)) == multiset(s)
    ensures forall i :: 0 <= i < |s| ==> Reverse(s)[i] == s[|s| - 1 - i]
  {
    if s != [] {
      ReverseFacts(s[1..]);
      assert s == [s[0]] + s[1..];
    }
  }

  lemma InsertSorted(r: seq<nat>, k: nat, x: nat)
    requires Descending(r) && k <= |r| && (forall j :: 0 <= j < k ==> r[j] >= x) && (k < |r| ==> r[k] < x)
    ensures Descending(r[..k] + [x] + r[k..])
    ensures multiset(r[..k] + [x] + r[k..]) == multiset(r) + multiset{x}
  {
    assert r == r[..k] + r[k..];
  }

  /** `sort_unstable_by(|a, b| b.cmp(a))` */
  method SortDescending(xs: seq<nat>) returns (r: seq<nat>)
    ensures Descending(r) && multiset(r) == multiset(xs)
  {
    r := [];
    for i := 0 to |xs|
      invariant Descending(r) && multiset(r) == multiset(xs[..i])
    {
      var k := 0;
      while k < |r| && r[k] >= xs[i]
        invariant 0 <= k <= |r|
        invariant forall j :: 0 <= j < k ==> r[j] >= xs[i]
      {
        k := k + 1;
      }
      assert xs[..i + 1] == xs[..i] + [xs[i]];
      InsertSorted(r, k, xs[i]);
      r := r[..k] + [xs[i]] + r[k..];
    }
    assert xs[..|xs|] == xs;
  }

  /** Numeric suffixes found by listing the directory. */
  method Discover(base: string, listing: seq<string>) returns (found: seq<nat>)
    ensures found == Indices(base, listing)
  {
    found := [];
    for i := 0 to |listing|
      invariant found == Indices(base, listing[..i])
    {
      IndicesSnoc(base, listing, i);
      var o := IndexOf(base, listing[i]);
      if o.Some? { found := found + [o.value]; }
    }
    assert listing[..|listing|] == listing;
  }

  /** The prepend loop over the sorted indices. */
  method ReadArchives(c: Codec, base: string, files: map<string, string>, indices: seq<nat>)
    returns (events: seq<Event>, dropped: nat)
    requires Lawful(c)
    ensures events == Gather(c, files, base, Reverse(indices))
    ensures dropped == GatherDropped(c, files, base, Reverse(indices))
  {
    events, dropped := [], 0;
    for i := 0 to |indices|
      invariant events == Gather(c, files, base, Reverse(indices[..i]))
      invariant dropped == GatherDropped(c, files, base, Reverse(indices[..i]))
    {
      var index := indices[i];
      ReverseSnoc(indices[..i], index);
      assert indices[..i + 1] == indices[..i] + [index];
      assert ([index] + Reverse(indices[..i]))[1..] == Reverse(indices[..i]);
      if RotationName(base, index) in files {
        var fileEvents, fileDropped := ReadFile(c, files[RotationName(base, index)]);
        dropped := dropped + fileDropped;
        events := fileEvents + events;
      }
    }
    assert indices[..|indices|] == indices;
  }

  /** Every event of the archives, markers included. */
  function Scans(c: Codec, files: map<string, string>, base: string, order: seq<nat>): seq<Event> {
    if order == [] then []
    else
      (if RotationName(base, order[0]) in files then Scan(c, files[RotationName(base, order[0])]) else [])
      + Scans(c, files, base, order[1..])
  }

  lemma {:induction false} GatheredAreTheRest(c: Codec, files: map<string, string>, base: string, order: seq<nat>)
    requires Lawful(c)
    ensures AllButMarkers(Gather(c, files, base, order), Scans(c, files, base, order))
  {
    if order != [] {
      GatheredAreTheRest(c, files, base, order[1..]);
      var name := RotationName(base, order[0]);
      if name in files {
        LinesScan(c, files[name]);
        VisibleIsTheRest(Scan(c, files[name]));
        AllButMarkersConcat(View(c, files[name]).events, Scan(c, files[name]),
                            Gather(c, files, base, order[1..]), Scans(c, files, base, order[1..]));
      }
    }
  }

  /** Archives are taken in descending index order and each one is put in FRONT of what was
      collected, so the result runs through the archives in ascending index order, each as often
      as a listed name carries its index, and ends with the current file. */
  method LoadAll(c: Codec, base: string, files: map<string, string>, listing: seq<string>)
    returns (r: Option<Reader>, ghost order: seq<nat>)
    requires Lawful(c)
    ensures Ascending(order) && multiset(order) == multiset(Indices(base, listing))
    ensures r.Some? <==> base in files
    ensures r.Some? ==> r.value.events == Gather(c, files, base, order) + View(c, files[base]).events
    ensures r.Some? ==> r.value.dropped == GatherDropped(c, files, base, order) + View(c, files[base]).dropped
    ensures r.Some? ==> AllButMarkers(r.value.events, Scans(c, files, base, order) + Scan(c, files[base]))
  {
    var found := Discover(base, listing);
    var indices := SortDescending(found);
    order := Reverse(indices);
    ReverseFacts(indices);
    var events, dropped := ReadArchives(c, base, files, indices);
    if base !in files { return None, order; }
    var fileEvents, fileDropped := ReadFile(c, files[base]);
    r := Some(Reader(events + fileEvents, dropped + fileDropped));
    GatheredAreTheRest(c, files, base, order);
    AllButMarkersConcat(Gather(c, files, base, order), Scans(c, files, base, order), fileEvents, Scan(c, files[base]));
  }

  /** Every listed archive name is the one rotation gives its index. */
  predicate CanonicalListing(base: string, listing: seq<string>) {
    forall i :: 0 <= i < |listing| && IndexOf(base, listing[i]).Some? ==>
      listing[i] == RotationName(base, IndexOf(base, listing[i]).value)
  }

  /** Every archive name counts once, and nothing else counts. */
  ghost predicate OncePerArchive(base: string, listing: seq<string>) {
    forall k: nat ::
      multiset(Indices(base, listing))[k] == if 0 < k <= USIZE_MAX && RotationName(base, k) in listing then 1 else 0
  }

  lemma {:induction false} CanonicalOnce(base: string, listing: seq<string>)
    requires CanonicalListing(base, listing)
    requires forall i, j :: 0 <= i < j < |listing| ==> listing[i] != listing[j]
    ensures OncePerArchive(base, listing)
  {
    if listing != [] {
      var rest := listing[1..];
      assert forall i :: 0 <= i < |rest| ==> rest[i] == listing[i + 1];
      CanonicalOnce(base, rest);
      var o := IndexOf(base, listing[0]);
      assert listing == [listing[0]] + rest;
      forall k: nat
        ensures multiset(Indices(base, listing))[k]
             == (if 0 < k <= USIZE_MAX && RotationName(base, k) in listing then 1 else 0)
      {
        IndexOfRotationName(base, k);
        assert RotationName(base, k) in listing
          <==> RotationName(base, k) == listing[0] || RotationName(base, k) in rest;
        if o.Some? && o.value == k {
          assert RotationName(base, k) == listing[0];
          assert RotationName(base, k) !in rest;
        }
      }
    }
  }

  lemma {:induction false} IndexCounts(base: string, listing: seq<string>, i: nat)
    requires i < |listing| && IndexOf(base, listing[i]).Some?
    ensures multiset(Indices(base, listing))[IndexOf(base, listing[i]).value] >= 1
  {
    if i > 0 { IndexCounts(base, listing[1..], i - 1); }
  }

  lemma {:induction false} TwoNamesCountTwice(base: string, listing: seq<string>, i: nat, j: nat)
    requires i < j < |listing|
    requires IndexOf(base, listing[i]).Some? && IndexOf(base, listing[i]) == IndexOf(base, listing[j])
    ensures multiset(Indices(base, listing))[IndexOf(base, listing[i]).value] >= 2
  {
    if i == 0 { IndexCounts(base, listing[1..], j - 1); } else { TwoNamesCountTwice(base, listing[1..], i - 1, j - 1); }
  }

  lemma AliasCounts(base: string, listing: seq<string>, i: nat)
    requires i < |listing| && IndexOf(base, listing[i]).Some?
    requires listing[i] != RotationName(base, IndexOf(base, listing[i]).value)
    ensures !OncePerArchive(base, listing)
  {
    var k := IndexOf(base, listing[i]).value;
    IndexCounts(base, listing, i);
    if RotationName(base, k) in listing {
      IndexOfRotationName(base, k);
      var j :| 0 <= j < |listing| && listing[j] == RotationName(base, k);
      if i < j { TwoNamesCountTwice(base, listing, i, j); } else { TwoNamesCountTwice(base, listing, j, i); }
    }
  }

  /** Whatever order the directory is listed in, every archive is read exactly once if and only if
      every name that carries an index is the one rotation gives it. */
  lemma EachArchiveOnceIff(base: string, listing: seq<string>)
    requires forall i, j :: 0 <= i < j < |listing| ==> listing[i] != listing[j]
    ensures OncePerArchive(base, listing) <==> CanonicalListing(base, listing)
  {
    if CanonicalListing(base, listing) {
      CanonicalOnce(base, listing);
    } else {
      var i :| 0 <= i < |listing| && IndexOf(base, listing[i]).Some?
        && listing[i] != RotationName(base, IndexOf(base, listing[i]).value);
      AliasCounts(base, listing, i);
    }
  }

  /** A stray "wal.01" beside "wal.1" makes the archive count twice. */
  lemma AliasWitness()
    ensures Indices("wal", ["wal", "wal.1", "wal.01"]) == [1, 1]
    ensures !CanonicalListing("wal", ["wal", "wal.1", "wal.01"])
  {
    var l := ["wal", "wal.1", "wal.01"];
    assert "wal.1"[4..] == "1" && "wal.01"[4..] == "01";
    assert "1"[..0] == "" && "01"[..1] == "0" && "0"[..0] == "";
    assert Value("1") == 1 && Value("0") == 0 && Value("01") == 1;
    assert IndexOf("wal", "wal.1") == Some(1);
    assert IndexOf("wal", "wal.01") == Some(1);
    assert IndexOf("wal", "wal") == None;
    assert l[1..] == ["wal.1", "wal.01"] && l[1..][1..] == ["wal.01"] && l[1..][1..][1..] == [];
    assert Dec(1) == "1";
    assert l[2] != RotationName("wal", 1);
  }

  // ---------- order across archives ----------

  ghost predicate NoRepeats(es: seq<Event>) {
    forall i, j :: 0 <= i < j < |es| ==> es[i] != es[j]
  }

  predicate AtMostOneFilled(c: Codec, files: map<string, string>, base: string, order: seq<nat>) {
    forall i, j :: 0 <= i < j < |order| ==>
      Archive(c, files, base, order[i]).events == [] || Archive(c, files, base, order[j]).events == []
  }

  lemma {:induction false} GatherConcat(c: Codec, files: map<string, string>, base: string, a: seq<nat>, b: seq<nat>)
    ensures Gather(c, files, base, a + b) == Gather(c, files, base, a) + Gather(c, files, base, b)
  {
    if a == [] {
      assert a + b == b;
    } else {
      assert (a + b)[1..] == a[1..] + b;
      GatherConcat(c, files, base, a[1..], b);
      Assoc(Archive(c, files, base, a[0]).events, Gather(c, files, base, a[1..]), Gather(c, files, base, b));
    }
  }

  lemma {:induction false} GatherReverseMultiset(c: Codec, files: map<string, string>, base: string, order: seq<nat>)
    ensures multiset(Gather(c, files, base, Reverse(order))) == multiset(Gather(c, files, base, order))
    ensures |Gather(c, files, base, Reverse(order))| == |Gather(c, files, base, order)|
  {
    if order != [] {
      GatherReverseMultiset(c, files, base, order[1..]);
      GatherConcat(c, files, base, Reverse(order[1..]), [order[0]]);
      assert [order[0]][1..] == [];
      assert Gather(c, files, base, [order[0]]) == Archive(c, files, base, order[0]).events;
    }
  }

  lemma {:induction false} GatherEmpty(c: Codec, files: map<string, string>, base: string, order: seq<nat>)
    ensures Gather(c, files, base, order) == [] <==>
      forall i :: 0 <= i < |order| ==> Archive(c, files, base, order[i]).events == []
  {
    if order != [] {
      GatherEmpty(c, files, base, order[1..]);
      assert forall i :: 0 < i < |order| ==> order[i] == order[1..][i - 1];
      if Gather(c, files, base, order) == [] {
        assert |Archive(c, files, base, order[0]).events| + |Gather(c, files, base, order[1..])| == 0;
      }
    }
  }

  /** When two blocks without a common event can be exchanged unnoticed. */
  lemma BlocksCommuteIff(e: seq<Event>, g: seq<Event>, gr: seq<Event>)
    requires NoRepeats(e + g) && multiset(g) == multiset(gr) && |g| == |gr|
    ensures e + g == gr + e <==> (e == [] && g == gr) || g == []
  {
    if e == [] {
      assert e + g == g && gr + e == gr;
    } else if g == [] {
      assert e + g == e && gr + e == e;
    } else {
      assert multiset(gr)[gr[0]] > 0;
      assert gr[0] in g;
      var k :| 0 <= k < |g| && g[k] == gr[0];
      assert (e + g)[|e| + k] == (gr + e)[0];
      assert (e + g)[0] != (e + g)[|e| + k];
    }
  }

  lemma NoRepeatsTail(e: seq<Event>, g: seq<Event>)
    requires NoRepeats(e + g)
    ensures NoRepeats(g)
  {
    assert forall i :: 0 <= i < |g| ==> g[i] == (e + g)[|e| + i];
  }

  lemma FilledStep(c: Codec, files: map<string, string>, base: string, order: seq<nat>)
    requires order != []
    ensures AtMostOneFilled(c, files, base, order) <==>
      && AtMostOneFilled(c, files, base, order[1..])
      && (Archive(c, files, base, order[0]).events == [] || Gather(c, files, base, order[1..]) == [])
  {
    var rest := order[1..];
    GatherEmpty(c, files, base, rest);
    assert forall i :: 0 < i < |order| ==> order[i] == rest[i - 1];
    if AtMostOneFilled(c, files, base, order) {
      forall i, j | 0 <= i < j < |rest|
        ensures Archive(c, files, base, rest[i]).events == [] || Archive(c, files, base, rest[j]).events == []
      {
        assert rest[i] == order[i + 1] && rest[j] == order[j + 1];
      }
      forall i | 0 <= i < |rest| && Archive(c, files, base, order[0]).events != []
        ensures Archive(c, files, base, rest[i]).events == []
      {
        assert rest[i] == order[i + 1];
      }
    }
  }

  /** Rotation makes archive N the oldest and archive 1 the newest, so the oldest-first order that
      `load_all` documents is the reverse of the one it produces. For logs in which no event
      occurs twice the two agree exactly when at most one archive holds events. */
  lemma {:induction false} ChronologicalIff(c: Codec, files: map<string, string>, base: string, order: seq<nat>)
    requires NoRepeats(Gather(c, files, base, order))
    ensures Gather(c, files, base, order) == Gather(c, files, base, Reverse(order))
       <==> AtMostOneFilled(c, files, base, order)
  {
    if order != [] {
      var rest := order[1..];
      var e := Archive(c, files, base, order[0]).events;
      var g, gr := Gather(c, files, base, rest), Gather(c, files, base, Reverse(rest));
      NoRepeatsTail(e, g);
      ChronologicalIff(c, files, base, rest);
      GatherReverseMultiset(c, files, base, rest);
      BlocksCommuteIff(e, g, gr);
      FilledStep(c, files, base, order);
      GatherReverse(c, files, base, order);
    }
  }

  /** Two archives with one event each: `load_all` puts the newer before the older. */
  lemma WrongOrderWitness(c: Codec, older: Event, newer: Event)
    requires Lawful(c) && !older.kind.WriterInitialized? && !newer.kind.WriterInitialized? && older != newer
    ensures var files := map["w.2" := Line(c, older), "w.1" := Line(c, newer)];
      && Gather(c, files, "w", [1, 2]) == [newer, older]
      && Gather(c, files, "w", Reverse([1, 2])) == [older, newer]
  {
    var files := map["w.2" := Line(c, older), "w.1" := Line(c, newer)];
    assert Dec(1) == "1" && Dec(2) == "2";
    assert RotationName("w", 1) == "w.1" && RotationName("w", 2) == "w.2" && "w.1"[2] != "w.2"[2];
    OneLineView(c, older);
    OneLineView(c, newer);
    assert [1, 2][1..] == [2] && [2][1..] == [] && Reverse([1, 2]) == [2, 1] && [2, 1][1..] == [1] && [1][1..] == [];
    assert Archive(c, files, "w", 1).events == [newer] && Archive(c, files, "w", 2).events == [older];
    assert Gather(c, files, "w", [1]) == [newer] + [] && Gather(c, files, "w", [2]) == [older] + [];
  }

  lemma OneLineView(c: Codec, e: Event)
    requires Lawful(c) && !e.kind.WriterInitialized?
    ensures View(c, Line(c, e)).events == [e]
  {
    assert "" + Line(c, e) == Line(c, e) && Split("") == [""];
    assert Tail("") == "" && Terminated("") == [];
    CompleteWrite(c, "", e);
    assert Settled(c, Line(c, e)) == [] + [e] == [e];
    assert Visible([e]) == [e] + Visible([]);
    LinesScan(c, Line(c, e));
    assert [e][1..] == [];
  }

  lemma GatherReverse(c: Codec, files: map<string, string>, base: string, order: seq<nat>)
    requires order != []
    ensures Gather(c, files, base, Reverse(order))
         == Gather(c, files, base, Reverse(order[1..])) + Archive(c, files, base, order[0]).events
  {
    GatherConcat(c, files, base, Reverse(order[1..]), [order[0]]);
    assert [order[0]][1..] == [];
    assert Gather(c, files, base, [order[0]]) == Archive(c, files, base, order[0]).events;
  }
}
