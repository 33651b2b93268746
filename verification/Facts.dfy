/** The facts evaluator: select, check, quantify. */
module Facts {
  import opened Common

  /** JSON values as far as comparisons look into them. */
  datatype Json = Num(n: int) | Str(s: string) | Opaque(k: nat)

  /** A runtime fact: top-level fields, the fields of `process_key`, and those of `extra`. */
  datatype Record = Record(top: map<string, Json>, process: map<string, Json>, extra: map<string, Json>)

  /** `Future` stands for operators added later; `Regex` is matched as a substring. */
  datatype Op = Eq | Neq | Gt | Lt | Gte | Lte | Contains | Regex | Future

  datatype Pred = Pred(field: string, op: Op, value: Json)

  datatype Quantifier = All | Exists | None_ | Count(op: Op, threshold: nat) | Other

  datatype Spec = Spec(predicates: seq<Pred>, select: seq<Pred>, quantifier: Quantifier)

  datatype Verdict = Satisfied | Violated | Error

  const TOP_FIELDS: set<string> :=
    {"family", "run_id", "provider", "fidelity", "observations", "first_seen", "last_seen", "revision"}

  predicate HasExtraPrefix(f: string) { "extra." <= f }

  function FieldValue(r: Record, f: string): Option<Json> {
    if f in TOP_FIELDS then Get(r.top, f)
    else if f == "process.pid" then Get(r.process, "pid")
    else if f == "process.process_start_time" then Get(r.process, "process_start_time")
    else if HasExtraPrefix(f) then Get(r.extra, f[6..])
    else None
  }

  predicate IsVocab(f: string) {
    || f in TOP_FIELDS || f == "process.pid" || f == "process.process_start_time"
    || (HasExtraPrefix(f) && |f| > 6)
  }

  predicate Substring(s: string, t: string) { t <= s || (s != "" && Substring(s[1..], t)) }

  function Cmp(v: Json, op: Op, p: Json): Option<bool> {
    match op
    case Eq => Some(v == p)
    case Neq => Some(v != p)
    case Gt => if v.Num? && p.Num? then Some(v.n > p.n) else None
    case Lt => if v.Num? && p.Num? then Some(v.n < p.n) else None
    case Gte => if v.Num? && p.Num? then Some(v.n >= p.n) else None
    case Lte => if v.Num? && p.Num? then Some(v.n <= p.n) else None
    case Contains => if v.Str? && p.Str? then Some(Substring(v.s, p.s)) else None
    case Regex => if v.Str? && p.Str? then Some(Substring(v.s, p.s)) else None
    case Future => None
  }

  // ---------- the logical reading ----------

  predicate Holds(r: Record, p: Pred) {
    FieldValue(r, p.field).Some? && Cmp(FieldValue(r, p.field).value, p.op, p.value) == Some(true)
  }

  predicate Observed(r: Record, p: Pred) { FieldValue(r, p.field).Some? }

  /** A selector needs the field. */
  predicate IsSelected(r: Record, spec: Spec) { forall p :: p in spec.select ==> Holds(r, p) }

  /** A predicate is asked of observed fields only. */
  predicate Meets(r: Record, spec: Spec) { forall p :: p in spec.predicates && Observed(r, p) ==> Holds(r, p) }

  predicate InVocab(spec: Spec) {
    (forall p :: p in spec.predicates ==> IsVocab(p.field)) && (forall p :: p in spec.select ==> IsVocab(p.field))
  }

  function CountSelected(rs: seq<Record>, spec: Spec): nat {
    if rs == [] then 0 else CountSelected(rs[..|rs| - 1], spec) + if IsSelected(rs[|rs| - 1], spec) then 1 else 0
  }

  function CountMatched(rs: seq<Record>, spec: Spec): nat {
    if rs == [] then 0
    else
      CountMatched(rs[..|rs| - 1], spec)
      + if IsSelected(rs[|rs| - 1], spec) && Meets(rs[|rs| - 1], spec) then 1 else 0
  }

  predicate Compare(op: Op, a: nat, b: nat) {
    match op
    case Gt => a > b
    case Lt => a < b
    case Gte => a >= b
    case Lte => a <= b
    case Eq => a == b
    case Neq => a != b
    case _ => false
  }

  function Judge(q: Quantifier, matched: nat, selected: nat): Verdict {
    match q
    case All => if matched == selected then Satisfied else Violated
    case Exists => if matched >= 1 then Satisfied else Violated
    case None_ => if matched == 0 then Satisfied else Violated
    case Count(op, threshold) => if Compare(op, matched, threshold) then Satisfied else Violated
    case Other => Error
  }

  function Evaluate(rs: seq<Record>, spec: Spec): Verdict {
    if !InVocab(spec) then Error else Judge(spec.quantifier, CountMatched(rs, spec), CountSelected(rs, spec))
  }

  // ---------- the code ----------

  datatype Evaluation = Evaluation(
    verdict: Verdict, selected: nat, matched: nat, skipped: nat, unobserved: set<string>, mismatched: set<string>)

  /** Predicate and selector fields outside the vocabulary. */
  method Mismatched(ps: seq<Pred>) returns (bad: set<string>)
    ensures bad == set p | p in ps && !IsVocab(p.field) :: p.field
  {
    bad := {};
    for i := 0 to |ps|
      invariant bad == set p | p in ps[..i] && !IsVocab(p.field) :: p.field
    {
      assert ps[..i + 1] == ps[..i] + [ps[i]];
      if !IsVocab(ps[i].field) && ps[i].field !in bad { bad := bad + {ps[i].field}; }
    }
    assert ps[..|ps|] == ps;
  }

  function Selected(rs: seq<Record>, spec: Spec): seq<Record> {
    if rs == [] then []
    else Selected(rs[..|rs| - 1], spec) + if IsSelected(rs[|rs| - 1], spec) then [rs[|rs| - 1]] else []
  }

  method Select(rs: seq<Record>, spec: Spec) returns (selected: seq<Record>)
    ensures selected == Selected(rs, spec) && |selected| == CountSelected(rs, spec)
    ensures CountMatched(rs, spec) == CountMet(selected, spec)
  {
    selected := [];
    for i := 0 to |rs|
      invariant selected == Selected(rs[..i], spec) && |selected| == CountSelected(rs[..i], spec)
      invariant CountMatched(rs[..i], spec) == CountMet(selected, spec)
    {
      assert rs[..i + 1][..i] == rs[..i];
      var all := true;
      for k := 0 to |spec.select|
        invariant all <==> forall p :: p in spec.select[..k] ==> Holds(rs[i], p)
      {
        assert spec.select[..k + 1] == spec.select[..k] + [spec.select[k]];
        all := all && Holds(rs[i], spec.select[k]);
      }
      assert spec.select[..|spec.select|] == spec.select;
      if all {
        assert (selected + [rs[i]])[..|selected|] == selected;
        selected := selected + [rs[i]];
      }
    }
    assert rs[..|rs|] == rs;
  }

  function CountMet(rs: seq<Record>, spec: Spec): nat {
    if rs == [] then 0 else CountMet(rs[..|rs| - 1], spec) + if Meets(rs[|rs| - 1], spec) then 1 else 0
  }

  /** The fields of the predicates that are skipped before the first one that is observed and does
      not hold. */
  function Skipped(r: Record, ps: seq<Pred>): seq<string> {
    if ps == [] || (Observed(r, ps[0]) && !Holds(r, ps[0])) then []
    else (if Observed(r, ps[0]) then [] else [ps[0].field]) + Skipped(r, ps[1..])
  }

  function AllSkipped(rs: seq<Record>, spec: Spec): seq<string> {
    if rs == [] then [] else AllSkipped(rs[..|rs| - 1], spec) + Skipped(rs[|rs| - 1], spec.predicates)
  }

  function SetOf(fs: seq<string>): set<string> { set f | f in fs }

  /** One record's predicates, up to the first that is observed and does not hold. */
  method CheckRecord(r: Record, spec: Spec) returns (ok: bool, skipped: nat, unobserved: set<string>)
    ensures ok <==> Meets(r, spec)
    ensures skipped == |Skipped(r, spec.predicates)| && unobserved == SetOf(Skipped(r, spec.predicates))
  {
    ok, skipped, unobserved := true, 0, {};
    ghost var done: seq<string> := [];
    var ps := spec.predicates;
    assert ps[0..] == ps;
    for i := 0 to |ps|
      invariant forall p :: p in ps[..i] && Observed(r, p) ==> Holds(r, p)
      invariant Skipped(r, ps) == done + Skipped(r, ps[i..])
      invariant ok && skipped == |done| && unobserved == SetOf(done)
    {
      var p := ps[i];
      assert ps[..i + 1] == ps[..i] + [p] && ps[i..] == [p] + ps[i + 1..];
      if Observed(r, p) {
        if Cmp(FieldValue(r, p.field).value, p.op, p.value) != Some(true) {
          assert p in spec.predicates && !Holds(r, p);
          return false, skipped, unobserved;
        }
        assert Skipped(r, ps[i..]) == Skipped(r, ps[i + 1..]);
      } else {
        skipped := skipped + 1;
        unobserved := unobserved + {p.field};
        Assoc(done, [p.field], Skipped(r, ps[i + 1..]));
        done := done + [p.field];
      }
    }
    assert ps[..|ps|] == ps;
  }

  method CheckRecords(selected: seq<Record>, spec: Spec) returns (matched: nat, skipped: nat, unobserved: set<string>)
    ensures matched == CountMet(selected, spec)
    ensures skipped == |AllSkipped(selected, spec)| && unobserved == SetOf(AllSkipped(selected, spec))
  {
    matched, skipped, unobserved := 0, 0, {};
    for i := 0 to |selected|
      invariant matched == CountMet(selected[..i], spec)
      invariant skipped == |AllSkipped(selected[..i], spec)| && unobserved == SetOf(AllSkipped(selected[..i], spec))
    {
      assert selected[..i + 1][..i] == selected[..i];
      var ok, s, u := CheckRecord(selected[i], spec);
      skipped, unobserved := skipped + s, unobserved + u;
      if ok { matched := matched + 1; }
    }
    assert selected[..|selected|] == selected;
  }

  lemma MismatchedNone(spec: Spec, bad: set<string>)
    requires bad == set p | p in spec.predicates + spec.select && !IsVocab(p.field) :: p.field
    ensures InVocab(spec) <==> bad == {}
  {
    assert forall p :: p in spec.predicates + spec.select <==> p in spec.predicates || p in spec.select;
    assert forall p :: p in spec.predicates + spec.select && !IsVocab(p.field) ==> p.field in bad;
  }

  method EvaluateFactsRecords(rs: seq<Record>, spec: Spec) returns (e: Evaluation)
    ensures e.verdict == Evaluate(rs, spec)
    ensures e.mismatched == set p | p in spec.predicates + spec.select && !IsVocab(p.field) :: p.field
    ensures InVocab(spec) ==> e.selected == CountSelected(rs, spec) && e.matched == CountMatched(rs, spec)
    ensures InVocab(spec) ==>
      var fs := AllSkipped(Selected(rs, spec), spec); e.skipped == |fs| && e.unobserved == SetOf(fs)
    ensures !InVocab(spec) ==> e.selected == 0 && e.matched == 0 && e.skipped == 0 && e.unobserved == {}
  {
    var bad := Mismatched(spec.predicates + spec.select);
    MismatchedNone(spec, bad);
    if bad != {} { return Evaluation(Error, 0, 0, 0, {}, bad); }
    var selected := Select(rs, spec);
    var matched, skipped, unobserved := CheckRecords(selected, spec);
    e := Evaluation(Judge(spec.quantifier, matched, |selected|), |selected|, matched, skipped, unobserved, {});
  }

  // ---------- what the verdicts mean ----------

  lemma {:induction false} Counts(rs: seq<Record>, spec: Spec)
    ensures CountMatched(rs, spec) <= CountSelected(rs, spec)
    ensures CountMatched(rs, spec) == CountSelected(rs, spec)
       <==> forall r :: r in rs && IsSelected(r, spec) ==> Meets(r, spec)
    ensures CountMatched(rs, spec) == 0 <==> forall r :: r in rs && IsSelected(r, spec) ==> !Meets(r, spec)
  {
    if rs != [] {
      var init, last := rs[..|rs| - 1], rs[|rs| - 1];
      Counts(init, spec);
      assert rs == init + [last];
      assert forall r :: r in rs <==> r in init || r == last;
    }
  }

  /** The verdicts are the quantifiers over the selected records. */
  lemma VerdictsAreQuantifiers(rs: seq<Record>, spec: Spec)
    requires InVocab(spec)
    ensures spec.quantifier.All? ==>
      (Evaluate(rs, spec).Satisfied? <==> forall r :: r in rs && IsSelected(r, spec) ==> Meets(r, spec))
    ensures spec.quantifier.Exists? ==>
      (Evaluate(rs, spec).Satisfied? <==> exists r :: r in rs && IsSelected(r, spec) && Meets(r, spec))
    ensures spec.quantifier.None_? ==>
      (Evaluate(rs, spec).Satisfied? <==> !exists r :: r in rs && IsSelected(r, spec) && Meets(r, spec))
  {
    Counts(rs, spec);
  }

  lemma ExistsAndNoneAreCounts(rs: seq<Record>, spec: Spec)
    ensures Evaluate(rs, spec.(quantifier := Exists)) == Evaluate(rs, spec.(quantifier := Count(Gte, 1)))
    ensures Evaluate(rs, spec.(quantifier := None_)) == Evaluate(rs, spec.(quantifier := Count(Eq, 0)))
  {
    SameCounts(rs, spec.(quantifier := Exists), spec.(quantifier := Count(Gte, 1)));
    SameCounts(rs, spec.(quantifier := None_), spec.(quantifier := Count(Eq, 0)));
  }

  lemma {:induction false} SameCounts(rs: seq<Record>, a: Spec, b: Spec)
    requires a.predicates == b.predicates && a.select == b.select
    ensures CountMatched(rs, a) == CountMatched(rs, b) && CountSelected(rs, a) == CountSelected(rs, b)
  {
    if rs != [] { SameCounts(rs[..|rs| - 1], a, b); }
  }

  function Missing(r: Record, ps: seq<Pred>): seq<string> {
    if ps == [] then [] else (if FieldValue(r, ps[0].field).None? then [ps[0].field] else []) + Missing(r, ps[1..])
  }

  /** What is disclosed for a record: the fields it lacks among the predicates before the first one that
      does not hold, each as often as it is asked for. */
  lemma {:induction false} SkippedAreMissing(r: Record, ps: seq<Pred>) returns (n: nat)
    ensures n <= |ps| && forall k :: 0 <= k < n ==> FieldValue(r, ps[k].field).None? || Holds(r, ps[k])
    ensures n < |ps| ==> FieldValue(r, ps[n].field).Some? && !Holds(r, ps[n])
    ensures Skipped(r, ps) == Missing(r, ps[..n])
  {
    if ps == [] || (Observed(r, ps[0]) && !Holds(r, ps[0])) {
      n := 0;
    } else {
      var m := SkippedAreMissing(r, ps[1..]);
      n := m + 1;
      assert forall k :: 0 < k < |ps| ==> ps[k] == ps[1..][k - 1];
      assert ps[..n][1..] == ps[1..][..m];
    }
  }

  // ---------- what the operators mean ----------

  /** Numbers are ordered: exactly one of Lt, Eq and Gt holds, Gte and Lte are the negations of Lt and Gt,
      Neq is that of Eq, and what exceeds a bound still does when it grows. */
  lemma NumbersAreOrdered(v: int, p: int, w: int)
    ensures var lt, eq, gt := Cmp(Num(v), Lt, Num(p)), Cmp(Num(v), Eq, Num(p)), Cmp(Num(v), Gt, Num(p));
      && lt.Some? && eq.Some? && gt.Some?
      && (lt.value || eq.value || gt.value)
      && !(lt.value && eq.value) && !(lt.value && gt.value) && !(eq.value && gt.value) && (eq.value <==> v == p)
      && Cmp(Num(v), Gte, Num(p)) == Some(!lt.value) && Cmp(Num(v), Lte, Num(p)) == Some(!gt.value)
      && Cmp(Num(v), Neq, Num(p)) == Some(!eq.value)
      && (gt.value && w >= v ==> Cmp(Num(w), Gt, Num(p)) == Some(true))
      && (lt.value && w <= v ==> Cmp(Num(w), Lt, Num(p)) == Some(true))
  {
  }

  /** Across types every value differs and nothing else can be said; no operator to come holds. */
  lemma TypesDoNotMix(v: Json, op: Op, p: Json)
    ensures !(v.Num? && p.Num?) && op in {Gt, Lt, Gte, Lte} ==> Cmp(v, op, p).None?
    ensures !(v.Str? && p.Str?) && op in {Contains, Regex} ==> Cmp(v, op, p).None?
    ensures v.Num? != p.Num? || v.Str? != p.Str? ==> Cmp(v, Eq, p) == Some(false) && Cmp(v, Neq, p) == Some(true)
    ensures Cmp(v, Future, p).None?
  {
  }

  /** Both text operators hold exactly when the text splits around the pattern. */
  lemma TextSplitsIff(s: string, t: string)
    ensures Cmp(Str(s), Contains, Str(t)).Some? && Cmp(Str(s), Regex, Str(t)) == Cmp(Str(s), Contains, Str(t))
    ensures Cmp(Str(s), Contains, Str(t)) == Some(true) <==> exists a: string, b: string :: s == a + t + b
  {
    if Substring(s, t) {
      var a, b := SplitAround(s, t);
    } else if a: string, b: string :| s == a + t + b {
      SplitContains(a, t, b);
      assert false;
    }
  }

  lemma {:induction false} SplitAround(s: string, t: string) returns (a: string, b: string)
    requires Substring(s, t)
    ensures s == a + t + b
  {
    if t <= s {
      a, b := "", s[|t|..];
      assert "" + t == t;
    } else {
      a, b := SplitAround(s[1..], t);
      assert s == [s[0]] + s[1..];
      a := [s[0]] + a;
    }
  }

  lemma {:induction false} SplitContains(a: string, t: string, b: string)
    ensures Substring(a + t + b, t)
  {
    if a == "" {
      assert a + t + b == t + b;
    } else {
      SplitContains(a[1..], t, b);
      assert (a + t + b)[1..] == a[1..] + t + b;
    }
  }

  function OnePredicate(f: string, op: Op, n: int, select: seq<Pred>, q: Quantifier): Spec {
    Spec([Pred(f, op, Num(n))], select, q)
  }

  /** A verdict on one numeric bound: under All every selected record in which the field is observed must
      be on the right side of it, under Exists one selected record in which it is not observed or is. */
  lemma BoundsAreChecked(rs: seq<Record>, f: string, n: int, select: seq<Pred>)
    requires InVocab(OnePredicate(f, Gt, n, select, All))
    ensures var gt, lt, gte, lte := OnePredicate(f, Gt, n, select, All), OnePredicate(f, Lt, n, select, All),
                                    OnePredicate(f, Gte, n, select, All), OnePredicate(f, Lte, n, select, All);
      && (Evaluate(rs, gt).Satisfied? <==> forall r :: r in rs && IsSelected(r, gt) && FieldValue(r, f).Some? ==>
            FieldValue(r, f).value.Num? && FieldValue(r, f).value.n > n)
      && (Evaluate(rs, lt).Satisfied? <==> forall r :: r in rs && IsSelected(r, lt) && FieldValue(r, f).Some? ==>
            FieldValue(r, f).value.Num? && FieldValue(r, f).value.n < n)
      && (Evaluate(rs, gte).Satisfied? <==> forall r :: r in rs && IsSelected(r, gte) && FieldValue(r, f).Some? ==>
            FieldValue(r, f).value.Num? && FieldValue(r, f).value.n >= n)
      && (Evaluate(rs, lte).Satisfied? <==> forall r :: r in rs && IsSelected(r, lte) && FieldValue(r, f).Some? ==>
            FieldValue(r, f).value.Num? && FieldValue(r, f).value.n <= n)
  {
    BoundMet(rs, f, Gt, n, select);
    BoundMet(rs, f, Lt, n, select);
    BoundMet(rs, f, Gte, n, select);
    BoundMet(rs, f, Lte, n, select);
  }

  lemma BoundMet(rs: seq<Record>, f: string, op: Op, n: int, select: seq<Pred>)
    requires InVocab(OnePredicate(f, op, n, select, All))
    ensures var spec := OnePredicate(f, op, n, select, All);
      Evaluate(rs, spec).Satisfied?
      <==> forall r :: r in rs && IsSelected(r, spec) && FieldValue(r, f).Some? ==>
             Cmp(FieldValue(r, f).value, op, Num(n)) == Some(true)
  {
    var spec := OnePredicate(f, op, n, select, All);
    VerdictsAreQuantifiers(rs, spec);
    assert spec.predicates[0] in spec.predicates;
    forall r ensures Meets(r, spec) <==>
      (FieldValue(r, f).Some? ==> Cmp(FieldValue(r, f).value, op, Num(n)) == Some(true)) {}
  }

  /** A count compares the number of selected records that match, by position, with its threshold. */
  lemma CountsAreCompared(rs: seq<Record>, spec: Spec, n: nat)
    requires InVocab(spec)
    ensures var m := |set i | 0 <= i < |rs| && IsSelected(rs[i], spec) && Meets(rs[i], spec)|;
      && (Evaluate(rs, spec.(quantifier := Count(Gt, n))).Satisfied? <==> m > n)
      && (Evaluate(rs, spec.(quantifier := Count(Lt, n))).Satisfied? <==> m < n)
      && (Evaluate(rs, spec.(quantifier := Count(Gte, n))).Satisfied? <==> m >= n)
      && (Evaluate(rs, spec.(quantifier := Count(Lte, n))).Satisfied? <==> m <= n)
      && (Evaluate(rs, spec.(quantifier := Count(Eq, n))).Satisfied? <==> m == n)
      && (Evaluate(rs, spec.(quantifier := Count(Neq, n))).Satisfied? <==> m != n)
      && (forall op :: op in {Contains, Regex, Future} ==> Evaluate(rs, spec.(quantifier := Count(op, n))).Violated?)
      && Evaluate(rs, spec.(quantifier := Other)).Error?
  {
    MatchedIsCardinality(rs, spec);
    forall op ensures CountMatched(rs, spec.(quantifier := Count(op, n))) == CountMatched(rs, spec) {
      SameCounts(rs, spec.(quantifier := Count(op, n)), spec);
    }
  }

  lemma {:induction false} MatchedIsCardinality(rs: seq<Record>, spec: Spec)
    ensures CountMatched(rs, spec) == |set i | 0 <= i < |rs| && IsSelected(rs[i], spec) && Meets(rs[i], spec)|
  {
    if rs != [] {
      var init, n := rs[..|rs| - 1], |rs| - 1;
      MatchedIsCardinality(init, spec);
      OneMoreHit(rs, spec);
    }
  }

  lemma OneMoreHit(rs: seq<Record>, spec: Spec)
    requires rs != []
    ensures var init, n := rs[..|rs| - 1], |rs| - 1;
      var before := set i | 0 <= i < |init| && IsSelected(init[i], spec) && Meets(init[i], spec);
      var all := set i | 0 <= i < |rs| && IsSelected(rs[i], spec) && Meets(rs[i], spec);
      all == if IsSelected(rs[n], spec) && Meets(rs[n], spec) then before + {n} else before
  {
    var init, n := rs[..|rs| - 1], |rs| - 1;
    forall i | 0 <= i < n ensures init[i] == rs[i] {}
  }

  /** Where every field is read from; a spec may name exactly these, the empty extra key excepted. */
  lemma FieldsAreRead(r: Record, f: string, k: string)
    ensures f in {"family", "run_id", "provider", "fidelity", "observations", "first_seen", "last_seen", "revision"} ==>
      FieldValue(r, f) == Get(r.top, f) && IsVocab(f)
    ensures FieldValue(r, "process.pid") == Get(r.process, "pid") && IsVocab("process.pid")
    ensures FieldValue(r, "process.process_start_time") == Get(r.process, "process_start_time")
    ensures IsVocab("process.process_start_time")
    ensures FieldValue(r, "extra." + k) == Get(r.extra, k) && (IsVocab("extra." + k) <==> k != "")
    ensures (FieldValue(r, f).Some? || IsVocab(f)) ==>
      || f in {"family", "run_id", "provider", "fidelity", "observations", "first_seen", "last_seen", "revision"}
      || f in {"process.pid", "process.process_start_time"}
      || exists key: string :: f == "extra." + key
  {
    var e := "extra." + k;
    assert e[6..] == k && "extra." <= e && e[0] == 'e' && e[5] == '.';
    if "extra." <= f { assert f == "extra." + f[6..]; }
  }

  // ---------- losing an observation ----------

  /** `s` is `r` with some fields no longer observed, none of them a selector's. */
  ghost predicate Loses(r: Record, s: Record, spec: Spec) {
    && (forall f :: FieldValue(s, f).None? || FieldValue(s, f) == FieldValue(r, f))
    && (forall p :: p in spec.select ==> FieldValue(s, p.field) == FieldValue(r, p.field))
  }

  function Without(m: map<string, Json>, k: string): map<string, Json> { m - {k} }

  /** The record without field `f`. */
  function Drop(r: Record, f: string): Record {
    if f in TOP_FIELDS then r.(top := Without(r.top, f))
    else if f == "process.pid" then r.(process := Without(r.process, "pid"))
    else if f == "process.process_start_time" then r.(process := Without(r.process, "process_start_time"))
    else if HasExtraPrefix(f) then r.(extra := Without(r.extra, f[6..]))
    else r
  }

  lemma DropLoses(r: Record, f: string, spec: Spec)
    requires forall p :: p in spec.select ==> p.field != f
    ensures Loses(r, Drop(r, f), spec)
    ensures IsVocab(f) ==> FieldValue(Drop(r, f), f).None?
  {
    forall g ensures FieldValue(Drop(r, f), g).None? || FieldValue(Drop(r, f), g) == FieldValue(r, g) {}
    forall p | p in spec.select ensures FieldValue(Drop(r, f), p.field) == FieldValue(r, p.field) {
      OtherField(r, f, p.field);
    }
  }

  lemma OtherField(r: Record, f: string, g: string)
    requires f != g
    ensures FieldValue(Drop(r, f), g) == FieldValue(r, g)
  {
    if HasExtraPrefix(f) && HasExtraPrefix(g) {
      assert f == "extra." + f[6..] && g == "extra." + g[6..];
    }
  }

  lemma LosesKeeps(r: Record, s: Record, spec: Spec)
    requires Loses(r, s, spec)
    ensures IsSelected(s, spec) <==> IsSelected(r, spec)
    ensures Meets(r, spec) ==> Meets(s, spec)
  {
    forall p | p in spec.select ensures Holds(s, p) <==> Holds(r, p) {}
    if Meets(r, spec) {
      forall p | p in spec.predicates && Observed(s, p) ensures Holds(s, p) {
        assert FieldValue(s, p.field) == FieldValue(r, p.field);
        assert Observed(r, p);
      }
    }
  }

  /** Unobserving unselected fields never lowers the number of matches and never changes the number
      of selected records. */
  lemma {:induction false} LosesCounts(rs: seq<Record>, ss: seq<Record>, spec: Spec)
    requires |rs| == |ss| && forall i :: 0 <= i < |rs| ==> Loses(rs[i], ss[i], spec)
    ensures CountSelected(ss, spec) == CountSelected(rs, spec)
    ensures CountMatched(ss, spec) >= CountMatched(rs, spec)
  {
    if rs != [] {
      LosesCounts(rs[..|rs| - 1], ss[..|ss| - 1], spec);
      LosesKeeps(rs[|rs| - 1], ss[|ss| - 1], spec);
    }
  }

  /** Some unselected fields of some records are no longer observed. */
  ghost predicate LosesAll(rs: seq<Record>, ss: seq<Record>, spec: Spec) {
    |rs| == |ss| && forall i :: 0 <= i < |rs| ==> Loses(rs[i], ss[i], spec)
  }

  /** Under quantifier `q` no loss of observations ever takes a satisfied verdict away. */
  ghost predicate AbsenceIsHarmless(q: Quantifier) {
    forall rs: seq<Record>, ss: seq<Record>, spec: Spec ::
      LosesAll(rs, ss, spec) && spec.quantifier == q && Evaluate(rs, spec).Satisfied? ==> Evaluate(ss, spec).Satisfied?
  }

  /** Quantifiers that more matches cannot turn from satisfied to violated. */
  predicate Upward(q: Quantifier) {
    match q
    case None_ => false
    case Count(Lte, _) => false
    case Count(Eq, _) => false
    case Count(Lt, n) => n == 0
    case Count(Neq, n) => n == 0
    case _ => true
  }

  /** Absence counts as a violation, against what is documented, under exactly the other quantifiers. */
  lemma AbsenceIsHarmlessIff(q: Quantifier)
    ensures AbsenceIsHarmless(q) <==> Upward(q)
  {
    if Upward(q) {
      forall rs: seq<Record>, ss: seq<Record>, spec: Spec
        | LosesAll(rs, ss, spec) && spec.quantifier == q && Evaluate(rs, spec).Satisfied?
        ensures Evaluate(ss, spec).Satisfied?
      {
        LosesCounts(rs, ss, spec);
        Counts(ss, spec);
      }
    } else {
      OneMoreMatch(q, match q case None_ => 0 case Count(op, n) => if op.Lt? || op.Neq? then n - 1 else n);
    }
  }

  function FamilyIsX(q: Quantifier): Spec { Spec([Pred("family", Eq, Str("x"))], [], q) }
  function Of(family: string): Record { Record(map["family" := Str(family)], map[], map[]) }

  lemma RecordsOf(q: Quantifier)
    ensures IsSelected(Of("x"), FamilyIsX(q)) && Meets(Of("x"), FamilyIsX(q))
    ensures IsSelected(Of("y"), FamilyIsX(q)) && !Meets(Of("y"), FamilyIsX(q))
    ensures var s := Drop(Of("y"), "family");
      IsSelected(s, FamilyIsX(q)) && Meets(s, FamilyIsX(q)) && Loses(Of("y"), s, FamilyIsX(q))
  {
    assert "family" in TOP_FIELDS;
    assert FieldValue(Of("y"), "family") == Some(Str("y")) && FieldValue(Drop(Of("y"), "family"), "family") == None;
    assert "x"[0] != "y"[0];
    assert FamilyIsX(q).predicates[0] in FamilyIsX(q).predicates;
    DropLoses(Of("y"), "family", FamilyIsX(q));
  }

  lemma {:induction false} AllMatch(n: nat, q: Quantifier)
    ensures CountMatched(seq(n, _ => Of("x")), FamilyIsX(q)) == n
  {
    if n > 0 {
      AllMatch(n - 1, q);
      RecordsOf(q);
      assert seq(n, _ => Of("x"))[..n - 1] == seq(n - 1, _ => Of("x"));
    }
  }

  /** `n` records match; one does not until its field is no longer observed. */
  lemma OneMoreMatch(q: Quantifier, n: nat)
    ensures exists rs: seq<Record>, ss: seq<Record> ::
      && LosesAll(rs, ss, FamilyIsX(q))
      && CountMatched(rs, FamilyIsX(q)) == n && CountMatched(ss, FamilyIsX(q)) == n + 1
  {
    var xs := seq(n, _ => Of("x"));
    var rs, ss := xs + [Of("y")], xs + [Drop(Of("y"), "family")];
    AllMatch(n, q);
    RecordsOf(q);
    assert rs[..n] == xs && ss[..n] == xs;
    assert LosesAll(rs, ss, FamilyIsX(q));
  }

  /** Under `None` one record is enough, although absence is documented never to count as a violation. */
  lemma NoneFlipsWitness()
    ensures Evaluate([Of("y")], FamilyIsX(None_)).Satisfied?
    ensures Evaluate([Drop(Of("y"), "family")], FamilyIsX(None_)).Violated?
  {
    RecordsOf(None_);
    assert [Of("y")][..0] == [] && [Drop(Of("y"), "family")][..0] == [];
    assert CountMatched([Of("y")], FamilyIsX(None_)) == 0;
    assert CountMatched([Drop(Of("y"), "family")], FamilyIsX(None_)) == 1;
  }
}
