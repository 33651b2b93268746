/** The safety gate: what is assessed and what may run. */
module Safety {
  import opened Common

  /** Upstream decisions and what the runtime does about them. */
  datatype Decision = Proceed | Warn | Escalate | Halt | Exit
  datatype Disposition = Allow | AllowWithWarning | EscalationRequired | Reject | Fatal

  function DispositionFor(d: Decision): Disposition {
    match d
    case Proceed => Allow
    case Warn => AllowWithWarning
    case Escalate => EscalationRequired
    case Halt => Reject
    case Exit => Fatal
  }

  predicate Permits(d: Disposition) { d.Allow? || d.AllowWithWarning? }

  function Rank(d: Disposition): nat {
    match d
    case Allow => 0
    case AllowWithWarning => 1
    case EscalationRequired => 2
    case Reject => 3
    case Fatal => 4
  }

  datatype InputClass =
    | ControlInstruction | CommandControl | FilesystemLocator | StructuredIdentifier
    | UrlLocator | SourceCode | PayloadProse | OpaqueData

  datatype Field = Field(name: string, class_: InputClass, control: bool, eligible: bool)

  /** What the arguments hold under a key: a string, or something else. */
  datatype Value = Str(text: string) | Other

  /** Arguments that are not a JSON object have no keys. */
  type Args = map<string, Value>

  datatype Outcome = Assessed(d: Decision) | CannotAssess

  /** The upstream assessment of one text; the runtime does not look inside. */
  type Assess = (string, Field) -> Outcome

  datatype Verdict =
    | Unassessable(field: string)
    | Semantic(field: string, d: Disposition)
    | ResourceOnly(field: string, class_: InputClass)

  /** The disposition the audit record carries. */
  function DispositionOf(v: Verdict): Disposition
    requires !v.Unassessable?
  {
    if v.Semantic? then v.d else Allow
  }

  predicate Reaches(args: Args, f: Field) { f.eligible && f.name in args && args[f.name].Str? }

  function OutcomeOf(args: Args, assess: Assess, f: Field): Outcome
    requires Reaches(args, f)
  {
    assess(args[f.name].text, f)
  }

  function FirstPresent(fields: seq<Field>, args: Args): Verdict {
    if fields == [] then ResourceOnly("-", OpaqueData)
    else if fields[0].name in args then ResourceOnly(fields[0].name, fields[0].class_)
    else FirstPresent(fields[1..], args)
  }

  /** The loop's state after some fields: the winner so far, or the field that stopped it. */
  function Winner(fields: seq<Field>, args: Args, assess: Assess): Option<Verdict> {
    if fields == [] then None
    else
      var before, f := Winner(fields[..|fields| - 1], args, assess), fields[|fields| - 1];
      if (before.Some? && before.value.Unassessable?) || !Reaches(args, f) then before
      else match OutcomeOf(args, assess, f)
        case CannotAssess => Some(Unassessable(f.name))
        case Assessed(d) =>
          if before.None? || Rank(DispositionFor(d)) > Rank(DispositionOf(before.value))
          then Some(Semantic(f.name, DispositionFor(d))) else before
  }

  function VerdictOf(fields: seq<Field>, args: Args, assess: Assess): Verdict {
    var w := Winner(fields, args, assess);
    if w.Some? then w.value else FirstPresent(fields, args)
  }

  lemma {:induction false} StoppedStaysStopped(fields: seq<Field>, args: Args, assess: Assess, n: nat)
    requires n <= |fields| && Winner(fields[..n], args, assess).Some?
    requires Winner(fields[..n], args, assess).value.Unassessable?
    ensures Winner(fields, args, assess) == Winner(fields[..n], args, assess)
  {
    if n < |fields| {
      assert fields[..|fields| - 1][..n] == fields[..n];
      StoppedStaysStopped(fields[..|fields| - 1], args, assess, n);
    } else {
      assert fields[..n] == fields;
    }
  }

  /** The executor's fold over the capability's field table. */
  method Gate(fields: seq<Field>, args: Args, assess: Assess) returns (v: Verdict)
    ensures v == VerdictOf(fields, args, assess)
  {
    var winning: Option<Verdict> := None;
    var winningRank := 0;
    for i := 0 to |fields|
      invariant winning == Winner(fields[..i], args, assess)
      invariant winning.Some? ==> !winning.value.Unassessable? && winningRank == Rank(DispositionOf(winning.value))
    {
      var f := fields[i];
      assert fields[..i + 1][..i] == fields[..i];
      if !(f.name in args && args[f.name].Str?) { continue; }
      if !f.eligible { continue; }
      match assess(args[f.name].text, f)
      case Assessed(d) =>
        var r := Rank(DispositionFor(d));
        if winning.None? || r > winningRank {
          winningRank := r;
          winning := Some(Semantic(f.name, DispositionFor(d)));
        }
      case CannotAssess =>
        StoppedStaysStopped(fields, args, assess, i + 1);
        return Unassessable(f.name);
    }
    assert fields[..|fields|] == fields;
    if winning.Some? { return winning.value; }
    v := ResourceOnly("-", OpaqueData);
    for i := 0 to |fields|
      invariant forall k :: 0 <= k < i ==> fields[k].name !in args
      invariant FirstPresent(fields, args) == FirstPresent(fields[i..], args)
    {
      assert fields[i..][1..] == fields[i + 1..];
      if fields[i].name in args {
        return ResourceOnly(fields[i].name, fields[i].class_);
      }
    }
  }

  /** Of the five upstream decisions the first two permit execution, and each is answered by the
      disposition of its own severity. */
  lemma DecisionsKeepTheirSeverity(a: Decision, b: Decision)
    ensures Permits(DispositionFor(a)) <==> a == Proceed || a == Warn
    ensures DispositionFor(a) == DispositionFor(b) ==> a == b
    ensures Rank(DispositionFor(Proceed)) < Rank(DispositionFor(Warn)) < Rank(DispositionFor(Escalate))
    ensures Rank(DispositionFor(Escalate)) < Rank(DispositionFor(Halt)) < Rank(DispositionFor(Exit))
    ensures DispositionFor(Escalate) == EscalationRequired && DispositionFor(Halt) == Reject
    ensures DispositionFor(Exit) == Fatal && DispositionFor(Warn) == AllowWithWarning
  {
  }

  // ---------- what a verdict means ----------

  predicate Fails(args: Args, assess: Assess, f: Field) {
    Reaches(args, f) && OutcomeOf(args, assess, f).CannotAssess?
  }

  predicate Rates(args: Args, assess: Assess, f: Field, d: Disposition) {
    Reaches(args, f) && OutcomeOf(args, assess, f).Assessed? && DispositionFor(OutcomeOf(args, assess, f).d) == d
  }

  /** Field `i` is assessed, none before it is as severe and none after it is more severe. */
  predicate FirstWorst(fields: seq<Field>, args: Args, assess: Assess, i: nat, d: Disposition)
    requires i < |fields|
  {
    && Rates(args, assess, fields[i], d)
    && (forall j, e :: 0 <= j < i && Rates(args, assess, fields[j], e) ==> Rank(e) < Rank(d))
    && (forall j, e :: i <= j < |fields| && Rates(args, assess, fields[j], e) ==> Rank(e) <= Rank(d))
  }

  /** What the fold found, said without the fold. */
  ghost predicate Describes(fields: seq<Field>, args: Args, assess: Assess, w: Option<Verdict>) {
    match w
    case None => forall j :: 0 <= j < |fields| ==> !Reaches(args, fields[j])
    case Some(Unassessable(name)) =>
      exists i :: 0 <= i < |fields| && fields[i].name == name && Fails(args, assess, fields[i])
                  && forall j :: 0 <= j < i ==> !Fails(args, assess, fields[j])
    case Some(Semantic(name, d)) =>
      && (forall j :: 0 <= j < |fields| ==> !Fails(args, assess, fields[j]))
      && exists i :: 0 <= i < |fields| && fields[i].name == name && FirstWorst(fields, args, assess, i, d)
    case Some(ResourceOnly(_, _)) => false
  }

  /** The fold returns the first field that cannot be assessed; failing that the first assessment
      of maximal severity; failing that nothing was assessed. */
  lemma {:induction false} WinnerDescribed(fields: seq<Field>, args: Args, assess: Assess)
    ensures Describes(fields, args, assess, Winner(fields, args, assess))
  {
    if fields != [] {
      var n := |fields| - 1;
      var init, f := fields[..n], fields[n];
      WinnerDescribed(init, args, assess);
      assert forall j :: 0 <= j < n ==> init[j] == fields[j];
      var before, after := Winner(init, args, assess), Winner(fields, args, assess);
      if before.Some? && before.value.Unassessable? {
        var i :| 0 <= i < n && init[i].name == before.value.field && Fails(args, assess, init[i])
                 && forall j :: 0 <= j < i ==> !Fails(args, assess, init[j]);
        assert Fails(args, assess, fields[i]);
      } else if !Reaches(args, f) {
        if before.Some? { KeepWinner(fields, args, assess, before.value.field, before.value.d); }
      } else if after != before {
        if after.value.Semantic? {
          if before.Some? {
            var i :| 0 <= i < n && init[i].name == before.value.field
                && FirstWorst(init, args, assess, i, before.value.d);
            assert forall j, e :: 0 <= j < n && Rates(args, assess, fields[j], e) ==> Rank(e) <= Rank(before.value.d);
          }
          assert FirstWorst(fields, args, assess, n, after.value.d);
        } else {
          assert Fails(args, assess, fields[n]) && fields[n].name == after.value.field;
        }
      } else if before.Some? {
        KeepWinner(fields, args, assess, before.value.field, before.value.d);
      }
    }
  }

  lemma KeepWinner(fields: seq<Field>, args: Args, assess: Assess, name: string, d: Disposition)
    requires fields != [] && Describes(fields[..|fields| - 1], args, assess, Some(Semantic(name, d)))
    requires var f := fields[|fields| - 1];
      !Fails(args, assess, f) && forall e :: Rates(args, assess, f, e) ==> Rank(e) <= Rank(d)
    ensures Describes(fields, args, assess, Some(Semantic(name, d)))
  {
    var n := |fields| - 1;
    var init := fields[..n];
    assert forall j :: 0 <= j < n ==> init[j] == fields[j];
    var i :| 0 <= i < n && init[i].name == name && FirstWorst(init, args, assess, i, d);
    assert FirstWorst(fields, args, assess, i, d);
  }

  predicate Cleared(args: Args, assess: Assess, f: Field) {
    Reaches(args, f) ==>
      OutcomeOf(args, assess, f).Assessed? && Permits(DispositionFor(OutcomeOf(args, assess, f).d))
  }

  /** The field a described winner stands for. */
  lemma WinningField(fields: seq<Field>, args: Args, assess: Assess, w: Option<Verdict>) returns (f: Field)
    requires w.Some? && Describes(fields, args, assess, w)
    ensures f in fields
    ensures w.value.Unassessable? ==> Fails(args, assess, f)
    ensures w.value.Semantic? ==> Rates(args, assess, f, w.value.d)
  {
    if w.value.Unassessable? {
      var i :| 0 <= i < |fields| && fields[i].name == w.value.field && Fails(args, assess, fields[i])
               && forall j :: 0 <= j < i ==> !Fails(args, assess, fields[j]);
      f := fields[i];
    } else {
      var i :| 0 <= i < |fields| && fields[i].name == w.value.field && FirstWorst(fields, args, assess, i, w.value.d);
      f := fields[i];
    }
  }

  lemma WinnerIsMaximal(fields: seq<Field>, args: Args, assess: Assess, w: Option<Verdict>, f: Field, d: Disposition)
    requires w.Some? && w.value.Semantic? && Describes(fields, args, assess, w) && f in fields
    requires Rates(args, assess, f, d)
    ensures Rank(d) <= Rank(w.value.d)
  {
    var i :| 0 <= i < |fields| && fields[i].name == w.value.field && FirstWorst(fields, args, assess, i, w.value.d);
    var j :| 0 <= j < |fields| && fields[j] == f;
    if j < i { assert Rank(d) < Rank(w.value.d); }
  }

  /** The gate lets the capability run exactly when every eligible field that is present as a
      string could be assessed and was assessed as permitting. */
  lemma ProceedsIff(fields: seq<Field>, args: Args, assess: Assess)
    ensures var v := VerdictOf(fields, args, assess);
      (!v.Unassessable? && Permits(DispositionOf(v))) <==> forall f :: f in fields ==> Cleared(args, assess, f)
  {
    WinnerDescribed(fields, args, assess);
    FirstPresentIsResourceOnly(fields, args);
    var w := Winner(fields, args, assess);
    if w.Some? {
      var f := WinningField(fields, args, assess, w);
      if w.value.Semantic? && Permits(w.value.d) {
        forall g | g in fields ensures Cleared(args, assess, g) { WorstClears(fields, args, assess, w, g); }
      } else {
        assert !Cleared(args, assess, f);
      }
    }
  }

  lemma WorstClears(fields: seq<Field>, args: Args, assess: Assess, w: Option<Verdict>, g: Field)
    requires w.Some? && w.value.Semantic? && Permits(w.value.d) && Describes(fields, args, assess, w) && g in fields
    ensures Cleared(args, assess, g)
  {
    if Reaches(args, g) {
      var j :| 0 <= j < |fields| && fields[j] == g;
      assert !Fails(args, assess, fields[j]);
      WinnerIsMaximal(fields, args, assess, w, g, DispositionFor(OutcomeOf(args, assess, g).d));
    }
  }

  lemma {:induction false} FirstPresentIsResourceOnly(fields: seq<Field>, args: Args)
    ensures FirstPresent(fields, args).ResourceOnly?
  {
    if fields != [] { FirstPresentIsResourceOnly(fields[1..], args); }
  }

  /** When nothing was assessed the verdict names the first field of the table that the arguments have. */
  lemma {:induction false} FirstPresentIs(fields: seq<Field>, args: Args) returns (n: nat)
    ensures n <= |fields| && forall k :: 0 <= k < n ==> fields[k].name !in args
    ensures if n == |fields| then FirstPresent(fields, args) == ResourceOnly("-", OpaqueData)
            else fields[n].name in args && FirstPresent(fields, args) == ResourceOnly(fields[n].name, fields[n].class_)
  {
    if fields == [] || fields[0].name in args {
      n := 0;
    } else {
      var m := FirstPresentIs(fields[1..], args);
      n := m + 1;
      assert forall k :: 0 < k < |fields| ==> fields[k] == fields[1..][k - 1];
    }
  }

  /** Whether the gate stops and with which disposition does not depend on the order of the field
      table; only the recorded field does. */
  lemma OrderIrrelevant(a: seq<Field>, b: seq<Field>, args: Args, assess: Assess)
    requires multiset(a) == multiset(b)
    ensures var v, w := VerdictOf(a, args, assess), VerdictOf(b, args, assess);
      && (v.Unassessable? <==> w.Unassessable?) && (v.Semantic? <==> w.Semantic?)
      && (!v.Unassessable? ==> DispositionOf(v) == DispositionOf(w))
  {
    SameFields(a, b);
    SameFields(b, a);
    OneWay(a, b, args, assess);
    OneWay(b, a, args, assess);
  }

  lemma SameFields(a: seq<Field>, b: seq<Field>)
    requires multiset(a) == multiset(b)
    ensures forall f :: f in a ==> f in b
  {
    forall f | f in a ensures f in b {
      assert f in multiset(a);
      assert f in multiset(b);
    }
  }

  lemma OneWay(a: seq<Field>, b: seq<Field>, args: Args, assess: Assess)
    requires forall f :: f in a ==> f in b
    ensures var v, w := VerdictOf(a, args, assess), VerdictOf(b, args, assess);
      && (v.Unassessable? ==> w.Unassessable?)
      && (v.Semantic? ==> w.Unassessable? || (w.Semantic? && Rank(v.d) <= Rank(w.d)))
  {
    WinnerDescribed(a, args, assess);
    WinnerDescribed(b, args, assess);
    FirstPresentIsResourceOnly(a, args);
    var v, w := Winner(a, args, assess), Winner(b, args, assess);
    if v.Some? {
      var f := WinningField(a, args, assess, v);
      SomeWinner(b, args, assess, w, f);
      if v.value.Semantic? && w.value.Semantic? { WinnerIsMaximal(b, args, assess, w, f, v.value.d); }
    }
  }

  lemma SomeWinner(fields: seq<Field>, args: Args, assess: Assess, w: Option<Verdict>, f: Field)
    requires Describes(fields, args, assess, w) && f in fields && Reaches(args, f)
    ensures w.Some? && !w.value.ResourceOnly? && (Fails(args, assess, f) ==> w.value.Unassessable?)
  {
    var j :| 0 <= j < |fields| && fields[j] == f;
    assert Reaches(args, fields[j]);
  }

  // ---------- the table ----------

  function Plain(name: string, c: InputClass): Field { Field(name, c, false, false) }

  function FieldsFor(capability: string): seq<Field> {
    if capability == "ShellExec" then
      [Field("cmd", CommandControl, true, false), Plain("cwd", FilesystemLocator),
       Field("stdin", PayloadProse, false, true)]
    else if capability == "FileWrite" then
      [Field("content", PayloadProse, false, true), Plain("path", FilesystemLocator)]
    else if capability == "FileRead" || capability == "Delete" then [Plain("path", FilesystemLocator)]
    else if capability == "Kill" then [Plain("pid", StructuredIdentifier)]
    else if capability == "GitExec" then
      [Field("message", PayloadProse, false, true), Field("operation", CommandControl, true, false),
       Plain("url", UrlLocator),
       Plain("path", FilesystemLocator), Plain("branch", StructuredIdentifier), Plain("files", FilesystemLocator),
       Plain("commit_sha", StructuredIdentifier)]
    else if capability == "Undo" then [Plain("job_id", StructuredIdentifier), Plain("file", FilesystemLocator)]
    else []
  }

  /** What the table has assessed, and what it marks as control, by capability. */
  lemma AssessedFields(capability: string)
    ensures (set f | f in FieldsFor(capability) && f.eligible :: f.name)
         == if capability == "ShellExec" then {"stdin"}
            else if capability == "FileWrite" then {"content"}
            else if capability == "GitExec" then {"message"}
            else {}
    ensures (set f | f in FieldsFor(capability) && f.control :: f.name)
         == if capability == "ShellExec" then {"cmd"} else if capability == "GitExec" then {"operation"} else {}
  {
    var fs := FieldsFor(capability);
    assert capability == "ShellExec" ==>
      fs[0].name == "cmd" && fs[0].control && fs[2].name == "stdin" && fs[2].eligible;
    assert capability == "FileWrite" ==> fs[0].name == "content" && fs[0].eligible;
    assert capability == "GitExec" ==>
      fs[0].name == "message" && fs[0].eligible && fs[1].name == "operation" && fs[1].control;
  }

  /** In the table as it stands control fields are never assessed and no capability has two
      assessed fields, so no command line ever blocks a job by its meaning. */
  lemma TableAssessesOnePayload(capability: string)
    ensures var fs := FieldsFor(capability);
      && (forall i :: 0 <= i < |fs| && fs[i].eligible ==> !fs[i].control && fs[i].class_ == PayloadProse)
      && (forall i, j :: 0 <= i < j < |fs| ==> fs[i].name != fs[j].name && !(fs[i].eligible && fs[j].eligible))
  {
    var fs := FieldsFor(capability);
    forall i, j | 0 <= i < j < |fs| ensures fs[i].name != fs[j].name {
      assert "path"[0] != "content"[0] && "cmd"[1] != "cwd"[1] && "job_id"[0] != "file"[0];
      assert |"message"| == 7 && |"operation"| == 9 && |"url"| == 3 && |"path"| == 4;
      assert |"branch"| == 6 && |"files"| == 5 && |"commit_sha"| == 10;
    }
  }
}
