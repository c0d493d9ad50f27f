/** What `gen_syllogism` promises its callers: how many items it yields, which
    ones, in what order, with which text, and how its arguments affect that. */
module SyllogismProperties {
  import opened Wrappers
  import opened Seqs
  import opened StrFormat
  import opened Syllogisms

  /** `x` uses only a figure key found in `figures` and type keys found in `types`. */
  predicate Selected(x: Form, types: string, figures: string) {
    && x.figure.Code() in figures
    && x.premise1.Code() in types
    && x.premise2.Code() in types
    && x.conclusion.Code() in types
  }

  /** The item with id `a` is generated before the item with id `b`. */
  predicate IdLess(a: string, b: string) {
    match (ParseId(a), ParseId(b))
    case (Some(x), Some(y)) => FormLess(x, y)
    case _ => false
  }

  /** No character of `alphabet` occurs in `chosen`. */
  predicate NoneOf(alphabet: string, chosen: string) {
    forall c :: c in alphabet ==> c !in chosen
  }

  /** The items are the renderings of the enumerated combinations, one for one. */
  lemma {:induction false} GenerateIsRenderedForms(terms: Terms, neg: string, types: string, figures: string)
    requires NoBraces(neg) || 'o' !in types
    ensures var r := Generate(terms, neg, types, figures);
      var forms := Forms(SelectFigures(figures), SelectTypes(types));
      && |r| == |forms|
      && (forall k :: 0 <= k < |r| ==> r[k] == Render(terms, neg, forms[k]))
  {
  }

  /** As many items as selected figures times the cube of the selected sentence types. */
  lemma {:induction false} GenerateCount(terms: Terms, neg: string, types: string, figures: string)
    requires NoBraces(neg) || 'o' !in types
    ensures var n := CountIn("aeio", types);
      |Generate(terms, neg, types, figures)| == CountIn("1234", figures) * (n * n * n)
  {
    FormsSpec(SelectFigures(figures), SelectTypes(types));
    SelectFiguresCount(figures);
    SelectTypesCount(types);
  }

  /** The enumerated combinations are exactly the selected ones, in generation order. */
  lemma {:induction false} FormsSelectedInOrder(types: string, figures: string)
    ensures var forms := Forms(SelectFigures(figures), SelectTypes(types));
      && Sorted(forms, FormLess)
      && (forall x :: x in forms <==> Selected(x, types, figures))
  {
    FormsSpec(SelectFigures(figures), SelectTypes(types));
  }

  /** Every item is the rendering of a selected combination, and its id names
      that combination. */
  lemma {:induction false} GenerateElements(terms: Terms, neg: string, types: string, figures: string)
    requires NoBraces(neg) || 'o' !in types
    ensures var r := Generate(terms, neg, types, figures);
      forall k :: 0 <= k < |r| ==>
        && ParseId(r[k].id).Some?
        && Selected(ParseId(r[k].id).value, types, figures)
        && r[k] == Render(terms, neg, ParseId(r[k].id).value)
  {
    GenerateIsRenderedForms(terms, neg, types, figures);
    FormsSelectedInOrder(types, figures);
    var forms := Forms(SelectFigures(figures), SelectTypes(types));
    forall k | 0 <= k < |forms| ensures ParseId(Id(forms[k])) == Some(forms[k]) {
      assert forms[k] in forms;
    }
  }

  /** Each item's sentences are what the source's two rounds of `str.format`
      give for the combination its id names. */
  lemma {:induction false} GenerateFormatsAsSource(terms: Terms, neg: string, types: string, figures: string)
    requires NoBraces(neg) || 'o' !in types
    ensures var r := Generate(terms, neg, types, figures);
      forall k :: 0 <= k < |r| ==>
        && ParseId(r[k].id).Some?
        && var x := ParseId(r[k].id).value;
        && FormatStatement(x.premise1, neg, terms, x.figure.Premise1()) == Success(r[k].premise1)
        && FormatStatement(x.premise2, neg, terms, x.figure.Premise2()) == Success(r[k].premise2)
        && FormatStatement(x.conclusion, neg, terms, ConclusionRoles) == Success(r[k].conclusion)
  {
    var r := Generate(terms, neg, types, figures);
    GenerateElements(terms, neg, types, figures);
    forall k | 0 <= k < |r|
      ensures var x := ParseId(r[k].id).value;
        && FormatStatement(x.premise1, neg, terms, x.figure.Premise1()) == Success(r[k].premise1)
        && FormatStatement(x.premise2, neg, terms, x.figure.Premise2()) == Success(r[k].premise2)
        && FormatStatement(x.conclusion, neg, terms, ConclusionRoles) == Success(r[k].conclusion)
    {
      var x := ParseId(r[k].id).value;
      assert Selected(x, types, figures);
      FormatStatementIsStatement(x.premise1, neg, terms, x.figure.Premise1());
      FormatStatementIsStatement(x.premise2, neg, terms, x.figure.Premise2());
      FormatStatementIsStatement(x.conclusion, neg, terms, ConclusionRoles);
    }
  }

  /** A combination is rendered among the items exactly when it is selected. */
  lemma {:induction false} GenerateContains(terms: Terms, neg: string, types: string, figures: string, x: Form)
    requires NoBraces(neg) || 'o' !in types
    ensures Render(terms, neg, x) in Generate(terms, neg, types, figures) <==> Selected(x, types, figures)
  {
    if Render(terms, neg, x) in Generate(terms, neg, types, figures) {
      GeneratedIsSelected(terms, neg, types, figures, x);
    }
    if Selected(x, types, figures) {
      SelectedIsGenerated(terms, neg, types, figures, x);
    }
  }

  /** Only selected combinations are rendered. */
  lemma {:induction false} GeneratedIsSelected(terms: Terms, neg: string, types: string, figures: string, x: Form)
    requires NoBraces(neg) || 'o' !in types
    requires Render(terms, neg, x) in Generate(terms, neg, types, figures)
    ensures Selected(x, types, figures)
  {
    var r := Generate(terms, neg, types, figures);
    var forms := Forms(SelectFigures(figures), SelectTypes(types));
    GenerateIsRenderedForms(terms, neg, types, figures);
    FormsSelectedInOrder(types, figures);
    var k :| 0 <= k < |r| && r[k] == Render(terms, neg, x);
    assert Id(forms[k]) == r[k].id == Id(x);
    IdInjective(forms[k], x);
    assert forms[k] in forms;
  }

  /** Every selected combination is rendered. */
  lemma {:induction false} SelectedIsGenerated(terms: Terms, neg: string, types: string, figures: string, x: Form)
    requires NoBraces(neg) || 'o' !in types
    requires Selected(x, types, figures)
    ensures Render(terms, neg, x) in Generate(terms, neg, types, figures)
  {
    var r := Generate(terms, neg, types, figures);
    var forms := Forms(SelectFigures(figures), SelectTypes(types));
    GenerateIsRenderedForms(terms, neg, types, figures);
    FormsSelectedInOrder(types, figures);
    assert x in forms;
    var k :| 0 <= k < |forms| && forms[k] == x;
    assert r[k] == Render(terms, neg, x);
  }

  /** Items come in generation order: by figure, then conclusion type, then
      first premise type, then second premise type, each in key order. */
  lemma {:induction false} GenerateOrdered(terms: Terms, neg: string, types: string, figures: string)
    requires NoBraces(neg) || 'o' !in types
    ensures var r := Generate(terms, neg, types, figures);
      forall i, j :: 0 <= i < j < |r| ==> IdLess(r[i].id, r[j].id)
  {
    GenerateIsRenderedForms(terms, neg, types, figures);
    FormsSelectedInOrder(types, figures);
    var forms := Forms(SelectFigures(figures), SelectTypes(types));
    forall k | 0 <= k < |forms| ensures ParseId(Id(forms[k])) == Some(forms[k]) {
    }
  }

  /** No id is generated twice. */
  lemma {:induction false} GenerateDistinctIds(terms: Terms, neg: string, types: string, figures: string)
    requires NoBraces(neg) || 'o' !in types
    ensures var r := Generate(terms, neg, types, figures);
      forall i, j :: 0 <= i < j < |r| ==> r[i].id != r[j].id
  {
    var r := Generate(terms, neg, types, figures);
    var forms := Forms(SelectFigures(figures), SelectTypes(types));
    GenerateIsRenderedForms(terms, neg, types, figures);
    FormsSelectedInOrder(types, figures);
    forall i, j | 0 <= i < j < |r| ensures r[i].id != r[j].id {
      assert FormLess(forms[i], forms[j]);
      assert r[i].id == Id(forms[i]) && r[j].id == Id(forms[j]);
      IdInjective(forms[i], forms[j]);
    }
  }

  /** Only which figure keys and type keys occur matters: other characters,
      repetitions and the order of the characters change nothing. */
  lemma {:induction false} GenerateDependsOnlyOnKeys(terms: Terms, neg: string, types: string, figures: string, types': string, figures': string)
    requires NoBraces(neg) || 'o' !in types
    requires forall c :: c in "1234" ==> (c in figures <==> c in figures')
    requires forall c :: c in "aeio" ==> (c in types <==> c in types')
    ensures Generate(terms, neg, types, figures) == Generate(terms, neg, types', figures')
  {
    forall f | f in AllFigures ensures f.Code() in figures <==> f.Code() in figures' {
      assert f.Code() in "1234";
    }
    KeepAgrees(AllFigures, (f: Figure) => f.Code() in figures, (f: Figure) => f.Code() in figures');
    forall t | t in AllTypes ensures t.Code() in types <==> t.Code() in types' {
      assert t.Code() in "aeio";
    }
    KeepAgrees(AllTypes, (t: SentenceType) => t.Code() in types, (t: SentenceType) => t.Code() in types');
  }

  /** Repeating the selection strings does not repeat any item. */
  lemma {:induction false} GenerateIgnoresRepeats(terms: Terms, neg: string, types: string, figures: string)
    requires NoBraces(neg) || 'o' !in types
    ensures Generate(terms, neg, types + types, figures + figures) == Generate(terms, neg, types, figures)
  {
    GenerateDependsOnlyOnKeys(terms, neg, types + types, figures + figures, types, figures);
  }

  /** Nothing is generated exactly when no figure key or no type key is selected. */
  lemma {:induction false} GenerateEmpty(terms: Terms, neg: string, types: string, figures: string)
    requires NoBraces(neg) || 'o' !in types
    ensures Generate(terms, neg, types, figures) == [] <==> NoneOf("1234", figures) || NoneOf("aeio", types)
  {
    var r := Generate(terms, neg, types, figures);
    GenerateCount(terms, neg, types, figures);
    CountInZero("1234", figures);
    CountInZero("aeio", types);
    CubeProductZero(CountIn("1234", figures), CountIn("aeio", types));
    assert r == [] <==> |r| == 0;
  }

  lemma {:induction false} CubeProductZero(a: nat, b: nat)
    ensures a * (b * b * b) == 0 <==> a == 0 || b == 0
  {
    if a > 0 && b > 0 {
      assert b * b > 0;
      assert b * b * b > 0;
    }
  }

  /** No key of `alphabet` is counted exactly when none occurs in `chosen`. */
  lemma {:induction false} CountInZero(alphabet: string, chosen: string)
    ensures CountIn(alphabet, chosen) == 0 <==> NoneOf(alphabet, chosen)
  {
    var found := set c | c in alphabet && c in chosen;
    if !NoneOf(alphabet, chosen) {
      var c :| c in alphabet && c in chosen;
      assert c in found;
    } else {
      assert found == {};
    }
  }

  /** With the default selections every one of the 4 * 4 * 4 * 4 combinations is generated. */
  lemma {:induction false} DefaultCount(terms: Terms, neg: string)
    requires NoBraces(neg)
    ensures |Generate(terms, neg)| == 256
  {
    GenerateCount(terms, neg, "aeio", "1234");
    DefaultSelections();
  }

  /** The default strings select all four figures and all four sentence types. */
  lemma {:induction false} DefaultSelections()
    ensures CountIn("1234", "1234") == 4
    ensures CountIn("aeio", "aeio") == 4
  {
    DefaultFigures();
    SelectFiguresCount("1234");
    DefaultTypes();
    SelectTypesCount("aeio");
  }

  lemma {:induction false} DefaultFigures()
    ensures SelectFigures("1234") == AllFigures
  {
    KeepAll(AllFigures, (f: Figure) => f.Code() in "1234");
  }

  lemma {:induction false} DefaultTypes()
    ensures SelectTypes("aeio") == AllTypes
  {
    KeepAll(AllTypes, (t: SentenceType) => t.Code() in "aeio");
  }

  /** The negation word only appears in sentences of type `o`: ids and all
      other sentences do not depend on it. */
  lemma {:induction false} NegationOnlyInO(terms: Terms, neg: string, neg': string, types: string, figures: string)
    requires NoBraces(neg) || 'o' !in types
    requires NoBraces(neg') || 'o' !in types
    ensures var r := Generate(terms, neg, types, figures);
      var r' := Generate(terms, neg', types, figures);
      && |r| == |r'|
      && forall k :: 0 <= k < |r| ==>
        && r[k].id == r'[k].id
        && |r[k].id| == 6
        && (r[k].id[3] != 'o' ==> r[k].premise1 == r'[k].premise1)
        && (r[k].id[4] != 'o' ==> r[k].premise2 == r'[k].premise2)
        && (r[k].id[5] != 'o' ==> r[k].conclusion == r'[k].conclusion)
  {
    var r := Generate(terms, neg, types, figures);
    var r' := Generate(terms, neg', types, figures);
    var forms := Forms(SelectFigures(figures), SelectTypes(types));
    GenerateIsRenderedForms(terms, neg, types, figures);
    GenerateIsRenderedForms(terms, neg', types, figures);
    forall k | 0 <= k < |r|
      ensures r[k].id == r'[k].id && |r[k].id| == 6
      ensures r[k].id[3] != 'o' ==> r[k].premise1 == r'[k].premise1
      ensures r[k].id[4] != 'o' ==> r[k].premise2 == r'[k].premise2
      ensures r[k].id[5] != 'o' ==> r[k].conclusion == r'[k].conclusion
    {
      var x := forms[k];
      assert r[k] == Render(terms, neg, x);
      assert r'[k] == Render(terms, neg', x);
      RenderIgnoresNeg(terms, neg, neg', x);
    }
  }

  /** Rendering one combination with another negation word changes only its `o` sentences. */
  lemma {:induction false} RenderIgnoresNeg(terms: Terms, neg: string, neg': string, x: Form)
    ensures var s := Render(terms, neg, x);
      var s' := Render(terms, neg', x);
      && s.id == s'.id
      && |s.id| == 6
      && (s.id[3] != 'o' ==> s.premise1 == s'.premise1)
      && (s.id[4] != 'o' ==> s.premise2 == s'.premise2)
      && (s.id[5] != 'o' ==> s.conclusion == s'.conclusion)
  {
    StatementIgnoresNeg(x.premise1, neg, neg', terms, x.figure.Premise1());
    StatementIgnoresNeg(x.premise2, neg, neg', terms, x.figure.Premise2());
    StatementIgnoresNeg(x.conclusion, neg, neg', terms, ConclusionRoles);
  }

  /** Only the `o` template mentions the negation word. */
  lemma {:induction false} StatementIgnoresNeg(t: SentenceType, neg: string, neg': string, terms: Terms, roles: Roles)
    ensures t != O ==> Statement(t, neg, terms, roles) == Statement(t, neg', terms, roles)
    ensures t == O ==>
      Statement(t, neg, terms, roles) == "Some " + terms.Of(roles.first) + " are " + neg + " " + terms.Of(roles.second)
  {
  }

  /** The figure table puts the middle term in both premises, the predicate
      term in the first and the subject term in the second; the four figures
      are the four placements of the middle term. */
  lemma {:induction false} FigureArrangement(f: Figure)
    ensures {f.Premise1().first, f.Premise1().second} == {M, P}
    ensures {f.Premise2().first, f.Premise2().second} == {S, M}
    ensures f.Premise1().first == M <==> f == Fig1 || f == Fig3
    ensures f.Premise2().first == M <==> f == Fig3 || f == Fig4
  {
  }

  /** The templates are the format strings of the source. */
  lemma {:induction false} PatternsAsWritten(neg: string)
    ensures A.Shape(neg).Pattern() == "All {} are {}"
    ensures E.Shape(neg).Pattern() == "No {} are {}"
    ensures I.Shape(neg).Pattern() == "Some {} are {}"
    ensures O.Shape(neg).Pattern() == "Some {} are " + neg + " {}"
  {
  }

  /** A negation word with braces is itself read as a field: `"{S}"` makes the
      first round of formatting fail for want of a keyword argument. */
  lemma {:induction false} BracedNegationFails(terms: Terms)
    ensures FormatStatement(O, "{S}", terms, Roles(M, P)) == Failure(MissingKey("S"))
  {
    var args := [Placeholder(M), Placeholder(P)];
    var kw: map<string, string> := map[];
    var field := "{S} {}";
    BracedPattern();
    FillLiteral("Some ", "{}" + (" are " + field), args, kw, 0);
    FillAuto(" are " + field, args, kw, 0);
    FillLiteral(" are ", field, args, kw, 1);
    UnboundField(args, kw);
  }

  /** The `o` template with the negation word `"{S}"`. */
  lemma {:induction false} BracedPattern()
    ensures O.Shape("{S}").Pattern() == "Some " + ("{}" + (" are " + "{S} {}"))
  {
  }

  /** The field `{S}` with no keyword argument `S` stops the formatting. */
  lemma {:induction false} UnboundField(args: seq<string>, kw: map<string, string>)
    requires "S" !in kw
    ensures Fill("{S} {}", args, kw, 1) == Failure(MissingKey("S"))
  {
    var field := "{S} {}";
    assert field[0] == '{' && field[1] == 'S' && field[2] == '}';
    NextBraceAt(field, 1, 2);
    assert field[1..2] == "S";
  }

  /** The classic example: with M = men, S = Greeks, P = mortal the first item
      is Barbara in the first figure, and `f1-aao` denies its conclusion. */
  lemma {:induction false} WorkedExample()
    ensures var r := Generate(Terms("men", "Greeks", "mortal"));
      && |r| > 0
      && r[0] == Syllogism("f1-aaa", "All men are mortal", "All Greeks are men", "All Greeks are mortal")
      && Syllogism("f1-aao", "All men are mortal", "All Greeks are men", "Some Greeks are not mortal") in r
  {
    var terms := Terms("men", "Greeks", "mortal");
    var r := Generate(terms, "not", "aeio", "1234");
    GenerateIsRenderedForms(terms, "not", "aeio", "1234");
    DefaultFormsStartWithBarbara();
    assert r[0] == Render(terms, "not", Form(Fig1, A, A, A));
    GenerateContains(terms, "not", "aeio", "1234", Form(Fig1, A, A, O));
    BarbaraText();
    BarbaraDeniedText();
  }

  /** Under the default selections the first combination is `f1-aaa`. */
  lemma {:induction false} DefaultFormsStartWithBarbara()
    ensures var forms := Forms(SelectFigures("1234"), SelectTypes("aeio"));
      |forms| > 0 && forms[0] == Form(Fig1, A, A, A)
  {
    var forms := Forms(SelectFigures("1234"), SelectTypes("aeio"));
    var barbara := Form(Fig1, A, A, A);
    FormsSelectedInOrder("aeio", "1234");
    assert barbara in forms;
    var j :| 0 <= j < |forms| && forms[j] == barbara;
    if j > 0 {
      BarbaraIsFirst(forms[0]);
      assert false;
    }
  }

  /** No combination comes before `f1-aaa` in generation order. */
  lemma {:induction false} BarbaraIsFirst(y: Form)
    ensures !FormLess(y, Form(Fig1, A, A, A))
  {
  }

  /** The sentences of `f1-aaa` about men, Greeks and mortals. */
  lemma {:induction false} BarbaraText()
    ensures Render(Terms("men", "Greeks", "mortal"), "not", Form(Fig1, A, A, A))
      == Syllogism("f1-aaa", "All men are mortal", "All Greeks are men", "All Greeks are mortal")
  {
    MenAreMortal();
    GreeksAreMen();
    GreeksAreMortal();
  }

  /** The sentences of `f1-aao` about men, Greeks and mortals. */
  lemma {:induction false} BarbaraDeniedText()
    ensures Render(Terms("men", "Greeks", "mortal"), "not", Form(Fig1, A, A, O))
      == Syllogism("f1-aao", "All men are mortal", "All Greeks are men", "Some Greeks are not mortal")
  {
    MenAreMortal();
    GreeksAreMen();
    GreeksAreNotMortal();
  }

  lemma {:induction false} MenAreMortal()
    ensures Statement(A, "not", Terms("men", "Greeks", "mortal"), Roles(M, P)) == "All men are mortal"
  {
  }

  lemma {:induction false} GreeksAreMen()
    ensures Statement(A, "not", Terms("men", "Greeks", "mortal"), Roles(S, M)) == "All Greeks are men"
  {
  }

  lemma {:induction false} GreeksAreMortal()
    ensures Statement(A, "not", Terms("men", "Greeks", "mortal"), ConclusionRoles) == "All Greeks are mortal"
  {
  }

  lemma {:induction false} GreeksAreNotMortal()
    ensures Statement(O, "not", Terms("men", "Greeks", "mortal"), ConclusionRoles) == "Some Greeks are not mortal"
  {
  }
}
