/** The categorical-syllogism generator of `reasoning.py`: a fixed figure table,
    four sentence templates, selection of figures and sentence types by the
    characters of two strings, and an enumeration of every selected
    combination in a fixed order, each rendered as an id and three sentences. */
module Syllogisms {
  import opened Wrappers
  import opened Seqs
  import opened StrFormat

  /** The three terms of a syllogism: middle, subject and predicate. */
  datatype Role = M | S | P {
    /** The placeholder name the source uses for the term. */
    function Name(): string {
      match this
      case M => "M"
      case S => "S"
      case P => "P"
    }
  }

  /** The strings supplied for the three terms: the middle term M, the minor
      (subject) term S and the major (predicate) term P. */
  datatype Terms = Terms(middle: string, minor: string, major: string) {
    function Of(r: Role): string {
      match r
      case M => middle
      case S => minor
      case P => major
    }

    /** The keyword arguments `{'M': M, 'S': S, 'P': P}` that fill the role placeholders. */
    function Bindings(): (b: map<string, string>)
      ensures forall r: Role :: r.Name() in b && b[r.Name()] == Of(r)
    {
      map["M" := middle, "S" := minor, "P" := major]
    }
  }

  /** The terms filling the first (subject) and second (predicate) place of one sentence. */
  datatype Roles = Roles(first: Role, second: Role)

  /** The four figures, keyed '1' to '4'. */
  datatype Figure = Fig1 | Fig2 | Fig3 | Fig4 {
    function Code(): char {
      match this
      case Fig1 => '1'
      case Fig2 => '2'
      case Fig3 => '3'
      case Fig4 => '4'
    }

    /** Roles of the first premise in the figure table. */
    function Premise1(): Roles {
      match this
      case Fig1 => Roles(M, P)
      case Fig2 => Roles(P, M)
      case Fig3 => Roles(M, P)
      case Fig4 => Roles(P, M)
    }

    /** Roles of the second premise in the figure table. */
    function Premise2(): Roles {
      match this
      case Fig1 => Roles(S, M)
      case Fig2 => Roles(S, M)
      case Fig3 => Roles(M, S)
      case Fig4 => Roles(M, S)
    }
  }

  /** Every conclusion speaks of the subject term and the predicate term. */
  const ConclusionRoles: Roles := Roles(S, P)

  /** A sentence template: `lead`, first term, `link`, second term. */
  datatype Template = Template(lead: string, link: string) {
    /** The template as the format string with two automatic fields. */
    function Pattern(): string {
      lead + "{}" + link + "{}"
    }

    /** The template with its two fields filled, in order. */
    function Apply(first: string, second: string): string {
      lead + first + link + second
    }
  }

  /** The four sentence types, keyed 'a', 'e', 'i', 'o'. */
  datatype SentenceType = A | E | I | O {
    function Code(): char {
      match this
      case A => 'a'
      case E => 'e'
      case I => 'i'
      case O => 'o'
    }

    /** The template of the type; `neg` is the negation word of the `o` sentence. */
    function Shape(neg: string): Template {
      match this
      case A => Template("All ", " are ")
      case E => Template("No ", " are ")
      case I => Template("Some ", " are ")
      case O => Template("Some ", " are " + neg + " ")
    }
  }

  /** The table keys in sorted order. */
  const AllFigures: seq<Figure> := [Fig1, Fig2, Fig3, Fig4]
  const AllTypes: seq<SentenceType> := [A, E, I, O]

  predicate FigureLess(f: Figure, g: Figure) {
    f.Code() < g.Code()
  }

  predicate TypeLess(t: SentenceType, u: SentenceType) {
    t.Code() < u.Code()
  }

  /** The figure keyed by `c`, if any. */
  function FigureOfCode(c: char): (r: Option<Figure>)
    ensures r.Some? ==> r.value.Code() == c
    ensures forall f: Figure :: f.Code() == c ==> r == Some(f)
  {
    match c
    case '1' => Some(Fig1)
    case '2' => Some(Fig2)
    case '3' => Some(Fig3)
    case '4' => Some(Fig4)
    case _ => None
  }

  /** The sentence type keyed by `c`, if any. */
  function TypeOfCode(c: char): (r: Option<SentenceType>)
    ensures r.Some? ==> r.value.Code() == c
    ensures forall t: SentenceType :: t.Code() == c ==> r == Some(t)
  {
    match c
    case 'a' => Some(A)
    case 'e' => Some(E)
    case 'i' => Some(I)
    case 'o' => Some(O)
    case _ => None
  }

  /** Both tables list their keys in ascending order, as `sorted` leaves them. */
  lemma TablesSorted()
    ensures Sorted(AllFigures, FigureLess)
    ensures Sorted(AllTypes, TypeLess)
  {
  }

  /** The figures whose key occurs in `figures`, in key order. */
  function SelectFigures(figures: string): (r: seq<Figure>)
    ensures forall f :: f in r <==> f.Code() in figures
    ensures Sorted(r, FigureLess)
  {
    var keep := (f: Figure) => f.Code() in figures;
    TablesSorted();
    KeepSorted(AllFigures, keep, FigureLess);
    KeepMembers(AllFigures, keep);
    Keep(AllFigures, keep)
  }

  /** The sentence types whose key occurs in `types`, in key order. */
  function SelectTypes(types: string): (r: seq<SentenceType>)
    ensures forall t :: t in r <==> t.Code() in types
    ensures Sorted(r, TypeLess)
  {
    var keep := (t: SentenceType) => t.Code() in types;
    TablesSorted();
    KeepSorted(AllTypes, keep, TypeLess);
    KeepMembers(AllTypes, keep);
    Keep(AllTypes, keep)
  }

  /** One combination: a figure and the types of the two premises and the conclusion. */
  datatype Form = Form(figure: Figure, premise1: SentenceType, premise2: SentenceType, conclusion: SentenceType)

  /** Generation order: by figure, then conclusion type, then first premise
      type, then second premise type, each by key. */
  predicate FormLess(x: Form, y: Form) {
    || FigureLess(x.figure, y.figure)
    || (x.figure == y.figure && TypeLess(x.conclusion, y.conclusion))
    || (x.figure == y.figure && x.conclusion == y.conclusion && TypeLess(x.premise1, y.premise1))
    || (x.figure == y.figure && x.conclusion == y.conclusion && x.premise1 == y.premise1
        && TypeLess(x.premise2, y.premise2))
  }

  /** The id `f{figure}-{premise1}{premise2}{conclusion}`. */
  function Id(x: Form): string {
    ['f', x.figure.Code(), '-', x.premise1.Code(), x.premise2.Code(), x.conclusion.Code()]
  }

  /** Reads a combination back from its id; the inverse of `Id`. */
  function ParseId(id: string): (r: Option<Form>)
    ensures r.Some? ==> Id(r.value) == id
    ensures forall x :: Id(x) == id ==> r == Some(x)
  {
    if |id| == 6 && id[0] == 'f' && id[2] == '-' then
      match (FigureOfCode(id[1]), TypeOfCode(id[3]), TypeOfCode(id[4]), TypeOfCode(id[5]))
      case (Some(f), Some(t1), Some(t2), Some(t)) => Some(Form(f, t1, t2, t))
      case _ => None
    else None
  }

  /** Different combinations have different ids. */
  lemma IdInjective(x: Form, y: Form)
    ensures Id(x) == Id(y) ==> x == y
  {
    if Id(x) == Id(y) {
      assert ParseId(Id(x)) == Some(x) && ParseId(Id(y)) == Some(y);
    }
  }

  /** Innermost loop: the second premise type runs over `types`. */
  function Premise2Loop(f: Figure, t: SentenceType, t1: SentenceType, types: seq<SentenceType>): seq<Form> {
    FlatMap(types, (t2: SentenceType) => [Form(f, t1, t2, t)])
  }

  /** The first premise type runs over `types`. */
  function Premise1Loop(f: Figure, t: SentenceType, types: seq<SentenceType>): seq<Form> {
    FlatMap(types, (t1: SentenceType) => Premise2Loop(f, t, t1, types))
  }

  /** The conclusion type runs over `types`. */
  function ConclusionLoop(f: Figure, types: seq<SentenceType>): seq<Form> {
    FlatMap(types, (t: SentenceType) => Premise1Loop(f, t, types))
  }

  /** Outermost loop: the figure runs over `figures`. */
  function Forms(figures: seq<Figure>, types: seq<SentenceType>): seq<Form> {
    FlatMap(figures, (f: Figure) => ConclusionLoop(f, types))
  }

  /** The innermost loop yields one combination per type, in type order. */
  lemma Premise2LoopSpec(f: Figure, t: SentenceType, t1: SentenceType, types: seq<SentenceType>)
    ensures var r := Premise2Loop(f, t, t1, types);
      && |r| == |types|
      && (forall x :: x in r <==> x.figure == f && x.conclusion == t && x.premise1 == t1 && x.premise2 in types)
      && (Sorted(types, TypeLess) ==> Sorted(r, FormLess))
  {
    var block := (t2: SentenceType) => [Form(f, t1, t2, t)];
    FlatMapLength(types, block, 1);
    FlatMapMembers(types, block);
    if Sorted(types, TypeLess) {
      FlatMapSorted(types, block, FormLess);
    }
  }

  /** The first-premise loop yields every pair of premise types, in order. */
  lemma Premise1LoopSpec(f: Figure, t: SentenceType, types: seq<SentenceType>)
    ensures var r := Premise1Loop(f, t, types);
      && |r| == |types| * |types|
      && (forall x :: x in r <==> x.figure == f && x.conclusion == t && x.premise1 in types && x.premise2 in types)
      && (Sorted(types, TypeLess) ==> Sorted(r, FormLess))
  {
    var block := (t1: SentenceType) => Premise2Loop(f, t, t1, types);
    forall t1 ensures var r := block(t1);
      && |r| == |types|
      && (forall x :: x in r <==> x.figure == f && x.conclusion == t && x.premise1 == t1 && x.premise2 in types)
      && (Sorted(types, TypeLess) ==> Sorted(r, FormLess))
    {
      Premise2LoopSpec(f, t, t1, types);
    }
    FlatMapLength(types, block, |types|);
    FlatMapMembers(types, block);
    assert forall x: Form :: x in FlatMap(types, block) <==> x.premise1 in types && x in block(x.premise1);
    if Sorted(types, TypeLess) {
      FlatMapSorted(types, block, FormLess);
    }
  }

  /** The conclusion loop yields every triple of types, in order. */
  lemma ConclusionLoopSpec(f: Figure, types: seq<SentenceType>)
    ensures var r := ConclusionLoop(f, types);
      && |r| == |types| * (|types| * |types|)
      && (forall x :: x in r <==> x.figure == f && x.conclusion in types && x.premise1 in types && x.premise2 in types)
      && (Sorted(types, TypeLess) ==> Sorted(r, FormLess))
  {
    var block := (t: SentenceType) => Premise1Loop(f, t, types);
    forall t ensures var r := block(t);
      && |r| == |types| * |types|
      && (forall x :: x in r <==> x.figure == f && x.conclusion == t && x.premise1 in types && x.premise2 in types)
      && (Sorted(types, TypeLess) ==> Sorted(r, FormLess))
    {
      Premise1LoopSpec(f, t, types);
    }
    FlatMapLength(types, block, |types| * |types|);
    FlatMapMembers(types, block);
    assert forall x: Form :: x in FlatMap(types, block) <==> x.conclusion in types && x in block(x.conclusion);
    if Sorted(types, TypeLess) {
      FlatMapSorted(types, block, FormLess);
    }
  }

  /** The nested loops yield every selected combination exactly once, in generation order. */
  lemma FormsSpec(figures: seq<Figure>, types: seq<SentenceType>)
    ensures var r := Forms(figures, types);
      && |r| == |figures| * (|types| * (|types| * |types|))
      && (forall x :: x in r <==>
            x.figure in figures && x.conclusion in types && x.premise1 in types && x.premise2 in types)
      && (Sorted(figures, FigureLess) && Sorted(types, TypeLess) ==> Sorted(r, FormLess))
  {
    var block := (f: Figure) => ConclusionLoop(f, types);
    forall f ensures var r := block(f);
      && |r| == |types| * (|types| * |types|)
      && (forall x :: x in r <==> x.figure == f && x.conclusion in types && x.premise1 in types && x.premise2 in types)
      && (Sorted(types, TypeLess) ==> Sorted(r, FormLess))
    {
      ConclusionLoopSpec(f, types);
    }
    FlatMapLength(figures, block, |types| * (|types| * |types|));
    FlatMapMembers(figures, block);
    assert forall x: Form :: x in FlatMap(figures, block) <==> x.figure in figures && x in block(x.figure);
    if Sorted(figures, FigureLess) && Sorted(types, TypeLess) {
      FlatMapSorted(figures, block, FormLess);
    }
  }

  /** The number of distinct characters of `alphabet` that occur in `chosen`. */
  function CountIn(alphabet: string, chosen: string): nat {
    |set c | c in alphabet && c in chosen|
  }

  /** As many figures are selected as distinct figure keys occur in `figures`. */
  lemma {:induction false} SelectFiguresCount(figures: string)
    ensures |SelectFigures(figures)| == CountIn("1234", figures)
  {
    var r := SelectFigures(figures);
    var key := (f: Figure) => f.Code();
    assert forall i, j :: 0 <= i < j < |r| ==> key(r[i]) < key(r[j]);
    DistinctKeys(r, key);
    FigureKeys(figures, key);
  }

  /** The keys of the selected figures are the figure keys that occur in `figures`. */
  lemma {:induction false} FigureKeys(figures: string, key: Figure -> char)
    requires forall f :: key(f) == f.Code()
    ensures Keys(SelectFigures(figures), key) == set c | c in "1234" && c in figures
  {
    var r := SelectFigures(figures);
    forall c | c in "1234" && c in figures
      ensures c in Keys(r, key)
    {
      var f := FigureOfCode(c).value;
      assert f in r && key(f) == c;
    }
    forall x | x in r
      ensures key(x) in "1234" && key(x) in figures
    {
    }
  }

  /** As many sentence types are selected as distinct type keys occur in `types`. */
  lemma {:induction false} SelectTypesCount(types: string)
    ensures |SelectTypes(types)| == CountIn("aeio", types)
  {
    var r := SelectTypes(types);
    var key := (t: SentenceType) => t.Code();
    assert forall i, j :: 0 <= i < j < |r| ==> key(r[i]) < key(r[j]);
    DistinctKeys(r, key);
    TypeKeys(types, key);
  }

  /** The keys of the selected sentence types are the type keys that occur in `types`. */
  lemma {:induction false} TypeKeys(types: string, key: SentenceType -> char)
    requires forall t :: key(t) == t.Code()
    ensures Keys(SelectTypes(types), key) == set c | c in "aeio" && c in types
  {
    var r := SelectTypes(types);
    forall c | c in "aeio" && c in types
      ensures c in Keys(r, key)
    {
      var t := TypeOfCode(c).value;
      assert t in r && key(t) == c;
    }
    forall x | x in r
      ensures key(x) in "aeio" && key(x) in types
    {
    }
  }

  /** One generated item: the id and the sentences of the two premises and the conclusion. */
  datatype Syllogism = Syllogism(id: string, premise1: string, premise2: string, conclusion: string)

  /** The sentence of type `t` about the terms in `roles`, substituted directly. */
  function Statement(t: SentenceType, neg: string, terms: Terms, roles: Roles): string {
    t.Shape(neg).Apply(terms.Of(roles.first), terms.Of(roles.second))
  }

  /** The placeholder `{M}`, `{S}` or `{P}` of a role. */
  function Placeholder(r: Role): string {
    "{" + r.Name() + "}"
  }

  /** The sentence as the source builds it: the template is formatted with the
      two role placeholders, and the result is formatted with the term bindings. */
  function FormatStatement(t: SentenceType, neg: string, terms: Terms, roles: Roles): Result<string, FormatError> {
    match Format(t.Shape(neg).Pattern(), [Placeholder(roles.first), Placeholder(roles.second)], map[])
    case Failure(e) => Failure(e)
    case Success(s) => Format(s, [], terms.Bindings())
  }

  /** The combination `x` rendered as the source yields it. */
  function Render(terms: Terms, neg: string, x: Form): Syllogism {
    Syllogism(
      Id(x),
      Statement(x.premise1, neg, terms, x.figure.Premise1()),
      Statement(x.premise2, neg, terms, x.figure.Premise2()),
      Statement(x.conclusion, neg, terms, ConclusionRoles))
  }

  /** `list(gen_syllogism(M, S, P, neg, types, figures))`, with the source's
      default arguments. The source fills its templates with `str.format`, which
      agrees with direct substitution whenever `neg` has no braces or the `o`
      template is not selected (see `FormatStatementIsStatement`). */
  function Generate(terms: Terms, neg: string := "not", types: string := "aeio", figures: string := "1234"): seq<Syllogism>
    requires NoBraces(neg) || 'o' !in types
  {
    var forms := Forms(SelectFigures(figures), SelectTypes(types));
    seq(|forms|, k requires 0 <= k < |forms| => Render(terms, neg, forms[k]))
  }

  /** The source's two rounds of `str.format` produce exactly the template with
      the two terms substituted in order, for every template other than `o` and
      for `o` whenever the negation word is brace-free. */
  lemma FormatStatementIsStatement(t: SentenceType, neg: string, terms: Terms, roles: Roles)
    requires NoBraces(neg) || t != O
    ensures FormatStatement(t, neg, terms, roles) == Success(Statement(t, neg, terms, roles))
  {
    var shape := t.Shape(neg);
    var n1 := roles.first.Name();
    var n2 := roles.second.Name();
    ShapeBraceFree(t, neg);
    FormatTwoFields(shape.lead, shape.link, Placeholder(roles.first), Placeholder(roles.second));
    assert shape.lead + Placeholder(roles.first) + shape.link + Placeholder(roles.second)
        == shape.lead + "{" + n1 + "}" + shape.link + "{" + n2 + "}";
    FormatTwoKeys(shape.lead, n1, shape.link, n2, terms.Bindings());
  }

  /** The text around the two fields of every template is free of braces. */
  lemma {:induction false} ShapeBraceFree(t: SentenceType, neg: string)
    requires NoBraces(neg) || t != O
    ensures NoBraces(t.Shape(neg).lead) && NoBraces(t.Shape(neg).link)
  {
    if t == O {
      var link := " are " + neg + " ";
      assert forall c :: c in link ==> c == ' ' || c in " are " || c in neg;
    }
  }
}
