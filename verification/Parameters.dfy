/** Parameters of an operation: what a node may supply, and what a request carries. */
module Parameters {
  import opened Names

  /** A JSON value; numbers are exact, and arrays, objects and null are opaque. */
  datatype Scalar =
    | Flag(flag: bool) | Whole(whole: int) | Fraction(fraction: real) | Text(text: Name)
    | Structured(content: nat)

  datatype Kind = KindBoolean | KindInteger | KindNumber | KindString

  datatype Parameter = Parameter(kind: Kind, required: bool, preset: Option<Scalar>,
      choices: Option<seq<Scalar>>, minimum: Option<real>, maximum: Option<real>)

  type Declared = map<Name, Parameter>
  type Supplied = map<Name, Scalar>

  /** `_parameter_valid`: a boolean is no number. */
  predicate OfKind(v: Scalar, kind: Kind) {
    match kind
    case KindBoolean => v.Flag?
    case KindInteger => v.Whole?
    case KindNumber => v.Whole? || v.Fraction?
    case KindString => v.Text?
  }

  /** What a value is worth in a comparison with a number, where a boolean is 0 or 1; nothing if comparing raises. */
  function Worth(v: Scalar): Option<real> {
    match v
    case Flag(b) => Some(if b then 1.0 else 0.0)
    case Whole(i) => Some(i as real)
    case Fraction(r) => Some(r)
    case _ => None
  }

  /** Equality as `in` uses it: 1, 1.0 and true are the same. */
  predicate Same(v: Scalar, w: Scalar) {
    if Worth(v).Some? && Worth(w).Some? then Worth(v) == Worth(w) else v == w
  }

  predicate AmongChoices(v: Scalar, p: Parameter) {
    p.choices.Some? ==> exists j | 0 <= j < |p.choices.value| :: Same(v, p.choices.value[j])
  }

  predicate WithinBounds(v: Scalar, p: Parameter) {
    && (p.minimum.Some? ==> Worth(v).Some? && p.minimum.value <= Worth(v).value)
    && (p.maximum.Some? ==> Worth(v).Some? && Worth(v).value <= p.maximum.value)
  }

  /** The value has the declared type, is one of the choices and lies within the bounds. */
  predicate Fits(v: Scalar, p: Parameter) {
    OfKind(v, p.kind) && AmongChoices(v, p) && WithinBounds(v, p)
  }

  /** What fits, value by value: a boolean is no number and counts as 0 or 1 where bounds are given, a whole number is a
    * number too, a text fits no bounds, and nothing structured fits. */
  lemma FitsIff(v: Scalar, p: Parameter)
    ensures Fits(v, p) <==>
      && (p.choices.Some? ==> exists j | 0 <= j < |p.choices.value| :: Same(v, p.choices.value[j]))
      && match v
         case Flag(b) => p.kind == KindBoolean && Between(p.minimum, if b then 1.0 else 0.0, p.maximum)
         case Whole(i) => p.kind in {KindInteger, KindNumber} && Between(p.minimum, i as real, p.maximum)
         case Fraction(r) => p.kind == KindNumber && Between(p.minimum, r, p.maximum)
         case Text(_) => p.kind == KindString && p.minimum.None? && p.maximum.None?
         case Structured(_) => false
  {
  }

  predicate Between(low: Option<real>, x: real, high: Option<real>) {
    !(low.Some? && x < low.value) && !(high.Some? && high.value < x)
  }

  /** Equality of values: an equivalence in which numbers of all three forms are the same exactly when they are equal,
    * and everything else is the same as itself only. */
  lemma SameIff(v: Scalar, w: Scalar)
    ensures Same(v, w) <==>
      match v
      case Flag(b) => (w.Flag? && w.flag == b) || (w.Whole? && w.whole == if b then 1 else 0)
        || (w.Fraction? && w.fraction == if b then 1.0 else 0.0)
      case Whole(i) => (w.Whole? && w.whole == i) || (w.Fraction? && w.fraction == i as real)
        || (w.Flag? && i == if w.flag then 1 else 0)
      case Fraction(r) => (w.Fraction? && w.fraction == r) || (w.Whole? && r == w.whole as real)
        || (w.Flag? && r == if w.flag then 1.0 else 0.0)
      case Text(n) => w == Text(n)
      case Structured(c) => w == Structured(c)
    ensures Same(v, v) && (Same(v, w) <==> Same(w, v))
    ensures forall x :: Same(v, w) && Same(w, x) ==> Same(v, x)
  {
  }

  /** Nothing undeclared is supplied, what is supplied fits, and what is required is supplied or has a default. */
  ghost predicate ParametersFit(declared: Declared, supplied: Supplied) {
    && supplied.Keys <= declared.Keys
    && forall n :: n in declared ==>
      if n in supplied then Fits(supplied[n], declared[n]) else declared[n].required ==> declared[n].preset.Some?
  }

  // ---------- the check of a node ----------

  datatype Problem =
    | Unknown(name: Name) | Missing(name: Name) | Mistyped(name: Name) | NotAChoice(name: Name)
    | BelowMinimum(name: Name) | AboveMaximum(name: Name) | NotComparable(name: Name)

  /** What each problem says. */
  ghost predicate Objects(declared: Declared, supplied: Supplied, x: Problem) {
    var n := x.name;
    match x
    case Unknown(_) => n in supplied && n !in declared
    case Missing(_) => n in declared && n !in supplied && declared[n].required && declared[n].preset.None?
    case Mistyped(_) => n in declared && n in supplied && !OfKind(supplied[n], declared[n].kind)
    case _ =>
      n in declared && n in supplied && OfKind(supplied[n], declared[n].kind) && Misfit(supplied[n], declared[n], x)
  }

  predicate Misfit(v: Scalar, p: Parameter, x: Problem) {
    match x
    case NotAChoice(_) => !AmongChoices(v, p)
    case BelowMinimum(_) => p.minimum.Some? && Worth(v).Some? && Worth(v).value < p.minimum.value
    case AboveMaximum(_) => p.maximum.Some? && Worth(v).Some? && Worth(v).value > p.maximum.value
    case NotComparable(_) => Worth(v).None? && (p.minimum.Some? || p.maximum.Some?)
    case _ => false
  }

  /** A node without problems is exactly one whose parameters fit. */
  lemma NoProblemMeansFit(declared: Declared, supplied: Supplied)
    ensures (forall x :: !Objects(declared, supplied, x)) <==> ParametersFit(declared, supplied)
  {
    if forall x :: !Objects(declared, supplied, x) {
      forall n | n in supplied ensures n in declared {
        assert !Objects(declared, supplied, Unknown(n));
      }
      forall n | n in declared
        ensures if n in supplied
          then Fits(supplied[n], declared[n])
          else declared[n].required ==> declared[n].preset.Some?
      {
        assert !Objects(declared, supplied, Missing(n)) && !Objects(declared, supplied, Mistyped(n))
          && !Objects(declared, supplied, NotAChoice(n));
        assert !Objects(declared, supplied, BelowMinimum(n))
          && !Objects(declared, supplied, AboveMaximum(n)) && !Objects(declared, supplied, NotComparable(n));
      }
    }
    if ParametersFit(declared, supplied) {
      forall x ensures !Objects(declared, supplied, x) {
        FittingHasNoProblem(declared, supplied, x);
      }
    }
  }

  lemma FittingHasNoProblem(declared: Declared, supplied: Supplied, x: Problem)
    requires ParametersFit(declared, supplied)
    ensures !Objects(declared, supplied, x)
  {
    hide AmongChoices;
    if x.name in declared && x.name in supplied {
      assert Fits(supplied[x.name], declared[x.name]);
    }
  }

  /** What is wrong with one supplied value. */
  method ValueProblems(n: Name, v: Scalar, p: Parameter) returns (problems: seq<Problem>)
    ensures forall x :: x in problems <==> x.name == n && if OfKind(v, p.kind) then Misfit(v, p, x) else x.Mistyped?
    ensures BelowMinimum(n) in problems <==>
      p.minimum.Some?
        && ((v.Flag? && p.kind == KindBoolean && (if v.flag then 1.0 else 0.0) < p.minimum.value)
          || (v.Whole? && p.kind in {KindInteger, KindNumber} && v.whole as real < p.minimum.value)
          || (v.Fraction? && p.kind == KindNumber && v.fraction < p.minimum.value))
    ensures AboveMaximum(n) in problems <==>
      p.maximum.Some?
        && ((v.Flag? && p.kind == KindBoolean && (if v.flag then 1.0 else 0.0) > p.maximum.value)
          || (v.Whole? && p.kind in {KindInteger, KindNumber} && v.whole as real > p.maximum.value)
          || (v.Fraction? && p.kind == KindNumber && v.fraction > p.maximum.value))
    ensures NotComparable(n) in problems <==>
      v.Text? && p.kind == KindString && (p.minimum.Some? || p.maximum.Some?)
    ensures Mistyped(n) in problems <==>
      !(v.Flag? && p.kind == KindBoolean) && !(v.Whole? && p.kind in {KindInteger, KindNumber})
        && !(v.Fraction? && p.kind == KindNumber) && !(v.Text? && p.kind == KindString)
  {
    hide AmongChoices;
    if !OfKind(v, p.kind) {
      return [Mistyped(n)];
    }
    problems := [];
    if !AmongChoices(v, p) {
      problems := problems + [NotAChoice(n)];
    }
    if Worth(v).None? {
      if p.minimum.Some? || p.maximum.Some? {
        problems := problems + [NotComparable(n)];
      }
      return;
    }
    if p.minimum.Some? && Worth(v).value < p.minimum.value {
      problems := problems + [BelowMinimum(n)];
    }
    if p.maximum.Some? && Worth(v).value > p.maximum.value {
      problems := problems + [AboveMaximum(n)];
    }
  }

  method UnknownProblems(declared: Declared, supplied: Supplied) returns (problems: seq<Problem>)
    ensures forall x :: x in problems <==> x.Unknown? && x.name in supplied && x.name !in declared
  {
    problems := [];
    var unknown := supplied.Keys - declared.Keys;
    while unknown != {}
      invariant unknown <= supplied.Keys - declared.Keys
      invariant forall x {:trigger x in problems} :: x in problems <==>
        x.Unknown? && x.name !in unknown && x.name in supplied && x.name !in declared
      decreases |unknown|
    {
      var n :| n in unknown;
      problems := problems + [Unknown(n)];
      unknown := unknown - {n};
    }
  }

  /** The body of the loop over the declared parameters. */
  method DeclaredProblems(declared: Declared, supplied: Supplied, n: Name) returns (problems: seq<Problem>)
    requires n in declared
    ensures forall x :: x in problems <==> x.name == n && Objects(declared, supplied, x)
  {
    hide OfKind, Misfit;
    if n !in supplied {
      return if declared[n].required && declared[n].preset.None? then [Missing(n)] else [];
    }
    problems := ValueProblems(n, supplied[n], declared[n]);
    forall x ensures x in problems <==> x.name == n && Objects(declared, supplied, x) {
      OnlyMisfits(supplied[n], declared[n], x);
    }
  }

  lemma OnlyMisfits(v: Scalar, p: Parameter, x: Problem)
    ensures Misfit(v, p, x) ==> !x.Unknown? && !x.Missing? && !x.Mistyped?
  {
  }

  /** Every problem with the parameters of a node, and no other. */
  method ParameterProblems(declared: Declared, supplied: Supplied) returns (problems: seq<Problem>)
    ensures forall x :: x in problems <==> Objects(declared, supplied, x)
  {
    hide Objects;
    problems := UnknownProblems(declared, supplied);
    forall x: Problem
      ensures Objects(declared, supplied, x) && x.name !in declared ==> x.Unknown? && x.name in supplied
      ensures x.Unknown? ==> (Objects(declared, supplied, x) <==> x.name in supplied && x.name !in declared)
    {
      UndeclaredIsUnknown(declared, supplied, x);
    }
    var rest := declared.Keys;
    while rest != {}
      invariant rest <= declared.Keys
      invariant forall x {:trigger x in problems} :: x in problems <==>
        x.name !in rest && Objects(declared, supplied, x)
      decreases |rest|
    {
      var n :| n in rest;
      var more := DeclaredProblems(declared, supplied, n);
      problems := problems + more;
      rest := rest - {n};
    }
  }

  lemma UndeclaredIsUnknown(declared: Declared, supplied: Supplied, x: Problem)
    ensures Objects(declared, supplied, x) && x.name !in declared ==> x.Unknown? && x.name in supplied
    ensures x.Unknown? ==> (Objects(declared, supplied, x) <==> x.name in supplied && x.name !in declared)
  {
  }

  // ---------- the parameters of a request ----------

  /** Defaults, overridden by what the node supplies. */
  function Merged(declared: Declared, supplied: Supplied): Supplied {
    (map n | n in declared && declared[n].preset.Some? :: declared[n].preset.value) + supplied
  }

  lemma MergedIs(declared: Declared, supplied: Supplied, n: Name)
    ensures n in Merged(declared, supplied) <==> n in supplied || (n in declared && declared[n].preset.Some?)
    ensures n in Merged(declared, supplied) ==>
      Merged(declared, supplied)[n] == if n in supplied then supplied[n] else declared[n].preset.value
  {
  }

  /** What publication checks of a default: its type and the choices, but not the bounds. */
  predicate DefaultsChecked(declared: Declared) {
    forall n | n in declared && declared[n].preset.Some? ::
      OfKind(declared[n].preset.value, declared[n].kind) && AmongChoices(declared[n].preset.value, declared[n])
  }

  /** A request of a fitting node carries every required parameter, nothing undeclared, and only values of the
    * declared types and choices; what the node supplied is within bounds too. */
  lemma MergedFit(declared: Declared, supplied: Supplied)
    requires ParametersFit(declared, supplied) && DefaultsChecked(declared)
    ensures forall n :: n in declared && declared[n].required ==> n in Merged(declared, supplied)
    ensures forall n ::
      n in Merged(declared, supplied) ==>
        n in declared && OfKind(Merged(declared, supplied)[n], declared[n].kind)
          && AmongChoices(Merged(declared, supplied)[n], declared[n])
    ensures forall n ::
      n in supplied ==>
        n in Merged(declared, supplied) && n in declared && Merged(declared, supplied)[n] == supplied[n]
          && Fits(supplied[n], declared[n])
  {
  }

  /** All of a request's parameters fit exactly when every default the node leaves in place lies within the bounds:
    * nothing else checks it. */
  lemma MergedFitIff(declared: Declared, supplied: Supplied)
    requires ParametersFit(declared, supplied) && DefaultsChecked(declared)
    ensures (forall n ::
      n in Merged(declared, supplied) ==> n in declared && Fits(Merged(declared, supplied)[n], declared[n]))
      <==> forall n ::
        n in declared && n !in supplied && declared[n].preset.Some? ==>
          WithinBounds(declared[n].preset.value, declared[n])
  {
    hide AmongChoices, WithinBounds, OfKind;
    var merged := Merged(declared, supplied);
    MergedFit(declared, supplied);
    forall n | n in declared && n !in supplied && declared[n].preset.Some?
      ensures n in merged && merged[n] == declared[n].preset.value
    {
    }
    forall n | n in merged && n !in supplied
      ensures n in declared && declared[n].preset.Some? && merged[n] == declared[n].preset.value
    {
    }
  }

  /** A parameter of the request lies outside the bounds of its declaration. */
  ghost predicate OutOfBounds(declared: Declared, supplied: Supplied) {
    exists n ::
      n in Merged(declared, supplied) && n in declared && !WithinBounds(Merged(declared, supplied)[n], declared[n])
  }

  /** A checked default can lie outside the bounds, and reaches a request. */
  lemma DefaultOutOfBounds()
    ensures exists declared, supplied: Supplied ::
      ParametersFit(declared, supplied) && DefaultsChecked(declared) && OutOfBounds(declared, supplied)
  {
    var n := Name(0);
    var declared: Declared := map[n := Parameter(KindInteger, false, Some(Whole(9)), None, None, Some(1.0))];
    var supplied: Supplied := map[];
    assert n in Merged(declared, supplied) && Merged(declared, supplied)[n] == Whole(9);
    assert Worth(Whole(9)) == Some(9.0);
    assert !WithinBounds(Merged(declared, supplied)[n], declared[n]);
    assert OutOfBounds(declared, supplied);
  }
}
