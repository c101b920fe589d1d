/**
  MultTrait<T1, T2>: the result type of multiplying a T1 by a T2.

  The primary template decays qualified operands and tries again, and otherwise
  takes the type of `operator*`; three partial specialisations take over for
  complex x builtin, builtin x complex and complex x complex, and answer with
  the common type of the two operands. A result of None stands for a
  MultTrait whose nested Type does not exist: a compilation error.
 */
module BlazeMultTrait {
  import opened Options
  import opened TypeTraits
  import opened Mpl

  /** The two type computations MultTrait uses but does not define. */
  datatype Env = Env(
    // CommonType_<A, B>; None when std::common_type has no type for the two
    // (complex<float> and void, say)
    common: (Type, Type) -> Option<Type>,
    // decltype(std::declval<A>() * std::declval<B>()) for decayed A and B;
    // None when no operator* accepts the two
    mult: (Base, Base) -> Option<Type>)

  /** CommonType_ treats cv-qualified operands like their unqualified versions
      (std::common_type decays its arguments). */
  ghost predicate CommonIgnoresCv(env: Env) {
    forall x, y :: env.common(x, y) == env.common(Decay(x), Decay(y))
  }

  // ---------------------------------------------------------------------------
  // The partial specialisations
  // ---------------------------------------------------------------------------

  datatype Specialization =
    | ComplexBuiltin   // MultTrait< complex<T1>, T2, EnableIf_< IsBuiltin<T2> > >
    | BuiltinComplex   // MultTrait< T1, complex<T2>, EnableIf_< IsBuiltin<T1> > >
    | ComplexComplex   // MultTrait< complex<T1>, complex<T2> >

  /** The partial specialisations declared next to the primary template. */
  const Specializations: seq<Specialization> := [ComplexBuiltin, BuiltinComplex, ComplexComplex]

  /** Whether the pattern of specialisation s accepts the arguments as written:
      `complex<T>` matches only an unqualified complex type, while a
      cv-qualified builtin passes the IsBuiltin guard. */
  function Matches(s: Specialization, t1: Type, t2: Type): (r: bool)
    ensures r ==> !IsReference(t1) && !IsReference(t2)
    ensures r ==> t1.base.Complex? || t2.base.Complex?
    ensures r ==> (t1.base.Complex? ==> !Qualified(t1)) && (t2.base.Complex? ==> !Qualified(t2))
  {
    match s
    case ComplexBuiltin => !Qualified(t1) && t1.base.Complex? && IsBuiltin(t2)
    case BuiltinComplex => IsBuiltin(t1) && !Qualified(t2) && t2.base.Complex?
    case ComplexComplex => !Qualified(t1) && t1.base.Complex? && !Qualified(t2) && t2.base.Complex?
  }

  /** No specialisation accepts the pair. */
  predicate NoSpecializationFor(t1: Type, t2: Type) {
    forall s :: !Matches(s, t1, t2)
  }

  /** A complex type is never builtin, so at most one specialisation matches. */
  lemma SpecializationsExclusive(s1: Specialization, s2: Specialization, t1: Type, t2: Type)
    requires Matches(s1, t1, t2) && Matches(s2, t1, t2)
    ensures s1 == s2
  {
  }

  /** The specialisations among `specs` that accept the pair, in order. */
  function Matching(specs: seq<Specialization>, t1: Type, t2: Type): (r: seq<Specialization>)
    ensures |r| <= |specs|
    ensures forall s :: s in r <==> s in specs && Matches(s, t1, t2)
  {
    if specs == [] then []
    else (if Matches(specs[0], t1, t2) then [specs[0]] else []) + Matching(specs[1..], t1, t2)
  }

  /** What template selection settles on: the primary template, one
      specialisation, or a compile error for two equally good ones. */
  datatype Selection = Primary | Chosen(spec: Specialization) | Ambiguous

  function Select(matching: seq<Specialization>): Selection {
    if |matching| == 0 then Primary
    else if |matching| == 1 then Chosen(matching[0])
    else Ambiguous
  }

  /** Every specialisation is declared in the table. */
  lemma SpecializationsComplete(s: Specialization)
    ensures s in Specializations
  {
  }

  /** The three patterns never leave two candidates, so selection is never
      ambiguous, and none is left exactly when no specialisation matches. */
  lemma AtMostOneMatch(t1: Type, t2: Type)
    ensures |Matching(Specializations, t1, t2)| <= 1
    ensures |Matching(Specializations, t1, t2)| == 0 <==> NoSpecializationFor(t1, t2)
  {
    var one := if Matches(ComplexBuiltin, t1, t2) then [ComplexBuiltin] else [];
    var two := if Matches(BuiltinComplex, t1, t2) then [BuiltinComplex] else [];
    var three := if Matches(ComplexComplex, t1, t2) then [ComplexComplex] else [];
    assert [ComplexComplex][1..] == [];
    assert Matching([ComplexComplex], t1, t2) == three;
    assert [BuiltinComplex, ComplexComplex][1..] == [ComplexComplex];
    assert Matching([BuiltinComplex, ComplexComplex], t1, t2) == two + three;
    assert Specializations[1..] == [BuiltinComplex, ComplexComplex];
    assert Matching(Specializations, t1, t2) == one + (two + three);
    forall s
      ensures s in Specializations
    {
      SpecializationsComplete(s);
    }
  }

  /** Template selection for MultTrait<t1, t2> over the three specialisations. */
  function SelectSpecialization(t1: Type, t2: Type): (r: Selection)
    ensures r != Ambiguous
    ensures r.Chosen? ==> Matches(r.spec, t1, t2)
    ensures r == Primary <==> NoSpecializationFor(t1, t2)
  {
    AtMostOneMatch(t1, t2);
    Select(Matching(Specializations, t1, t2))
  }

  // ---------------------------------------------------------------------------
  // The primary template
  // ---------------------------------------------------------------------------

  /** The qualifier test of the primary template: Or over IsConst, IsVolatile
      and IsReference of both arguments. */
  function HasQualifier(t1: Type, t2: Type): (r: bool)
    ensures r <==> Qualified(t1) || Qualified(t2)
  {
    var conds := [IsConst(t1), IsVolatile(t1), IsReference(t1), IsConst(t2), IsVolatile(t2), IsReference(t2)];
    OrIsSomeTrue(conds);
    assert conds[0] == IsConst(t1) && conds[1] == IsVolatile(t1) && conds[2] == IsReference(t1);
    assert conds[3] == IsConst(t2) && conds[4] == IsVolatile(t2) && conds[5] == IsReference(t2);
    Or(conds)
  }

  function QualifierRank(t1: Type, t2: Type): nat {
    if Qualified(t1) || Qualified(t2) then 1 else 0
  }

  /** MultTrait<t1, t2>::Type, and equally MultTrait_<t1, t2>; None when it does not exist. */
  function MultTrait(env: Env, t1: Type, t2: Type): (r: Option<Type>)
    ensures r.Some? ==>
      (r == env.mult(t1.base, t2.base) || r == env.common(t1, t2) || r == env.common(Decay(t1), Decay(t2)))
    decreases QualifierRank(t1, t2)
  {
    match SelectSpecialization(t1, t2)
    // every specialisation's nested Type is CommonType_ of its two arguments
    // in order: CommonType_< complex<T1>, T2 >, CommonType_< T1, complex<T2> >,
    // CommonType_< complex<T1>, complex<T2> >
    case Chosen(_) => env.common(t1, t2)
    case Ambiguous => None
    case Primary =>
      if HasQualifier(t1, t2) then MultTrait(env, Decay(t1), Decay(t2))
      else env.mult(Decay(t1).base, Decay(t2).base)
  }

  /** How many MultTrait instantiations resolving MultTrait<t1, t2> passes
      through. It follows the branches of MultTrait exactly (a specialisation
      ends the search, otherwise a qualified pair re-enters on the decayed pair),
      so its bound says the primary template re-enters itself at most once. */
  function Instantiations(t1: Type, t2: Type): (r: nat)
    ensures 1 <= r <= 2
    ensures r == 2 <==> NoSpecializationFor(t1, t2) && (Qualified(t1) || Qualified(t2))
    decreases QualifierRank(t1, t2)
  {
    if SelectSpecialization(t1, t2) == Primary && HasQualifier(t1, t2) then
      1 + Instantiations(Decay(t1), Decay(t2))
    else
      1
  }

  // ---------------------------------------------------------------------------
  // A normalise-first resolver, and what MultTrait promises
  // ---------------------------------------------------------------------------

  /** Resolution that decays both operands up front, then tries the
      specialisations, then operator*. */
  function Resolve(env: Env, t1: Type, t2: Type): Option<Type> {
    var c1, c2 := Decay(t1), Decay(t2);
    match SelectSpecialization(c1, c2)
    // as in MultTrait, each specialisation answers CommonType_ of its arguments
    case Chosen(_) => env.common(c1, c2)
    case Ambiguous => None
    case Primary => env.mult(c1.base, c2.base)
  }

  /** A specialisation that accepts the operands as written also accepts them decayed. */
  lemma MatchSurvivesDecay(s: Specialization, t1: Type, t2: Type)
    requires Matches(s, t1, t2)
    ensures Matches(s, Decay(t1), Decay(t2))
  {
  }

  /** Contrapositive: no specialisation for the decayed operands means none for
      the operands as written. */
  lemma NoMatchBeforeDecay(t1: Type, t2: Type)
    requires NoSpecializationFor(Decay(t1), Decay(t2))
    ensures NoSpecializationFor(t1, t2)
  {
    forall s
      ensures !Matches(s, t1, t2)
    {
      assert !Matches(s, Decay(t1), Decay(t2));
    }
  }

  /** When no specialisation accepts the operands as written, the answer is the
      answer for the decayed operands, whatever CommonType_ does. */
  lemma DecayRetry(env: Env, t1: Type, t2: Type)
    requires NoSpecializationFor(t1, t2)
    ensures MultTrait(env, t1, t2) == MultTrait(env, Decay(t1), Decay(t2))
  {
  }

  /** Qualifiers are ignored: qualified operands resolve as their decayed versions,
      given a CommonType_ that ignores cv-qualification. */
  lemma QualifierIrrelevance(env: Env, t1: Type, t2: Type)
    requires CommonIgnoresCv(env)
    ensures MultTrait(env, t1, t2) == MultTrait(env, Decay(t1), Decay(t2))
  {
  }

  /** The normalise-first resolver gives the same answer as MultTrait. */
  lemma MultTraitAgreesWithResolve(env: Env, t1: Type, t2: Type)
    requires CommonIgnoresCv(env)
    ensures MultTrait(env, t1, t2) == Resolve(env, t1, t2)
  {
  }

  /** The cv-qualification of a builtin operand reaches CommonType_: the
      complex x builtin specialisation accepts `const T2` without decaying it,
      so any CommonType_ that tells `const T2` from `T2` makes MultTrait do so. */
  lemma CvBuiltinReachesCommonType(env: Env, e: Base, k: nat)
    requires env.common(Plain(Complex(e)), Type(Builtin(k), true, false, false))
          != env.common(Plain(Complex(e)), Plain(Builtin(k)))
    ensures MultTrait(env, Plain(Complex(e)), Type(Builtin(k), true, false, false))
         != MultTrait(env, Plain(Complex(e)), Plain(Builtin(k)))
  {
  }

  /** With no specialisation for the decayed operands, the result is exactly
      what operator* yields for them. */
  lemma FallbackUsesOperator(env: Env, t1: Type, t2: Type)
    requires NoSpecializationFor(Decay(t1), Decay(t2))
    ensures MultTrait(env, t1, t2) == env.mult(t1.base, t2.base)
  {
    NoMatchBeforeDecay(t1, t2);
    DecayRetry(env, t1, t2);
  }

  /** There is no result exactly when the type that answers has none: operator*
      when no specialisation fits the decayed operands, otherwise CommonType_ of
      the pair the chosen specialisation sees. Never a default type. */
  lemma NoResultIffNoOperator(env: Env, t1: Type, t2: Type)
    ensures MultTrait(env, t1, t2).None?
        <==> if NoSpecializationFor(Decay(t1), Decay(t2)) then env.mult(t1.base, t2.base).None?
             else if NoSpecializationFor(t1, t2) then env.common(Decay(t1), Decay(t2)).None?
             else env.common(t1, t2).None?
  {
    if NoSpecializationFor(Decay(t1), Decay(t2)) {
      FallbackUsesOperator(env, t1, t2);
    } else if NoSpecializationFor(t1, t2) {
      DecayRetry(env, t1, t2);
    }
  }

  /** Resolving the decayed pair never re-enters the primary template: the
      retry of MultTrait is its last instantiation. */
  lemma RetryIsFinal(env: Env, t1: Type, t2: Type)
    ensures !HasQualifier(Decay(t1), Decay(t2))
    ensures Instantiations(Decay(t1), Decay(t2)) == 1
    ensures NoSpecializationFor(Decay(t1), Decay(t2))
        ==> MultTrait(env, Decay(t1), Decay(t2)) == env.mult(t1.base, t2.base)
  {
  }

  /** complex<T1> x builtin T2 gives CommonType_ of the two, directly when the
      operands match the specialisation as written, else after decaying them. */
  lemma ComplexTimesBuiltin(env: Env, t1: Type, t2: Type)
    requires t1.base.Complex? && t2.base.Builtin?
    ensures MultTrait(env, t1, t2)
         == if Matches(ComplexBuiltin, t1, t2) then env.common(t1, t2)
            else env.common(Decay(t1), Decay(t2))
  {
  }

  /** builtin T1 x complex<T2> gives CommonType_ of the two. */
  lemma BuiltinTimesComplex(env: Env, t1: Type, t2: Type)
    requires t1.base.Builtin? && t2.base.Complex?
    ensures MultTrait(env, t1, t2)
         == if Matches(BuiltinComplex, t1, t2) then env.common(t1, t2)
            else env.common(Decay(t1), Decay(t2))
  {
  }

  /** complex<T1> x complex<T2> gives CommonType_ of the two. */
  lemma ComplexTimesComplex(env: Env, t1: Type, t2: Type)
    requires t1.base.Complex? && t2.base.Complex?
    ensures MultTrait(env, t1, t2) == env.common(Decay(t1), Decay(t2))
  {
    if Qualified(t1) || Qualified(t2) {
      assert NoSpecializationFor(t1, t2);
      DecayRetry(env, t1, t2);
      assert Matches(ComplexComplex, Decay(t1), Decay(t2));
    } else {
      assert Matches(ComplexComplex, t1, t2);
      assert Decay(t1) == t1 && Decay(t2) == t2;
    }
  }
}
