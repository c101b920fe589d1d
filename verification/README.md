# Blaze `MultTrait` — a verified model

Blaze's `MultTrait<T1, T2>` picks, at compile time, the type that results from
multiplying a `T1` by a `T2`. The model treats it as a pure function over type
descriptors:

- `TypeTraits` (`type_traits.dfy`) holds the descriptors and the traits the header consults.
  A `Base` is a builtin type, a `complex<...>` instantiation, or any other type.
  A `Type` is a `Base` with top-level `const`, `volatile` and reference flags.
  The module also gives `Decay` (the cv- and reference-stripping part of `Decay_`) and `IsBuiltin`.
- `Mpl` (`mpl.dfy`) holds the variadic compile-time `Or` that combines the qualifier tests.
- `BlazeMultTrait` (`mult_trait.dfy`) holds the three partial specialisations (complex × builtin, builtin × complex, complex × complex) and the primary template.
  Each specialisation's nested Type is `CommonType_` of its two arguments, in order.
  Template selection gathers the specialisations whose pattern accepts the arguments as written. No match selects the primary template. One match selects that specialisation. Two or more would be an ambiguity error.
  `MultTrait(env, t1, t2)` is `MultTrait<t1,t2>::Type`, which is also `MultTrait_<t1,t2>`. It is `None` when that type does not exist, which is a compilation error.
- `Options` (`options.dfy`) is the `Option` datatype.

The header calls two type computations without defining them. They are fields of the `Env` datatype, so every property holds for every choice of them:
`common` stands for `CommonType_`, and `mult` stands for `decltype(std::declval<A>() * std::declval<B>())`. Both are partial. `common` yields `None` when `CommonType_` has no type, as for `complex<float>` and `void`. `mult` yields `None` when no `operator*` applies.

Two points where the code is more precise than the plain description "qualifiers are ignored":

- The specialisations see the operands as written. `complex<T>` matches only an unqualified complex type. But `IsBuiltin` (here `std::is_fundamental`) holds for `const int` and `volatile int`, so `complex<float> × const int` matches the complex × builtin specialisation directly. `CommonType_` then receives `const int`. So qualifiers are ignored only because `CommonType_` ignores cv-qualification, as `std::common_type` does. `QualifierIrrelevance` takes that as its hypothesis `CommonIgnoresCv`. `CvBuiltinReachesCommonType` shows the hypothesis cannot be dropped.
- Decaying happens only in the primary template, and only when some flag is set. A "decay both operands first" resolver (`Resolve`) gives the same answers under the same hypothesis (`MultTraitAgreesWithResolve`). Without it the answers can differ.

## Model

| member | source | states |
|---|---|---|
| `TypeTraits.Decay` | src/amun/3rd_party/blaze/math/traits/MultTrait.h:142-143 | the decayed type keeps the base type and has no const, volatile or reference; decay changes a type exactly when it carries one of them |
| `TypeTraits.DecayIdempotent` | src/amun/3rd_party/blaze/math/traits/MultTrait.h:142-143 | decaying a decayed type changes nothing, and an unqualified type is its own decay |
| `TypeTraits.IsBuiltin` | src/amun/3rd_party/blaze/math/traits/MultTrait.h:172 | the builtin guard never holds of a complex or other type, nor of a reference; for a non-reference it holds exactly when the decayed type is builtin, so cv-qualification does not affect it |
| `Mpl.OrIsSomeTrue` | src/amun/3rd_party/blaze/math/traits/MultTrait.h:156-157 | the compile-time `Or` over a list of conditions holds exactly when one of them holds |
| `BlazeMultTrait.HasQualifier` | src/amun/3rd_party/blaze/math/traits/MultTrait.h:156-157 | the six-way qualifier test is true exactly when either operand is const, volatile or a reference |
| `BlazeMultTrait.Matches` | src/amun/3rd_party/blaze/math/traits/MultTrait.h:171-206 | a specialisation accepts the operands as written only when neither is a reference, at least one is complex, and every complex operand is unqualified; `MatchSurvivesDecay` and `SpecializationsExclusive` state how the three patterns relate |
| `BlazeMultTrait.SpecializationsExclusive` | src/amun/3rd_party/blaze/math/traits/MultTrait.h:171-212 | no operand pair is accepted by two different specialisations, because a complex type is never builtin |
| `BlazeMultTrait.Matching` | src/amun/3rd_party/blaze/math/traits/MultTrait.h:171-212 | the candidate list holds exactly the listed specialisations whose pattern accepts the operands, and is no longer than the list |
| `BlazeMultTrait.AtMostOneMatch` | src/amun/3rd_party/blaze/math/traits/MultTrait.h:171-212 | over the three specialisations at most one candidate remains, and none remains exactly when no specialisation accepts the operands |
| `BlazeMultTrait.SelectSpecialization` | src/amun/3rd_party/blaze/math/traits/MultTrait.h:134-212 | selection is never ambiguous; a chosen specialisation accepts the operands; the primary template is used exactly when none does |
| `BlazeMultTrait.MultTrait` | src/amun/3rd_party/blaze/math/traits/MultTrait.h:134-162 | any result comes from `operator*` on the base types or from `CommonType_` of the operands as written or decayed, never from a default; `DecayRetry`, `FallbackUsesOperator`, `NoResultIffNoOperator` and the three complex lemmas state its behaviour case by case |
| `BlazeMultTrait.Instantiations` | src/amun/3rd_party/blaze/math/traits/MultTrait.h:156-159 | resolution passes through one or two instantiations; two exactly when no specialisation fits and an operand is qualified, so the primary template re-enters itself at most once |
| `BlazeMultTrait.RetryIsFinal` | src/amun/3rd_party/blaze/math/traits/MultTrait.h:156-159 | the decayed pair fails the qualifier test, so `MultTrait` on it is a single instantiation, and with no specialisation it is `operator*` on the base types |
| `BlazeMultTrait.MatchSurvivesDecay` | src/amun/3rd_party/blaze/math/traits/MultTrait.h:142-143 | a specialisation that accepts the operands as written also accepts their decayed versions |
| `BlazeMultTrait.NoMatchBeforeDecay` | src/amun/3rd_party/blaze/math/traits/MultTrait.h:156-158 | if no specialisation fits the decayed operands, none fits the operands as written |
| `BlazeMultTrait.DecayRetry` | src/amun/3rd_party/blaze/math/traits/MultTrait.h:156-158 | when no specialisation accepts the operands as written, the result is the result for the decayed operands, for any `CommonType_` |
| `BlazeMultTrait.QualifierIrrelevance` | src/amun/3rd_party/blaze/math/traits/MultTrait.h:70-74 | for any flags on either operand the result equals the result for the decayed pair, given a `CommonType_` that ignores cv-qualification |
| `BlazeMultTrait.MultTraitAgreesWithResolve` | src/amun/3rd_party/blaze/math/traits/MultTrait.h:134-212 | under the same hypothesis, `MultTrait` equals the resolver that decays both operands first, then tries the specialisations, then `operator*` |
| `BlazeMultTrait.CvBuiltinReachesCommonType` | src/amun/3rd_party/blaze/math/traits/MultTrait.h:171-176 | whenever `CommonType_` tells `complex<E> , const B` apart from `complex<E> , B`, so does `MultTrait`: the specialisation passes the qualified builtin on undecayed |
| `BlazeMultTrait.FallbackUsesOperator` | src/amun/3rd_party/blaze/math/traits/MultTrait.h:149 | when no specialisation fits the decayed operands, the result is exactly the type of `operator*` on the two base types, qualified or not |
| `BlazeMultTrait.NoResultIffNoOperator` | src/amun/3rd_party/blaze/math/traits/MultTrait.h:70-74 | there is no result exactly when the answering computation has none: `operator*` when no specialisation fits the decayed operands, otherwise `CommonType_` of the pair the chosen specialisation sees; a failure is never replaced by a default type |
| `BlazeMultTrait.ComplexTimesBuiltin` | src/amun/3rd_party/blaze/math/traits/MultTrait.h:171-178 | complex × builtin yields `CommonType_` of the operands as written when they match the pattern, otherwise of the decayed operands; `operator*` is never consulted |
| `BlazeMultTrait.BuiltinTimesComplex` | src/amun/3rd_party/blaze/math/traits/MultTrait.h:188-195 | builtin × complex yields `CommonType_` of the operands as written when they match the pattern, otherwise of the decayed operands; `operator*` is never consulted |
| `BlazeMultTrait.ComplexTimesComplex` | src/amun/3rd_party/blaze/math/traits/MultTrait.h:205-212 | complex × complex, with any qualifiers, yields `CommonType_` of the two decayed complex types; `operator*` is never consulted |

## Left out

- How `CommonType_` computes its result (arithmetic promotion, `std::common_type` for `complex`). It is the uninterpreted `Env.common`. No promotion fact and no symmetry of complex × complex is claimed, because this header does not establish them.
- What `operator*` returns for concrete types, and the runtime `mult` example in the documentation. `operator*` is the uninterpreted partial function `Env.mult`.
- How `IsBuiltin` is defined. blaze/util/typetraits/IsBuiltin.h is not part of this model. It is read as `std::is_fundamental`: true for cv-qualified fundamental types, false for references.
- The vector and matrix specialisations the documentation lists. They live in files that are not part of this model.
- The array-to-pointer and function-to-pointer parts of `std::decay`. The qualifier test never looks at them.
- SFINAE, `EnableIf_` and partial ordering between overlapping specialisations. Only the selection they produce is modelled: the specialisations first, then the primary template. Two matching specialisations count as an ambiguity error. The three in this header never overlap.
- BlazeMultTrait.QualifierIrrelevance: holds under the hypothesis that `CommonType_` ignores cv-qualification. The header itself hands a cv-qualified builtin operand to `CommonType_` (see `CvBuiltinReachesCommonType`).
- BlazeMultTrait.MultTraitAgreesWithResolve: holds under the same hypothesis, for the same reason.
