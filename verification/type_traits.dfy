/**
  The type descriptors that MultTrait works on, and the type traits it consults:
  IsConst, IsVolatile, IsReference, IsBuiltin and Decay_.
 */
module TypeTraits {

  /** An unqualified C++ type, as far as MultTrait tells types apart. */
  datatype Base =
    | Builtin(kind: nat)   // a fundamental type: bool, char, int, float, double, ...
    | Complex(elem: Base)  // an instantiation complex<elem>
    | Other(id: nat)       // any other type: vectors, matrices, user-defined classes

  /** A type as written where MultTrait is used: a base type with top-level
      const and volatile qualification, possibly behind a reference. */
  datatype Type = Type(base: Base, isConst: bool, isVolatile: bool, isRef: bool)

  /** The type with no qualifier and no reference. */
  function Plain(b: Base): Type {
    Type(b, false, false, false)
  }

  /** IsConst<T>. For a reference the flag records the referent's const, where
      std::is_const of a reference type is false; the difference never shows,
      because IsReference then holds and every decision reads the three flags
      together (through Qualified and Decay). */
  predicate IsConst(t: Type) { t.isConst }

  /** IsVolatile<T>, with the same reading of the flag behind a reference as IsConst. */
  predicate IsVolatile(t: Type) { t.isVolatile }

  predicate IsReference(t: Type) { t.isRef }

  /** True when decaying the type would change it. */
  predicate Qualified(t: Type) {
    IsConst(t) || IsVolatile(t) || IsReference(t)
  }

  /** Decay_<T>, restricted to its cv- and reference-stripping part. */
  function Decay(t: Type): (r: Type)
    ensures r.base == t.base && !Qualified(r)
    ensures r == t <==> !Qualified(t)
  {
    Plain(t.base)
  }

  /** Decaying an already decayed type changes nothing. */
  lemma DecayIdempotent(t: Type)
    ensures Decay(Decay(t)) == Decay(t)
    ensures !Qualified(t) ==> Decay(t) == t
  {
  }

  /** IsBuiltin<T>, read as std::is_fundamental: it holds of cv-qualified
      fundamental types but not of references to them. */
  function IsBuiltin(t: Type): (r: bool)
    ensures r ==> !t.base.Complex? && !t.base.Other?
    ensures !IsReference(t) ==> (r <==> Decay(t).base.Builtin?)
    ensures IsReference(t) ==> !r
  {
    t.base.Builtin? && !t.isRef
  }
}
