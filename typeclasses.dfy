/** The type-class enumeration and the literal contents every class starts
    with (typeclasses.go). */
module TypeClasses {
  import opened Dtypes
  import opened OrderedSets

  /** A class index; like Go's `type TypeClass int` it may be any integer,
      and only 0 <= tc < MaxTypeClass name a class. */
  type TypeClass = int

  const All: TypeClass := 0
  const Specialized: TypeClass := 1
  const Addable: TypeClass := 2
  const Number: TypeClass := 3
  const Ord: TypeClass := 4
  const Eq: TypeClass := 5
  const Unsigned: TypeClass := 6
  const Signed: TypeClass := 7
  const SignedNonComplex: TypeClass := 8
  const Floats: TypeClass := 9
  const Complexes: TypeClass := 10
  const FloatComplex: TypeClass := 11
  const NonComplexNumber: TypeClass := 12
  const Generatable: TypeClass := 13
  const MaxTypeClass: TypeClass := 14

  const AllTypes: seq<Dtype> := [
    Bool, Int, Int8, Int16, Int32, Int64, Uint, Uint8, Uint16, Uint32, Uint64,
    Float32, Float64, Complex64, Complex128, String, Uintptr, UnsafePointer]

  const SpecializedTypes: seq<Dtype> := [
    Bool, Int, Int8, Int16, Int32, Int64, Uint, Uint8, Uint16, Uint32, Uint64,
    Float32, Float64, Complex64, Complex128, String]

  const AddableTypes: seq<Dtype> := [
    Int, Int8, Int16, Int32, Int64, Uint, Uint8, Uint16, Uint32, Uint64,
    Float32, Float64, Complex64, Complex128, String]

  const NumberTypes: seq<Dtype> := [
    Int, Int8, Int16, Int32, Int64, Uint, Uint8, Uint16, Uint32, Uint64,
    Float32, Float64, Complex64, Complex128]

  const OrdTypes: seq<Dtype> := [
    Int, Int8, Int16, Int32, Int64, Uint, Uint8, Uint16, Uint32, Uint64,
    Float32, Float64, String]

  const EqTypes: seq<Dtype> := [
    Bool, Int, Int8, Int16, Int32, Int64, Uint, Uint8, Uint16, Uint32, Uint64,
    Float32, Float64, Complex64, Complex128, String, Uintptr, UnsafePointer]

  const UnsignedTypes: seq<Dtype> := [Uint, Uint8, Uint16, Uint32, Uint64]

  const SignedTypes: seq<Dtype> := [
    Int, Int8, Int16, Int32, Int64, Float32, Float64, Complex64, Complex128]

  const SignedNonComplexTypes: seq<Dtype> := [
    Int, Int8, Int16, Int32, Int64, Float32, Float64]

  const FloatTypes: seq<Dtype> := [Float32, Float64]

  const ComplexTypes: seq<Dtype> := [Complex64, Complex128]

  const FloatComplexTypes: seq<Dtype> := [Float32, Float64, Complex64, Complex128]

  const NonComplexNumberTypes: seq<Dtype> := [
    Int, Int8, Int16, Int32, Int64, Uint, Uint8, Uint16, Uint32, Uint64,
    Float32, Float64]

  const GeneratableTypes: seq<Dtype> := [
    Bool, Int, Int8, Int16, Int32, Int64, Uint, Uint8, Uint16, Uint32, Uint64,
    Float32, Float64, String]

  /** Every seeded literal lists its members in declaration order. */
  ghost predicate RankAscending(s: seq<Dtype>) {
    forall i :: 0 <= i < |s| - 1 ==> Rank(s[i]) < Rank(s[i + 1])
  }

  lemma {:induction false} RankApart(s: seq<Dtype>, i: int, j: int)
    requires RankAscending(s) && 0 <= i < j < |s|
    ensures Rank(s[i]) < Rank(s[j])
    decreases j - i
  {
    if i + 1 < j {
      RankApart(s, i + 1, j);
    }
  }

  lemma AscendingNoDup(s: seq<Dtype>)
    requires RankAscending(s)
    ensures NoDup(s)
  {
    forall i, j | 0 <= i < j < |s|
      ensures s[i] != s[j]
    {
      RankApart(s, i, j);
    }
  }

  /** The registry starts as the built-ins in declaration order. */
  lemma AllTypesRanks()
    ensures |AllTypes| == 18
    ensures forall i :: 0 <= i < |AllTypes| ==> Rank(AllTypes[i]) == i
  {
  }

  /** The registry lists exactly the eighteen built-in descriptors, each once. */
  lemma AllTypesAreTheBuiltins()
    ensures |AllTypes| == 18 && NoDup(AllTypes)
    ensures forall d :: d in AllTypes <==> !d.Custom?
  {
    AllTypesRanks();
    forall i, j | 0 <= i < j < |AllTypes|
      ensures AllTypes[i] != AllTypes[j]
    {
      assert Rank(AllTypes[i]) != Rank(AllTypes[j]);
    }
    forall d: Dtype | !d.Custom?
      ensures d in AllTypes
    {
      assert AllTypes[Rank(d)] == d;
    }
  }

  /** No seeded class lists a descriptor twice. */
  lemma SeedsNoDup()
    ensures NoDup(SpecializedTypes) && NoDup(AddableTypes) && NoDup(NumberTypes)
    ensures NoDup(OrdTypes) && NoDup(EqTypes) && NoDup(UnsignedTypes)
    ensures NoDup(SignedTypes) && NoDup(SignedNonComplexTypes) && NoDup(FloatTypes)
    ensures NoDup(ComplexTypes) && NoDup(FloatComplexTypes)
    ensures NoDup(NonComplexNumberTypes) && NoDup(GeneratableTypes)
  {
    RegistryWideSeedsNoDup();
    NumericWideSeedsNoDup();
    NarrowSeedsNoDup();
  }

  lemma RegistryWideSeedsNoDup()
    ensures NoDup(SpecializedTypes) && NoDup(EqTypes) && NoDup(GeneratableTypes)
  {
    AscendingNoDup(SpecializedTypes);
    AscendingNoDup(EqTypes);
    AscendingNoDup(GeneratableTypes);
  }

  lemma NumericWideSeedsNoDup()
    ensures NoDup(AddableTypes) && NoDup(NumberTypes)
  {
    AscendingNoDup(AddableTypes);
    AscendingNoDup(NumberTypes);
  }

  lemma NarrowSeedsNoDup()
    ensures NoDup(OrdTypes) && NoDup(UnsignedTypes)
    ensures NoDup(SignedTypes) && NoDup(SignedNonComplexTypes) && NoDup(FloatTypes)
    ensures NoDup(ComplexTypes) && NoDup(FloatComplexTypes) && NoDup(NonComplexNumberTypes)
  {
    OrderedSeedsNoDup();
    SignedSeedsNoDup();
    SmallSeedsNoDup();
  }

  lemma OrderedSeedsNoDup()
    ensures NoDup(OrdTypes) && NoDup(NonComplexNumberTypes)
  {
    AscendingNoDup(OrdTypes);
    AscendingNoDup(NonComplexNumberTypes);
  }

  lemma SignedSeedsNoDup()
    ensures NoDup(SignedTypes) && NoDup(SignedNonComplexTypes)
  {
    AscendingNoDup(SignedTypes);
    AscendingNoDup(SignedNonComplexTypes);
  }

  lemma SmallSeedsNoDup()
    ensures NoDup(UnsignedTypes) && NoDup(FloatTypes)
    ensures NoDup(ComplexTypes) && NoDup(FloatComplexTypes)
  {
  }

  /** Every seeded member is registered, so it has an ID. */
  lemma SeedsRegistered()
    ensures Subset(SpecializedTypes, AllTypes) && Subset(AddableTypes, AllTypes)
    ensures Subset(NumberTypes, AllTypes) && Subset(OrdTypes, AllTypes)
    ensures Subset(EqTypes, AllTypes) && Subset(UnsignedTypes, AllTypes)
    ensures Subset(SignedTypes, AllTypes) && Subset(SignedNonComplexTypes, AllTypes)
    ensures Subset(FloatTypes, AllTypes) && Subset(ComplexTypes, AllTypes)
    ensures Subset(FloatComplexTypes, AllTypes) && Subset(NonComplexNumberTypes, AllTypes)
    ensures Subset(GeneratableTypes, AllTypes)
  {
  }

  /** The seeded classes already obey the registration cascade. */
  lemma SeedsCascade()
    ensures Subset(FloatTypes, NumberTypes) && Subset(FloatTypes, OrdTypes)
    ensures Subset(NumberTypes, EqTypes) && Subset(OrdTypes, EqTypes)
    ensures Subset(EqTypes, AllTypes)
  {
  }

  /** Numbers need not be ordered, nor ordered types be numbers; signedness
      splits the integers; the extras belong to no numeric class. */
  lemma SeedSeparations()
    ensures Complex64 in NumberTypes && Complex64 !in OrdTypes
    ensures Complex128 in NumberTypes && Complex128 !in OrdTypes
    ensures String in OrdTypes && String !in NumberTypes
    ensures forall d :: d in UnsignedTypes ==> d !in SignedTypes
    ensures Float64 !in UnsignedTypes
    ensures forall d :: d in {Uintptr, UnsafePointer} ==>
      d !in NumberTypes && d !in OrdTypes && d !in FloatTypes && d !in AddableTypes &&
      d !in SpecializedTypes && d !in GeneratableTypes &&
      d !in UnsignedTypes && d !in SignedTypes && d !in SignedNonComplexTypes &&
      d !in ComplexTypes && d !in FloatComplexTypes && d !in NonComplexNumberTypes
  {
  }

  /** Eq starts as the whole registry; Specialized as the registry without
      the two pointer-like extras. */
  lemma SeedEqAndSpecialized()
    ensures EqTypes == AllTypes
    ensures forall d :: d in SpecializedTypes <==> d in AllTypes && d !in {Uintptr, UnsafePointer}
  {
  }
}
