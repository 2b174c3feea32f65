/** The package-level registry of dtype.go as an object: one field per
    class slice and one for the constructor table. Every method is proved
    to change the state exactly as the matching function of Cascade
    specifies, and to keep a consistent registry consistent. */
module Registry {
  import opened Errors
  import opened Dtypes
  import opened OrderedSets
  import opened TypeClasses
  import opened Constructors
  import opened Cascade

  /** Whether `s` holds `d`: the scan every registration starts with. */
  method Contains(s: seq<Dtype>, d: Dtype) returns (found: bool)
    ensures found <==> d in s
  {
    var i := 0;
    while i < |s|
      invariant 0 <= i <= |s|
      invariant forall j :: 0 <= j < i ==> s[j] != d
    {
      if s[i] == d {
        return true;
      }
      i := i + 1;
    }
    return false;
  }

  /** typeclassCheck (dtype.go:186-197): a nil class admits everything. */
  method CheckClass(d: Dtype, cls: Option<seq<Dtype>>) returns (err: Option<ErrorKind>)
    ensures err == CheckMembership(d, cls)
  {
    if cls.None? {
      return None;
    }
    var found := Contains(cls.value, d);
    if found {
      return None;
    }
    return Some(NotInTypeClass);
  }

  class Registry {
    var all: seq<Dtype>
    var specialized: seq<Dtype>
    var addable: seq<Dtype>
    var number: seq<Dtype>
    var ord: seq<Dtype>
    var eq: seq<Dtype>
    var unsigned: seq<Dtype>
    var signed: seq<Dtype>
    var signedNonComplex: seq<Dtype>
    var floats: seq<Dtype>
    var complexes: seq<Dtype>
    var floatComplex: seq<Dtype>
    var nonComplexNumber: seq<Dtype>
    var generatable: seq<Dtype>
    var fromInt: map<Dtype, Ctor>

    function State(): RegistryState
      reads this
    {
      RegistryState(all, specialized, addable, number, ord, eq, unsigned, signed,
                    signedNonComplex, floats, complexes, floatComplex,
                    nonComplexNumber, generatable, fromInt)
    }

    ghost predicate Valid()
      reads this
    {
      Consistent(State())
    }

    /** The registry as package initialisation leaves it. */
    constructor ()
      ensures State() == Seed() && Valid()
    {
      all := AllTypes;
      specialized := SpecializedTypes;
      addable := AddableTypes;
      number := NumberTypes;
      ord := OrdTypes;
      eq := EqTypes;
      unsigned := UnsignedTypes;
      signed := SignedTypes;
      signedNonComplex := SignedNonComplexTypes;
      floats := FloatTypes;
      complexes := ComplexTypes;
      floatComplex := FloatComplexTypes;
      nonComplexNumber := NonComplexNumberTypes;
      generatable := GeneratableTypes;
      fromInt := BuiltinConstructors;
      SeedConsistent();
    }

    /** Register (dtype.go:275-284). */
    method Register(d: Dtype)
      modifies this`all
      ensures State() == Cascade.Register(old(State()), d)
      ensures old(Valid()) ==> Valid()
    {
      var found := Contains(all, d);
      if !found {
        all := all + [d];
      }
      if old(Valid()) {
        RegisterPreserves(old(State()), d);
      }
    }

    /** RegisterEq (dtype.go:262-272). */
    method RegisterEq(d: Dtype)
      modifies this`eq, this`all
      ensures State() == Cascade.RegisterEq(old(State()), d)
      ensures old(Valid()) ==> Valid()
    {
      var found := Contains(eq, d);
      if !found {
        eq := eq + [d];
        Register(d);
      }
      if old(Valid()) {
        RegisterEqPreserves(old(State()), d);
      }
    }

    /** RegisterOrd (dtype.go:249-259). */
    method RegisterOrd(d: Dtype)
      modifies this`ord, this`eq, this`all
      ensures State() == Cascade.RegisterOrd(old(State()), d)
      ensures old(Valid()) ==> Valid()
    {
      var found := Contains(ord, d);
      if !found {
        ord := ord + [d];
        RegisterEq(d);
      }
      if old(Valid()) {
        RegisterOrdPreserves(old(State()), d);
      }
    }

    /** RegisterNumber (dtype.go:218-231); `None` is a nil constructor. */
    method RegisterNumber(d: Dtype, c: Option<Ctor>)
      modifies this`number, this`fromInt, this`eq, this`all
      ensures State() == Cascade.RegisterNumber(old(State()), d, c)
      ensures old(Valid()) ==> Valid()
    {
      var found := Contains(number, d);
      if !found {
        ghost var before := State();
        if c.Some? {
          fromInt := fromInt[d := c.value];
        }
        number := number + [d];
        ghost var withCtor := if c.Some? then before.(fromInt := before.fromInt[d := c.value]) else before;
        assert State() == withCtor.(number := withCtor.number + [d]);
        RegisterEq(d);
      }
      if old(Valid()) {
        RegisterNumberPreserves(old(State()), d, c);
      }
    }

    /** RegisterFloat (dtype.go:235-246). */
    method RegisterFloat(d: Dtype)
      modifies this`floats, this`number, this`fromInt, this`ord, this`eq, this`all
      ensures State() == Cascade.RegisterFloat(old(State()), d)
      ensures old(Valid()) ==> Valid()
    {
      var found := Contains(floats, d);
      if !found {
        floats := floats + [d];
        RegisterNumber(d, None);
        RegisterOrd(d);
      }
      if old(Valid()) {
        RegisterFloatPreserves(old(State()), d);
      }
    }

    /** ID (dtype.go:287-296): the position in the registry, or -1. */
    method ID(d: Dtype) returns (id: int)
      ensures id == IndexOf(all, d)
    {
      var i := 0;
      while i < |all|
        invariant 0 <= i <= |all|
        invariant forall j :: 0 <= j < i ==> all[j] != d
      {
        if all[i] == d {
          IndexOfUnique(all, d, i);
          return i;
        }
        i := i + 1;
      }
      return -1;
    }

    /** FindByName (dtype.go:163-170). */
    method FindByName(n: string) returns (r: Result<Dtype>)
      ensures r == FindName(all, n)
    {
      var i := 0;
      while i < |all|
        invariant 0 <= i <= |all|
        invariant forall j :: 0 <= j < i ==> Name(all[j]) != n
      {
        if Name(all[i]) == n {
          FindNameFirst(all, n, i);
          return Ok(all[i]);
        }
        i := i + 1;
      }
      return Err(NameNotFound);
    }

    /** TypeClassCheck (dtype.go:174-184). */
    method TypeClassCheck(d: Dtype, tc: TypeClass) returns (err: Option<ErrorKind>)
      ensures err == Cascade.TypeClassCheck(State(), d, tc)
    {
      if tc >= MaxTypeClass {
        return Some(UnknownTypeClass);
      }
      var cls: Option<seq<Dtype>> := None;
      if tc >= All {
        cls := Some(Class(State(), tc));
      }
      err := CheckClass(d, cls);
    }

    /** FromInt (constructors.go:13-19) on the registry's table. */
    method FromInt(w: WordSize, d: Dtype, v: int) returns (r: Result<Value>)
      requires IsGoInt(v, w)
      ensures r == Constructors.FromInt(fromInt, w, d, v)
    {
      r := Constructors.FromInt(fromInt, w, d, v);
    }
  }
}
