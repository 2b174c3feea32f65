/** The registry's state as a value, and the registration functions that
    specify how dtype.go changes it (dtype.go:155-296). Each Register
    function follows the Go code step by step: it first appends to its own
    class, unless the descriptor is already there, and only then cascades
    to the more general classes. The lemmas below state what that protocol
    achieves on every consistent state. */
module Cascade {
  import opened Errors
  import opened Dtypes
  import opened OrderedSets
  import opened TypeClasses
  import opened Constructors

  /** The fourteen class slices (allTypes first) and the fromInt table. */
  datatype RegistryState = RegistryState(
    all: seq<Dtype>,
    specialized: seq<Dtype>,
    addable: seq<Dtype>,
    number: seq<Dtype>,
    ord: seq<Dtype>,
    eq: seq<Dtype>,
    unsigned: seq<Dtype>,
    signed: seq<Dtype>,
    signedNonComplex: seq<Dtype>,
    floats: seq<Dtype>,
    complexes: seq<Dtype>,
    floatComplex: seq<Dtype>,
    nonComplexNumber: seq<Dtype>,
    generatable: seq<Dtype>,
    fromInt: map<Dtype, Ctor>)

  /** The class a TypeClass value indexes, as in the `typeclasses` array:
      index All is the registry slice itself, not a special case. */
  function Class(st: RegistryState, tc: TypeClass): (r: seq<Dtype>)
    requires 0 <= tc < MaxTypeClass
    ensures tc == All ==> r == st.all
    ensures tc == Eq ==> r == st.eq
    ensures tc == Floats ==> r == st.floats
  {
    if tc == All then st.all
    else if tc == Specialized then st.specialized
    else if tc == Addable then st.addable
    else if tc == Number then st.number
    else if tc == Ord then st.ord
    else if tc == Eq then st.eq
    else if tc == TypeClasses.Unsigned then st.unsigned
    else if tc == TypeClasses.Signed then st.signed
    else if tc == SignedNonComplex then st.signedNonComplex
    else if tc == Floats then st.floats
    else if tc == Complexes then st.complexes
    else if tc == FloatComplex then st.floatComplex
    else if tc == NonComplexNumber then st.nonComplexNumber
    else st.generatable
  }

  /** The state at package initialisation: eighteen registered built-ins,
      every one of them in Eq, and the built-in constructor table. */
  function Seed(): (r: RegistryState)
    ensures |r.all| == 18 && r.eq == r.all
    ensures r.fromInt == BuiltinConstructors
  {
    SeedEqAndSpecialized();
    RegistryState(
      AllTypes, SpecializedTypes, AddableTypes, NumberTypes, OrdTypes, EqTypes,
      UnsignedTypes, SignedTypes, SignedNonComplexTypes, FloatTypes, ComplexTypes,
      FloatComplexTypes, NonComplexNumberTypes, GeneratableTypes,
      BuiltinConstructors)
  }

  /** No class repeats a descriptor. */
  ghost predicate NoRepeats(st: RegistryState) {
    NoDup(st.all) && NoDup(st.specialized) && NoDup(st.addable) &&
    NoDup(st.number) && NoDup(st.ord) && NoDup(st.eq) && NoDup(st.unsigned) &&
    NoDup(st.signed) && NoDup(st.signedNonComplex) && NoDup(st.floats) &&
    NoDup(st.complexes) && NoDup(st.floatComplex) &&
    NoDup(st.nonComplexNumber) && NoDup(st.generatable)
  }

  /** Every class member is registered, so it has an ID. */
  ghost predicate AllRegistered(st: RegistryState) {
    Subset(st.specialized, st.all) && Subset(st.addable, st.all) &&
    Subset(st.number, st.all) && Subset(st.ord, st.all) &&
    Subset(st.eq, st.all) && Subset(st.unsigned, st.all) &&
    Subset(st.signed, st.all) && Subset(st.signedNonComplex, st.all) &&
    Subset(st.floats, st.all) && Subset(st.complexes, st.all) &&
    Subset(st.floatComplex, st.all) && Subset(st.nonComplexNumber, st.all) &&
    Subset(st.generatable, st.all)
  }

  /** The inclusions the cascade maintains: Float below Number and Ord,
      both below Eq, Eq below the registry. */
  ghost predicate Cascaded(st: RegistryState) {
    Subset(st.floats, st.number) && Subset(st.floats, st.ord) &&
    Subset(st.number, st.eq) && Subset(st.ord, st.eq) && Subset(st.eq, st.all)
  }

  ghost predicate Consistent(st: RegistryState) {
    NoRepeats(st) && AllRegistered(st) && Cascaded(st)
  }

  /** The cascade inclusions below Eq, for the one descriptor being
      registered. */
  predicate EqCascadedAt(st: RegistryState, d: Dtype) {
    (d in st.number ==> d in st.eq) && (d in st.ord ==> d in st.eq) &&
    (d in st.eq ==> d in st.all)
  }

  /** All cascade inclusions, for the one descriptor being registered. */
  predicate CascadedAt(st: RegistryState, d: Dtype) {
    (d in st.floats ==> d in st.number && d in st.ord) && EqCascadedAt(st, d)
  }

  /** Register (dtype.go:275-284): afterwards d is registered, and no
      other part of the state has changed. */
  function Register(st: RegistryState, d: Dtype): (r: RegistryState)
    ensures d in r.all
    ensures r.(all := st.all) == st
  {
    if d in st.all then st else st.(all := st.all + [d])
  }

  /** RegisterEq (dtype.go:262-272): afterwards d is in Eq, and only Eq and
      the registry may have changed. */
  function RegisterEq(st: RegistryState, d: Dtype): (r: RegistryState)
    ensures d in r.eq
    ensures r.(all := st.all, eq := st.eq) == st
  {
    if d in st.eq then st else Register(st.(eq := st.eq + [d]), d)
  }

  /** RegisterOrd (dtype.go:249-259): afterwards d is in Ord, and only Ord,
      Eq and the registry may have changed. */
  function RegisterOrd(st: RegistryState, d: Dtype): (r: RegistryState)
    ensures d in r.ord
    ensures r.(all := st.all, eq := st.eq, ord := st.ord) == st
  {
    if d in st.ord then st else RegisterEq(st.(ord := st.ord + [d]), d)
  }

  /** RegisterNumber (dtype.go:218-231); `None` is a nil constructor.
      Afterwards d is a number, and only Number, Eq, the registry and the
      constructor table may have changed. */
  function RegisterNumber(st: RegistryState, d: Dtype, c: Option<Ctor>): (r: RegistryState)
    ensures d in r.number
    ensures r.(all := st.all, eq := st.eq, number := st.number, fromInt := st.fromInt) == st
  {
    if d in st.number then st
    else
      var withCtor := if c.Some? then st.(fromInt := st.fromInt[d := c.value]) else st;
      RegisterEq(withCtor.(number := withCtor.number + [d]), d)
  }

  /** RegisterFloat (dtype.go:235-246): afterwards d is a float, and only
      Float, Number, Ord, Eq and the registry may have changed; the
      constructor table is left alone. */
  function RegisterFloat(st: RegistryState, d: Dtype): (r: RegistryState)
    ensures d in r.floats
    ensures r.(all := st.all, eq := st.eq, ord := st.ord, number := st.number, floats := st.floats) == st
  {
    if d in st.floats then st
    else RegisterOrd(RegisterNumber(st.(floats := st.floats + [d]), d, None), d)
  }

  /** FindByName (dtype.go:163-170): the first registered descriptor whose
      name is `n`. */
  function FindName(s: seq<Dtype>, n: string): (r: Result<Dtype>)
    ensures r.Err? <==> forall d :: d in s ==> Name(d) != n
    ensures r.Err? ==> r.error == NameNotFound
    ensures r.Ok? ==> exists i :: 0 <= i < |s| && s[i] == r.value && Name(s[i]) == n &&
                        forall j :: 0 <= j < i ==> Name(s[j]) != n
  {
    if s == [] then Err(NameNotFound)
    else if Name(s[0]) == n then Ok(s[0])
    else
      var r := FindName(s[1..], n);
      if r.Ok? then
        var i :| 0 <= i < |s[1..]| && s[1..][i] == r.value && Name(s[1..][i]) == n &&
                 forall j :: 0 <= j < i ==> Name(s[1..][j]) != n;
        assert s[i + 1] == r.value;
        r
      else r
  }

  /** The membership test shared by TypeClassCheck and its helper
      (dtype.go:186-197); `None` stands for a nil class. */
  function CheckMembership(d: Dtype, cls: Option<seq<Dtype>>): (r: Option<ErrorKind>)
    ensures r == None <==> cls.None? || d in cls.value
    ensures r != None ==> r == Some(NotInTypeClass)
  {
    match cls
    case None => None
    case Some(s) => if d in s then None else Some(NotInTypeClass)
  }

  /** TypeClassCheck (dtype.go:174-184): an index past the last class is an
      error, a negative index selects no class and so always succeeds. */
  function TypeClassCheck(st: RegistryState, d: Dtype, tc: TypeClass): (r: Option<ErrorKind>)
    ensures tc >= MaxTypeClass ==> r == Some(UnknownTypeClass)
    ensures tc < All ==> r == None
    ensures 0 <= tc < MaxTypeClass ==>
      (r == None <==> d in Class(st, tc)) && (r != None ==> r == Some(NotInTypeClass))
  {
    if tc >= MaxTypeClass then Some(UnknownTypeClass)
    else CheckMembership(d, if tc >= All then Some(Class(st, tc)) else None)
  }

  // ---------------------------------------------------------------------
  // The seeded state

  lemma SeedConsistent()
    ensures Consistent(Seed())
  {
    SeedsNoDup();
    AllTypesAreTheBuiltins();
    SeedsRegistered();
    SeedsCascade();
  }

  /** Every member of every seeded class has an ID. */
  lemma SeedMembersHaveIds(tc: TypeClass, d: Dtype)
    requires 0 <= tc < MaxTypeClass && d in Class(Seed(), tc)
    ensures 0 <= IndexOf(Seed().all, d) < 18
  {
    SeedConsistent();
    MembersHaveIds(Seed(), tc, d);
  }

  lemma MembersHaveIds(st: RegistryState, tc: TypeClass, d: Dtype)
    requires Consistent(st)
    requires 0 <= tc < MaxTypeClass && d in Class(st, tc)
    ensures 0 <= IndexOf(st.all, d) < |st.all|
  {
  }

  // ---------------------------------------------------------------------
  // Each registration, on a consistent state, inserts into exactly the
  // classes of its cascade

  lemma RegisterInserts(st: RegistryState, d: Dtype)
    ensures Register(st, d) == st.(all := Insert(st.all, d))
  {
  }

  lemma RegisterEqInserts(st: RegistryState, d: Dtype)
    requires EqCascadedAt(st, d)
    ensures RegisterEq(st, d) == st.(eq := Insert(st.eq, d), all := Insert(st.all, d))
  {
  }

  lemma RegisterOrdInserts(st: RegistryState, d: Dtype)
    requires EqCascadedAt(st, d)
    ensures RegisterOrd(st, d) ==
      st.(ord := Insert(st.ord, d), eq := Insert(st.eq, d), all := Insert(st.all, d))
  {
  }

  /** The constructor is stored only when the descriptor is new to Number
      and the constructor is not nil. */
  lemma RegisterNumberInserts(st: RegistryState, d: Dtype, c: Option<Ctor>)
    requires EqCascadedAt(st, d)
    ensures RegisterNumber(st, d, c) ==
      st.(number := Insert(st.number, d), eq := Insert(st.eq, d), all := Insert(st.all, d),
          fromInt := if d !in st.number && c.Some? then st.fromInt[d := c.value] else st.fromInt)
  {
  }

  /** RegisterFloat inserts into Float, Number, Ord, Eq and the registry,
      and stores no constructor. */
  lemma RegisterFloatInserts(st: RegistryState, d: Dtype)
    requires CascadedAt(st, d)
    ensures RegisterFloat(st, d) ==
      st.(floats := Insert(st.floats, d), number := Insert(st.number, d),
          ord := Insert(st.ord, d), eq := Insert(st.eq, d), all := Insert(st.all, d))
  {
    if d !in st.floats {
      var st1 := st.(floats := st.floats + [d]);
      RegisterNumberInserts(st1, d, None);
      var st2 := RegisterNumber(st1, d, None);
      RegisterOrdInserts(st2, d);
    }
  }

  /** Every consistent state is cascaded at every descriptor. */
  lemma ConsistentCascadedAt(st: RegistryState, d: Dtype)
    requires Consistent(st)
    ensures CascadedAt(st, d)
  {
  }

  // ---------------------------------------------------------------------
  // Consistency is preserved

  lemma InsertKeepsSubset(a: seq<Dtype>, b: seq<Dtype>, d: Dtype)
    requires Subset(a, b)
    ensures Subset(Insert(a, d), Insert(b, d)) && Subset(a, Insert(b, d))
  {
  }

  lemma RegisterEqPreserves(st: RegistryState, d: Dtype)
    requires Consistent(st)
    ensures Consistent(RegisterEq(st, d))
  {
    ConsistentCascadedAt(st, d);
    RegisterEqInserts(st, d);
    InsertKeepsSubset(st.eq, st.all, d);
  }

  lemma RegisterPreserves(st: RegistryState, d: Dtype)
    requires Consistent(st)
    ensures Consistent(Register(st, d))
  {
    RegisterInserts(st, d);
  }

  lemma RegisterOrdPreserves(st: RegistryState, d: Dtype)
    requires Consistent(st)
    ensures Consistent(RegisterOrd(st, d))
  {
    ConsistentCascadedAt(st, d);
    RegisterOrdInserts(st, d);
    InsertKeepsSubset(st.ord, st.eq, d);
    InsertKeepsSubset(st.eq, st.all, d);
    InsertKeepsSubset(st.floats, st.ord, d);
  }

  lemma RegisterNumberPreserves(st: RegistryState, d: Dtype, c: Option<Ctor>)
    requires Consistent(st)
    ensures Consistent(RegisterNumber(st, d, c))
  {
    ConsistentCascadedAt(st, d);
    RegisterNumberInserts(st, d, c);
    InsertKeepsSubset(st.number, st.eq, d);
    InsertKeepsSubset(st.eq, st.all, d);
    InsertKeepsSubset(st.floats, st.number, d);
  }

  lemma RegisterFloatPreserves(st: RegistryState, d: Dtype)
    requires Consistent(st)
    ensures Consistent(RegisterFloat(st, d))
  {
    ConsistentCascadedAt(st, d);
    RegisterFloatInserts(st, d);
    InsertKeepsSubset(st.floats, st.number, d);
    InsertKeepsSubset(st.floats, st.ord, d);
    InsertKeepsSubset(st.number, st.eq, d);
    InsertKeepsSubset(st.ord, st.eq, d);
    InsertKeepsSubset(st.eq, st.all, d);
  }

  // ---------------------------------------------------------------------
  // Registration only appends `d`, so IDs never move and nothing else
  // changes

  /** `t` continues `s` and adds nothing but `d`. */
  ghost predicate GrowsBy(s: seq<Dtype>, t: seq<Dtype>, d: Dtype) {
    s <= t && forall x :: x in t ==> x in s || x == d
  }

  /** Every class of `r` continues the same class of `st` with nothing but `d`. */
  ghost predicate Grows(st: RegistryState, r: RegistryState, d: Dtype) {
    GrowsBy(st.all, r.all, d) && GrowsBy(st.specialized, r.specialized, d) &&
    GrowsBy(st.addable, r.addable, d) && GrowsBy(st.number, r.number, d) &&
    GrowsBy(st.ord, r.ord, d) && GrowsBy(st.eq, r.eq, d) &&
    GrowsBy(st.unsigned, r.unsigned, d) && GrowsBy(st.signed, r.signed, d) &&
    GrowsBy(st.signedNonComplex, r.signedNonComplex, d) &&
    GrowsBy(st.floats, r.floats, d) && GrowsBy(st.complexes, r.complexes, d) &&
    GrowsBy(st.floatComplex, r.floatComplex, d) &&
    GrowsBy(st.nonComplexNumber, r.nonComplexNumber, d) &&
    GrowsBy(st.generatable, r.generatable, d)
  }

  lemma GrowsByTransitive(s: seq<Dtype>, m: seq<Dtype>, t: seq<Dtype>, d: Dtype)
    requires GrowsBy(s, m, d) && GrowsBy(m, t, d)
    ensures GrowsBy(s, t, d)
  {
  }

  lemma GrowsTransitive(st: RegistryState, m: RegistryState, r: RegistryState, d: Dtype)
    requires Grows(st, m, d) && Grows(m, r, d)
    ensures Grows(st, r, d)
  {
    GrowsByTransitive(st.all, m.all, r.all, d);
    GrowsByTransitive(st.specialized, m.specialized, r.specialized, d);
    GrowsByTransitive(st.addable, m.addable, r.addable, d);
    GrowsByTransitive(st.number, m.number, r.number, d);
    GrowsByTransitive(st.ord, m.ord, r.ord, d);
    GrowsByTransitive(st.eq, m.eq, r.eq, d);
    GrowsByTransitive(st.unsigned, m.unsigned, r.unsigned, d);
    GrowsByTransitive(st.signed, m.signed, r.signed, d);
    GrowsByTransitive(st.signedNonComplex, m.signedNonComplex, r.signedNonComplex, d);
    GrowsByTransitive(st.floats, m.floats, r.floats, d);
    GrowsByTransitive(st.complexes, m.complexes, r.complexes, d);
    GrowsByTransitive(st.floatComplex, m.floatComplex, r.floatComplex, d);
    GrowsByTransitive(st.nonComplexNumber, m.nonComplexNumber, r.nonComplexNumber, d);
    GrowsByTransitive(st.generatable, m.generatable, r.generatable, d);
  }

  /** Appending `d` to one class, as each Register function does first. */
  lemma AppendGrows(st: RegistryState, r: RegistryState, d: Dtype)
    requires r == st.(all := st.all + [d]) || r == st.(eq := st.eq + [d]) ||
             r == st.(ord := st.ord + [d]) || r == st.(number := st.number + [d]) ||
             r == st.(floats := st.floats + [d])
    ensures Grows(st, r, d)
  {
  }

  lemma RegisterGrows(st: RegistryState, d: Dtype)
    ensures Grows(st, Register(st, d), d) && Register(st, d).fromInt == st.fromInt
  {
    if d !in st.all {
      AppendGrows(st, Register(st, d), d);
    }
  }

  lemma RegisterEqGrows(st: RegistryState, d: Dtype)
    ensures Grows(st, RegisterEq(st, d), d) && RegisterEq(st, d).fromInt == st.fromInt
  {
    if d !in st.eq {
      var m := st.(eq := st.eq + [d]);
      AppendGrows(st, m, d);
      RegisterGrows(m, d);
      GrowsTransitive(st, m, RegisterEq(st, d), d);
    }
  }

  lemma RegisterOrdGrows(st: RegistryState, d: Dtype)
    ensures Grows(st, RegisterOrd(st, d), d) && RegisterOrd(st, d).fromInt == st.fromInt
  {
    if d !in st.ord {
      var m := st.(ord := st.ord + [d]);
      AppendGrows(st, m, d);
      RegisterEqGrows(m, d);
      GrowsTransitive(st, m, RegisterOrd(st, d), d);
    }
  }

  /** RegisterNumber writes the constructor table only for a descriptor new
      to Number and a non-nil constructor. */
  lemma RegisterNumberGrows(st: RegistryState, d: Dtype, c: Option<Ctor>)
    ensures Grows(st, RegisterNumber(st, d, c), d)
    ensures RegisterNumber(st, d, c).fromInt ==
      if d !in st.number && c.Some? then st.fromInt[d := c.value] else st.fromInt
  {
    if d !in st.number {
      var withCtor := if c.Some? then st.(fromInt := st.fromInt[d := c.value]) else st;
      var m := withCtor.(number := withCtor.number + [d]);
      AppendGrows(withCtor, m, d);
      RegisterEqGrows(m, d);
      GrowsTransitive(withCtor, m, RegisterNumber(st, d, c), d);
    }
  }

  /** RegisterFloat never writes the constructor table (it passes a nil
      constructor to RegisterNumber). */
  lemma RegisterFloatGrows(st: RegistryState, d: Dtype)
    ensures Grows(st, RegisterFloat(st, d), d) && RegisterFloat(st, d).fromInt == st.fromInt
  {
    if d !in st.floats {
      var m := st.(floats := st.floats + [d]);
      AppendGrows(st, m, d);
      var m' := RegisterNumber(m, d, None);
      RegisterNumberGrows(m, d, None);
      GrowsTransitive(st, m, m', d);
      RegisterOrdGrows(m', d);
      GrowsTransitive(st, m', RegisterFloat(st, d), d);
    }
  }

  /** ID (dtype.go:287-296) of an already registered descriptor is the same
      after any later registration; a new descriptor gets the next ID. */
  lemma IdsAreStable(st: RegistryState, r: RegistryState, x: Dtype)
    requires st.all <= r.all
    ensures x in st.all ==> IndexOf(r.all, x) == IndexOf(st.all, x)
    ensures x !in st.all && r.all == st.all + [x] ==> IndexOf(r.all, x) == |st.all|
  {
    if x in st.all {
      IndexOfExtended(st.all, r.all, x);
    } else if r.all == st.all + [x] {
      IndexOfUnique(r.all, x, |st.all|);
    }
  }

  /** Each registration returns at once when the descriptor is already in
      its own class. */
  lemma AlreadyRegistered(st: RegistryState, d: Dtype, c: Option<Ctor>)
    ensures d in st.all ==> Register(st, d) == st
    ensures d in st.eq ==> RegisterEq(st, d) == st
    ensures d in st.ord ==> RegisterOrd(st, d) == st
    ensures d in st.number ==> RegisterNumber(st, d, c) == st
    ensures d in st.floats ==> RegisterFloat(st, d) == st
  {
  }

  /** IDs tell registered descriptors apart; an unregistered descriptor
      has ID -1. */
  lemma IdsDistinct(st: RegistryState, x: Dtype, y: Dtype)
    ensures x in st.all && y in st.all && x != y ==>
      0 <= IndexOf(st.all, x) && IndexOf(st.all, x) != IndexOf(st.all, y)
    ensures x !in st.all ==> IndexOf(st.all, x) == -1
  {
  }

  /** Registering a descriptor a second time changes nothing. */
  lemma RegistrationsIdempotent(st: RegistryState, d: Dtype)
    ensures Register(Register(st, d), d) == Register(st, d)
    ensures RegisterEq(RegisterEq(st, d), d) == RegisterEq(st, d)
    ensures RegisterOrd(RegisterOrd(st, d), d) == RegisterOrd(st, d)
  {
    RegisterGrows(st, d);
    AlreadyRegistered(Register(st, d), d, None);
    RegisterEqGrows(st, d);
    AlreadyRegistered(RegisterEq(st, d), d, None);
    RegisterOrdGrows(st, d);
    AlreadyRegistered(RegisterOrd(st, d), d, None);
  }

  /** A second RegisterNumber is ignored whatever constructor it passes. */
  lemma RegisterNumberIdempotent(st: RegistryState, d: Dtype, c: Option<Ctor>, c': Option<Ctor>)
    ensures RegisterNumber(RegisterNumber(st, d, c), d, c') == RegisterNumber(st, d, c)
  {
    RegisterNumberGrows(st, d, c);
    AlreadyRegistered(RegisterNumber(st, d, c), d, c');
  }

  lemma RegisterFloatIdempotent(st: RegistryState, d: Dtype)
    ensures RegisterFloat(RegisterFloat(st, d), d) == RegisterFloat(st, d)
  {
    RegisterFloatGrows(st, d);
    AlreadyRegistered(RegisterFloat(st, d), d, None);
  }

  /** A class keeps its members under growth by `d`, and gains none but `d`. */
  lemma GrowsKeepsClasses(st: RegistryState, r: RegistryState, d: Dtype, x: Dtype, tc: TypeClass)
    requires Grows(st, r, d) && x != d && 0 <= tc < MaxTypeClass
    ensures x in Class(r, tc) <==> x in Class(st, tc)
  {
  }

  /** Registering `d` never changes the answer of a check about another
      descriptor. */
  lemma OthersUnaffected(st: RegistryState, d: Dtype, c: Option<Ctor>, x: Dtype, tc: TypeClass)
    requires x != d
    ensures TypeClassCheck(Register(st, d), x, tc) == TypeClassCheck(st, x, tc)
    ensures TypeClassCheck(RegisterEq(st, d), x, tc) == TypeClassCheck(st, x, tc)
    ensures TypeClassCheck(RegisterOrd(st, d), x, tc) == TypeClassCheck(st, x, tc)
    ensures TypeClassCheck(RegisterNumber(st, d, c), x, tc) == TypeClassCheck(st, x, tc)
    ensures TypeClassCheck(RegisterFloat(st, d), x, tc) == TypeClassCheck(st, x, tc)
  {
    if 0 <= tc < MaxTypeClass {
      RegisterGrows(st, d);
      GrowsKeepsClasses(st, Register(st, d), d, x, tc);
      RegisterEqGrows(st, d);
      GrowsKeepsClasses(st, RegisterEq(st, d), d, x, tc);
      RegisterOrdGrows(st, d);
      GrowsKeepsClasses(st, RegisterOrd(st, d), d, x, tc);
      RegisterNumberGrows(st, d, c);
      GrowsKeepsClasses(st, RegisterNumber(st, d, c), d, x, tc);
      RegisterFloatGrows(st, d);
      GrowsKeepsClasses(st, RegisterFloat(st, d), d, x, tc);
    }
  }

  /** After RegisterFloat on a consistent state the descriptor passes the
      Float, Number, Ord and Eq checks and is registered. */
  lemma RegisterFloatMemberships(st: RegistryState, d: Dtype)
    requires Consistent(st)
    ensures var r := RegisterFloat(st, d);
      TypeClassCheck(r, d, Floats) == None && TypeClassCheck(r, d, Number) == None &&
      TypeClassCheck(r, d, Ord) == None && TypeClassCheck(r, d, Eq) == None &&
      TypeClassCheck(r, d, All) == None
  {
    ConsistentCascadedAt(st, d);
    RegisterFloatInserts(st, d);
  }

  // ---------------------------------------------------------------------
  // Lookup by name

  /** No two registered descriptors share a name. */
  ghost predicate NamesDistinct(s: seq<Dtype>) {
    forall i, j :: 0 <= i < j < |s| ==> Name(s[i]) != Name(s[j])
  }

  /** Later registrations never change what an already resolvable name
      resolves to, even when a later descriptor reuses that name. */
  lemma {:induction false} FindNameExtended(s: seq<Dtype>, t: seq<Dtype>, n: string)
    requires s <= t && FindName(s, n).Ok?
    ensures FindName(t, n) == FindName(s, n)
  {
    if Name(s[0]) != n {
      assert s[1..] <= t[1..];
      FindNameExtended(s[1..], t[1..], n);
    }
  }

  /** The first descriptor carrying the name is the one found. */
  lemma FindNameFirst(s: seq<Dtype>, n: string, i: int)
    requires 0 <= i < |s| && Name(s[i]) == n
    requires forall j :: 0 <= j < i ==> Name(s[j]) != n
    ensures FindName(s, n) == Ok(s[i])
  {
    var r := FindName(s, n);
    var k :| 0 <= k < |s| && s[k] == r.value && Name(s[k]) == n &&
             forall j :: 0 <= j < k ==> Name(s[j]) != n;
    assert k == i;
  }

  /** With distinct names, looking up a member's name finds that member. */
  lemma FindNameOfMember(s: seq<Dtype>, d: Dtype)
    requires NamesDistinct(s) && d in s
    ensures FindName(s, Name(d)) == Ok(d)
  {
    var r := FindName(s, Name(d));
    var i :| 0 <= i < |s| && s[i] == r.value && Name(s[i]) == Name(d) &&
             forall j :: 0 <= j < i ==> Name(s[j]) != Name(d);
    var k :| 0 <= k < |s| && s[k] == d;
    assert i == k;
  }

  /** The built-in names are distinct. */
  lemma SeedNamesDistinct()
    ensures NamesDistinct(Seed().all)
  {
    AllTypesAreTheBuiltins();
    forall i, j | 0 <= i < j < |AllTypes|
      ensures Name(AllTypes[i]) != Name(AllTypes[j])
    {
      BuiltinIdentity(AllTypes[i], AllTypes[j]);
    }
  }

  /** FindByName on the seeded registry finds "float64". */
  lemma FindFloat64()
    ensures FindName(Seed().all, "float64") == Ok(Float64)
  {
    SeedNamesDistinct();
    FindNameOfMember(Seed().all, Float64);
  }

  /** An unknown name is an error. */
  lemma FindUnknownName()
    ensures FindName(Seed().all, "f00b4rb4z") == Err(NameNotFound)
  {
    forall d | d in AllTypes
      ensures Name(d) != "f00b4rb4z"
    {
      assert "f00b4rb4z"[1] == '0';
    }
  }

  /** A custom descriptor registered later under the name "float64" does
      not displace Float64. */
  lemma NameNotDisplaced()
    ensures FindName(Register(Seed(), Custom("float64", 8, Float64Kind)).all, "float64") == Ok(Float64)
  {
    FindFloat64();
    RegisterGrows(Seed(), Custom("float64", 8, Float64Kind));
    FindNameExtended(Seed().all, Register(Seed(), Custom("float64", 8, Float64Kind)).all, "float64");
  }

  // ---------------------------------------------------------------------
  // The tests of TypeClassCheck and of registering Float16 twice

  lemma TypeClassCheckExamples()
    ensures TypeClassCheck(Seed(), Float64, Number) == None
    ensures TypeClassCheck(Seed(), Float64, MaxTypeClass) == Some(UnknownTypeClass)
    ensures TypeClassCheck(Seed(), Float64, TypeClasses.Unsigned) == Some(NotInTypeClass)
    ensures TypeClassCheck(Seed(), Float64, -1) == None
  {
  }

  /** A user-defined half-precision float. */
  const Float16: Dtype := Custom("Float16", 2, Uint16Kind)

  /** The first RegisterFloat of Float16 appends it to Float, Number, Ord,
      Eq and the registry, where it gets ID 18. */
  lemma Float16Registered()
    ensures var r := RegisterFloat(Seed(), Float16);
      r.floats == FloatTypes + [Float16] && r.number == NumberTypes + [Float16] &&
      r.ord == OrdTypes + [Float16] && r.eq == EqTypes + [Float16] &&
      r.all == AllTypes + [Float16] && IndexOf(r.all, Float16) == 18 &&
      Consistent(r)
  {
    SeedConsistent();
    AllTypesAreTheBuiltins();
    RegisterFloatInserts(Seed(), Float16);
    RegisterFloatPreserves(Seed(), Float16);
    IndexOfUnique(AllTypes + [Float16], Float16, 18);
  }

  /** Registering Float16 twice leaves it exactly once in every class it
      joined, with the ID it got the first time. */
  lemma Float16RegisteredTwice()
    ensures var r := RegisterFloat(RegisterFloat(Seed(), Float16), Float16);
      multiset(r.floats)[Float16] == 1 && multiset(r.number)[Float16] == 1 &&
      multiset(r.ord)[Float16] == 1 && multiset(r.eq)[Float16] == 1 &&
      multiset(r.all)[Float16] == 1 && IndexOf(r.all, Float16) == 18
  {
    var r1 := RegisterFloat(Seed(), Float16);
    Float16Registered();
    RegisterFloatIdempotent(Seed(), Float16);
    NoDupCount(r1.floats, Float16);
    NoDupCount(r1.number, Float16);
    NoDupCount(r1.ord, Float16);
    NoDupCount(r1.eq, Float16);
    NoDupCount(r1.all, Float16);
  }

  /** After RegisterFloat, Float16 passes the Float, Number, Ord and Eq
      checks, yet FromInt has no constructor for it. */
  lemma Float16Checks(w: WordSize, v: int)
    requires IsGoInt(v, w)
    ensures var r := RegisterFloat(Seed(), Float16);
      TypeClassCheck(r, Float16, Floats) == None && TypeClassCheck(r, Float16, Number) == None &&
      TypeClassCheck(r, Float16, Ord) == None && TypeClassCheck(r, Float16, Eq) == None &&
      FromInt(r.fromInt, w, Float16, v) == Err(NoConstructor)
  {
    SeedConsistent();
    RegisterFloatMemberships(Seed(), Float16);
    RegisterFloatGrows(Seed(), Float16);
    NoBuiltinConstructor(w, Float16, v);
  }
}
