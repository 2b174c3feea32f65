# gorgonia/dtype in Dafny

A model of the core of `gorgonia.org/dtype`, the package that describes the
element types of Gorgonia tensors:

- **Descriptors** (`dtypes.dfy`): the eighteen built-in dtypes of
  `consts.go` (Bool, the signed and unsigned integers, Float32/64,
  Complex64/128, String, Uintptr, UnsafePointer) plus user-defined ones,
  with their Go name, byte size and reflect kind. `Byte` is an alias of
  `Uint8`. The platform word size (4 or 8 bytes) is a parameter.
- **Type classes** (`typeclasses.dfy`): the `TypeClass` enumeration and the
  literal contents of the fourteen slices (`allTypes` and the thirteen
  classes) the registry starts with.
- **Registry and cascade** (`cascade.dfy`, `registry.dfy`): the registry
  state as a value, `Register`, `RegisterEq`, `RegisterOrd`,
  `RegisterNumber`, `RegisterFloat`, `ID`, `FindByName` and
  `TypeClassCheck` as specification functions, and a `Registry` class whose
  fields are the fourteen slices and the constructor table. Its methods
  scan and append exactly as the Go code does, and are proved to produce
  the state the specification functions describe. The lemmas show what the
  cascade achieves: every class stays duplicate-free, Float ⊆ Number,
  Float ⊆ Ord, Number ⊆ Eq, Ord ⊆ Eq, Eq ⊆ registry, every member of every
  class has an ID, registration only appends (IDs never move), registering
  twice is the same as once, and registering one descriptor never changes a
  check about another.
- **NumPy codec** (`numpy.dfy`): `NumpyDtype` and `FromNumpyDtype` with
  their two tables (each a lookup function answering `None` for a missing
  key, in place of the Go map), including the rule that on a platform whose `int` is 4
  bytes `"i4"` decodes to `Int` (and `"i8"` to `Int` when it is 8 bytes),
  and likewise for `Uint`.
- **Constructor table** (`constructors.dfy`, `decimal.dfy`): `FromInt`
  over a table from descriptors to constructors. Integer constructors
  perform Go's two's-complement conversion to the target width; the string
  constructor renders the value in decimal as `fmt.Sprintf("%d", v)` does.

`errors.dfy` holds the `Option`/`Result` wrappers and the six error kinds,
and `orderedsets.dfy` the operations on insertion-ordered slices (check then
append, first index).

Descriptor identity: Go compares descriptors by their underlying type. The
model makes descriptors a datatype, so two built-ins are equal exactly when
they are the same constructor; `Dtypes.BuiltinIdentity` shows that for the
built-ins this coincides with equality of names and of kinds.

Three behaviours of the code that a reader might not expect, and that the
model keeps:

- One might expect `FindByName(d.Name()) == d` for every registered
  descriptor, but the code returns the first descriptor with that name
  (dtype.go:164-168), and nothing stops a later custom descriptor from
  reusing a name. The model proves the round trip when names are distinct
  (`Cascade.FindNameOfMember`) and shows the other case
  (`Cascade.NameNotDisplaced`).
- `TypeClassCheck` has no special case for `All`: `typeclasses[All]` is
  `allTypes` itself (typeclasses.go:24-25), and `Cascade.Class` maps `All`
  to the registry slice in the same way.
- A negative `TypeClass` selects no class, and the check then succeeds
  (dtype.go:179-183).

## Model

| member | source | states |
|---|---|---|
| Dtypes.Name | dtype.go:23 | the reflected type name: a custom descriptor's own name, and for a built-in a name of at least three characters with a lower-case letter second; BuiltinIdentity shows the built-in names are pairwise distinct |
| Dtypes.Size | dtype.go:25 | the unsafe.Sizeof of a descriptor: every built-in occupies 1 to 16 bytes and int, uint, uintptr and unsafe.Pointer a machine word; Sizes gives every value |
| Dtypes.KindOf | dtype.go:26 | the reflected kind: a custom descriptor's own kind, never OtherKind for a built-in; BuiltinIdentity shows the built-in kinds are pairwise distinct |
| Dtypes.BuiltinIdentity | consts.go:10-32 | two built-in descriptors have the same name, and the same kind, exactly when they are the same descriptor |
| Dtypes.Sizes | dtype.go:25 | the byte size of every built-in: 1 for bool and 8-bit integers, 2, 4, 8 for the fixed widths, 8 and 16 for the complex types, the word size for int, uint, uintptr and unsafe.Pointer, and two words for a string header |
| Decimal.NatToString | constructors.go:53 | the decimal rendering of a natural is non-empty, all digits, without a leading zero, and one digit long exactly below ten |
| Decimal.IntToString | constructors.go:53 | the rendering is non-empty, starts with '-' exactly for negative values, is a sign followed by digits, and has no leading zero except in "0" itself |
| Decimal.ParseNatToString | constructors.go:53 | reading the decimal rendering of a natural gives the natural back |
| Decimal.ParseIntToString | constructors.go:53 | reading the `%d` rendering of any integer gives the integer back |
| Decimal.IntToStringInjective | constructors.go:53 | two integers render to the same text exactly when they are equal |
| Decimal.IntToStringExamples | constructors.go:53 | 7 renders as "7", -42 as "-42", 16 as "16" |
| OrderedSets.Insert | dtype.go:278-283 | check-then-append keeps the old slice as a prefix, adds at most one element, adds exactly the new element, and never creates a duplicate |
| OrderedSets.IndexOf | dtype.go:287-296 | the result is -1 exactly when the element is absent, and otherwise the first position holding it |
| OrderedSets.IndexOfExtended | dtype.go:287-296 | appending to a slice never changes the index of an element already in it |
| OrderedSets.NoDupCount | dtype_test.go:108-125 | in a duplicate-free slice an element occurs exactly once or not at all |
| TypeClasses.AllTypesAreTheBuiltins | typeclasses.go:42-47 | the registry starts with exactly the eighteen built-ins, each once |
| TypeClasses.SeedsNoDup | typeclasses.go:50-137 | no seeded class lists a descriptor twice |
| TypeClasses.SeedsRegistered | typeclasses.go:50-137 | every seeded class member is in the registry |
| TypeClasses.SeedsCascade | typeclasses.go:64-110 | the seeded Float, Number, Ord and Eq classes already satisfy the cascade inclusions |
| TypeClasses.SeedSeparations | typeclasses.go:50-137 | complex numbers are numbers but not ordered, strings are ordered but not numbers, no unsigned type is signed, and the two pointer-like extras are in none of the twelve classes other than the registry and Eq (not even Unsigned, although uintptr is an unsigned integer in Go) |
| TypeClasses.SeedEqAndSpecialized | typeclasses.go:42-83 | Eq starts as the whole registry and Specialized as the registry without Uintptr and UnsafePointer |
| Numpy.NumpyDtypes | dtype.go:89-105 | the forward table has an entry for every descriptor except String, Uintptr, UnsafePointer and custom ones, and each entry starts with the descriptor's kind letter; CodeSpellsSize gives every entry |
| Numpy.ReverseNumpyDtypes | dtype.go:107-121 | the reverse table never names the platform-width Int or Uint, names only descriptors the forward table covers on either word size, and each code starts with its descriptor's kind letter; ReverseEncodes ties it to the forward table |
| Numpy.NumpyDtype | dtype.go:126-132 | a supported descriptor encodes to a code starting with its kind letter, any other to "v" with an unsupported-conversion error; EncodeThenDecode is its round trip |
| Numpy.FromNumpyDtype | dtype.go:135-153 | decoding fails exactly on codes missing from the reverse table, and otherwise yields a descriptor of the same size and kind letter as the table's entry; DecodeThenEncode is its round trip |
| Numpy.NumpyDtypeUnsupported | dtype.go:126-132 | encoding fails with "v" and an unsupported-conversion error exactly for String, Uintptr, UnsafePointer and user-defined descriptors |
| Numpy.CodeSpellsSize | dtype.go:89-105 | every code is the kind letter followed by the descriptor's byte size in decimal |
| Numpy.FixedIntegerCodeSpellsSize | dtype.go:92-100 | the code of every fixed-width integer is its kind letter and its byte size |
| Numpy.PlatformCodes | dtype.go:91-96 | int encodes as "i4" or "i8" and uint as "u4" or "u8", following the word size |
| Numpy.FromNumpyDtypeUnknown | dtype.go:135-139 | decoding fails, with an unsupported-decode error, exactly for the codes missing from the reverse table |
| Numpy.ReverseEncodes | dtype.go:107-121 | every descriptor in the reverse table encodes to the code it is listed under |
| Numpy.DecodeThenEncode | dtype.go:135-153 | whatever a code decodes to encodes back to that same code |
| Numpy.PlatformTwin | dtype.go:140-151 | a descriptor differs from its decoding twin exactly when it is a fixed-width integer as wide as the platform word |
| Numpy.EncodeThenDecode | dtype.go:126-153 | encoding then decoding gives the descriptor back, except that a fixed-width integer as wide as the word comes back as int or uint |
| Numpy.SignedWordRoundTrip | dtype.go:140-145 | the round trip for int, int32 and int64 on both word sizes |
| Numpy.UnsignedWordRoundTrip | dtype.go:146-151 | the round trip for uint, uint32 and uint64 on both word sizes |
| Numpy.NarrowSignedRoundTrip | dtype.go:109-110 | int8 and int16 come back unchanged |
| Numpy.NarrowUnsignedRoundTrip | dtype.go:113-114 | uint8 and uint16 come back unchanged |
| Numpy.FloatRoundTrip | dtype.go:117-120 | the float and complex descriptors come back unchanged |
| Numpy.DecodeExamples | dtype.go:135-139 | "EDIUH" and "zz9" fail to decode; String fails to encode |
| Numpy.PlatformDecodeExamples | dtype.go:143-149 | "i8" is int on a 64-bit platform and int64 on a 32-bit one; "u4" is uint on a 32-bit platform and uint32 on a 64-bit one |
| Constructors.ModulusIsPow2 | constructors.go:40-48 | the literal each n-bit conversion reduces by is 2^n, with 2^n defined independently by repeated doubling |
| Constructors.Signed | constructors.go:40-43 | two's-complement narrowing to n bits lands in [-2^(n-1), 2^(n-1)); SignedConversion adds congruence and identity on fitting values, SignedUnique shows no other integer qualifies |
| Constructors.Unsigned | constructors.go:44-48 | reduction to n bits lands in [0, 2^n); UnsignedConversion adds congruence and identity on fitting values |
| Constructors.Convert | constructors.go:39-48 | converting to an integer descriptor always yields a value representable in that descriptor on the platform |
| Constructors.SignedConversion | constructors.go:40-43 | a signed conversion lands in the target's range, is congruent to the input modulo 2^n, and keeps any value that fits |
| Constructors.UnsignedConversion | constructors.go:44-48 | an unsigned conversion lands in [0, 2^n), is congruent to the input modulo 2^n, and keeps any value that fits |
| Constructors.IntegerConversion | constructors.go:39-48 | every integer constructor yields a value of its own type, in that type's range, congruent to the input, and equal to it when it fits |
| Constructors.StringConversion | constructors.go:53 | the string constructor's text is decimal and reads back as the input |
| Constructors.Apply | constructors.go:39-53 | the meaning of each constructor; IntegerConversion, StringConversion and BuiltinTableTypes state what each returns |
| Constructors.WordConversionsAreIdentity | constructors.go:39-43 | int and int64 constructors return any Go int unchanged |
| Constructors.FromInt | constructors.go:13-19 | for a Go int of the platform, FromInt fails with NoConstructor exactly when the table has no entry, and otherwise applies the entry |
| Constructors.BuiltinTableDomain | constructors.go:21-37 | the built-in table (the constant BuiltinConstructors) covers exactly the integers, floats, complexes and String |
| Constructors.BuiltinTableTypes | constructors.go:21-37 | each built-in constructor produces a value of the descriptor it is registered under |
| Constructors.NoBuiltinConstructor | constructors.go:13-19 | Bool, Uintptr, UnsafePointer and user-defined descriptors have no built-in constructor |
| Constructors.FromIntExamples | constructors.go:42-53 | FromInt(Int32, 7) is the int32 7 and FromInt(String, 7) is "7" |
| Constructors.NarrowingExamples | constructors.go:40-45 | uint8(-1) is 255 and int8(200) is -56 |
| Cascade.Class | typeclasses.go:24-39 | the class a TypeClass index selects from the `typeclasses` array; All selects the registry slice itself, Eq the Eq slice, Floats the Float slice |
| Cascade.Seed | typeclasses.go:42-137 | the initial registry holds eighteen descriptors, Eq starts equal to it, and the constructor table is the built-in one; SeedConsistent proves it consistent |
| Cascade.Register | dtype.go:275-284 | afterwards the descriptor is registered and nothing but the registry slice has changed; RegisterInserts, RegisterGrows and RegisterPreserves say how |
| Cascade.RegisterEq | dtype.go:262-272 | afterwards the descriptor is in Eq and only Eq and the registry may have changed; RegisterEqInserts, RegisterEqGrows and RegisterEqPreserves say how |
| Cascade.RegisterOrd | dtype.go:249-259 | afterwards the descriptor is in Ord and only Ord, Eq and the registry may have changed; RegisterOrdInserts, RegisterOrdGrows and RegisterOrdPreserves say how |
| Cascade.RegisterNumber | dtype.go:218-231 | afterwards the descriptor is a number and only Number, Eq, the registry and the constructor table may have changed; RegisterNumberInserts, RegisterNumberGrows and RegisterNumberPreserves say how |
| Cascade.RegisterFloat | dtype.go:235-246 | afterwards the descriptor is a float, only Float, Number, Ord, Eq and the registry may have changed, and the constructor table is untouched; RegisterFloatInserts, RegisterFloatGrows and RegisterFloatPreserves say how |
| Cascade.FindName | dtype.go:163-170 | lookup by name fails with NameNotFound exactly when no descriptor has the name, and otherwise returns the first that does |
| Cascade.CheckMembership | dtype.go:186-197 | a nil class admits everything; otherwise the check fails with NotInTypeClass exactly for non-members |
| Cascade.TypeClassCheck | dtype.go:174-184 | an index past the last class is UnknownTypeClass, a negative index succeeds, and otherwise the check succeeds exactly for members of the indexed class |
| Cascade.SeedConsistent | typeclasses.go:24-137 | the initial registry is duplicate-free, registers every class member and satisfies the cascade inclusions |
| Cascade.SeedMembersHaveIds | typeclasses.go:24-137 | every member of every seeded class has an ID among the eighteen built-in ones |
| Cascade.MembersHaveIds | dtype.go:287-296 | in a consistent registry every class member has a non-negative ID |
| Cascade.RegisterInserts | dtype.go:275-284 | Register inserts into the registry and touches nothing else |
| Cascade.RegisterEqInserts | dtype.go:262-272 | RegisterEq inserts into Eq and the registry and touches nothing else |
| Cascade.RegisterOrdInserts | dtype.go:249-259 | RegisterOrd inserts into Ord, Eq and the registry and touches nothing else |
| Cascade.RegisterNumberInserts | dtype.go:218-231 | RegisterNumber inserts into Number, Eq and the registry, and stores the constructor only when the descriptor is new to Number and the constructor is not nil |
| Cascade.RegisterFloatInserts | dtype.go:235-246 | RegisterFloat inserts into Float, Number, Ord, Eq and the registry and stores no constructor |
| Cascade.ConsistentCascadedAt | dtype.go:218-296 | a consistent registry meets each registration's precondition for every descriptor |
| Cascade.RegisterPreserves | dtype.go:275-284 | Register keeps the registry consistent |
| Cascade.RegisterEqPreserves | dtype.go:262-272 | RegisterEq keeps the registry consistent |
| Cascade.RegisterOrdPreserves | dtype.go:249-259 | RegisterOrd keeps the registry consistent |
| Cascade.RegisterNumberPreserves | dtype.go:218-231 | RegisterNumber keeps the registry consistent |
| Cascade.RegisterFloatPreserves | dtype.go:235-246 | RegisterFloat keeps the registry consistent |
| Cascade.RegisterGrows | dtype.go:275-284 | Register only appends the descriptor and leaves the constructor table alone |
| Cascade.RegisterEqGrows | dtype.go:262-272 | RegisterEq only appends the descriptor and leaves the constructor table alone |
| Cascade.RegisterOrdGrows | dtype.go:249-259 | RegisterOrd only appends the descriptor and leaves the constructor table alone |
| Cascade.RegisterNumberGrows | dtype.go:218-231 | RegisterNumber only appends the descriptor, and writes the table only for a new number with a non-nil constructor |
| Cascade.RegisterFloatGrows | dtype.go:235-246 | RegisterFloat only appends the descriptor and never writes the constructor table |
| Cascade.IdsAreStable | dtype.go:287-296 | after any registration an old descriptor keeps its ID and a newly appended one gets the next ID |
| Cascade.IdsDistinct | dtype.go:287-296 | distinct registered descriptors have distinct non-negative IDs and an unregistered one has -1 |
| Cascade.AlreadyRegistered | dtype.go:218-296 | each registration returns the state unchanged when the descriptor is already in its own class |
| Cascade.RegistrationsIdempotent | dtype.go:249-284 | calling Register, RegisterEq or RegisterOrd twice equals calling it once |
| Cascade.RegisterNumberIdempotent | dtype.go:218-231 | a second RegisterNumber changes nothing, whatever constructor it passes |
| Cascade.RegisterFloatIdempotent | dtype.go:235-246 | a second RegisterFloat changes nothing |
| Cascade.GrowsKeepsClasses | dtype.go:218-296 | when only one descriptor is appended, every other descriptor's memberships stay as they were |
| Cascade.OthersUnaffected | dtype.go:174-296 | registering a descriptor never changes the outcome of TypeClassCheck for another descriptor |
| Cascade.RegisterFloatMemberships | dtype.go:235-246 | after RegisterFloat the descriptor passes the Float, Number, Ord, Eq and All checks |
| Cascade.FindNameFirst | dtype.go:163-170 | the first descriptor carrying a name is the one found |
| Cascade.FindNameExtended | dtype.go:163-170 | later registrations never change what an already resolvable name resolves to |
| Cascade.FindNameOfMember | dtype.go:163-170 | when names are distinct, looking up a member's name finds that member |
| Cascade.SeedNamesDistinct | typeclasses.go:42-47 | the built-in names are distinct |
| Cascade.FindFloat64 | dtype.go:163-170 | "float64" finds Float64 in the initial registry |
| Cascade.FindUnknownName | dtype.go:163-170 | "f00b4rb4z" is not found |
| Cascade.NameNotDisplaced | dtype.go:163-170 | a custom descriptor registered under the name "float64" does not displace Float64 |
| Cascade.TypeClassCheckExamples | dtype.go:174-184 | Float64 is a Number, is not Unsigned, an out-of-range class is an error and class -1 succeeds |
| Cascade.Float16Registered | dtype.go:235-246 | RegisterFloat of a new 2-byte float appends it to Float, Number, Ord, Eq and the registry with ID 18 |
| Cascade.Float16RegisteredTwice | dtype.go:235-246 | registering it twice leaves it exactly once in each of those classes with ID 18 |
| Cascade.Float16Checks | dtype.go:235-246 | it then passes the Float, Number, Ord and Eq checks, while FromInt has no constructor for it |
| Registry.Contains | dtype.go:278-282 | the scan reports whether the slice holds the descriptor |
| Registry.CheckClass | dtype.go:186-197 | the scanning check agrees with CheckMembership |
| Registry.Registry.constructor | typeclasses.go:24-137 | the new registry holds the seeded classes and the built-in constructor table, and is consistent |
| Registry.Registry.Register | dtype.go:275-284 | the new state is Cascade.Register of the old one, and consistency is kept |
| Registry.Registry.RegisterEq | dtype.go:262-272 | the new state is Cascade.RegisterEq of the old one, and consistency is kept |
| Registry.Registry.RegisterOrd | dtype.go:249-259 | the new state is Cascade.RegisterOrd of the old one, and consistency is kept |
| Registry.Registry.RegisterNumber | dtype.go:218-231 | the new state is Cascade.RegisterNumber of the old one, and consistency is kept |
| Registry.Registry.RegisterFloat | dtype.go:235-246 | the new state is Cascade.RegisterFloat of the old one, and consistency is kept |
| Registry.Registry.ID | dtype.go:287-296 | the scan returns the first index of the descriptor in the registry, or -1 |
| Registry.Registry.FindByName | dtype.go:163-170 | the scan returns what Cascade.FindName specifies |
| Registry.Registry.TypeClassCheck | dtype.go:174-184 | the check returns what Cascade.TypeClassCheck specifies for the current state |
| Registry.Registry.FromInt | constructors.go:13-19 | FromInt on the registry's table, for a Go int, returns what Constructors.FromInt specifies |

## Left out

- Locking: every class in Go carries a `sync.Mutex`. The model is sequential,
  so the locks and their acquisition order (Float, Number, Ord, Eq,
  registry) are not represented; `FromInt` reads the constructor table
  without a lock in Go, and that race is not represented either.
- The `hm.Type` methods (`Apply`, `FreeTypeVar`, `Normalize`, `Types`,
  `Format`, `Eq`), `SliceOf` and `ReadIntoSlice`: they belong to the type
  inference and serialisation collaborators, not to this core.
- Reflection: descriptor names, sizes and kinds are fixed data instead of
  `reflect.TypeOf` and `unsafe.Sizeof` results. Two distinct Go types that
  share name, size and kind would be distinct descriptors in Go but are
  one `Custom` value here.
- Float and complex conversion: `float32FromInt`, `float64FromInt`,
  `complex64FromInt` and `complex128FromInt` yield a symbolic
  `FloatValue(type, input)`; rounding to the nearest float is not modelled.
- Error messages: errors are the six error kinds, not the formatted text.
- Constructors supplied to `RegisterNumber` are Dafny functions
  (`Supplied`), so nothing is known about the values they return.
- The source mixes a generic `Datatype[DT]` with `Dtype{reflect.Type}`
  literals; the model treats both as the one descriptor type.
