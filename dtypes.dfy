/** The closed universe of element-type descriptors (consts.go) and their
    name, size and kind (dtype.go:23-26). Go derives these by reflection and
    unsafe.Sizeof; here they are plain data, with the platform word size as
    a parameter because int, uint, uintptr and pointers depend on it. */
module Dtypes {

  /** Bytes in a machine word: 4 on a 32-bit platform, 8 on a 64-bit one. */
  type WordSize = w: nat | w == 4 || w == 8 witness 8

  /** The reflect.Kind of a descriptor's underlying Go type. */
  datatype Kind =
    | BoolKind | IntKind | Int8Kind | Int16Kind | Int32Kind | Int64Kind
    | UintKind | Uint8Kind | Uint16Kind | Uint32Kind | Uint64Kind | UintptrKind
    | Float32Kind | Float64Kind | Complex64Kind | Complex128Kind
    | StringKind | UnsafePointerKind | OtherKind

  /** One descriptor per built-in element type, plus Custom for a named type
      a client defines and registers (such as `type Float16 uint16`).
      Equality is structural: two descriptors are equal iff they denote the
      same type. */
  datatype Dtype =
    | Bool | Int | Int8 | Int16 | Int32 | Int64
    | Uint | Uint8 | Uint16 | Uint32 | Uint64
    | Float32 | Float64 | Complex64 | Complex128 | String
    | Uintptr | UnsafePointer
    | Custom(name: string, size: nat, kind: Kind)

  /** `Byte` is an alias: the very same descriptor as Uint8. */
  const Byte: Dtype := Uint8

  /** The Go type name that reflection reports (what FindByName matches).
      A built-in's name is at least three characters long with a lower-case
      letter in second place, so it can never be a name such as "f00b4rb4z"
      with a digit there: Cascade.FindUnknownName relies on this. */
  function Name(d: Dtype): (r: string)
    ensures d.Custom? ==> r == d.name
    ensures !d.Custom? ==> |r| >= 3 && 'a' <= r[1] <= 'z'
  {
    match d
    case Bool => "bool"
    case Int => "int"
    case Int8 => "int8"
    case Int16 => "int16"
    case Int32 => "int32"
    case Int64 => "int64"
    case Uint => "uint"
    case Uint8 => "uint8"
    case Uint16 => "uint16"
    case Uint32 => "uint32"
    case Uint64 => "uint64"
    case Float32 => "float32"
    case Float64 => "float64"
    case Complex64 => "complex64"
    case Complex128 => "complex128"
    case String => "string"
    case Uintptr => "uintptr"
    case UnsafePointer => "Pointer"
    case Custom(n, _, _) => n
  }

  /** Bytes occupied by one value (unsafe.Sizeof); a string header is a
      pointer and a length. Every built-in occupies between 1 and 16 bytes,
      and the word-sized ones occupy a machine word. */
  function Size(d: Dtype, w: WordSize): (r: nat)
    ensures !d.Custom? ==> 1 <= r <= 16
    ensures d.Int? || d.Uint? || d.Uintptr? || d.UnsafePointer? ==> r == w
  {
    match d
    case Bool => 1
    case Int => w
    case Int8 => 1
    case Int16 => 2
    case Int32 => 4
    case Int64 => 8
    case Uint => w
    case Uint8 => 1
    case Uint16 => 2
    case Uint32 => 4
    case Uint64 => 8
    case Float32 => 4
    case Float64 => 8
    case Complex64 => 8
    case Complex128 => 16
    case String => 2 * w
    case Uintptr => w
    case UnsafePointer => w
    case Custom(_, s, _) => s
  }

  /** The reflect.Kind; only a custom descriptor can report OtherKind. */
  function KindOf(d: Dtype): (r: Kind)
    ensures d.Custom? ==> r == d.kind
    ensures !d.Custom? ==> r != OtherKind
  {
    match d
    case Bool => BoolKind
    case Int => IntKind
    case Int8 => Int8Kind
    case Int16 => Int16Kind
    case Int32 => Int32Kind
    case Int64 => Int64Kind
    case Uint => UintKind
    case Uint8 => Uint8Kind
    case Uint16 => Uint16Kind
    case Uint32 => Uint32Kind
    case Uint64 => Uint64Kind
    case Float32 => Float32Kind
    case Float64 => Float64Kind
    case Complex64 => Complex64Kind
    case Complex128 => Complex128Kind
    case String => StringKind
    case Uintptr => UintptrKind
    case UnsafePointer => UnsafePointerKind
    case Custom(_, _, k) => k
  }

  /** The integer descriptors of the language, signed and unsigned. */
  predicate IsInteger(d: Dtype) {
    IsSigned(d) || d.Uint? || d.Uint8? || d.Uint16? || d.Uint32? || d.Uint64?
  }

  predicate IsSigned(d: Dtype) {
    d.Int? || d.Int8? || d.Int16? || d.Int32? || d.Int64?
  }

  /** Position in the declaration order of consts.go; custom descriptors
      come after every built-in. */
  function Rank(d: Dtype): nat {
    match d
    case Bool => 0
    case Int => 1
    case Int8 => 2
    case Int16 => 3
    case Int32 => 4
    case Int64 => 5
    case Uint => 6
    case Uint8 => 7
    case Uint16 => 8
    case Uint32 => 9
    case Uint64 => 10
    case Float32 => 11
    case Float64 => 12
    case Complex64 => 13
    case Complex128 => 14
    case String => 15
    case Uintptr => 16
    case UnsafePointer => 17
    case Custom(_, _, _) => 18
  }

  /** Two distinct built-in descriptors never share a name, and no built-in
      shares its kind with another: the reflected identity is unique. */
  lemma BuiltinIdentity(d: Dtype, e: Dtype)
    requires !d.Custom? && !e.Custom?
    ensures Name(d) == Name(e) <==> d == e
    ensures KindOf(d) == KindOf(e) <==> d == e
  {
    if d != e {
      if IsInteger(d) {
        IntegerNameUnique(d, e);
      } else {
        OtherNameUnique(d, e);
      }
    }
  }

  lemma IntegerNameUnique(d: Dtype, e: Dtype)
    requires IsInteger(d) && !e.Custom? && d != e
    ensures Name(d) != Name(e)
  {
    match d
    case Int => assert Name(e) != "int";
    case Uint => assert Name(e) != "uint";
    case _ =>
  }

  lemma OtherNameUnique(d: Dtype, e: Dtype)
    requires !IsInteger(d) && !d.Custom? && !e.Custom? && d != e
    ensures Name(d) != Name(e)
  {
  }

  /** The fixed sizes, and the word-sized descriptors. */
  lemma Sizes(w: WordSize)
    ensures Size(Int8, w) == Size(Uint8, w) == Size(Bool, w) == 1
    ensures Size(Int16, w) == Size(Uint16, w) == 2
    ensures Size(Int32, w) == Size(Uint32, w) == Size(Float32, w) == 4
    ensures Size(Int64, w) == Size(Uint64, w) == Size(Float64, w) == Size(Complex64, w) == 8
    ensures Size(Complex128, w) == 16
    ensures Size(Int, w) == Size(Uint, w) == Size(Uintptr, w) == Size(UnsafePointer, w) == w
    ensures Size(String, w) == 2 * w
    ensures Size(Byte, w) == 1 && Name(Byte) == "uint8"
  {
  }
}
