/** Building a value of a registered type from a machine integer
    (constructors.go). Go keeps a map from descriptor to constructor
    function; here each built-in constructor is named by a constructor of
    Ctor and `Apply` gives its meaning, while a constructor supplied at
    registration time is carried as a function. */
module Constructors {
  import opened Errors
  import opened Dtypes
  import opened Decimal

  /** The value a constructor returns, tagged with its Go type. Float and
      complex conversions are kept symbolic: FloatValue(t, v) stands for
      the value of type t converted from v, which this model does not
      compute. */
  datatype Value =
    | IntValue(t: Dtype, i: int)
    | FloatValue(t: Dtype, from: int)
    | StringValue(s: string)

  datatype Ctor =
    | IntFromInt | Int8FromInt | Int16FromInt | Int32FromInt | Int64FromInt
    | UintFromInt | Uint8FromInt | Uint16FromInt | Uint32FromInt | Uint64FromInt
    | Float32FromInt | Float64FromInt | Complex64FromInt | Complex128FromInt
    | StringFromInt
    | Supplied(f: int -> Value)

  /** The widths, in bits, of the language's integer types. */
  type Width = n: nat | n in {8, 16, 32, 64} witness 8

  /** Two to the power n, by repeated doubling. */
  function Pow2(n: nat): (p: nat)
    ensures p >= 1
  {
    if n == 0 then 1 else 2 * Pow2(n - 1)
  }

  lemma {:induction false} Pow2Add(a: nat, b: nat)
    ensures Pow2(a + b) == Pow2(a) * Pow2(b)
    decreases a
  {
    if a > 0 {
      Pow2Add(a - 1, b);
    }
  }

  lemma Pow2Of8()
    ensures Pow2(8) == 0x100
  {
  }

  lemma Pow2Of16()
    ensures Pow2(16) == 0x1_0000
  {
    Pow2Of8();
    Pow2Add(8, 8);
  }

  lemma Pow2Of32()
    ensures Pow2(32) == 0x1_0000_0000
  {
    Pow2Of16();
    Pow2Add(16, 16);
  }

  lemma Pow2Of64()
    ensures Pow2(64) == 0x1_0000_0000_0000_0000
  {
    Pow2Of32();
    Pow2Add(32, 32);
  }

  /** The number of distinct n-bit integers, written as the literal the
      conversions reduce by; ModulusIsPow2 shows it is 2^n. */
  function Modulus(n: Width): (m: int)
    ensures m >= 2 && m % 2 == 0
  {
    match n
    case 8 => 0x100
    case 16 => 0x1_0000
    case 32 => 0x1_0000_0000
    case 64 => 0x1_0000_0000_0000_0000
  }

  /** Each width's literal is two to the power of the width. */
  lemma ModulusIsPow2(n: Width)
    ensures Modulus(n) == Pow2(n)
  {
    match n
    case 8 => Pow2Of8();
    case 16 => Pow2Of16();
    case 32 => Pow2Of32();
    case 64 => Pow2Of64();
  }

  /** The smallest and one past the largest n-bit signed integer. */
  function MinSigned(n: Width): int { -(Modulus(n) / 2) }
  function MaxSigned(n: Width): int { Modulus(n) / 2 }

  /** Conversion to an n-bit signed integer: two's-complement wrap-around. */
  function Signed(v: int, n: Width): (r: int)
    ensures MinSigned(n) <= r < MaxSigned(n)
  {
    var m := v % Modulus(n);
    if m >= MaxSigned(n) then m - Modulus(n) else m
  }

  /** Conversion to an n-bit unsigned integer: reduction modulo 2^n. */
  function Unsigned(v: int, n: Width): (r: int)
    ensures 0 <= r < Modulus(n)
  {
    v % Modulus(n)
  }

  /** The bits in a machine word. */
  function WordBits(w: WordSize): Width {
    8 * w
  }

  /** A Go `int` on a platform with word size w. */
  predicate IsGoInt(v: int, w: WordSize) {
    MinSigned(WordBits(w)) <= v < MaxSigned(WordBits(w))
  }

  /** Go's conversion of an integer to the integer type t: sign-extend,
      then keep the low 8 * size bits, read as signed or unsigned. */
  function Convert(t: Dtype, w: WordSize, v: int): (r: int)
    requires IsInteger(t)
    ensures InRange(t, w, r)
  {
    if IsSigned(t) then Signed(v, Bits(t, w)) else Unsigned(v, Bits(t, w))
  }

  /** What a constructor returns for v; IntegerConversion, BuiltinTableTypes
      and StringConversion below say what that value is. */
  function Apply(c: Ctor, w: WordSize, v: int): Value
  {
    match c
    case IntFromInt => IntValue(Int, Convert(Int, w, v))
    case Int8FromInt => IntValue(Int8, Convert(Int8, w, v))
    case Int16FromInt => IntValue(Int16, Convert(Int16, w, v))
    case Int32FromInt => IntValue(Int32, Convert(Int32, w, v))
    case Int64FromInt => IntValue(Int64, Convert(Int64, w, v))
    case UintFromInt => IntValue(Uint, Convert(Uint, w, v))
    case Uint8FromInt => IntValue(Uint8, Convert(Uint8, w, v))
    case Uint16FromInt => IntValue(Uint16, Convert(Uint16, w, v))
    case Uint32FromInt => IntValue(Uint32, Convert(Uint32, w, v))
    case Uint64FromInt => IntValue(Uint64, Convert(Uint64, w, v))
    case Float32FromInt => FloatValue(Float32, v)
    case Float64FromInt => FloatValue(Float64, v)
    case Complex64FromInt => FloatValue(Complex64, v)
    case Complex128FromInt => FloatValue(Complex128, v)
    case StringFromInt => StringValue(IntToString(v))
    case Supplied(f) => f(v)
  }

  /** The table installed at start-up: the fourteen numeric descriptors and
      String. */
  const BuiltinConstructors: map<Dtype, Ctor> := map[
    Int := IntFromInt,
    Int8 := Int8FromInt,
    Int16 := Int16FromInt,
    Int32 := Int32FromInt,
    Int64 := Int64FromInt,
    Uint := UintFromInt,
    Uint8 := Uint8FromInt,
    Uint16 := Uint16FromInt,
    Uint32 := Uint32FromInt,
    Uint64 := Uint64FromInt,
    Float32 := Float32FromInt,
    Float64 := Float64FromInt,
    Complex64 := Complex64FromInt,
    Complex128 := Complex128FromInt,
    String := StringFromInt
  ]

  /** Look the descriptor up in a constructor table and apply what is found
      to v, a Go int of the platform. */
  function FromInt(table: map<Dtype, Ctor>, w: WordSize, d: Dtype, v: int): (r: Result<Value>)
    requires IsGoInt(v, w)
    ensures r.Err? <==> d !in table
    ensures r.Err? ==> r.error == NoConstructor
    ensures r.Ok? ==> r.value == Apply(table[d], w, v)
  {
    if d in table then Ok(Apply(table[d], w, v)) else Err(NoConstructor)
  }

  /** The Go type of a value. */
  function TypeOf(x: Value): Dtype {
    match x
    case IntValue(t, _) => t
    case FloatValue(t, _) => t
    case StringValue(_) => String
  }

  /** The width in bits of an integer descriptor on word size w. */
  function Bits(t: Dtype, w: WordSize): Width
    requires IsInteger(t)
  {
    8 * Size(t, w)
  }

  /** The integers representable in type t (an integer descriptor). */
  predicate InRange(t: Dtype, w: WordSize, x: int)
    requires IsInteger(t)
  {
    if IsSigned(t) then MinSigned(Bits(t, w)) <= x < MaxSigned(Bits(t, w))
    else 0 <= x < Modulus(Bits(t, w))
  }

  // ---------------------------------------------------------------------
  // Arithmetic of the wrap-around conversions

  lemma MulAtLeast(m: int, k: int)
    requires m > 0 && k >= 1
    ensures m * k >= m
  {
    assert m * k == m * (k - 1) + m;
  }

  /** A multiple of m strictly between -m and m is zero. */
  lemma SmallMultiple(m: int, k: int)
    requires m > 0 && -m < m * k < m
    ensures k == 0
  {
    if k >= 1 {
      MulAtLeast(m, k);
    } else if k <= -1 {
      assert m * (-k) == -(m * k);
      MulAtLeast(m, -k);
    }
  }

  /** Euclidean division has one quotient and one remainder. */
  lemma ModUnique(x: int, m: int, q: int, r: int)
    requires m > 0 && 0 <= r < m && x == m * q + r
    ensures x % m == r && x / m == q
  {
    assert x == m * (x / m) + x % m;
    assert m * (q - x / m) == x % m - r;
    SmallMultiple(m, q - x / m);
  }

  lemma MultipleMod(m: int, q: int)
    requires m > 0
    ensures (m * q) % m == 0
  {
    ModUnique(m * q, m, q, 0);
  }

  /** Signed(v, n) lies in the n-bit signed range and differs from v by a
      multiple of 2^n. */
  lemma {:induction false} SignedWraps(v: int, n: Width)
    ensures MinSigned(n) <= Signed(v, n) < MaxSigned(n)
    ensures (v - Signed(v, n)) % Modulus(n) == 0
  {
    var m := Modulus(n);
    assert v == m * (v / m) + v % m;
    if v % m >= MaxSigned(n) {
      assert v - Signed(v, n) == m * (v / m + 1);
      MultipleMod(m, v / m + 1);
    } else {
      assert v - Signed(v, n) == m * (v / m);
      MultipleMod(m, v / m);
    }
  }

  /** ...and it is the only such integer. */
  lemma {:induction false} SignedUnique(v: int, n: Width, r: int)
    requires MinSigned(n) <= r < MaxSigned(n)
    requires (v - r) % Modulus(n) == 0
    ensures r == Signed(v, n)
  {
    var m := Modulus(n);
    var s := Signed(v, n);
    SignedWraps(v, n);
    assert v - r == m * ((v - r) / m);
    assert v - s == m * ((v - s) / m);
    assert r - s == m * ((v - s) / m - (v - r) / m);
    SmallMultiple(m, (v - s) / m - (v - r) / m);
  }

  /** Everything about the signed conversion at once: in range, congruent,
      and the identity on values that already fit. */
  lemma SignedConversion(v: int, n: Width)
    ensures MinSigned(n) <= Signed(v, n) < MaxSigned(n)
    ensures (v - Signed(v, n)) % Modulus(n) == 0
    ensures MinSigned(n) <= v < MaxSigned(n) ==> Signed(v, n) == v
  {
    SignedWraps(v, n);
    if MinSigned(n) <= v < MaxSigned(n) {
      SignedUnique(v, n, v);
    }
  }

  /** Unsigned(v, n) lies in [0, 2^n), differs from v by a multiple of 2^n,
      and is v itself when v is already in that range. */
  lemma {:induction false} UnsignedConversion(v: int, n: Width)
    ensures 0 <= Unsigned(v, n) < Modulus(n)
    ensures (v - Unsigned(v, n)) % Modulus(n) == 0
    ensures 0 <= v < Modulus(n) ==> Unsigned(v, n) == v
  {
    var m := Modulus(n);
    assert v == m * (v / m) + v % m;
    assert v - Unsigned(v, n) == m * (v / m);
    MultipleMod(m, v / m);
    if 0 <= v < m {
      ModUnique(v, m, 0, v);
    }
  }

  // ---------------------------------------------------------------------
  // The constructors

  predicate IsIntegerCtor(c: Ctor) {
    || c.IntFromInt? || c.Int8FromInt? || c.Int16FromInt? || c.Int32FromInt? || c.Int64FromInt?
    || c.UintFromInt? || c.Uint8FromInt? || c.Uint16FromInt? || c.Uint32FromInt? || c.Uint64FromInt?
  }

  /** The descriptor whose values a built-in integer constructor makes. */
  function IntegerTarget(c: Ctor): Dtype
    requires IsIntegerCtor(c)
  {
    match c
    case IntFromInt => Int
    case Int8FromInt => Int8
    case Int16FromInt => Int16
    case Int32FromInt => Int32
    case Int64FromInt => Int64
    case UintFromInt => Uint
    case Uint8FromInt => Uint8
    case Uint16FromInt => Uint16
    case Uint32FromInt => Uint32
    case Uint64FromInt => Uint64
  }

  /** An integer constructor converts its argument to its target type the
      way Go's conversions between integer types do: the result is in the
      target's range, congruent to the input modulo 2^(8 * size), and equal
      to the input whenever the input already fits. */
  lemma {:induction false} IntegerConversion(c: Ctor, w: WordSize, v: int)
    requires IsIntegerCtor(c)
    ensures var t := IntegerTarget(c); var x := Apply(c, w, v).i;
      && Apply(c, w, v) == IntValue(t, x)
      && InRange(t, w, x)
      && (v - x) % Modulus(Bits(t, w)) == 0
      && (InRange(t, w, v) ==> x == v)
  {
    var t := IntegerTarget(c);
    assert Apply(c, w, v) == IntValue(t, Convert(t, w, v));
    if IsSigned(t) {
      SignedConversion(v, Bits(t, w));
    } else {
      UnsignedConversion(v, Bits(t, w));
    }
  }

  /** The string constructor writes v in decimal, and the text reads back
      as v. */
  lemma StringConversion(w: WordSize, v: int)
    ensures Apply(StringFromInt, w, v).StringValue?
    ensures IsDecimalText(Apply(StringFromInt, w, v).s)
    ensures ParseInt(Apply(StringFromInt, w, v).s) == v
  {
    ParseIntToString(v);
  }

  /** On either platform int and int64 keep a Go int unchanged. */
  lemma WordConversionsAreIdentity(w: WordSize, v: int)
    requires IsGoInt(v, w)
    ensures Apply(IntFromInt, w, v) == IntValue(Int, v)
    ensures Apply(Int64FromInt, w, v) == IntValue(Int64, v)
  {
    var n := WordBits(w);
    assert Bits(Int, w) == n && Bits(Int64, w) == 64;
    SignedConversion(v, n);
    assert Apply(IntFromInt, w, v) == IntValue(Int, Signed(v, n));
    assert n == 32 || n == 64;
    assert MinSigned(64) <= MinSigned(n) && MaxSigned(n) <= MaxSigned(64);
    SignedConversion(v, 64);
    assert Apply(Int64FromInt, w, v) == IntValue(Int64, Signed(v, 64));
  }

  /** Exactly the numeric descriptors and String have a built-in
      constructor. */
  lemma BuiltinTableDomain()
    ensures forall d :: d in BuiltinConstructors <==>
      IsInteger(d) || d.Float32? || d.Float64? || d.Complex64? || d.Complex128? || d.String?
  {
  }

  /** Each built-in constructor makes values of its own descriptor's type. */
  lemma BuiltinTableTypes(w: WordSize, d: Dtype, v: int)
    requires d in BuiltinConstructors
    ensures TypeOf(Apply(BuiltinConstructors[d], w, v)) == d
  {
    match d
    case Int => assert BuiltinConstructors[d] == IntFromInt;
    case Int8 => assert BuiltinConstructors[d] == Int8FromInt;
    case Int16 => assert BuiltinConstructors[d] == Int16FromInt;
    case Int32 => assert BuiltinConstructors[d] == Int32FromInt;
    case Int64 => assert BuiltinConstructors[d] == Int64FromInt;
    case Uint => assert BuiltinConstructors[d] == UintFromInt;
    case Uint8 => assert BuiltinConstructors[d] == Uint8FromInt;
    case Uint16 => assert BuiltinConstructors[d] == Uint16FromInt;
    case Uint32 => assert BuiltinConstructors[d] == Uint32FromInt;
    case Uint64 => assert BuiltinConstructors[d] == Uint64FromInt;
    case Float32 => assert BuiltinConstructors[d] == Float32FromInt;
    case Float64 => assert BuiltinConstructors[d] == Float64FromInt;
    case Complex64 => assert BuiltinConstructors[d] == Complex64FromInt;
    case Complex128 => assert BuiltinConstructors[d] == Complex128FromInt;
    case String => assert BuiltinConstructors[d] == StringFromInt;
  }

  /** Bool, the pointer-like extras and custom descriptors have none. */
  lemma NoBuiltinConstructor(w: WordSize, d: Dtype, v: int)
    requires d.Bool? || d.Uintptr? || d.UnsafePointer? || d.Custom?
    requires IsGoInt(v, w)
    ensures FromInt(BuiltinConstructors, w, d, v) == Err(NoConstructor)
  {
  }

  lemma FromIntExamples(w: WordSize)
    ensures FromInt(BuiltinConstructors, w, Int32, 7) == Ok(IntValue(Int32, 7))
    ensures FromInt(BuiltinConstructors, w, String, 7) == Ok(StringValue("7"))
  {
    assert BuiltinConstructors[Int32] == Int32FromInt;
    assert Bits(Int32, w) == 32;
    assert Signed(7, 32) == 7;
    assert Apply(Int32FromInt, w, 7) == IntValue(Int32, 7);
    assert BuiltinConstructors[String] == StringFromInt;
    assert IntToString(7) == "7";
    assert Apply(StringFromInt, w, 7) == StringValue("7");
  }

  lemma NarrowingExamples(w: WordSize)
    ensures FromInt(BuiltinConstructors, w, Uint8, -1) == Ok(IntValue(Uint8, 255))
    ensures FromInt(BuiltinConstructors, w, Int8, 200) == Ok(IntValue(Int8, -56))
  {
    assert BuiltinConstructors[Uint8] == Uint8FromInt;
    assert Bits(Uint8, w) == 8;
    assert Unsigned(-1, 8) == 255;
    assert Apply(Uint8FromInt, w, -1) == IntValue(Uint8, 255);
    assert BuiltinConstructors[Int8] == Int8FromInt;
    assert Bits(Int8, w) == 8;
    assert Signed(200, 8) == -56;
    assert Apply(Int8FromInt, w, 200) == IntValue(Int8, -56);
  }
}
