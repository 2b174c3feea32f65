/** The interchange codec: descriptors to and from NumPy array-interface
    type codes (dtype.go:85-153). */
module Numpy {
  import opened Errors
  import opened Dtypes
  import opened Decimal

  /** The forward table, as a lookup that answers None for a descriptor
      without an entry. The platform-width Int and Uint are spelled with
      their actual size, as `fmt.Sprintf("i%d", Int.Size())` writes them. */
  function NumpyDtypes(d: Dtype, w: WordSize): (r: Option<string>)
    ensures r.None? <==> d in {String, Uintptr, UnsafePointer} || d.Custom?
    ensures r.Some? ==> |r.value| >= 2 && r.value[0] == KindLetter(d)
  {
    match d
    case Bool => Some("b1")
    case Int => Some("i" + NatToString(Size(Int, w)))
    case Int8 => Some("i1")
    case Int16 => Some("i2")
    case Int32 => Some("i4")
    case Int64 => Some("i8")
    case Uint => Some("u" + NatToString(Size(Uint, w)))
    case Uint8 => Some("u1")
    case Uint16 => Some("u2")
    case Uint32 => Some("u4")
    case Uint64 => Some("u8")
    case Float32 => Some("f4")
    case Float64 => Some("f8")
    case Complex64 => Some("c8")
    case Complex128 => Some("c16")
    case _ => None
  }

  /** The reverse table; it names only the fixed-width descriptors, never
      the platform-width Int and Uint, and each code starts with the kind
      letter of the descriptor it names. */
  function ReverseNumpyDtypes(t: string): (r: Option<Dtype>)
    ensures r.Some? ==> !r.value.Int? && !r.value.Uint?
    ensures r.Some? ==> forall w: WordSize :: NumpyDtypes(r.value, w).Some?
    ensures r.Some? ==> |t| >= 2 && t[0] == KindLetter(r.value)
  {
    if t == "b1" then Some(Bool)
    else if t == "i1" then Some(Int8)
    else if t == "i2" then Some(Int16)
    else if t == "i4" then Some(Int32)
    else if t == "i8" then Some(Int64)
    else if t == "u1" then Some(Uint8)
    else if t == "u2" then Some(Uint16)
    else if t == "u4" then Some(Uint32)
    else if t == "u8" then Some(Uint64)
    else if t == "f4" then Some(Float32)
    else if t == "f8" then Some(Float64)
    else if t == "c8" then Some(Complex64)
    else if t == "c16" then Some(Complex128)
    else None
  }

  /** Encode: the table's code, or the sentinel "v" with an error. */
  function NumpyDtype(d: Dtype, w: WordSize): (r: (string, Option<ErrorKind>))
    ensures r.1.None? ==> |r.0| >= 2 && r.0[0] == KindLetter(d)
    ensures r.1.Some? ==> r == ("v", Some(UnsupportedNumpyConversion))
  {
    match NumpyDtypes(d, w)
    case Some(code) => (code, None)
    case None => ("v", Some(UnsupportedNumpyConversion))
  }

  /** Decode: an unknown code fails; a 4- or 8-byte integer code prefers the
      platform-width Int or Uint when its size matches the code's width. */
  function FromNumpyDtype(t: string, w: WordSize): (r: Result<Dtype>)
    ensures r.Err? <==> ReverseNumpyDtypes(t).None?
    ensures r.Err? ==> r.error == UnsupportedNumpyDecode
    ensures r.Ok? ==> var e := ReverseNumpyDtypes(t).value;
      Size(r.value, w) == Size(e, w) && KindLetter(r.value) == KindLetter(e)
  {
    match ReverseNumpyDtypes(t)
    case None => Err(UnsupportedNumpyDecode)
    case Some(d) =>
      if t == "i4" && Size(Int, w) == 4 then Ok(Int)
      else if t == "i8" && Size(Int, w) == 8 then Ok(Int)
      else if t == "u4" && Size(Uint, w) == 4 then Ok(Uint)
      else if t == "u8" && Size(Uint, w) == 8 then Ok(Uint)
      else Ok(d)
  }

  /** The letter a code starts with, from the descriptor's kind: an
      independent description of the forward table. */
  function KindLetter(d: Dtype): char {
    if d == Bool then 'b'
    else if IsSigned(d) then 'i'
    else if IsInteger(d) then 'u'
    else if d in {Float32, Float64} then 'f'
    else 'c'
  }

  /** Exactly String, the two pointer-like extras and custom descriptors have
      no code; for them the encoder answers "v" and an error. */
  lemma NumpyDtypeUnsupported(d: Dtype, w: WordSize)
    ensures NumpyDtype(d, w).1.Some? <==> d in {String, Uintptr, UnsafePointer} || d.Custom?
    ensures NumpyDtype(d, w).1.Some? ==> NumpyDtype(d, w) == ("v", Some(UnsupportedNumpyConversion))
  {
  }

  /** Every code is the kind letter followed by the size in bytes, so Int
      and Uint encode as "i"/"u" and the platform word size. */
  lemma {:induction false} CodeSpellsSize(d: Dtype, w: WordSize)
    requires NumpyDtype(d, w).1.None?
    ensures NumpyDtype(d, w).0 == [KindLetter(d)] + NatToString(Size(d, w))
  {
    var code := NumpyDtype(d, w).0;
    if d.Int? || d.Uint? {
      PlatformCodes(w);
    } else if IsInteger(d) {
      FixedIntegerCodeSpellsSize(d, w);
    } else {
      assert NatToString(16) == "16";
      match d
      case Bool => assert code == "b1";
      case Float32 => assert code == "f4";
      case Float64 => assert code == "f8";
      case Complex64 => assert code == "c8";
      case Complex128 => assert code == "c16";
    }
  }

  lemma {:induction false} FixedIntegerCodeSpellsSize(d: Dtype, w: WordSize)
    requires IsInteger(d) && !d.Int? && !d.Uint?
    ensures NumpyDtype(d, w).0 == [KindLetter(d)] + NatToString(Size(d, w))
  {
    var code := NumpyDtype(d, w).0;
    match d
    case Int8 => assert code == "i1";
    case Int16 => assert code == "i2";
    case Int32 => assert code == "i4";
    case Int64 => assert code == "i8";
    case Uint8 => assert code == "u1";
    case Uint16 => assert code == "u2";
    case Uint32 => assert code == "u4";
    case Uint64 => assert code == "u8";
  }

  lemma PlatformCodes(w: WordSize)
    ensures NumpyDtype(Int, w) == (if w == 4 then "i4" else "i8", None)
    ensures NumpyDtype(Uint, w) == (if w == 4 then "u4" else "u8", None)
  {
    var digits := NatToString(w);
    assert digits == if w == 4 then "4" else "8";
    assert "i" + digits == if w == 4 then "i4" else "i8";
    assert "u" + digits == if w == 4 then "u4" else "u8";
  }

  /** Decoding fails exactly on codes outside the reverse table. */
  lemma FromNumpyDtypeUnknown(t: string, w: WordSize)
    ensures FromNumpyDtype(t, w).Err? <==> ReverseNumpyDtypes(t).None?
    ensures FromNumpyDtype(t, w).Err? ==> FromNumpyDtype(t, w).error == UnsupportedNumpyDecode
  {
  }

  /** Every reverse-table entry encodes back to its own code. */
  lemma {:induction false} ReverseEncodes(k: string, w: WordSize)
    requires ReverseNumpyDtypes(k).Some?
    ensures NumpyDtype(ReverseNumpyDtypes(k).value, w) == (k, None)
  {
  }

  /** Decoding is a right inverse of encoding: whatever a code decodes to
      encodes back to that code, Int/Uint included. */
  lemma {:induction false} DecodeThenEncode(t: string, w: WordSize, d: Dtype)
    requires FromNumpyDtype(t, w) == Ok(d)
    ensures NumpyDtype(d, w) == (t, None)
  {
    ReverseEncodes(t, w);
    PlatformCodes(w);
  }

  /** The descriptor a fixed-width integer decodes to: the platform-width
      Int or Uint when the word has its width, else itself. */
  function PlatformTwin(d: Dtype, w: WordSize): (r: Dtype)
    ensures r == d <==> !(d in {Int32, Int64, Uint32, Uint64} && Size(d, w) == w)
  {
    if d in {Int32, Int64} && Size(d, w) == w then Int
    else if d in {Uint32, Uint64} && Size(d, w) == w then Uint
    else d
  }

  /** Encoding then decoding gives the descriptor back, except that a
      fixed-width 32- or 64-bit integer whose width equals the platform word
      comes back as the platform-width Int or Uint. */
  lemma {:induction false} EncodeThenDecode(d: Dtype, w: WordSize)
    requires NumpyDtype(d, w).1.None?
    ensures FromNumpyDtype(NumpyDtype(d, w).0, w) == Ok(PlatformTwin(d, w))
  {
    if d.Int? || d.Int32? || d.Int64? {
      SignedWordRoundTrip(d, w);
    } else if d.Uint? || d.Uint32? || d.Uint64? {
      UnsignedWordRoundTrip(d, w);
    } else if d.Int8? || d.Int16? {
      NarrowSignedRoundTrip(d, w);
    } else if d.Uint8? || d.Uint16? {
      NarrowUnsignedRoundTrip(d, w);
    } else if d.Bool? {
      assert NumpyDtype(d, w).0 == "b1";
    } else {
      FloatRoundTrip(d, w);
    }
  }

  lemma {:induction false} SignedWordRoundTrip(d: Dtype, w: WordSize)
    requires d.Int? || d.Int32? || d.Int64?
    ensures FromNumpyDtype(NumpyDtype(d, w).0, w) == Ok(PlatformTwin(d, w))
  {
    PlatformCodes(w);
    match d
    case Int32 => assert NumpyDtype(d, w).0 == "i4";
    case Int64 => assert NumpyDtype(d, w).0 == "i8";
    case Int =>
  }

  lemma {:induction false} UnsignedWordRoundTrip(d: Dtype, w: WordSize)
    requires d.Uint? || d.Uint32? || d.Uint64?
    ensures FromNumpyDtype(NumpyDtype(d, w).0, w) == Ok(PlatformTwin(d, w))
  {
    PlatformCodes(w);
    match d
    case Uint32 => assert NumpyDtype(d, w).0 == "u4";
    case Uint64 => assert NumpyDtype(d, w).0 == "u8";
    case Uint =>
  }

  lemma {:induction false} NarrowSignedRoundTrip(d: Dtype, w: WordSize)
    requires d.Int8? || d.Int16?
    ensures FromNumpyDtype(NumpyDtype(d, w).0, w) == Ok(d)
  {
    match d
    case Int8 => assert NumpyDtype(d, w).0 == "i1";
    case Int16 => assert NumpyDtype(d, w).0 == "i2";
  }

  lemma {:induction false} NarrowUnsignedRoundTrip(d: Dtype, w: WordSize)
    requires d.Uint8? || d.Uint16?
    ensures FromNumpyDtype(NumpyDtype(d, w).0, w) == Ok(d)
  {
    match d
    case Uint8 => assert NumpyDtype(d, w).0 == "u1";
    case Uint16 => assert NumpyDtype(d, w).0 == "u2";
  }

  lemma {:induction false} FloatRoundTrip(d: Dtype, w: WordSize)
    requires d.Float32? || d.Float64? || d.Complex64? || d.Complex128?
    ensures FromNumpyDtype(NumpyDtype(d, w).0, w) == Ok(d)
  {
    match d
    case Float32 => assert NumpyDtype(d, w).0 == "f4";
    case Float64 => assert NumpyDtype(d, w).0 == "f8";
    case Complex64 => assert NumpyDtype(d, w).0 == "c8";
    case Complex128 => assert NumpyDtype(d, w).0 == "c16";
  }

  lemma DecodeExamples(w: WordSize)
    ensures FromNumpyDtype("EDIUH", w) == Err(UnsupportedNumpyDecode)
    ensures FromNumpyDtype("zz9", w) == Err(UnsupportedNumpyDecode)
    ensures NumpyDtype(String, w) == ("v", Some(UnsupportedNumpyConversion))
  {
    assert ReverseNumpyDtypes("EDIUH").None? && ReverseNumpyDtypes("zz9").None? by {
      assert |"EDIUH"| == 5 && "zz9"[0] == 'z';
    }
  }

  lemma PlatformDecodeExamples()
    ensures FromNumpyDtype("i8", 8) == Ok(Int) && FromNumpyDtype("i8", 4) == Ok(Int64)
    ensures FromNumpyDtype("u4", 4) == Ok(Uint) && FromNumpyDtype("u4", 8) == Ok(Uint32)
  {
  }
}
