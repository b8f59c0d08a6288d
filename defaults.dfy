/**
 * Default-value literals (us_helpers.cc: AllAscii, DefaultValue,
 * IsDefaultValueJavaDefault) for the integer, boolean, string and bytes
 * categories. CEscape is not part of this model: the formatter takes it as
 * the parameter cEscape.
 */
module Defaults {
  import opened Wrappers
  import opened StrUtil
  import opened Descriptor

  /** No byte of text has its high bit (0x80) set. */
  predicate IsAscii(text: seq<byte>)
  {
    forall i :: 0 <= i < |text| ==> text[i] < 0x80
  }

  method AllAscii(text: seq<byte>) returns (r: bool)
    ensures r <==> IsAscii(text)
  {
    var i := 0;
    while i < |text|
      invariant 0 <= i <= |text|
      invariant forall k :: 0 <= k < i ==> text[k] < 0x80
    {
      if text[i] & 0x80 != 0 {
        return false;
      }
      i := i + 1;
    }
    return true;
  }

  /** static_cast<int32> of an unsigned 32-bit value: two's-complement wrap. */
  function UInt32AsInt32(v: int): (r: int)
    requires 0 <= v < UInt32Bound
    ensures Int32Min <= r < Int32Bound
    ensures (r - v) % UInt32Bound == 0
    ensures 0 <= v < Int32Bound ==> r == v
  {
    if v < Int32Bound then v else v - UInt32Bound
  }

  /** static_cast<int64> of an unsigned 64-bit value. */
  function UInt64AsInt64(v: int): (r: int)
    requires 0 <= v < UInt64Bound
    ensures Int64Min <= r < Int64Bound
    ensures (r - v) % UInt64Bound == 0
    ensures 0 <= v < Int64Bound ==> r == v
  {
    if v < Int64Bound then v else v - UInt64Bound
  }

  /** The categories whose branches of DefaultValue this model formats. */
  predicate FormatsDefault(f: Field)
  {
    TypeToCppType(f.fieldType) in {CppInt32, CppUInt32, CppInt64, CppUInt64, CppBool, CppString}
  }

  const BytesEmpty: string := "com.google.protobuf.ByteString.EMPTY"
  const StringHelperPrefix: string := "com.google.protobuf.Internal.stringDefaultValue(\""
  const BytesHelperPrefix: string := "com.google.protobuf.Internal.bytesDefaultValue(\""

  /**
   * The Java literal of a field's default. Only a 64-bit literal carries
   * the long suffix 'L': the others end in a digit, in a letter of true or
   * false, in a closing quote or in a closing parenthesis.
   */
  function DefaultValue(f: Field, cEscape: seq<byte> -> string): (r: string)
    requires DefaultFits(f) && FormatsDefault(f)
    ensures |r| > 0
    ensures r[|r| - 1] == 'L' <==> TypeToCppType(f.fieldType) in {CppInt64, CppUInt64}
  {
    match TypeToCppType(f.fieldType)
    case CppInt32 => IntToDecimal(DefaultInt(f))
    // Printed as a signed int, since Java has no unsigned types.
    case CppUInt32 => IntToDecimal(UInt32AsInt32(DefaultInt(f)))
    case CppInt64 => IntToDecimal(DefaultInt(f)) + "L"
    case CppUInt64 => IntToDecimal(UInt64AsInt64(DefaultInt(f))) + "L"
    case CppBool => if DefaultBool(f) then "true" else "false"
    case CppString =>
      if f.fieldType == Bytes then
        if f.defaultValue.Some? then BytesHelperPrefix + cEscape(DefaultBytes(f)) + "\")"
        else BytesEmpty
      else if IsAscii(DefaultBytes(f)) then "\"" + cEscape(DefaultBytes(f)) + "\""
      else StringHelperPrefix + cEscape(DefaultBytes(f)) + "\")"
  }

  /** A 32-bit default is printed as the decimal of its value; an unsigned one wraps to signed. */
  lemma Int32DefaultText(f: Field, cEscape: seq<byte> -> string)
    requires DefaultFits(f)
    requires TypeToCppType(f.fieldType) in {CppInt32, CppUInt32}
    ensures Int32Min <= ParseDecimal(DefaultValue(f, cEscape)) < Int32Bound
    ensures TypeToCppType(f.fieldType) == CppInt32 ==> ParseDecimal(DefaultValue(f, cEscape)) == DefaultInt(f)
    ensures TypeToCppType(f.fieldType) == CppUInt32 ==>
      ParseDecimal(DefaultValue(f, cEscape)) == (if DefaultInt(f) < Int32Bound then DefaultInt(f) else DefaultInt(f) - UInt32Bound)
  {
    if TypeToCppType(f.fieldType) == CppInt32 {
      IntToDecimalRoundTrip(DefaultInt(f));
    } else {
      IntToDecimalRoundTrip(UInt32AsInt32(DefaultInt(f)));
    }
  }

  /**
   * A string default is a quoted escaped literal exactly when every byte
   * is ASCII; otherwise it is a call to the decoding helper.
   */
  lemma StringDefaultText(f: Field, cEscape: seq<byte> -> string)
    requires DefaultFits(f) && f.fieldType == String
    ensures DefaultValue(f, cEscape) == "\"" + cEscape(DefaultBytes(f)) + "\"" <==> IsAscii(DefaultBytes(f))
    ensures !IsAscii(DefaultBytes(f)) ==> DefaultValue(f, cEscape) == StringHelperPrefix + cEscape(DefaultBytes(f)) + "\")"
  {
    if !IsAscii(DefaultBytes(f)) {
      var e := cEscape(DefaultBytes(f));
      assert |StringHelperPrefix + e + "\")"| > |"\"" + e + "\""|;
    }
  }

  /** A bytes field without a declared default refers to the shared empty constant. */
  lemma BytesDefaultText(f: Field, cEscape: seq<byte> -> string)
    requires DefaultFits(f) && f.fieldType == Bytes
    ensures DefaultValue(f, cEscape) == BytesEmpty <==> f.defaultValue.None?
  {
    if f.defaultValue.Some? {
      assert |BytesHelperPrefix| > |BytesEmpty|;
    }
  }

  /**
   * Only integer and bool fields can have the Java default, and one whose
   * default is not declared always has it.
   */
  function IsDefaultValueJavaDefault(f: Field): (r: bool)
    requires TypeToCppType(f.fieldType) !in {CppDouble, CppFloat}
    ensures r ==> TypeToCppType(f.fieldType) in {CppInt32, CppUInt32, CppInt64, CppUInt64, CppBool}
    ensures f.defaultValue.None? && TypeToCppType(f.fieldType) in {CppInt32, CppUInt32, CppInt64, CppUInt64, CppBool} ==> r
  {
    match TypeToCppType(f.fieldType)
    case CppInt32 => DefaultInt(f) == 0
    case CppUInt32 => DefaultInt(f) == 0
    case CppInt64 => DefaultInt(f) == 0
    case CppUInt64 => DefaultInt(f) == 0
    case CppBool => DefaultBool(f) == false
    case CppString => false
    case CppEnum => false
    case CppMessage => false
  }

  /**
   * The default is the language default exactly when the formatter prints
   * the zero literal of its category ("0", "0L" or "false"); string, bytes,
   * enum and message defaults never count as the language default.
   */
  lemma JavaDefaultIsZeroLiteral(f: Field, cEscape: seq<byte> -> string)
    requires DefaultFits(f) && FormatsDefault(f)
    ensures TypeToCppType(f.fieldType) in {CppInt32, CppUInt32} ==>
      (IsDefaultValueJavaDefault(f) <==> DefaultValue(f, cEscape) == "0")
    ensures TypeToCppType(f.fieldType) in {CppInt64, CppUInt64} ==>
      (IsDefaultValueJavaDefault(f) <==> DefaultValue(f, cEscape) == "0L")
    ensures TypeToCppType(f.fieldType) == CppBool ==>
      (IsDefaultValueJavaDefault(f) <==> DefaultValue(f, cEscape) == "false")
    ensures TypeToCppType(f.fieldType) == CppString ==> !IsDefaultValueJavaDefault(f)
  {
    var v := DefaultInt(f);
    match TypeToCppType(f.fieldType)
    case CppInt32 => IntToDecimalZero(v);
    case CppUInt32 => IntToDecimalZero(UInt32AsInt32(v));
    case CppInt64 =>
      IntToDecimalZero(v);
      SuffixCancel(IntToDecimal(v), "0", "L");
    case CppUInt64 =>
      IntToDecimalZero(UInt64AsInt64(v));
      SuffixCancel(IntToDecimal(UInt64AsInt64(v)), "0", "L");
    case CppBool =>
    case CppString =>
  }

  lemma SuffixCancel(a: string, b: string, c: string)
    ensures a + c == b + c <==> a == b
  {
    if a + c == b + c {
      assert a == (a + c)[..|a|];
      assert b == (b + c)[..|b|];
    }
  }
}
