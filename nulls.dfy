/**
 * The `nulls` package: nullable int32, uint32 and string values that carry a
 * Valid flag beside the value, hand the database driver nil when they are
 * not valid, and write and read the JSON literal `null` for that case.
 *
 * Each Go struct is a class with the struct's two fields; Value and
 * MarshalJSON read them, UnmarshalJSON updates them through its pointer
 * receiver. JSON text is a Dafny string, a sequence of Unicode characters.
 */
module Nulls {
  import opened Wrappers
  import opened Strconv

  /** The JSON literal for an absent value (section 3 of RFC 8259). */
  const JsonNull := "null"

  /** What a non-nil driver.Value holds: an int64 or a string. */
  datatype DriverValue = Int64(i: int) | Text(s: string)

  /** The error encoding/json reports when it cannot decode a JSON string. */
  datatype JsonError = JsonError(message: string)

  /** json.Marshal and json.Unmarshal for a Go string. JSON string quoting and
      escaping are not part of this model, so a codec is supplied by the
      caller. */
  datatype StringCodec = StringCodec(encode: string -> string, decode: string -> Result<string, JsonError>)

  /** What encoding/json guarantees of its string codec for a string of
      Unicode characters (valid UTF-8 on the Go side): the quoted text is
      never the literal null, and decoding it gives the string back. */
  ghost predicate SoundCodec(c: StringCodec) {
    forall s :: c.encode(s) != JsonNull && c.decode(c.encode(s)) == Success(s)
  }

  // ---------------------------------------------------------------------------
  // NullInt32
  // ---------------------------------------------------------------------------

  class NullInt32 {
    var Int32: int32
    var Valid: bool

    /** NewNullInt32 and NewNullInt32Ptr: a valid value holding i. */
    constructor (i: int32)
      ensures Int32 == i && Valid
    {
      Int32 := i;
      Valid := true;
    }

    /** Value: nil when not valid, otherwise the number widened to int64. The
        error result is always nil and is left out. */
    function Value(): (v: Option<DriverValue>)
      reads this
      ensures v.None? <==> !Valid
      ensures v.Some? ==> v.value == Int64(Int32 as int) && MinInt32 <= v.value.i <= MaxInt32
    {
      if !Valid then None else Some(Int64(Int32 as int))
    }

    /** MarshalJSON: `null` when not valid, otherwise the JSON integer text
        of the number, which ParseInt32 reads back as the same number. */
    function MarshalJSON(): (text: string)
      reads this
      ensures !Valid ==> text == JsonNull
      ensures Valid ==> IsJsonInteger(text) && SignedValue(text) == Int32 as int
      ensures Valid ==> text != JsonNull && ParseInt32(text) == Success(Int32)
    {
      if Valid then
        ParseFormatInt(Int32 as int);
        FormatInt(Int32 as int)
      else JsonNull
    }

    /** UnmarshalJSON: `null` clears Valid without an error; decimal text in
        the int32 range becomes the value; anything else clears Valid, keeps
        the old number and returns the parse error. */
    method UnmarshalJSON(text: string) returns (err: Option<NumError>)
      modifies this
      ensures text == JsonNull ==> !Valid && Int32 == old(Int32) && err.None?
      ensures text != JsonNull ==>
        match ParseInt32(text)
        case Success(n) => Valid && Int32 == n && err.None?
        case Failure(e) => !Valid && Int32 == old(Int32) && err == Some(e)
    {
      var txt := text;
      Valid := true;
      if txt == JsonNull {
        Valid := false;
        return None;
      }
      var parsed := ParseInt32(txt);
      if parsed.Failure? {
        Valid := false;
        return Some(parsed.error);
      }
      Int32 := parsed.value;
      return None;
    }
  }

  // ---------------------------------------------------------------------------
  // NullUInt32
  // ---------------------------------------------------------------------------

  /** Go's conversion uint32(i) of an int64 holding an int32 value: the same
      bits read as unsigned, so a negative number gains 2^32. */
  function WrapToUint32(i: int32): (u: uint32)
    ensures i >= 0 ==> u as int == i as int
    ensures i < 0 ==> u as int == i as int + Uint32Modulus
  {
    (i as int % Uint32Modulus) as uint32
  }

  class NullUInt32 {
    var UInt32: uint32
    var Valid: bool

    /** NewNullUInt32 and NewNullUInt32Ptr: a valid value holding i. */
    constructor (i: uint32)
      ensures UInt32 == i && Valid
    {
      UInt32 := i;
      Valid := true;
    }

    /** Value: nil when not valid, otherwise the number widened to int64,
        which is never negative. */
    function Value(): (v: Option<DriverValue>)
      reads this
      ensures v.None? <==> !Valid
      ensures v.Some? ==> v.value == Int64(UInt32 as int) && 0 <= v.value.i < Uint32Modulus
    {
      if !Valid then None else Some(Int64(UInt32 as int))
    }

    /** MarshalJSON: `null` when not valid, otherwise the JSON integer text
        of the number. Only a number below 2^31 comes back through ParseInt32; a
        larger one is written as text that ParseInt32 rejects as out of range. */
    function MarshalJSON(): (text: string)
      reads this
      ensures !Valid ==> text == JsonNull
      ensures Valid ==> IsJsonInteger(text) && SignedValue(text) == UInt32 as int
      ensures Valid ==> text != JsonNull
      ensures Valid && UInt32 as int <= MaxInt32 ==> ParseInt32(text) == Success(UInt32 as int as int32)
      ensures Valid && UInt32 as int > MaxInt32 ==> ParseInt32(text) == Failure(ErrRange(text))
    {
      if Valid then
        ParseFormatInt(UInt32 as int);
        FormatInt(UInt32 as int)
      else JsonNull
    }

    /** UnmarshalJSON: `null` clears Valid without an error; decimal text in
        the signed int32 range is stored converted to uint32; anything else,
        a number of 2^31 or more included, clears Valid, keeps the old number
        and returns the parse error. */
    method UnmarshalJSON(text: string) returns (err: Option<NumError>)
      modifies this
      ensures text == JsonNull ==> !Valid && UInt32 == old(UInt32) && err.None?
      ensures text != JsonNull ==>
        match ParseInt32(text)
        case Success(n) => Valid && UInt32 == WrapToUint32(n) && err.None?
        case Failure(e) => !Valid && UInt32 == old(UInt32) && err == Some(e)
    {
      var txt := text;
      Valid := true;
      if txt == JsonNull {
        Valid := false;
        return None;
      }
      var parsed := ParseInt32(txt);
      if parsed.Failure? {
        Valid := false;
        return Some(parsed.error);
      }
      UInt32 := WrapToUint32(parsed.value);
      return None;
    }
  }

  /** The text "-1" is accepted and read as the largest uint32. */
  lemma MinusOneWraps()
    ensures ParseInt32("-1") == Success(-1)
    ensures WrapToUint32(-1) == 0xFFFF_FFFF
  {
    assert Unsigned("-1") == "1";
    assert DecimalValue("1") == 1 by {
      assert "1"[..0] == [];
    }
  }

  // ---------------------------------------------------------------------------
  // NullString
  // ---------------------------------------------------------------------------

  class NullString {
    var String: string
    var Valid: bool

    /** NewNullString and NewNullStringPtr: a valid value holding s. */
    constructor (s: string)
      ensures String == s && Valid
    {
      String := s;
      Valid := true;
    }

    /** Value: decided by the text alone, whatever Valid says: nil for the
        empty string, the string otherwise. The record itself is untouched. */
    function Value(): (v: Option<DriverValue>)
      reads this
      ensures v.None? <==> String == ""
      ensures v.Some? ==> v.value == Text(String)
    {
      var valid := String != "";
      if !valid then None else Some(Text(String))
    }

    /** MarshalJSON: `null` when not valid, otherwise the JSON string of the
        text, which a sound codec decodes back to it. */
    function MarshalJSON(codec: StringCodec): (text: string)
      reads this
      ensures !Valid ==> text == JsonNull
      ensures Valid && SoundCodec(codec) ==> text != JsonNull && codec.decode(text) == Success(String)
    {
      if Valid then codec.encode(String) else JsonNull
    }

    /** UnmarshalJSON: Valid is cleared first; `null` stops there without an
        error; otherwise a successful decode sets the text and Valid, and a
        failed one keeps the old text and returns the error. */
    method UnmarshalJSON(text: string, codec: StringCodec) returns (err: Option<JsonError>)
      modifies this
      ensures text == JsonNull ==> !Valid && String == old(String) && err.None?
      ensures text != JsonNull ==>
        match codec.decode(text)
        case Success(s) => Valid && String == s && err.None?
        case Failure(e) => !Valid && String == old(String) && err == Some(e)
    {
      Valid := false;
      if text == JsonNull {
        return None;
      }
      var decoded := codec.decode(text);
      if decoded.Success? {
        String := decoded.value;
        Valid := true;
        return None;
      }
      return Some(decoded.error);
    }
  }

  // ---------------------------------------------------------------------------
  // JSON round trips
  // ---------------------------------------------------------------------------

  /** Writing a NullInt32 to JSON and reading the text into another one, or
      back into itself, copies Valid and, for a valid value, the number. */
  method RoundTripInt32(src: NullInt32, dst: NullInt32) returns (err: Option<NumError>)
    modifies dst
    ensures err.None?
    ensures dst.Valid == old(src.Valid)
    ensures old(src.Valid) ==> dst.Int32 == old(src.Int32)
  {
    var text := src.MarshalJSON();
    err := dst.UnmarshalJSON(text);
  }

  /** The same for a NullUInt32: the value comes back only when it is below
      2^31; a valid larger value comes back as an error and not valid. */
  method RoundTripUInt32(src: NullUInt32, dst: NullUInt32) returns (err: Option<NumError>)
    modifies dst
    ensures old(src.Valid) && old(src.UInt32) as int > MaxInt32 ==> !dst.Valid && err.Some? && err.value.ErrRange?
    ensures !(old(src.Valid) && old(src.UInt32) as int > MaxInt32) ==>
      err.None? && dst.Valid == old(src.Valid) && (old(src.Valid) ==> dst.UInt32 == old(src.UInt32))
  {
    var text := src.MarshalJSON();
    err := dst.UnmarshalJSON(text);
  }

  /** The same for a NullString, given encoding/json's string codec. */
  method RoundTripString(src: NullString, dst: NullString, codec: StringCodec) returns (err: Option<JsonError>)
    requires SoundCodec(codec)
    modifies dst
    ensures err.None?
    ensures dst.Valid == old(src.Valid)
    ensures old(src.Valid) ==> dst.String == old(src.String)
  {
    var text := src.MarshalJSON(codec);
    err := dst.UnmarshalJSON(text, codec);
  }
}
