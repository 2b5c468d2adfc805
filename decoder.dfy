/** The per-field value decoding of `connectToServer`: the field's name picks
    how the bytes read from its characteristic are shown. */
module Decoder {
  import opened Common
  import opened Strings

  /** The three branches of the decode dispatch, in the order they are tested. */
  datatype Interpretation =
    | SignedInt16        // the name mentions "Temperature" or "Voltage"
    | SerialOrModelText  // the name mentions "Serial" or "Model"
    | DefaultText        // every other name

  /** What is reported for one readable characteristic. */
  datatype Value =
    | Integer(n: int)          // a 16-bit two's-complement reading
    | Text(bytes: seq<byte>)   // the bytes of the value up to its first zero byte
    | DecodeFailed             // an integer field whose value is shorter than two bytes

  /** The field takes the integer path. */
  predicate IsIntegerField(name: string)
  {
    Contains(name, "Temperature") || Contains(name, "Voltage")
  }

  /** The dispatch: substring tests on the name, first match wins. */
  function InterpretationOf(name: string): Interpretation
  {
    if IsIntegerField(name) then SignedInt16
    else if Contains(name, "Serial") || Contains(name, "Model") then SerialOrModelText
    else DefaultText
  }

  /** The int16_t whose little-endian bytes are `lo`, `hi` (the ESP32 is
      little-endian, so this is the host-order reinterpretation of the first
      two bytes). */
  function Int16LE(lo: byte, hi: byte): (v: int)
    ensures -0x8000 <= v < 0x8000
    ensures v % 0x1_0000 == lo + 0x100 * hi
  {
    var u := lo + 0x100 * hi;
    if u < 0x8000 then u else u - 0x1_0000
  }

  /** The two little-endian bytes of a 16-bit two's-complement value. */
  function EncodeInt16LE(v: int): (b: seq<byte>)
    requires -0x8000 <= v < 0x8000
    ensures |b| == 2
  {
    var u := v % 0x1_0000;
    [u % 0x100, u / 0x100]
  }

  lemma DecodeEncodeInt16(v: int)
    requires -0x8000 <= v < 0x8000
    ensures Int16LE(EncodeInt16LE(v)[0], EncodeInt16LE(v)[1]) == v
  {
  }

  lemma EncodeDecodeInt16(lo: byte, hi: byte)
    ensures EncodeInt16LE(Int16LE(lo, hi)) == [lo, hi]
  {
  }

  /** What printing `value.c_str()` shows: the bytes before the first zero. */
  function CString(raw: seq<byte>): (r: seq<byte>)
    ensures r <= raw
    ensures 0 !in r
    ensures |r| < |raw| ==> raw[|r|] == 0
  {
    if |raw| == 0 || raw[0] == 0 then [] else [raw[0]] + CString(raw[1..])
  }

  /** The three facts above pin the printed text down: it is the part of
      the value before a terminating zero, or all of it when there is none. */
  lemma {:induction false} CStringOfTerminated(t: seq<byte>, rest: seq<byte>)
    requires 0 !in t
    ensures CString(t + [0] + rest) == t
    ensures CString(t) == t
  {
    if |t| > 0 {
      assert (t + [0] + rest)[1..] == t[1..] + [0] + rest;
      CStringOfTerminated(t[1..], rest);
    }
  }

  /** The decoded value of one characteristic read for field `name`. */
  function Decode(name: string, raw: seq<byte>): Value
  {
    match InterpretationOf(name)
    case SignedInt16 =>
      if |raw| < 2 then DecodeFailed else Integer(Int16LE(raw[0], raw[1]))
    case SerialOrModelText => Text(CString(raw))
    case DefaultText => Text(CString(raw))
  }

  /** An integer field is the signed 16-bit little-endian value of its first
      two bytes; later bytes are ignored. */
  lemma IntegerDecode(name: string, raw: seq<byte>)
    requires IsIntegerField(name) && |raw| >= 2
    ensures Decode(name, raw).Integer?
    ensures -0x8000 <= Decode(name, raw).n < 0x8000
    ensures EncodeInt16LE(Decode(name, raw).n) == raw[..2]
  {
    EncodeDecodeInt16(raw[0], raw[1]);
  }

  /** An integer field with fewer than two bytes is a decode failure rather
      than a read past the value. */
  lemma ShortIntegerFails(name: string, raw: seq<byte>)
    requires IsIntegerField(name) && |raw| < 2
    ensures Decode(name, raw) == DecodeFailed
  {
  }

  /** Every other field shows the zero-terminated prefix of its value. */
  lemma TextDecode(name: string, raw: seq<byte>)
    ensures !IsIntegerField(name) <==> Decode(name, raw).Text?
    ensures !IsIntegerField(name) ==>
      var t := Decode(name, raw).bytes;
      t <= raw && 0 !in t && (|t| < |raw| ==> raw[|t|] == 0)
  {
  }

  /** The "Serial"/"Model" branch and the default branch show the same thing:
      any two non-integer fields decode the same bytes identically. */
  lemma TextBranchesAgree(name1: string, name2: string, raw: seq<byte>)
    requires InterpretationOf(name1) == SerialOrModelText
    requires InterpretationOf(name2) == DefaultText
    ensures Decode(name1, raw) == Decode(name2, raw)
  {
  }

  /** The integer test comes first: a name mentioning both "Voltage" and
      "Model" is decoded as an integer. */
  lemma IntegerTestedFirst(name: string, raw: seq<byte>)
    requires Contains(name, "Temperature") || Contains(name, "Voltage")
    requires Contains(name, "Serial") || Contains(name, "Model")
    ensures InterpretationOf(name) == SignedInt16
    ensures Decode(name, raw).Integer? || Decode(name, raw) == DecodeFailed
  {
  }

  /** Worked integer values: 0x0064 is 100, 0x1234 is 4660, 0xFFFF is -1,
      and a one-byte voltage is a failure. */
  lemma IntegerExamples()
    ensures Decode("TemperatureUuid", [0x64, 0x00]) == Integer(100)
    ensures Decode("TemperatureUuid", [0x34, 0x12]) == Integer(0x1234)
    ensures Decode("VoltageAccuUuid", [0xFF, 0xFF, 0x07]) == Integer(-1)
    ensures Decode("VoltageAccuUuid", [0x0C]) == DecodeFailed
  {
    OccursAt("TemperatureUuid", "Temperature", 0);
    OccursAt("VoltageAccuUuid", "Voltage", 0);
  }

  /** Worked text values: a serial number stops at its first zero byte, and
      "SetPointUuid" is not an integer field although it holds a number. */
  lemma TextExamples()
    ensures Decode("SerialUuid", [0x41, 0x42, 0x00, 0x43]) == Text([0x41, 0x42])
    ensures Decode("SetPointUuid", [0x64, 0x00]) == Text([0x64])
  {
    LacksChar("SerialUuid", "Temperature", 0);
    LacksChar("SerialUuid", "Voltage", 0);
    LacksChar("SetPointUuid", "Temperature", 0);
    LacksChar("SetPointUuid", "Voltage", 0);
    CStringOfTerminated([0x41, 0x42], [0x43]);
    assert [0x41, 0x42] + [0] + [0x43] == [0x41, 0x42, 0x00, 0x43];
    CStringOfTerminated([0x64], []);
    assert [0x64] + [0] + [] == [0x64, 0x00];
  }
}
