/** The VIN step (reader.py:133-135): the pruned reply is read as hex, two digits per
    byte (`bytearray.fromhex`), and every null byte becomes a space. */
module Vin {
  import opened Failures
  import opened Text

  newtype byte = b: int | 0 <= b < 256

  /** What a null byte is replaced by. */
  const Space: byte := 0x20

  predicate IsHexDigit(c: char)
  {
    '0' <= c <= '9' || 'a' <= c <= 'f' || 'A' <= c <= 'F'
  }

  predicate AllHexDigits(s: string)
  {
    forall i :: 0 <= i < |s| ==> IsHexDigit(s[i])
  }

  function HexValue(c: char): (v: nat)
    requires IsHexDigit(c)
    ensures v < 16
  {
    if '0' <= c <= '9' then c as int - '0' as int
    else if 'a' <= c <= 'f' then c as int - 'a' as int + 10
    else c as int - 'A' as int + 10
  }

  /** `bytearray.fromhex(s)`, for text without blanks: a failure unless `s` is an even
      number of hex digits. */
  function FromHex(s: string): (r: Result<seq<byte>>)
    decreases |s|
    ensures r.Ok? ==> |r.value| * 2 == |s|
  {
    if s == [] then Ok([])
    else if |s| == 1 || !IsHexDigit(s[0]) || !IsHexDigit(s[1]) then Err(NotHex)
    else
      match FromHex(s[2..])
      case Err(e) => Err(e)
      case Ok(rest) => Ok([(HexValue(s[0]) * 16 + HexValue(s[1])) as byte] + rest)
  }

  /** The hex text is accepted exactly when it is an even number of hex digits. */
  lemma {:induction false} FromHexAccepts(s: string)
    ensures FromHex(s).Ok? <==> |s| % 2 == 0 && AllHexDigits(s)
    decreases |s|
  {
    if |s| >= 2 {
      FromHexAccepts(s[2..]);
      assert forall i :: 2 <= i < |s| ==> s[i] == s[2..][i - 2];
    }
  }

  /** Byte `i` comes from hex digits `2i` and `2i+1`, high digit first. */
  lemma {:induction false} FromHexAt(s: string, i: nat)
    requires FromHex(s).Ok? && i < |FromHex(s).value|
    ensures IsHexDigit(s[2 * i]) && IsHexDigit(s[2 * i + 1])
    ensures FromHex(s).value[i] as int == HexValue(s[2 * i]) * 16 + HexValue(s[2 * i + 1])
    decreases |s|
  {
    if i > 0 {
      FromHexAt(s[2..], i - 1);
    }
  }

  /** The upper-case hex digit for `v`. */
  function HexDigit(v: nat): (c: char)
    requires v < 16
    ensures IsHexDigit(c) && HexValue(c) == v
  {
    if v < 10 then ('0' as int + v) as char else ('A' as int + v - 10) as char
  }

  /** Upper-case hex text for bytes, as the adapter sends it. */
  function ToHex(bytes: seq<byte>): (s: string)
    ensures |s| == 2 * |bytes|
  {
    if bytes == [] then [] else [HexDigit(bytes[0] as int / 16), HexDigit(bytes[0] as int % 16)] + ToHex(bytes[1..])
  }

  /** Reading hex text back gives the bytes it was written from. */
  lemma {:induction false} FromHexToHex(bytes: seq<byte>)
    ensures FromHex(ToHex(bytes)) == Ok(bytes)
  {
    if bytes != [] {
      FromHexToHex(bytes[1..]);
      var s := ToHex(bytes);
      assert s[2..] == ToHex(bytes[1..]);
      assert bytes == [bytes[0]] + bytes[1..];
    }
  }

  /** `bytes.replace(b'\x00', b' ')`. */
  function ReplaceNulls(bytes: seq<byte>): (r: seq<byte>)
    ensures |r| == |bytes|
    ensures forall i :: 0 <= i < |bytes| ==> r[i] == if bytes[i] == 0 then Space else bytes[i]
  {
    if bytes == [] then [] else [if bytes[0] == 0 then Space else bytes[0]] + ReplaceNulls(bytes[1..])
  }

  /** The VIN bytes for a pruned hex reply. */
  function VinFromHex(hex: string): (r: Result<seq<byte>>)
    ensures r.Ok? <==> FromHex(hex).Ok?
    ensures r.Ok? ==> |r.value| * 2 == |hex| && 0 !in r.value
  {
    match FromHex(hex)
    case Err(e) => Err(e)
    case Ok(bytes) => Ok(ReplaceNulls(bytes))
  }

  /** Each pair of hex digits becomes one byte, nulls become spaces and nothing else
      changes, so the VIN has half as many bytes as the hex text has digits. */
  lemma VinBytes(hex: string)
    requires |hex| % 2 == 0 && AllHexDigits(hex)
    ensures VinFromHex(hex).Ok?
    ensures |VinFromHex(hex).value| == |hex| / 2
    ensures 0 !in VinFromHex(hex).value
    ensures forall i :: 0 <= i < |hex| / 2 ==>
      var b := HexValue(hex[2 * i]) * 16 + HexValue(hex[2 * i + 1]);
      VinFromHex(hex).value[i] as int == if b == 0 then Space as int else b
  {
    FromHexAccepts(hex);
    forall i | 0 <= i < |hex| / 2
      ensures var b := HexValue(hex[2 * i]) * 16 + HexValue(hex[2 * i + 1]);
        VinFromHex(hex).value[i] as int == if b == 0 then Space as int else b
    {
      FromHexAt(hex, i);
    }
  }

  /** A reply whose hex is not an even number of hex digits stops the script. */
  lemma VinRejectsBadHex(hex: string)
    requires |hex| % 2 == 1 || !AllHexDigits(hex)
    ensures VinFromHex(hex) == Err(NotHex)
  {
    FromHexAccepts(hex);
    assert FromHex(hex).Err?;
    assert FromHex(hex).error == NotHex by {
      NotHexIsTheOnlyFailure(hex);
    }
  }

  /** Hex decoding can fail in one way only. */
  lemma {:induction false} NotHexIsTheOnlyFailure(s: string)
    ensures FromHex(s).Err? ==> FromHex(s).error == NotHex
    decreases |s|
  {
    if |s| >= 2 {
      NotHexIsTheOnlyFailure(s[2..]);
    }
  }

  /** Nulls between the parts of a VIN come out as spaces and the parts are kept, as
      in "WOLF", four nulls, "123" giving "WOLF    123". */
  lemma NullRunBecomesSpaces(before: seq<byte>, n: nat, after: seq<byte>)
    requires 0 !in before && 0 !in after
    ensures VinFromHex(ToHex(before + Repeat(0, n) + after)) == Ok(before + Repeat(Space, n) + after)
  {
    var raw := before + Repeat(0, n) + after;
    FromHexToHex(raw);
    var r := ReplaceNulls(raw);
    var want := before + Repeat(Space, n) + after;
    forall i | 0 <= i < |raw|
      ensures r[i] == want[i]
    {
      if i < |before| {
        assert raw[i] == before[i] && want[i] == before[i];
      } else if i < |before| + n {
        assert raw[i] == 0 && want[i] == Space;
      } else {
        assert raw[i] == after[i - |before| - n] && want[i] == after[i - |before| - n];
      }
    }
    assert r == want;
  }
}
