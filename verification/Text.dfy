// The text forms amounts and keys are stored in: decimal amounts, hex keys, and
// surrounding whitespace that is trimmed on the way in.
module Text {
  import opened Wrappers

  // The characters with the Unicode White_Space property.
  predicate IsSpace(c: char) {
    var n := c as int;
    || 9 <= n <= 13 || n == 32 || n == 0x85 || n == 0xA0 || n == 0x1680
    || 0x2000 <= n <= 0x200A || n == 0x2028 || n == 0x2029 || n == 0x202F || n == 0x205F || n == 0x3000
  }

  function TrimLeft(s: string): string {
    if s != [] && IsSpace(s[0]) then TrimLeft(s[1..]) else s
  }

  function TrimRight(s: string): string {
    if s != [] && IsSpace(s[|s| - 1]) then TrimRight(s[..|s| - 1]) else s
  }

  function Trim(s: string): string {
    TrimRight(TrimLeft(s))
  }

  // Neither end is a space.
  predicate Trimmed(s: string) {
    s == [] || (!IsSpace(s[0]) && !IsSpace(s[|s| - 1]))
  }

  lemma {:induction false} TrimRightKeepsFront(s: string)
    requires s == [] || !IsSpace(s[0])
    ensures Trimmed(TrimRight(s))
    decreases |s|
  {
    if s != [] && IsSpace(s[|s| - 1]) {
      TrimRightKeepsFront(s[..|s| - 1]);
    }
  }

  lemma {:induction false} TrimLeftStops(s: string)
    ensures TrimLeft(s) == [] || !IsSpace(TrimLeft(s)[0])
  {
    if s != [] && IsSpace(s[0]) {
      TrimLeftStops(s[1..]);
    }
  }

  // Nothing is left of blank text.
  lemma {:induction false} BlankTrims(s: string)
    requires forall c :: c in s ==> IsSpace(c)
    ensures Trim(s) == ""
  {
    if s != "" {
      assert s[0] in s;
      BlankTrims(s[1..]);
    }
  }

  // Trimming settles in one step and leaves trimmed text alone.
  lemma TrimTrims(s: string)
    ensures Trimmed(Trim(s))
    ensures Trim(s) == s <==> Trimmed(s)
  {
    TrimLeftStops(s);
    TrimRightKeepsFront(TrimLeft(s));
  }

  // ---- decimal amounts ----

  function Digit(d: nat): char
    requires d < 10
  {
    ('0' as int + d) as char
  }

  function PrintNat(n: nat): string {
    if n < 10 then [Digit(n)] else PrintNat(n / 10) + [Digit(n % 10)]
  }

  function PrintInt(n: int): string {
    if n < 0 then "-" + PrintNat(-n) else PrintNat(n)
  }

  function ParseDigits(s: string): Option<nat> {
    if s == [] then Some(0)
    else if '0' <= s[|s| - 1] <= '9' then
      match ParseDigits(s[..|s| - 1])
      case Some(n) => Some(10 * n + (s[|s| - 1] as int - '0' as int))
      case None => None
    else None
  }

  // Rust's integer `parse`: an optional sign and at least one digit.
  function ParseInt(s: string): Option<int> {
    if s == [] then None
    else if s[0] == '-' || s[0] == '+' then
      if |s| == 1 then None
      else match ParseDigits(s[1..])
        case Some(n) =>
          var value: int := n;
          Some(if s[0] == '-' then -value else value)
        case None => None
    else match ParseDigits(s)
      case Some(n) => Some(n)
      case None => None
  }

  lemma {:induction false} ParsePrintNat(n: nat)
    ensures PrintNat(n) != [] && '0' <= PrintNat(n)[0] <= '9'
    ensures ParseDigits(PrintNat(n)) == Some(n)
  {
    if n < 10 {
      assert PrintNat(n)[..0] == [];
    } else {
      ParsePrintNat(n / 10);
      var s := PrintNat(n);
      assert s[..|s| - 1] == PrintNat(n / 10);
    }
  }

  lemma ParseNegative(n: int)
    requires n > 0
    ensures ParseInt("-" + PrintNat(n)) == Some(-n)
  {
    ParsePrintNat(n);
    var s := "-" + PrintNat(n);
    assert s[0] == '-' && s[1..] == PrintNat(n) && |s| > 1;
  }

  lemma ParsePositive(n: nat)
    ensures ParseInt(PrintNat(n)) == Some(n)
  {
    ParsePrintNat(n);
  }

  // Every amount survives being stored as text.
  lemma ParsePrintInt(n: int)
    ensures ParseInt(PrintInt(n)) == Some(n)
  {
    if n < 0 {
      ParseNegative(-n);
    } else {
      ParsePositive(n);
    }
  }

  // ---- 32-byte keys in hex ----

  type byte = b: int | 0 <= b < 256

  type Key = k: seq<byte> | |k| == 32 witness seq(32, _ => 0)

  function HexDigit(d: nat): char
    requires d < 16
  {
    if d < 10 then ('0' as int + d) as char else ('a' as int + d - 10) as char
  }

  function EncodeHex(bytes: seq<byte>): string {
    if bytes == [] then []
    else EncodeHex(bytes[..|bytes| - 1]) + [HexDigit(bytes[|bytes| - 1] / 16), HexDigit(bytes[|bytes| - 1] % 16)]
  }

  function HexValue(c: char): Option<nat> {
    if '0' <= c <= '9' then Some(c as int - '0' as int)
    else if 'a' <= c <= 'f' then Some(c as int - 'a' as int + 10)
    else if 'A' <= c <= 'F' then Some(c as int - 'A' as int + 10)
    else None
  }

  // `u8::from_str_radix(.., 16)` on two characters; a leading plus sign is accepted.
  function ParseHexPair(high: char, low: char): (r: Option<byte>)
    ensures high != '+' ==> (r.Some? <==> HexValue(high).Some? && HexValue(low).Some?)
    ensures HexValue(high).Some? && HexValue(low).Some? ==> r.Some? && r.value == 16 * HexValue(high).value + HexValue(low).value
  {
    match HexValue(low)
    case None => None
    case Some(l) =>
      if high == '+' then Some(l)
      else match HexValue(high)
        case None => None
        case Some(h) => Some(16 * h + l)
  }

  function DecodePairs(s: string, count: nat): (r: Option<seq<byte>>)
    requires 2 * count <= |s|
    ensures r.Some? ==> |r.value| == count
  {
    if count == 0 then Some([])
    else match DecodePairs(s, count - 1)
      case None => None
      case Some(front) =>
        match ParseHexPair(s[2 * count - 2], s[2 * count - 1])
        case None => None
        case Some(b) => Some(front + [b])
  }

  // A 64-character hex text as a 32-byte key.
  function DecodeHex32(s: string): Option<Key> {
    if |s| != 64 then None
    else match DecodePairs(s, 32)
      case None => None
      case Some(bytes) => Some(bytes)
  }

  // The buffer-filling form of `DecodeHex32`.
  method DecodeHex32Buffer(s: string) returns (r: Option<Key>)
    ensures r == DecodeHex32(s)
  {
    if |s| != 64 {
      return None;
    }
    var out := new byte[32](_ => 0);
    for i := 0 to 32
      invariant DecodePairs(s, i) == Some(out[..i])
    {
      var b := ParseHexPair(s[2 * i], s[2 * i + 1]);
      if b.None? {
        MalformedPair(s, i + 1, 32);
        return None;
      }
      out[i] := b.value;
      assert out[..i + 1] == out[..i] + [b.value];
    }
    assert out[..32] == out[..];
    r := Some(out[..]);
  }

  // One malformed pair spoils every longer prefix.
  lemma {:induction false} MalformedPair(s: string, count: nat, longer: nat)
    requires count <= longer && 2 * longer <= |s|
    requires DecodePairs(s, count).None?
    ensures DecodePairs(s, longer).None?
    decreases longer
  {
    if count < longer {
      MalformedPair(s, count, longer - 1);
    }
  }

  lemma {:induction false} EncodedPairs(bytes: seq<byte>)
    ensures |EncodeHex(bytes)| == 2 * |bytes|
    ensures forall i :: 0 <= i < |EncodeHex(bytes)| ==> HexValue(EncodeHex(bytes)[i]).Some? && !IsSpace(EncodeHex(bytes)[i])
    ensures forall i :: 0 <= i < |bytes| ==>
      16 * HexValue(EncodeHex(bytes)[2 * i]).value + HexValue(EncodeHex(bytes)[2 * i + 1]).value == bytes[i]
  {
    if bytes != [] {
      EncodedPairs(bytes[..|bytes| - 1]);
    }
  }

  // Each pair of an encoded key decodes to its byte.
  lemma {:induction false} PairDecodes(bytes: seq<byte>, k: nat)
    requires k < |bytes| && |EncodeHex(bytes)| == 2 * |bytes|
    ensures ParseHexPair(EncodeHex(bytes)[2 * k], EncodeHex(bytes)[2 * k + 1]) == Some(bytes[k])
    decreases |bytes|
  {
    var n := |bytes| - 1;
    var front := EncodeHex(bytes[..n]);
    EncodedPairs(bytes[..n]);
    assert EncodeHex(bytes) == front + [HexDigit(bytes[n] / 16), HexDigit(bytes[n] % 16)] && |front| == 2 * n;
    if k < n {
      PairDecodes(bytes[..n], k);
      assert front[2 * k] == EncodeHex(bytes)[2 * k] && front[2 * k + 1] == EncodeHex(bytes)[2 * k + 1];
    } else {
      DigitsParse(bytes[n]);
    }
  }

  lemma DigitsParse(b: byte)
    ensures ParseHexPair(HexDigit(b / 16), HexDigit(b % 16)) == Some(b)
  {
    assert HexValue(HexDigit(b / 16)) == Some(b / 16) && HexValue(HexDigit(b % 16)) == Some(b % 16);
  }

  lemma {:induction false} DecodeEncodedPairs(bytes: seq<byte>, s: string, count: nat)
    requires count <= |bytes| && s == EncodeHex(bytes) && |s| == 2 * |bytes|
    ensures DecodePairs(s, count) == Some(bytes[..count])
  {
    if count > 0 {
      var k := count - 1;
      DecodeEncodedPairs(bytes, s, k);
      PairDecodes(bytes, k);
      assert bytes[..count] == bytes[..k] + [bytes[k]];
    }
  }

  // A key survives being stored as hex, even through the trimming reader.
  lemma DecodeEncode(key: Key)
    ensures DecodeHex32(Trim(EncodeHex(key))) == Some(key)
  {
    EncodedPairs(key);
    TrimTrims(EncodeHex(key));
    DecodeEncodedPairs(key, EncodeHex(key), 32);
    assert key[..32] == key;
  }
}
