/** Canonical base64 (sections 3.5 and 4 of RFC 4648) and the two validators of attachments
    (packages/protocol/src/validation.ts, pi-extension/remote-control/attachments.ts). */
module Base64 {
  import opened Wrappers

  type Byte = b: int | 0 <= b < 256

  type Sextet = d: int | 0 <= d < 64

  datatype Error = InvalidBase64 | AttachmentTooLarge

  const MAX_BINARY_ATTACHMENT_BYTES := 5 * 1024 * 1024

  // ---------------------------------------------------------------- the alphabet

  function Digit(d: Sextet): char {
    if d < 26 then ('A' as int + d) as char
    else if d < 52 then ('a' as int + d - 26) as char
    else if d < 62 then ('0' as int + d - 52) as char
    else if d == 62 then '+' else '/'
  }

  predicate InAlphabet(c: char) {
    'A' <= c <= 'Z' || 'a' <= c <= 'z' || '0' <= c <= '9' || c == '+' || c == '/'
  }

  function ValueOf(c: char): (d: Sextet)
    requires InAlphabet(c)
    ensures Digit(d) == c
  {
    if 'A' <= c <= 'Z' then c as int - 'A' as int
    else if 'a' <= c <= 'z' then c as int - 'a' as int + 26
    else if '0' <= c <= '9' then c as int - '0' as int + 52
    else if c == '+' then 62 else 63
  }

  lemma ValueOfDigit(d: Sextet)
    ensures InAlphabet(Digit(d)) && ValueOf(Digit(d)) == d && Digit(d) != '='
  {
  }

  // ---------------------------------------------------------------- three bytes, four digits

  function D0(x: Byte): Sextet { x / 4 }

  function D1(x: Byte, y: Byte): Sextet { x % 4 * 16 + y / 16 }

  function D2(y: Byte, z: Byte): Sextet { y % 16 * 4 + z / 64 }

  function D3(z: Byte): Sextet { z % 64 }

  function B0(a: Sextet, b: Sextet): Byte { a * 4 + b / 16 }

  function B1(b: Sextet, c: Sextet): Byte { b % 16 * 16 + c / 4 }

  function B2(c: Sextet, d: Sextet): Byte { c % 4 * 64 + d }

  lemma BytesOfDigits(x: Byte, y: Byte, z: Byte)
    ensures B0(D0(x), D1(x, y)) == x && B1(D1(x, y), D2(y, z)) == y && B2(D2(y, z), D3(z)) == z
  {
  }

  lemma DigitsOfBytes(a: Sextet, b: Sextet, c: Sextet, d: Sextet)
    ensures D0(B0(a, b)) == a && D1(B0(a, b), B1(b, c)) == b && D2(B1(b, c), B2(c, d)) == c && D3(B2(c, d)) == d
    ensures D1(B0(a, b), 0) == b <==> b % 16 == 0
    ensures D2(B1(b, c), 0) == c <==> c % 4 == 0
  {
  }

  // ---------------------------------------------------------------- encoding and decoding

  /** `bytes.toString('base64')` */
  function Encode(bytes: seq<Byte>): string {
    if bytes == [] then ""
    else if |bytes| == 1 then [Digit(D0(bytes[0])), Digit(D1(bytes[0], 0)), '=', '=']
    else if |bytes| == 2 then [Digit(D0(bytes[0])), Digit(D1(bytes[0], bytes[1])), Digit(D2(bytes[1], 0)), '=']
    else Quad(D0(bytes[0]), D1(bytes[0], bytes[1]), D2(bytes[1], bytes[2]), D3(bytes[2])) + Encode(bytes[3..])
  }

  function Quad(a: Sextet, b: Sextet, c: Sextet, d: Sextet): string {
    [Digit(a), Digit(b), Digit(c), Digit(d)]
  }

  /** (?:[A-Za-z0-9+/]{4})*(?:[A-Za-z0-9+/]{2}==|[A-Za-z0-9+/]{3}=)? */
  predicate Shaped(s: string) {
    if s == "" then true
    else if |s| < 4 || !InAlphabet(s[0]) || !InAlphabet(s[1]) then false
    else if InAlphabet(s[2]) && InAlphabet(s[3]) then Shaped(s[4..])
    else |s| == 4 && s[3] == '=' && (InAlphabet(s[2]) || s[2] == '=')
  }

  /** `Buffer.from(s, 'base64')` of a well-shaped string; bits behind the last byte are ignored. */
  function Decode(s: string): seq<Byte>
    requires Shaped(s)
  {
    if s == "" then []
    else if s[2] == '=' then [B0(ValueOf(s[0]), ValueOf(s[1]))]
    else if s[3] == '=' then [B0(ValueOf(s[0]), ValueOf(s[1])), B1(ValueOf(s[1]), ValueOf(s[2]))]
    else
      [B0(ValueOf(s[0]), ValueOf(s[1])), B1(ValueOf(s[1]), ValueOf(s[2])), B2(ValueOf(s[2]), ValueOf(s[3]))]
      + Decode(s[4..])
  }

  /** data.endsWith('==') ? 2 : data.endsWith('=') ? 1 : 0 */
  function Padding(s: string): int {
    if |s| >= 2 && s[|s| - 2..] == "==" then 2 else if |s| >= 1 && s[|s| - 1] == '=' then 1 else 0
  }

  // ---------------------------------------------------------------- the validators

  function ValidateCanonicalBase64(value: string, maxDecodedBytes: int): Result<seq<Byte>, Error> {
    if |value| % 4 != 0 || !Shaped(value) then Err(InvalidBase64)
    else if |value| / 4 * 3 > maxDecodedBytes + 2 then Err(AttachmentTooLarge)
    else
      var decoded := Decode(value);
      if |decoded| > maxDecodedBytes || Encode(decoded) != value then
        Err(if |decoded| > maxDecodedBytes then AttachmentTooLarge else InvalidBase64)
      else Ok(decoded)
  }

  /** ^[A-Za-z0-9+/]*={0,2}$ */
  ghost predicate LooselyShaped(s: string) {
    exists n :: 0 <= n <= |s| <= n + 2 && LooselyShapedAt(s, n)
  }

  predicate LooselyShapedAt(s: string, n: nat)
    requires n <= |s|
  {
    && (forall k :: 0 <= k < n ==> InAlphabet(s[k]))
    && (forall k :: n <= k < |s| ==> s[k] == '=')
  }

  ghost function DecodeAttachment(data: string): Result<seq<Byte>, Error> {
    if data == "" || !LooselyShaped(data) || |data| % 4 != 0 then Err(InvalidBase64)
    else if |data| / 4 * 3 - Padding(data) > MAX_BINARY_ATTACHMENT_BYTES then Err(AttachmentTooLarge)
    else
      LooseIsShaped(data);
      var bytes := Decode(data);
      if Encode(bytes) != data then Err(InvalidBase64) else Ok(bytes)
  }

  // ---------------------------------------------------------------- properties

  lemma {:induction false} EncodeIsShaped(bytes: seq<Byte>)
    ensures Shaped(Encode(bytes)) && |Encode(bytes)| == (|bytes| + 2) / 3 * 4
  {
    hide Digit, InAlphabet, D0, D1, D2, D3;
    if bytes != [] {
      var x, y, z := bytes[0], if |bytes| > 1 then bytes[1] else 0, if |bytes| > 2 then bytes[2] else 0;
      ValueOfDigit(D0(x));
      ValueOfDigit(D1(x, y));
      ValueOfDigit(D2(y, z));
      ValueOfDigit(D3(z));
      if |bytes| >= 3 {
        EncodeIsShaped(bytes[3..]);
        assert Encode(bytes)[4..] == Encode(bytes[3..]);
      }
    }
  }

  /** Decoding undoes encoding, for all bytes. */
  lemma {:induction false} DecodeOfEncode(bytes: seq<Byte>)
    ensures Shaped(Encode(bytes)) && Decode(Encode(bytes)) == bytes
  {
    hide Digit, ValueOf, InAlphabet, D0, D1, D2, D3, B0, B1, B2;
    EncodeIsShaped(bytes);
    if bytes != [] {
      var x, y, z := bytes[0], if |bytes| > 1 then bytes[1] else 0, if |bytes| > 2 then bytes[2] else 0;
      BytesOfDigits(x, y, z);
      ValueOfDigit(D0(x));
      ValueOfDigit(D1(x, y));
      ValueOfDigit(D2(y, z));
      ValueOfDigit(D3(z));
      if |bytes| >= 3 {
        DecodeOfEncode(bytes[3..]);
        assert Encode(bytes)[4..] == Encode(bytes[3..]);
        assert bytes == [x, y, z] + bytes[3..];
      }
    }
  }

  /** The bits of the last digit that no byte uses. */
  predicate PadBitsZero(s: string)
    requires Shaped(s)
  {
    if s == "" then true
    else if s[2] == '=' then ValueOf(s[1]) % 16 == 0
    else if s[3] == '=' then ValueOf(s[2]) % 4 == 0
    else PadBitsZero(s[4..])
  }

  lemma DigitsDiffer(a: Sextet, b: Sextet)
    ensures Digit(a) == Digit(b) <==> a == b
  {
    ValueOfDigit(a);
    ValueOfDigit(b);
  }

  /** A well-shaped string is the encoding of what it decodes to exactly when its pad bits are
      zero (section 3.5 of RFC 4648). */
  lemma {:induction false} CanonicalIffPadBitsZero(s: string)
    requires Shaped(s)
    ensures Encode(Decode(s)) == s <==> PadBitsZero(s)
  {
    hide Digit, ValueOf, InAlphabet, D0, D1, D2, D3, B0, B1, B2;
    if s != "" {
      var a, b := ValueOf(s[0]), ValueOf(s[1]);
      PaddedIsFour(s);
      if s[2] == '=' {
        DigitsOfBytes(a, b, 0, 0);
        DigitsDiffer(D1(B0(a, b), 0), b);
      } else if s[3] == '=' {
        var c := ValueOf(s[2]);
        DigitsOfBytes(a, b, c, 0);
        DigitsDiffer(D2(B1(b, c), 0), c);
      } else {
        CanonicalIffPadBitsZero(s[4..]);
        EncodeOfFour(s);
      }
    }
  }

  lemma PaddedIsFour(s: string)
    requires Shaped(s) && s != ""
    ensures s[2] == '=' || s[3] == '=' ==> |s| == 4 && s[3] == '='
  {
  }

  lemma EncodeOfFour(s: string)
    requires Shaped(s) && |s| >= 4 && s[2] != '=' && s[3] != '='
    ensures Encode(Decode(s)) == s[..4] + Encode(Decode(s[4..]))
  {
    hide Digit, InAlphabet, D0, D1, D2, D3, B0, B1, B2;
    DigitsOfBytes(ValueOf(s[0]), ValueOf(s[1]), ValueOf(s[2]), ValueOf(s[3]));
    var bytes := Decode(s);
    assert bytes[3..] == Decode(s[4..]);
    assert Quad(D0(bytes[0]), D1(bytes[0], bytes[1]), D2(bytes[1], bytes[2]), D3(bytes[2])) == s[..4];
  }

  /** The protocol's validator accepts exactly the encodings of the byte strings within the
      limit (so the early length check turns none of them away), and says `too large` of exactly
      the well-shaped strings that decode to more. */
  lemma AcceptsExactlyEncodings(value: string, max: int, bytes: seq<Byte>)
    ensures ValidateCanonicalBase64(value, max) == Ok(bytes) <==> value == Encode(bytes) && |bytes| <= max
    ensures ValidateCanonicalBase64(value, max) == Err(AttachmentTooLarge) <==> Shaped(value) && |Decode(value)| > max
  {
    DecodeOfEncode(bytes);
    EncodeIsShaped(bytes);
    if Shaped(value) { ShapedLength(value); }
  }

  lemma {:induction false} ShapedLength(s: string)
    requires Shaped(s)
    ensures |s| % 4 == 0 && |Decode(s)| == |s| / 4 * 3 - Padding(s)
  {
    if s != "" && s[2] != '=' && s[3] != '=' {
      ShapedLength(s[4..]);
      if |s| > 4 { assert s[4..][|s| - 6..] == s[|s| - 2..]; }
    }
  }

  lemma {:induction false} LooseIsShaped(s: string)
    requires LooselyShaped(s) && |s| % 4 == 0
    ensures Shaped(s)
  {
    if s != "" {
      var n :| 0 <= n <= |s| <= n + 2 && LooselyShapedAt(s, n);
      if n >= 4 {
        assert LooselyShapedAt(s[4..], n - 4);
        LooseIsShaped(s[4..]);
      }
    }
  }

  lemma {:induction false} ShapedIsLoose(s: string) returns (n: nat)
    requires Shaped(s)
    ensures n <= |s| <= n + 2 && LooselyShapedAt(s, n)
  {
    if s == "" { return 0; }
    if s[2] == '=' { return 2; }
    if s[3] == '=' { return 3; }
    var rest := ShapedIsLoose(s[4..]);
    n := rest + 4;
    assert forall k :: 4 <= k < |s| ==> s[k] == s[4..][k - 4];
  }

  /** The bridge's own validator gives the same answer to every non-empty string at its limit. */
  lemma ValidatorsAgree(data: string)
    requires data != ""
    ensures DecodeAttachment(data) == ValidateCanonicalBase64(data, MAX_BINARY_ATTACHMENT_BYTES)
  {
    if Shaped(data) {
      var n := ShapedIsLoose(data);
      ShapedLength(data);
      assert LooselyShaped(data);
    } else if |data| % 4 == 0 && LooselyShaped(data) {
      LooseIsShaped(data);
    }
  }

  /** The alphabet of table 1 and some of the test vectors of section 10 of RFC 4648. */
  lemma StandardVectors()
    ensures Digit(0) == 'A' && Digit(26) == 'a' && Digit(52) == '0' && Digit(62) == '+' && Digit(63) == '/'
    ensures forall d: Sextet :: d < 61 && d != 25 && d != 51 ==> Digit(d + 1) as int == Digit(d) as int + 1
    ensures Encode([0x66]) == "Zg==" && Encode([0x66, 0x6F]) == "Zm8=" && Encode([0x66, 0x6F, 0x6F]) == "Zm9v"
    ensures Encode([0x66, 0x6F, 0x6F, 0x62]) == "Zm9vYg=="
  {
    assert [0x66, 0x6F, 0x6F][3..] == [] && [0x66, 0x6F, 0x6F, 0x62][3..] == [0x62];
    assert Encode([0x62]) == "Yg==";
  }
}
