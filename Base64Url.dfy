/**
 * `urlBase64ToUint8Array` of src/components/SubscriptionPrompt.jsx: the
 * VAPID public key arrives in the URL-safe base64 alphabet (section 5 of
 * RFC 4648), usually without padding. The function pads it to a multiple
 * of four characters, maps the URL-safe letters back to the standard
 * alphabet (section 4 of RFC 4648), decodes it with `atob` into a binary
 * string, and copies the character codes into a `Uint8Array`.
 */
module Base64Url {
  import opened JsValues

  newtype byte = x: int | 0 <= x < 256

  /** The two alphabets of RFC 4648: section 4 (standard) and section 5 (URL and file name safe). */
  datatype Alphabet = Standard | UrlSafe

  /** The letter that stands for the 6-bit value `v`. */
  function Letter(v: int, alphabet: Alphabet): (c: char)
    requires 0 <= v < 64
  {
    if v < 26 then ('A' as int + v) as char
    else if v < 52 then ('a' as int + (v - 26)) as char
    else if v < 62 then ('0' as int + (v - 52)) as char
    else if v == 62 then (if alphabet == Standard then '+' else '-')
    else (if alphabet == Standard then '/' else '_')
  }

  /** The 6-bit value of a letter of the standard alphabet; `None` for any other character, `=` included. */
  function StdValue(c: char): (r: Option<int>)
    ensures r.Some? ==> 0 <= r.value < 64 && Letter(r.value, Standard) == c
  {
    if 'A' <= c <= 'Z' then Some(c as int - 'A' as int)
    else if 'a' <= c <= 'z' then Some(c as int - 'a' as int + 26)
    else if '0' <= c <= '9' then Some(c as int - '0' as int + 52)
    else if c == '+' then Some(62)
    else if c == '/' then Some(63)
    else None
  }

  /** Every letter of the standard alphabet decodes to the value it stands for. */
  lemma StdValueOfLetter(v: int)
    requires 0 <= v < 64
    ensures StdValue(Letter(v, Standard)) == Some(v)
  {
  }

  // ---------------------------------------------------------------------
  // The three string steps before `atob`

  function Repeat(c: char, n: nat): (s: string)
    ensures |s| == n && forall i :: 0 <= i < n ==> s[i] == c
  {
    if n == 0 then "" else [c] + Repeat(c, n - 1)
  }

  /**
   * `"=".repeat((4 - s.length % 4) % 4)`: the fewest `=` signs that bring
   * the length of `s` to a multiple of four.
   */
  function Padding(s: string): (p: string)
    ensures |p| < 4 && (|s| + |p|) % 4 == 0
    ensures |s| % 4 == 0 ==> p == ""
    ensures forall i :: 0 <= i < |p| ==> p[i] == '='
  {
    Repeat('=', (4 - |s| % 4) % 4)
  }

  /** `s.replace(/from/g, to)` for a single character. */
  function ReplaceAll(s: string, from: char, to: char): (r: string)
    ensures |r| == |s|
    ensures forall i :: 0 <= i < |s| ==> r[i] == if s[i] == from then to else s[i]
  {
    if s == [] then [] else [if s[0] == from then to else s[0]] + ReplaceAll(s[1..], from, to)
  }

  /** What the two replacements do to a single character. */
  function Standardize(c: char): char
  {
    if c == '-' then '+' else if c == '_' then '/' else c
  }

  /** `.replace(/-/g, "+").replace(/_/g, "/")`. */
  function ToStandard(s: string): (r: string)
    ensures |r| == |s| && forall i :: 0 <= i < |s| ==> r[i] == Standardize(s[i])
  {
    ReplaceAll(ReplaceAll(s, '-', '+'), '_', '/')
  }

  // ---------------------------------------------------------------------
  // `atob`: base64 decoding as section 4 of RFC 4648 describes it

  function Byte0(a: int, b: int): byte
    requires 0 <= a < 64 && 0 <= b < 64
  {
    (a * 4 + b / 16) as byte
  }

  function Byte1(b: int, c: int): byte
    requires 0 <= b < 64 && 0 <= c < 64
  {
    (b % 16 * 16 + c / 4) as byte
  }

  function Byte2(c: int, d: int): byte
    requires 0 <= c < 64 && 0 <= d < 64
  {
    (c % 4 * 64 + d) as byte
  }

  /**
   * One group of four characters. Only the last group may end in one or
   * two `=`; the bits of a final partial group that fall outside the last
   * whole byte are discarded.
   */
  function DecodeGroup(c0: char, c1: char, c2: char, c3: char, last: bool): Option<seq<byte>>
  {
    var v0, v1, v2, v3 := StdValue(c0), StdValue(c1), StdValue(c2), StdValue(c3);
    if v0.None? || v1.None? then None
    else if v2.Some? && v3.Some? then
      Some([Byte0(v0.value, v1.value), Byte1(v1.value, v2.value), Byte2(v2.value, v3.value)])
    else if last && v2.Some? && c3 == '=' then
      Some([Byte0(v0.value, v1.value), Byte1(v1.value, v2.value)])
    else if last && c2 == '=' && c3 == '=' then
      Some([Byte0(v0.value, v1.value)])
    else None
  }

  /** Base64 decoding of a whole string; `None` where `atob` throws. */
  function DecodeStd(s: string): Option<seq<byte>>
    decreases |s|
  {
    if s == [] then Some([])
    else if |s| < 4 then None
    else
      match DecodeGroup(s[0], s[1], s[2], s[3], |s| == 4)
      case None => None
      case Some(group) =>
        match DecodeStd(s[4..])
        case None => None
        case Some(rest) => Some(group + rest)
  }

  /** The "binary string" `atob` returns: one character per byte, its code the byte's value. */
  function BinaryString(bytes: seq<byte>): (s: string)
    ensures |s| == |bytes| && forall i :: 0 <= i < |s| ==> s[i] as int == bytes[i] as int
  {
    seq(|bytes|, i requires 0 <= i < |bytes| => bytes[i] as int as char)
  }

  /**
   * `window.atob(s)` on a string whose length is a multiple of four, the
   * only kind the decoder hands it; `None` where it throws. Unpadded input,
   * which `atob` also accepts, never reaches it.
   */
  function Atob(s: string): Option<string>
  {
    match DecodeStd(s)
    case None => None
    case Some(bytes) => Some(BinaryString(bytes))
  }

  // ---------------------------------------------------------------------
  // The decoder

  /** The bytes a key stands for: the RFC 4648 decoding of its padded, standard-alphabet form. */
  function KeyBytes(key: string): Option<seq<byte>>
  {
    DecodeStd(ToStandard(key + Padding(key)))
  }

  /**
   * `urlBase64ToUint8Array(base64String)`: it throws exactly when `atob`
   * refuses the prepared string, and otherwise returns a new array holding
   * the bytes the key stands for.
   */
  method UrlBase64ToUint8Array(base64String: string) returns (r: Completion<array<byte>>)
    ensures r.Normal? <==> KeyBytes(base64String).Some?
    ensures r.Normal? ==> fresh(r.value) && r.value[..] == KeyBytes(base64String).value
  {
    var padding := Padding(base64String);
    var base64 := ToStandard(base64String + padding);
    var rawData := Atob(base64);
    if rawData.None? {
      return Thrown("InvalidCharacterError");
    }
    var raw := rawData.value;
    ghost var bytes := DecodeStd(base64).value;
    var outputArray := new byte[|raw|];
    for i := 0 to |raw|
      invariant forall k :: 0 <= k < i ==> outputArray[k] == bytes[k]
    {
      // A Uint8Array element keeps the character code modulo 256.
      outputArray[i] := (raw[i] as int % 256) as byte;
    }
    r := Normal(outputArray);
  }

  // ---------------------------------------------------------------------
  // Encoding, the partner of the decoder

  /** Three bytes as four letters. */
  function Quad(x0: byte, x1: byte, x2: byte, alphabet: Alphabet): (g: string)
    ensures |g| == 4
  {
    var a, b, c := x0 as int, x1 as int, x2 as int;
    [Letter(a / 4, alphabet), Letter(a % 4 * 16 + b / 16, alphabet),
     Letter(b % 16 * 4 + c / 64, alphabet), Letter(c % 64, alphabet)]
  }

  /** Two final bytes as three letters. */
  function Triple(x0: byte, x1: byte, alphabet: Alphabet): (g: string)
    ensures |g| == 3
  {
    var a, b := x0 as int, x1 as int;
    [Letter(a / 4, alphabet), Letter(a % 4 * 16 + b / 16, alphabet), Letter(b % 16 * 4, alphabet)]
  }

  /** One final byte as two letters. */
  function Pair(x0: byte, alphabet: Alphabet): (g: string)
    ensures |g| == 2
  {
    var a := x0 as int;
    [Letter(a / 4, alphabet), Letter(a % 4 * 16, alphabet)]
  }

  /**
   * Base64 encoding (section 4 or 5 of RFC 4648): every three bytes become
   * four letters; a final one or two bytes become two or three letters,
   * followed by `==` or `=` when `padded`.
   */
  function Encode(data: seq<byte>, alphabet: Alphabet, padded: bool): (e: string)
    ensures |e| == 4 * (|data| / 3) + (if |data| % 3 == 0 then 0 else if padded then 4 else |data| % 3 + 1)
  {
    if |data| == 0 then ""
    else if |data| == 1 then Pair(data[0], alphabet) + (if padded then "==" else "")
    else if |data| == 2 then Triple(data[0], data[1], alphabet) + (if padded then "=" else "")
    else
      LengthStep(|data|);
      Quad(data[0], data[1], data[2], alphabet) + Encode(data[3..], alphabet, padded)
  }

  /** Taking three bytes off lowers the number of whole groups by one and keeps the remainder. */
  lemma LengthStep(n: nat)
    requires n >= 3
    ensures (n - 3) / 3 == n / 3 - 1 && (n - 3) % 3 == n % 3
  {
  }

  /** The six-bit pieces of three bytes put back together give the three bytes. */
  lemma ThreeBytesRoundTrip(x0: int, x1: int, x2: int)
    requires 0 <= x0 < 256 && 0 <= x1 < 256 && 0 <= x2 < 256
    ensures Byte0(x0 / 4, x0 % 4 * 16 + x1 / 16) as int == x0
    ensures Byte1(x0 % 4 * 16 + x1 / 16, x1 % 16 * 4 + x2 / 64) as int == x1
    ensures Byte2(x1 % 16 * 4 + x2 / 64, x2 % 64) as int == x2
  {
    var b := x0 % 4 * 16 + x1 / 16;
    var c := x1 % 16 * 4 + x2 / 64;
    assert b / 16 == x0 % 4 && b % 16 == x1 / 16;
    assert c / 4 == x1 % 16 && c % 4 == x2 / 64;
  }

  lemma DecodeQuad(x0: byte, x1: byte, x2: byte, last: bool)
    ensures var g := Quad(x0, x1, x2, Standard);
      DecodeGroup(g[0], g[1], g[2], g[3], last) == Some([x0, x1, x2])
  {
    var a, b, c := x0 as int, x1 as int, x2 as int;
    ThreeBytesRoundTrip(a, b, c);
    StdValueOfLetter(a / 4);
    StdValueOfLetter(a % 4 * 16 + b / 16);
    StdValueOfLetter(b % 16 * 4 + c / 64);
    StdValueOfLetter(c % 64);
  }

  lemma DecodeTriple(x0: byte, x1: byte)
    ensures var g := Triple(x0, x1, Standard) + "=";
      DecodeGroup(g[0], g[1], g[2], g[3], true) == Some([x0, x1])
  {
    var a, b := x0 as int, x1 as int;
    ThreeBytesRoundTrip(a, b, 0);
    StdValueOfLetter(a / 4);
    StdValueOfLetter(a % 4 * 16 + b / 16);
    StdValueOfLetter(b % 16 * 4);
  }

  lemma DecodePair(x0: byte)
    ensures var g := Pair(x0, Standard) + "==";
      DecodeGroup(g[0], g[1], g[2], g[3], true) == Some([x0])
  {
    var a := x0 as int;
    ThreeBytesRoundTrip(a, 0, 0);
    StdValueOfLetter(a / 4);
    StdValueOfLetter(a % 4 * 16);
  }

  /** Padded encodings come in whole groups of four characters. */
  lemma {:induction false} PaddedLength(data: seq<byte>, alphabet: Alphabet)
    ensures |Encode(data, alphabet, true)| % 4 == 0
  {
    var k := |data| / 3;
    assert |Encode(data, alphabet, true)| == 4 * k + (if |data| % 3 == 0 then 0 else 4);
  }

  /** The padding a string gets depends only on its length modulo 4. */
  lemma PaddingByLength(s: string)
    ensures |s| % 4 == 2 ==> Padding(s) == "=="
    ensures |s| % 4 == 3 ==> Padding(s) == "="
  {
    if |s| % 4 == 2 {
      assert Padding(s) == Repeat('=', 2);
    } else if |s| % 4 == 3 {
      assert Padding(s) == Repeat('=', 1);
    }
  }

  /** Padding the unpadded encoding yields the padded encoding. */
  lemma {:induction false} PaddingCompletesEncoding(data: seq<byte>, alphabet: Alphabet)
    ensures Encode(data, alphabet, false) + Padding(Encode(data, alphabet, false)) == Encode(data, alphabet, true)
  {
    if |data| >= 3 {
      PaddingCompletesEncoding(data[3..], alphabet);
      PaddingCompletesGroup(data, alphabet);
    } else {
      PaddingByLength(Encode(data, alphabet, false));
    }
  }

  lemma PaddingCompletesGroup(data: seq<byte>, alphabet: Alphabet)
    requires |data| >= 3
    requires Encode(data[3..], alphabet, false) + Padding(Encode(data[3..], alphabet, false)) == Encode(data[3..], alphabet, true)
    ensures Encode(data, alphabet, false) + Padding(Encode(data, alphabet, false)) == Encode(data, alphabet, true)
  {
    var quad := Quad(data[0], data[1], data[2], alphabet);
    var e, tail := Encode(data, alphabet, false), Encode(data[3..], alphabet, false);
    assert e == quad + tail;
    PaddingOfGroupThenRest(quad, tail);
    assert e + Padding(e) == quad + (tail + Padding(tail));
  }

  /** A leading group of four does not change the padding. */
  lemma PaddingOfGroupThenRest(quad: string, tail: string)
    requires |quad| == 4
    ensures Padding(quad + tail) == Padding(tail)
  {
    assert |quad + tail| % 4 == |tail| % 4;
  }

  /** A padded encoding needs no further padding. */
  lemma PaddedNeedsNoPadding(data: seq<byte>, alphabet: Alphabet)
    ensures Padding(Encode(data, alphabet, true)) == ""
  {
    PaddedLength(data, alphabet);
  }

  lemma ToStandardOfConcat(x: string, y: string)
    ensures ToStandard(x + y) == ToStandard(x) + ToStandard(y)
  {
  }

  lemma StandardizeLetter(v: int)
    requires 0 <= v < 64
    ensures Standardize(Letter(v, UrlSafe)) == Letter(v, Standard)
  {
  }

  /** Each group of URL-safe letters maps to the same group of standard letters. */
  lemma ToStandardOfGroups(x0: byte, x1: byte, x2: byte)
    ensures ToStandard(Quad(x0, x1, x2, UrlSafe)) == Quad(x0, x1, x2, Standard)
    ensures ToStandard(Triple(x0, x1, UrlSafe)) == Triple(x0, x1, Standard)
    ensures ToStandard(Pair(x0, UrlSafe)) == Pair(x0, Standard)
  {
    var a, b, c := x0 as int, x1 as int, x2 as int;
    StandardizeLetter(a / 4);
    StandardizeLetter(a % 4 * 16 + b / 16);
    StandardizeLetter(b % 16 * 4 + c / 64);
    StandardizeLetter(c % 64);
    StandardizeLetter(a % 4 * 16);
    StandardizeLetter(b % 16 * 4);
  }

  /** Mapping `-` to `+` and `_` to `/` turns the URL-safe encoding into the standard one. */
  lemma {:induction false} ToStandardOfUrlSafe(data: seq<byte>, padded: bool)
    ensures ToStandard(Encode(data, UrlSafe, padded)) == Encode(data, Standard, padded)
  {
    if |data| == 0 {
    } else if |data| == 1 {
      ToStandardOfGroups(data[0], 0, 0);
      ToStandardOfConcat(Pair(data[0], UrlSafe), if padded then "==" else "");
    } else if |data| == 2 {
      ToStandardOfGroups(data[0], data[1], 0);
      ToStandardOfConcat(Triple(data[0], data[1], UrlSafe), if padded then "=" else "");
    } else {
      ToStandardOfUrlSafe(data[3..], padded);
      ToStandardOfGroups(data[0], data[1], data[2]);
      ToStandardOfConcat(Quad(data[0], data[1], data[2], UrlSafe), Encode(data[3..], UrlSafe, padded));
    }
  }

  /** `atob`'s decoding inverts the padded standard encoding. */
  lemma {:induction false} DecodeStdOfEncode(data: seq<byte>)
    ensures DecodeStd(Encode(data, Standard, true)) == Some(data)
  {
    if |data| == 0 {
      assert Encode(data, Standard, true) == "";
    } else if |data| <= 3 {
      DecodeShort(data);
    } else {
      DecodeStdOfEncode(data[3..]);
      DecodeLonger(data);
    }
  }

  /** One, two or three bytes make a single group that decodes back to them. */
  lemma DecodeShort(data: seq<byte>)
    requires 0 < |data| <= 3
    ensures DecodeStd(Encode(data, Standard, true)) == Some(data)
  {
    Unpack(data);
    if |data| == 1 {
      DecodeLastPair(data[0]);
    } else if |data| == 2 {
      DecodeLastTriple(data[0], data[1]);
    } else {
      DecodeOnlyQuad(data[0], data[1], data[2]);
    }
  }

  /** More than three bytes: the first group, then the encoding of the rest. */
  lemma DecodeLonger(data: seq<byte>)
    requires |data| > 3
    requires DecodeStd(Encode(data[3..], Standard, true)) == Some(data[3..])
    ensures DecodeStd(Encode(data, Standard, true)) == Some(data)
  {
    Unpack(data);
    DecodeQuadThenRest(data[0], data[1], data[2], data[3..]);
  }

  /** A byte sequence as its first elements and the rest. */
  lemma Unpack(data: seq<byte>)
    ensures |data| == 1 ==> data == [data[0]]
    ensures |data| == 2 ==> data == [data[0], data[1]]
    ensures |data| == 3 ==> data == [data[0], data[1], data[2]]
    ensures |data| > 3 ==> data == [data[0], data[1], data[2]] + data[3..]
  {
  }

  /** A string of four characters decodes as its one and last group. */
  lemma DecodeSingleGroup(s: string)
    requires |s| == 4
    ensures DecodeStd(s) == DecodeGroup(s[0], s[1], s[2], s[3], true)
  {
    assert s[4..] == [];
    assert DecodeStd(s[4..]) == Some([]);
    match DecodeGroup(s[0], s[1], s[2], s[3], true)
    case None =>
    case Some(group) => assert group + [] == group;
  }

  lemma DecodeLastPair(x0: byte)
    ensures DecodeStd(Encode([x0], Standard, true)) == Some([x0])
  {
    var s := Encode([x0], Standard, true);
    assert s == Pair(x0, Standard) + "==";
    DecodePair(x0);
    DecodeSingleGroup(s);
  }

  lemma DecodeLastTriple(x0: byte, x1: byte)
    ensures DecodeStd(Encode([x0, x1], Standard, true)) == Some([x0, x1])
  {
    var s := Encode([x0, x1], Standard, true);
    assert s == Triple(x0, x1, Standard) + "=";
    DecodeTriple(x0, x1);
    DecodeSingleGroup(s);
  }

  /** A string of more than four characters decodes as its first group followed by the rest. */
  lemma DecodeFirstGroup(s: string)
    requires |s| > 4
    ensures DecodeStd(s) ==
      match DecodeGroup(s[0], s[1], s[2], s[3], false)
      case None => None
      case Some(group) =>
        match DecodeStd(s[4..])
        case None => None
        case Some(rest) => Some(group + rest)
  {
  }

  lemma DecodeOnlyQuad(x0: byte, x1: byte, x2: byte)
    ensures DecodeStd(Encode([x0, x1, x2], Standard, true)) == Some([x0, x1, x2])
  {
    assert [x0, x1, x2][3..] == [];
    assert Encode([x0, x1, x2], Standard, true) == Quad(x0, x1, x2, Standard) + "";
    DecodeQuad(x0, x1, x2, true);
    DecodeSingleGroup(Quad(x0, x1, x2, Standard));
  }

  lemma DecodeQuadThenRest(x0: byte, x1: byte, x2: byte, more: seq<byte>)
    requires more != []
    requires DecodeStd(Encode(more, Standard, true)) == Some(more)
    ensures DecodeStd(Encode([x0, x1, x2] + more, Standard, true)) == Some([x0, x1, x2] + more)
  {
    var data := [x0, x1, x2] + more;
    assert data[3..] == more;
    var s := Encode(data, Standard, true);
    var rest := Encode(more, Standard, true);
    assert s == Quad(x0, x1, x2, Standard) + rest;
    DecodeQuad(x0, x1, x2, false);
    assert s[4..] == rest;
    DecodeFirstGroup(s);
  }

  /**
   * Round trip: the key bytes of the URL-safe encoding of any byte
   * sequence, with or without its `=` padding, are exactly those bytes.
   */
  lemma KeyRoundTrip(data: seq<byte>, padded: bool)
    ensures KeyBytes(Encode(data, UrlSafe, padded)) == Some(data)
  {
    var e := Encode(data, UrlSafe, padded);
    if padded {
      PaddedNeedsNoPadding(data, UrlSafe);
      assert e + Padding(e) == e;
    } else {
      PaddingCompletesEncoding(data, UrlSafe);
    }
    assert e + Padding(e) == Encode(data, UrlSafe, true);
    ToStandardOfUrlSafe(data, true);
    DecodeStdOfEncode(data);
  }

  /** A group with `=` in second place is refused. */
  lemma SecondPlacePadGroup(c0: char, c2: char, c3: char, last: bool)
    ensures DecodeGroup(c0, '=', c2, c3, last) == None
  {
  }

  /** A standard-alphabet string whose last group has `=` in second place is refused. */
  lemma {:induction false} SecondPlacePadRefused(s: string)
    requires |s| >= 4 && |s| % 4 == 0 && s[|s| - 3] == '='
    ensures DecodeStd(s) == None
  {
    if |s| == 4 {
      SecondPlacePadGroup(s[0], s[2], s[3], true);
    } else {
      var rest := s[4..];
      assert rest[|rest| - 3] == '=';
      SecondPlacePadRefused(rest);
    }
  }

  /**
   * A key whose length leaves remainder 1 modulo 4 gets three `=` signs
   * and `atob` refuses it: such a key always throws.
   */
  lemma OneOverGroupRefused(key: string)
    requires |key| % 4 == 1
    ensures KeyBytes(key) == None
  {
    var p := key + Padding(key);
    assert p[|p| - 3] == '=';
    SecondPlacePadRefused(ToStandard(p));
  }
}
