/** The base64url decoder of `src/supabase-realtime-common.ts`, up to the bytes it hands to the text
    decoder. */
module Base64Url {
  import opened Common

  type Byte = b: nat | b < 256 witness 0
  type Sextet = s: nat | s < 64 witness 0

  /** The alphabet: capital letters, small letters, digits, `+` and `/`. */
  function Letter(s: Sextet): char {
    if s < 26 then (s + ('A' as int)) as char
    else if s < 52 then (s - 26 + ('a' as int)) as char
    else if s < 62 then (s - 52 + ('0' as int)) as char
    else if s == 62 then '+' else '/'
  }

  /** The two replacements at the start. */
  function Normal(c: char): char { if c == '-' then '+' else if c == '_' then '/' else c }

  /** `alphabet.indexOf`. */
  function IndexOf(c: char): (index: int)
    ensures index == -1 || (0 <= index < 64 && Letter(index) == c)
    ensures forall s: Sextet :: Letter(s) == c ==> index == s
  {
    if 'A' <= c <= 'Z' then (c as int) - ('A' as int)
    else if 'a' <= c <= 'z' then (c as int) - ('a' as int) + 26
    else if '0' <= c <= '9' then (c as int) - ('0' as int) + 52
    else if c == '+' then 62 else if c == '/' then 63 else -1
  }

  /** Without the padding at the end. */
  function Unpadded(s: string): (t: string)
    ensures t <= s && (t == "" || t[|t| - 1] != '=')
  {
    if s != "" && s[|s| - 1] == '=' then Unpadded(s[..|s| - 1]) else s
  }

  predicate Decodable(s: string) { forall i :: 0 <= i < |s| ==> IndexOf(Normal(s[i])) >= 0 }

  function Sextets(s: string): seq<Sextet>
    requires Decodable(s)
  {
    seq(|s|, i requires 0 <= i < |s| => IndexOf(Normal(s[i])))
  }

  /** Digits in base 64 and in base 256. */
  function Number64(digits: seq<Sextet>): nat {
    if digits == [] then 0 else 64 * Number64(digits[..|digits| - 1]) + digits[|digits| - 1]
  }

  function Number256(digits: seq<Byte>): nat {
    if digits == [] then 0 else 256 * Number256(digits[..|digits| - 1]) + digits[|digits| - 1]
  }

  function Pow2(n: nat): (p: nat)
    ensures p > 0
  {
    if n == 0 then 1 else 2 * Pow2(n - 1)
  }

  /** The bytes are the leading bits of the digits: none is lost, added or moved. `bits` are left
      over, with value `buffer`. */
  ghost predicate Represents(digits: seq<Sextet>, bytes: seq<Byte>, buffer: nat, bits: nat) {
    8 * |bytes| + bits == 6 * |digits| && buffer < Pow2(bits) &&
    Number64(digits) == Number256(bytes) * Pow2(bits) + buffer
  }

  lemma SmallPowers()
    ensures Pow2(0) == 1 && Pow2(2) == 4 && Pow2(4) == 16 && Pow2(6) == 64
  {
    assert Pow2(1) == 2 && Pow2(3) == 8 && Pow2(5) == 32;
  }

  lemma Widened(digits: seq<Sextet>, digit: Sextet, bytes: seq<Byte>, buffer: nat)
    requires Represents(digits, bytes, buffer, 0)
    ensures Represents(digits + [digit], bytes, buffer * 64 + digit, 6)
  {
    SmallPowers();
    assert (digits + [digit])[..|digits|] == digits;
  }

  /** `bits` new bits complete a byte and leave two fewer. */
  lemma Carried(digits: seq<Sextet>, digit: Sextet, bytes: seq<Byte>, buffer: nat, bits: nat, byte: Byte, rest: nat)
    requires bits in {2, 4, 6} && Represents(digits, bytes, buffer, bits)
    requires buffer * 64 + digit == byte * Pow2(bits - 2) + rest && rest < Pow2(bits - 2)
    ensures Represents(digits + [digit], bytes + [byte], rest, bits - 2)
  {
    SmallPowers();
    assert (digits + [digit])[..|digits|] == digits && (bytes + [byte])[..|bytes|] == bytes;
  }

  /** What the decoder promises: `undefined` exactly for a character outside the alphabet, otherwise
      as many bytes as the digits fill, which are their leading bits. */
  ghost predicate Decoded(value: string, result: Option<seq<Byte>>) {
    (result.Some? <==> Decodable(Unpadded(value))) &&
    (result.Some? ==>
       exists buffer: nat, bits: nat ::
         bits in {0, 2, 4, 6} && Represents(Sextets(Unpadded(value)), result.value, buffer, bits))
  }

  /** `decodeBase64Url`. The accumulator never needs more than twelve bits. */
  method Decode(value: string) returns (result: Option<seq<Byte>>)
    ensures Decoded(value, result)
  {
    hide Represents, IndexOf, Normal, Unpadded, Number64, Number256, Pow2;
    var normalized := Unpadded(value);
    var bytes: seq<Byte> := [];
    var buffer: nat, bits: nat := 0, 0;
    NothingRead();
    assert Sextets(normalized[..0]) == [];
    for i := 0 to |normalized|
      invariant Decodable(normalized[..i]) && bits in {0, 2, 4, 6}
      invariant Represents(Sextets(normalized[..i]), bytes, buffer, bits)
    {
      ghost var digits := Sextets(normalized[..i]);
      var index := IndexOf(Normal(normalized[i]));
      if index < 0 { return None; }
      assert Decodable(normalized[..i + 1]);
      assert Sextets(normalized[..i + 1]) == digits + [index];
      var wide := buffer * 64 + index;
      BufferFits(digits, bytes, buffer, bits, index);
      if bits == 0 {
        Widened(digits, index, bytes, buffer);
        buffer, bits := wide, 6;
      } else {
        var low := if bits == 2 then 1 else if bits == 4 then 4 else 16;
        Carried(digits, index, bytes, buffer, bits, wide / low, wide % low);
        bytes, buffer, bits := bytes + [wide / low], wide % low, bits - 2;
      }
    }
    assert normalized[..|normalized|] == normalized;
    return Some(bytes);
  }

  lemma NothingRead()
    ensures Represents([], [], 0, 0)
  {
    SmallPowers();
  }

  /** The new digit and the bits left over make at most a byte and what is left of it. */
  lemma BufferFits(digits: seq<Sextet>, bytes: seq<Byte>, buffer: nat, bits: nat, digit: Sextet)
    requires bits in {0, 2, 4, 6} && Represents(digits, bytes, buffer, bits)
    ensures buffer * 64 + digit < 4096
    ensures
      bits > 0 ==>
        var low := if bits == 2 then 1 else if bits == 4 then 4 else 16;
        low == Pow2(bits - 2) && (buffer * 64 + digit) / low < 256 &&
        buffer * 64 + digit == (buffer * 64 + digit) / low * low + (buffer * 64 + digit) % low
  {
    SmallPowers();
  }

  // ---------------------------------------------------------------- the encoding of RFC 4648, section 5

  function Symbol(s: Sextet): char { if s == 62 then '-' else if s == 63 then '_' else Letter(s) }

  /** Three bytes become four symbols; one or two left over become two or three. */
  function Encode(bytes: seq<Byte>): string {
    if bytes == [] then ""
    else if |bytes| == 1 then [Symbol(bytes[0] / 4), Symbol(bytes[0] % 4 * 16)]
    else if |bytes| == 2 then
      [Symbol(bytes[0] / 4), Symbol(bytes[0] % 4 * 16 + bytes[1] / 16), Symbol(bytes[1] % 16 * 4)]
    else
      [Symbol(bytes[0] / 4), Symbol(bytes[0] % 4 * 16 + bytes[1] / 16), Symbol(bytes[1] % 16 * 4 + bytes[2] / 64),
        Symbol(bytes[2] % 64)] +
      Encode(bytes[3..])
  }

  function Padding(n: nat): string { if n % 3 == 1 then "==" else if n % 3 == 2 then "=" else "" }

  lemma Recognised(s: Sextet)
    ensures IndexOf(Normal(Symbol(s))) == s && Symbol(s) != '='
  {
    if s < 62 { assert Normal(Letter(s)) == Letter(s); }
  }

  function Four(a: Byte, b: Byte, c: Byte): seq<Sextet> { [a / 4, a % 4 * 16 + b / 16, b % 16 * 4 + c / 64, c % 64] }

  function Three(a: Byte, b: Byte): seq<Sextet> { [a / 4, a % 4 * 16 + b / 16, b % 16 * 4] }

  function Two(a: Byte): seq<Sextet> { [a / 4, a % 4 * 16] }

  /** Four digits from a byte boundary carry three bytes. */
  lemma Group(digits: seq<Sextet>, bytes: seq<Byte>, a: Byte, b: Byte, c: Byte)
    requires Represents(digits, bytes, 0, 0)
    ensures Represents(digits + Four(a, b, c), bytes + [a, b, c], 0, 0)
  {
    hide Represents;
    Pair(digits, bytes, a, b / 16);
    var two := digits + [a / 4, a % 4 * 16 + b / 16];
    SmallPowers();
    Carried(two, b % 16 * 4 + c / 64, bytes + [a], b / 16, 4, b, c / 64);
    var three := two + [b % 16 * 4 + c / 64];
    Carried(three, c % 64, bytes + [a] + [b], c / 64, 2, c, 0);
    assert three + [c % 64] == digits + Four(a, b, c);
    assert bytes + [a] + [b] + [c] == bytes + [a, b, c];
  }

  /** Two digits from a byte boundary carry one byte and the four bits `high`. */
  lemma Pair(digits: seq<Sextet>, bytes: seq<Byte>, a: Byte, high: nat)
    requires Represents(digits, bytes, 0, 0) && high < 16
    ensures Represents(digits + [a / 4, a % 4 * 16 + high], bytes + [a], high, 4)
  {
    Widened(digits, a / 4, bytes, 0);
    SmallPowers();
    Carried(digits + [a / 4], a % 4 * 16 + high, bytes, a / 4, 6, a, high);
    assert digits + [a / 4] + [a % 4 * 16 + high] == digits + [a / 4, a % 4 * 16 + high];
  }

  /** Three digits carry two bytes. */
  lemma Triple(digits: seq<Sextet>, bytes: seq<Byte>, a: Byte, b: Byte)
    requires Represents(digits, bytes, 0, 0)
    ensures Represents(digits + Three(a, b), bytes + [a, b], 0, 2)
  {
    hide Represents;
    Pair(digits, bytes, a, b / 16);
    SmallPowers();
    Carried(digits + [a / 4, a % 4 * 16 + b / 16], b % 16 * 4, bytes + [a], b / 16, 4, b, 0);
    assert digits + [a / 4, a % 4 * 16 + b / 16] + [b % 16 * 4] == digits + [a / 4, a % 4 * 16 + b / 16, b % 16 * 4];
    assert bytes + [a] + [b] == bytes + [a, b];
  }

  function SymbolText(digits: seq<Sextet>): string {
    seq(|digits|, i requires 0 <= i < |digits| => Symbol(digits[i]))
  }

  lemma Symbols(digits: seq<Sextet>)
    ensures Decodable(SymbolText(digits)) && Sextets(SymbolText(digits)) == digits && '=' !in SymbolText(digits)
  {
    hide Symbol, IndexOf, Normal;
    forall i | 0 <= i < |digits| ensures IndexOf(Normal(Symbol(digits[i]))) == digits[i] && Symbol(digits[i]) != '=' {
      Recognised(digits[i]);
    }
  }

  /** The digits of the encoding. */
  function Digits(bytes: seq<Byte>): seq<Sextet> {
    if bytes == [] then []
    else if |bytes| == 1 then Two(bytes[0])
    else if |bytes| == 2 then Three(bytes[0], bytes[1])
    else
      Four(bytes[0], bytes[1], bytes[2]) + Digits(bytes[3..])
  }

  lemma Last(digits: seq<Sextet>, bytes: seq<Byte>, a: Byte)
    requires Represents(digits, bytes, 0, 0)
    ensures Represents(digits + Two(a), bytes + [a], 0, 4)
  {
    hide Represents;
    Pair(digits, bytes, a, 0);
  }

  lemma {:induction false} EncodedDigits(digits: seq<Sextet>, done: seq<Byte>, bytes: seq<Byte>) returns (bits: nat)
    requires Represents(digits, done, 0, 0)
    ensures bits in {0, 2, 4} && Represents(digits + Digits(bytes), done + bytes, 0, bits)
    decreases |bytes|
  {
    hide Represents, Two, Three, Four;
    if bytes == [] {
      bits := 0;
      assert digits + [] == digits && done + [] == done;
    } else if |bytes| == 1 {
      bits := 4;
      Last(digits, done, bytes[0]);
      assert bytes == [bytes[0]];
    } else if |bytes| == 2 {
      bits := 2;
      Triple(digits, done, bytes[0], bytes[1]);
      assert bytes == [bytes[0], bytes[1]];
    } else {
      var a, b, c := bytes[0], bytes[1], bytes[2];
      Group(digits, done, a, b, c);
      bits := EncodedDigits(digits + Four(a, b, c), done + [a, b, c], bytes[3..]);
      assert digits + Four(a, b, c) + Digits(bytes[3..]) == digits + Digits(bytes);
      assert done + [a, b, c] + bytes[3..] == done + bytes;
    }
  }

  lemma {:induction false} Number256Determines(a: seq<Byte>, b: seq<Byte>)
    requires |a| == |b| && Number256(a) == Number256(b)
    ensures a == b
  {
    if a != [] {
      var i := |a| - 1;
      Number256Determines(a[..i], b[..i]);
      assert a == a[..i] + [a[i]] && b == b[..i] + [b[i]];
    }
  }

  /** Digits stand for one sequence of bytes only. */
  lemma BytesDetermined(digits: seq<Sextet>, a: seq<Byte>, x: nat, m: nat, b: seq<Byte>, y: nat, n: nat)
    requires m in {0, 2, 4, 6} && n in {0, 2, 4, 6} && Represents(digits, a, x, m) && Represents(digits, b, y, n)
    ensures a == b
  {
    assert m == n && |a| == |b|;
    SmallPowers();
    Number256Determines(a, b);
  }

  lemma {:induction false} Unpads(s: string, pad: string)
    requires '=' !in s && forall i :: 0 <= i < |pad| ==> pad[i] == '='
    ensures Unpadded(s + pad) == s
    decreases |pad|
  {
    if pad != "" {
      assert (s + pad)[..|s + pad| - 1] == s + pad[..|pad| - 1];
      Unpads(s, pad[..|pad| - 1]);
    } else { assert s + pad == s; }
  }

  lemma {:induction false} EncodeIsSymbols(bytes: seq<Byte>)
    ensures Encode(bytes) == SymbolText(Digits(bytes))
    decreases |bytes|
  {
    if |bytes| > 2 { EncodeIsSymbols(bytes[3..]); }
  }

  lemma {:induction false} EncodedText(bytes: seq<Byte>, padded: bool)
    ensures
      var text := Encode(bytes);
      Unpadded(text + if padded then Padding(|bytes|) else "") == text && Decodable(text) &&
      Sextets(text) == Digits(bytes)
  {
    hide Digits, Encode, SymbolText, Decodable, Sextets, Unpadded;
    EncodeIsSymbols(bytes);
    Symbols(Digits(bytes));
    Unpads(Encode(bytes), if padded then Padding(|bytes|) else "");
  }

  /** Main theorem: every sequence of bytes is got back from its encoding, padded or not. */
  lemma {:induction false} DecodingInvertsEncoding(bytes: seq<Byte>, padded: bool, result: Option<seq<Byte>>)
    requires Decoded(Encode(bytes) + if padded then Padding(|bytes|) else "", result)
    ensures result == Some(bytes)
  {
    hide Represents, Digits, Encode, Unpadded, Decodable, Padding, Sextets, Decoded;
    EncodedText(bytes, padded);
    NothingRead();
    var bits := EncodedDigits([], [], bytes);
    assert [] + Digits(bytes) == Digits(bytes) && [] + bytes == bytes;
    var text := Encode(bytes) + if padded then Padding(|bytes|) else "";
    var x, m := Known(text, Encode(bytes), Digits(bytes), result);
    BytesDetermined(Digits(bytes), result.value, x, m, bytes, 0, bits);
  }

  lemma Known(value: string, text: string, digits: seq<Sextet>, result: Option<seq<Byte>>) returns (x: nat, m: nat)
    requires Decoded(value, result) && Unpadded(value) == text && Decodable(text) && Sextets(text) == digits
    ensures result.Some? && m in {0, 2, 4, 6} && Represents(digits, result.value, x, m)
  {
    x, m :| m in {0, 2, 4, 6} && Represents(digits, result.value, x, m);
  }

  // ---------------------------------------------------------------- which texts are encodings

  lemma {:induction false} Number64Determines(a: seq<Sextet>, b: seq<Sextet>)
    requires |a| == |b| && Number64(a) == Number64(b)
    ensures a == b
  {
    if a != [] {
      var i := |a| - 1;
      Number64Determines(a[..i], b[..i]);
      assert a == a[..i] + [a[i]] && b == b[..i] + [b[i]];
    }
  }

  /** Digits that were decoded are the encoding of the result exactly when the bits left over are
      zero and do not make a whole digit. */
  lemma {:induction false} EncodedExactly(digits: seq<Sextet>, bytes: seq<Byte>, buffer: nat, bits: nat)
    requires bits in {0, 2, 4, 6} && Represents(digits, bytes, buffer, bits)
    ensures digits == Digits(bytes) <==> buffer == 0 && bits != 6
  {
    hide Digits, Represents;
    NothingRead();
    var left := EncodedDigits([], [], bytes);
    assert [] + Digits(bytes) == Digits(bytes) && [] + bytes == bytes;
    SameDigits(digits, Digits(bytes), bytes, buffer, bits, left);
  }

  lemma SameDigits(a: seq<Sextet>, b: seq<Sextet>, bytes: seq<Byte>, buffer: nat, bits: nat, left: nat)
    requires bits in {0, 2, 4, 6} && left in {0, 2, 4} && Represents(a, bytes, buffer, bits) &&
        Represents(b, bytes, 0, left)
    ensures a == b <==> buffer == 0 && bits != 6
  {
    hide Pow2, Number64, Number256;
    if bits != 6 {
      assert bits == left && |a| == |b|;
      if buffer == 0 { Number64Determines(a, b); }
    }
  }

  /** A length that groups of eight bits can have, and no bits set after the last byte. */
  predicate Canonical(digits: seq<Sextet>) {
    |digits| % 4 != 1 &&
    (|digits| % 4 == 2 ==> digits[|digits| - 1] % 16 == 0) &&
    (|digits| % 4 == 3 ==> digits[|digits| - 1] % 4 == 0)
  }

  /** What is left over can be read off the length and the last digit. */
  lemma LeftOver(digits: seq<Sextet>, bytes: seq<Byte>, buffer: nat, bits: nat)
    requires bits in {0, 2, 4, 6} && Represents(digits, bytes, buffer, bits)
    ensures buffer == 0 && bits != 6 <==> Canonical(digits)
  {
    SmallPowers();
    assert |digits| % 4 == (if bits == 0 then 0 else if bits == 2 then 3 else if bits == 4 then 2 else 1);
    if bits == 2 || bits == 4 {
      var last := digits[|digits| - 1];
      var rest, whole := Number64(digits[..|digits| - 1]), Number256(bytes);
      assert 64 * rest + last == whole * Pow2(bits) + buffer;
      if bits == 2 { assert last == 4 * (whole - 16 * rest) + buffer; }
      else { assert last == 16 * (whole - 4 * rest) + buffer; }
    }
  }

  /** The alphabet of RFC 4648, section 5, spells a sequence of digits in one way. */
  lemma SpelledOnce(text: string)
    requires Decodable(text)
    ensures text == SymbolText(Sextets(text)) <==> '+' !in text && '/' !in text
  {
    hide IndexOf, Normal, Symbol;
    forall i | 0 <= i < |text| ensures text[i] == Symbol(Sextets(text)[i]) <==> text[i] != '+' && text[i] != '/' {
      OneSpelling(text[i]);
    }
  }

  lemma OneSpelling(c: char)
    requires IndexOf(Normal(c)) >= 0
    ensures c == Symbol(IndexOf(Normal(c))) <==> c != '+' && c != '/'
  {
  }

  /** Main theorem, the converse: a text, less its padding, is an encoding exactly when it decodes,
      is spelled with `-` and `_`, has a length other than one more than a multiple of four, and has
      no bits set after the last byte. It is then the encoding of what it decodes to. */
  lemma {:induction false} EncodingsAreTheCanonicalTexts(value: string, result: Option<seq<Byte>>)
    requires Decoded(value, result)
    ensures
      var text := Unpadded(value);
      (exists bytes :: text == Encode(bytes)) <==>
        result.Some? && '+' !in text && '/' !in text && Canonical(Sextets(text))
    ensures forall bytes :: Unpadded(value) == Encode(bytes) ==> result == Some(bytes)
  {
    hide Represents, Digits, Encode, Unpadded, Decodable, Sextets, Canonical, SymbolText;
    var text := Unpadded(value);
    forall bytes | text == Encode(bytes)
      ensures result == Some(bytes) && '+' !in text && '/' !in text && Canonical(Sextets(text))
    {
      EncodingIsCanonical(value, bytes, result);
    }
    if result.Some? && '+' !in text && '/' !in text && Canonical(Sextets(text)) {
      CanonicalIsEncoding(value, result);
      assert text == Encode(result.value);
    }
  }

  lemma EncodingIsCanonical(value: string, bytes: seq<Byte>, result: Option<seq<Byte>>)
    requires Decoded(value, result) && Unpadded(value) == Encode(bytes)
    ensures result == Some(bytes) && Canonical(Sextets(Unpadded(value)))
    ensures '+' !in Unpadded(value) && '/' !in Unpadded(value)
  {
    hide Represents, Digits, Encode, Unpadded, Decodable, Sextets, Canonical, SymbolText;
    var text, digits := Unpadded(value), Digits(bytes);
    EncodedText(bytes, false);
    EncodeIsSymbols(bytes);
    SpelledOnce(text);
    NothingRead();
    var bits := EncodedDigits([], [], bytes);
    assert [] + digits == digits && [] + bytes == bytes;
    var x, m := Known(value, text, digits, result);
    BytesDetermined(digits, result.value, x, m, bytes, 0, bits);
    LeftOver(digits, bytes, 0, bits);
  }

  lemma CanonicalIsEncoding(value: string, result: Option<seq<Byte>>)
    requires Decoded(value, result) && result.Some? && Canonical(Sextets(Unpadded(value)))
    requires '+' !in Unpadded(value) && '/' !in Unpadded(value)
    ensures Unpadded(value) == Encode(result.value)
  {
    hide Represents, Digits, Encode, Unpadded, Decodable, Sextets, Canonical, SymbolText;
    var text, digits := Unpadded(value), Sextets(Unpadded(value));
    var x, m := Known(value, text, digits, result);
    LeftOver(digits, result.value, x, m);
    EncodedExactly(digits, result.value, x, m);
    SpelledOnce(text);
    EncodeIsSymbols(result.value);
  }

  /** So the decoder takes more texts than the encodings: it does not ask for left over bits to be
      zero, nor for a length that an encoding can have. */
  lemma OtherTextsDecodeToo()
    ensures Decoded("QQ", Some([65])) && Decoded("QR", Some([65])) && Encode([65]) == "QQ" && Decoded("Q", Some([]))
  {
    assert Encode([65]) == "QQ";
    DecodesAs("QQ", [16, 16], [65], 0, 4);
    DecodesAs("QR", [16, 17], [65], 1, 4);
    DecodesAs("Q", [16], [], 16, 6);
  }

  lemma DecodesAs(text: string, digits: seq<Sextet>, bytes: seq<Byte>, buffer: nat, bits: nat)
    requires 0 < |text| == |digits| <= 2 && text[|text| - 1] != '=' && |bytes| <= 1 && bits in {4, 6}
    requires forall i :: 0 <= i < |text| ==> IndexOf(Normal(text[i])) == digits[i]
    requires 8 * |bytes| + bits == 6 * |digits| && buffer < if bits == 4 then 16 else 64
    requires Tail(digits) == (if bytes == [] then 0 else bytes[0] as int) * (if bits == 4 then 16 else 64) + buffer
    ensures Decoded(text, Some(bytes))
  {
    hide IndexOf, Normal;
    Spells(text, digits);
    SmallPowers();
    if |digits| == 2 { TwoDigits(digits[0], digits[1]); assert digits == [digits[0], digits[1]]; }
    else { TwoDigits(digits[0], 0); assert digits == [digits[0]]; }
    if bytes != [] { assert bytes[..0] == [] && Number256(bytes) == bytes[0]; }
    assert Represents(digits, bytes, buffer, bits);
  }

  /** The number that one or two digits make. */
  function Tail(digits: seq<Sextet>): int
    requires 0 < |digits| <= 2
  {
    var first: int := digits[0];
    if |digits| == 1 then first else 64 * first + digits[1]
  }

  lemma TwoDigits(a: Sextet, b: Sextet)
    ensures Number64([a]) == a && Number64([a, b]) == 64 * a + b
  {
    assert [a, b][..1] == [a] && [a][..0] == [];
  }

  lemma Spells(text: string, digits: seq<Sextet>)
    requires text != "" && text[|text| - 1] != '=' && |digits| == |text|
    requires forall i :: 0 <= i < |text| ==> IndexOf(Normal(text[i])) == digits[i]
    ensures Unpadded(text) == text && Decodable(text) && Sextets(text) == digits
  {
  }
}
