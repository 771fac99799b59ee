/** Query strings: percent encoding and decoding (sections 2.1 and 2.3 of RFC 3986), and parameter lookup.

The encoder works on the UTF-8 bytes of a text; the decoder reads its input byte by byte and makes each byte, or
escape, a character of its own. */
module PercentCodec {
  import opened Common

  type Byte = b: int | 0 <= b < 256

  const PERCENT: Byte := 0x25
  const AMPERSAND: Byte := 0x26
  const PLUS: Byte := 0x2B
  const EQUALS: Byte := 0x3D
  const SPACE: Byte := 0x20

  /** Letters, digits, hyphen, underscore, period, tilde. */
  predicate Unreserved(b: Byte) {
    0x41 <= b <= 0x5A || 0x61 <= b <= 0x7A || 0x30 <= b <= 0x39 || b in {0x2D, 0x5F, 0x2E, 0x7E}
  }

  /** Upper-case hexadecimal digit. */
  function HexDigit(d: int): Byte
    requires 0 <= d < 16
  {
    if d < 10 then 0x30 + d else 0x41 + d - 10
  }

  /** `to_digit(16)`: either case. */
  function DigitValue(b: Byte): Option<int> {
    if 0x30 <= b <= 0x39 then Some(b - 0x30)
    else if 0x41 <= b <= 0x46 then Some(b - 0x41 + 10)
    else if 0x61 <= b <= 0x66 then Some(b - 0x61 + 10)
    else None
  }

  function EncodedByte(b: Byte): seq<Byte> {
    if Unreserved(b) then [b] else [PERCENT, HexDigit(b / 16), HexDigit(b % 16)]
  }

  function Encoded(value: seq<Byte>): seq<Byte> {
    if value == [] then [] else EncodedByte(value[0]) + Encoded(value[1..])
  }

  lemma {:induction false} EncodedConcat(a: seq<Byte>, b: seq<Byte>)
    ensures Encoded(a + b) == Encoded(a) + Encoded(b)
  {
    if a == [] {
      assert a + b == b;
    } else {
      assert (a + b)[1..] == a[1..] + b;
      EncodedConcat(a[1..], b);
    }
  }

  /** The bytes that stand for themselves: 66 of them. */
  predicate Plain(c: int) {
    || ('A' as int <= c <= 'Z' as int) || ('a' as int <= c <= 'z' as int) || ('0' as int <= c <= '9' as int)
    || c in {'-' as int, '_' as int, '.' as int, '~' as int}
  }

  predicate UpperHex(c: int) { '0' as int <= c <= '9' as int || 'A' as int <= c <= 'F' as int }

  predicate LowerHex(c: int) { 'a' as int <= c <= 'f' as int }

  /** The number that a hexadecimal digit stands for. */
  function Number(c: int): int {
    if c <= '9' as int then c - '0' as int
    else if c <= 'F' as int then c - 'A' as int + 10
    else c - 'a' as int + 10
  }

  /** A plain byte encodes to itself; every other one to a percent sign and two upper-case hexadecimal digits, of
      which it is the value. */
  lemma ByteMeaning(b: Byte)
    ensures var e := Encoded([b]);
            if Plain(b) then e == [b]
            else |e| == 3 && e[0] == '%' as int && UpperHex(e[1]) && UpperHex(e[2])
                 && b == Number(e[1]) * 16 + Number(e[2])
  {
    assert [b][1..] == [] && Encoded([b]) == EncodedByte(b) + [] == EncodedByte(b);
    DigitIsNumber(b / 16);
    DigitIsNumber(b % 16);
  }

  lemma DigitIsNumber(d: int)
    requires 0 <= d < 16
    ensures UpperHex(HexDigit(d)) && Number(HexDigit(d)) == d
  {
  }

  /** Nothing else appears in an encoded string. */
  lemma {:induction false} EncodedAlphabet(value: seq<Byte>, i: nat)
    requires i < |Encoded(value)|
    ensures Plain(Encoded(value)[i]) || Encoded(value)[i] == '%' as int
  {
    var n := |EncodedByte(value[0])|;
    if i >= n { EncodedAlphabet(value[1..], i - n); }
  }

  /** `encode_query_component`: only plain bytes and percent signs are left. */
  method EncodeQueryComponent(value: seq<Byte>) returns (encoded: seq<Byte>)
    ensures encoded == Encoded(value)
    ensures forall i :: 0 <= i < |encoded| ==> Plain(encoded[i]) || encoded[i] == '%' as int
  {
    forall i | 0 <= i < |Encoded(value)| ensures Plain(Encoded(value)[i]) || Encoded(value)[i] == '%' as int {
      EncodedAlphabet(value, i);
    }
    encoded := [];
    for i := 0 to |value|
      invariant encoded == Encoded(value[..i])
    {
      var b := value[i];
      assert value[..i + 1] == value[..i] + [b];
      EncodedConcat(value[..i], [b]);
      assert Encoded([b]) == EncodedByte(b) + Encoded([b][1..]) == EncodedByte(b);
      if Unreserved(b) {
        encoded := encoded + [b];
      } else if b == SPACE {
        encoded := encoded + [PERCENT, 0x32, 0x30];
      } else {
        encoded := encoded + [PERCENT, HexDigit(b / 16), HexDigit(b % 16)];
      }
    }
    assert value[..|value|] == value;
  }

  /** A percent sign followed by two hexadecimal digits. */
  predicate IsEscape(s: seq<Byte>) {
    |s| > 2 && s[0] == PERCENT && DigitValue(s[1]).Some? && DigitValue(s[2]).Some?
  }

  /** The code points of the decoded text: each byte becomes the character of that number. */
  function Decoded(s: seq<Byte>): seq<int> {
    if s == [] then []
    else if IsEscape(s) then [DigitValue(s[1]).value * 16 + DigitValue(s[2]).value] + Decoded(s[3..])
    else if s[0] == PLUS then [SPACE] + Decoded(s[1..])
    else [s[0]] + Decoded(s[1..])
  }

  /** One pass of the decoder's loop: the character at position `i` and how far it reaches. */
  function DecodedAt(s: seq<Byte>, i: nat): (int, nat)
    requires i < |s|
  {
    if s[i] == PERCENT && i + 2 < |s| && DigitValue(s[i + 1]).Some? && DigitValue(s[i + 2]).Some?
    then (DigitValue(s[i + 1]).value * 16 + DigitValue(s[i + 2]).value, i + 3)
    else (if s[i] == PLUS then SPACE else s[i], i + 1)
  }

  lemma DecodedFrom(s: seq<Byte>, i: nat)
    requires i < |s|
    ensures DecodedAt(s, i).1 <= |s| && Decoded(s[i..]) == [DecodedAt(s, i).0] + Decoded(s[DecodedAt(s, i).1..])
  {
    var rest := s[i..];
    assert rest[1..] == s[i + 1..];
    if IsEscape(rest) { assert rest[3..] == s[i + 3..]; }
  }

  /** One turn of that loop. */
  method DecodeTurn(s: seq<Byte>, i: nat, out: seq<int>) returns (i': nat, out': seq<int>)
    requires i < |s|
    ensures i' == DecodedAt(s, i).1 && out' == out + [DecodedAt(s, i).0]
  {
    if s[i] == PERCENT && i + 2 < |s| {
      var h, l := DigitValue(s[i + 1]), DigitValue(s[i + 2]);
      if h.Some? && l.Some? {
        return i + 3, out + [h.value * 16 + l.value];
      }
    } else if s[i] == PLUS {
      return i + 1, out + [SPACE];
    }
    return i + 1, out + [s[i]];
  }

  lemma DecodeNext(s: seq<Byte>, i: nat, out: seq<int>)
    requires i < |s| && out + Decoded(s[i..]) == Decoded(s)
    ensures var (c, next) := DecodedAt(s, i); i < next <= |s| && (out + [c]) + Decoded(s[next..]) == Decoded(s)
  {
    DecodedFrom(s, i);
    var (c, next) := DecodedAt(s, i);
    assert out + ([c] + Decoded(s[next..])) == (out + [c]) + Decoded(s[next..]);
  }

  /** `url_decode` */
  method UrlDecode(s: seq<Byte>) returns (out: seq<int>)
    ensures out == Decoded(s)
  {
    out := [];
    var i := 0;
    while i < |s|
      invariant 0 <= i <= |s|
      invariant out + Decoded(s[i..]) == Decoded(s)
    {
      DecodeNext(s, i, out);
      i, out := DecodeTurn(s, i, out);
    }
    assert s[|s|..] == [];
  }

  predicate Hex(c: int) { UpperHex(c) || LowerHex(c) }

  predicate EscapeFirst(s: seq<Byte>) { |s| >= 3 && s[0] == '%' as int && Hex(s[1]) && Hex(s[2]) }

  lemma EscapeIsRead(s: seq<Byte>)
    ensures IsEscape(s) <==> EscapeFirst(s)
  {
    if |s| >= 3 {
      DigitIsRead(s[1]);
      DigitIsRead(s[2]);
    }
  }

  /** What the decoder does with the front of any string: an escape, in either case, becomes its value, a plus sign a
      blank, and everything else stays, a percent sign without two digits included. */
  lemma DecodeFront(s: seq<Byte>)
    requires s != []
    ensures Decoded(s) == if EscapeFirst(s) then [Number(s[1]) * 16 + Number(s[2])] + Decoded(s[3..])
                          else [if s[0] == '+' as int then ' ' as int else s[0]] + Decoded(s[1..])
  {
    EscapeIsRead(s);
    if EscapeFirst(s) {
      DigitIsRead(s[1]);
      DigitIsRead(s[2]);
    }
  }

  lemma DigitIsRead(c: Byte)
    ensures DigitValue(c) == if UpperHex(c) || LowerHex(c) then Some(Number(c)) else None
  {
  }

  lemma DecodeOne(b: Byte, rest: seq<Byte>)
    ensures Decoded(EncodedByte(b) + rest) == [b as int] + Decoded(rest)
  {
    var s := EncodedByte(b) + rest;
    if Unreserved(b) {
      assert s[1..] == rest;
    } else {
      assert s[3..] == rest;
      HexRoundTrip(b / 16);
      HexRoundTrip(b % 16);
    }
  }

  lemma HexRoundTrip(d: int)
    requires 0 <= d < 16
    ensures DigitValue(HexDigit(d)) == Some(d)
  {
  }

  /** Decoding an encoded byte string gives back its bytes. */
  lemma {:induction false} DecodeEncode(value: seq<Byte>)
    ensures Decoded(Encoded(value)) == value
  {
    if value != [] {
      DecodeEncode(value[1..]);
      DecodeOne(value[0], Encoded(value[1..]));
    }
  }

  // ---------------------------------------------------------------- text

  /** The UTF-8 bytes of one code point. */
  function Utf8Char(c: int): seq<Byte>
    requires 0 <= c < 0x11_0000
  {
    if c < 0x80 then [c]
    else if c < 0x800 then [0xC0 + c / 64, 0x80 + c % 64]
    else if c < 0x1_0000 then [0xE0 + c / 4096, 0x80 + c / 64 % 64, 0x80 + c % 64]
    else [0xF0 + c / 262144, 0x80 + c / 4096 % 64, 0x80 + c / 64 % 64, 0x80 + c % 64]
  }

  /** A continuation byte carries six bits. */
  predicate Continues(b: int) { 0x80 <= b < 0xC0 }

  /** The code point that well-formed bytes stand for: section 3 of RFC 3629. */
  function Scalar(u: seq<int>): Option<int> {
    if |u| == 1 && u[0] < 0x80 then Some(u[0])
    else if |u| == 2 && 0xC0 <= u[0] < 0xE0 && Continues(u[1]) then Some((u[0] - 0xC0) * 64 + (u[1] - 0x80))
    else if |u| == 3 && 0xE0 <= u[0] < 0xF0 && Continues(u[1]) && Continues(u[2])
    then Some((u[0] - 0xE0) * 4096 + (u[1] - 0x80) * 64 + (u[2] - 0x80))
    else if |u| == 4 && 0xF0 <= u[0] < 0xF5 && Continues(u[1]) && Continues(u[2]) && Continues(u[3])
    then Some((u[0] - 0xF0) * 262144 + (u[1] - 0x80) * 4096 + (u[2] - 0x80) * 64 + (u[3] - 0x80))
    else None
  }

  /** The bytes of a code point stand for it, and there are as few of them as its range allows. */
  lemma Utf8Meaning(c: int)
    requires 0 <= c < 0x11_0000
    ensures Scalar(Utf8Char(c)) == Some(c)
    ensures |Utf8Char(c)| == if c < 0x80 then 1 else if c < 0x800 then 2 else if c < 0x1_0000 then 3 else 4
  {
    SixBits(c);
    SixBits(c / 64);
    SixBits(c / 4096);
    assert c / 64 / 64 == c / 4096 && c / 4096 / 64 == c / 262144;
  }

  lemma SixBits(c: int)
    requires c >= 0
    ensures c == c / 64 * 64 + c % 64 && Continues(0x80 + c % 64)
  {
  }

  predicate IsText(text: seq<int>) {
    forall i :: 0 <= i < |text| ==> 0 <= text[i] < 0x11_0000
  }

  function Utf8(text: seq<int>): seq<Byte>
    requires IsText(text)
  {
    if text == [] then [] else Utf8Char(text[0]) + Utf8(text[1..])
  }

  predicate IsAscii(text: seq<int>) {
    forall i :: 0 <= i < |text| ==> 0 <= text[i] < 0x80
  }

  lemma {:induction false} Utf8Length(text: seq<int>)
    requires IsText(text)
    ensures |Utf8(text)| >= |text|
    ensures IsAscii(text) ==> Utf8(text) == text
    ensures !IsAscii(text) ==> |Utf8(text)| > |text|
  {
    if text != [] {
      Utf8Length(text[1..]);
      if text[0] < 0x80 {
        assert IsAscii(text) <==> IsAscii(text[1..]) by {
          assert forall i :: 1 <= i < |text| ==> text[i] == text[1..][i - 1];
        }
      }
    }
  }

  /** Text survives encoding and decoding if and only if it is ASCII: the decoder turns each byte of a longer
      UTF-8 sequence into a character of its own. */
  lemma TextRoundTripIffAscii(text: seq<int>)
    requires IsText(text)
    ensures Decoded(Encoded(Utf8(text))) == text <==> IsAscii(text)
  {
    DecodeEncode(Utf8(text));
    Utf8Length(text);
  }

  // ---------------------------------------------------------------- parameters

  function IndexOf(s: seq<Byte>, c: Byte): (k: nat)
    ensures k <= |s| && (k < |s| ==> s[k] == c) && forall i :: 0 <= i < k ==> s[i] != c
  {
    if s == [] || s[0] == c then 0 else
    var k := IndexOf(s[1..], c);
    assert forall i :: 1 <= i < 1 + k ==> s[i] == s[1..][i - 1];
    1 + k
  }

  /** `split(c)`: at least one part. */
  function Split(s: seq<Byte>, c: Byte): (parts: seq<seq<Byte>>)
    ensures parts != []
  {
    var k := IndexOf(s, c);
    if k == |s| then [s] else [s[..k]] + Split(s[k + 1..], c)
  }

  function Join(parts: seq<seq<Byte>>, c: Byte): seq<Byte>
    requires parts != []
  {
    if |parts| == 1 then parts[0] else parts[0] + [c] + Join(parts[1..], c)
  }

  /** Splitting cuts at every separator and loses nothing else. */
  lemma {:induction false} SplitMeaning(s: seq<Byte>, c: Byte)
    ensures Join(Split(s, c), c) == s && forall part :: part in Split(s, c) ==> c !in part
    decreases |s|
  {
    var k := IndexOf(s, c);
    if k < |s| {
      SplitMeaning(s[k + 1..], c);
      assert s == s[..k] + [c] + s[k + 1..];
      assert ([s[..k]] + Split(s[k + 1..], c))[1..] == Split(s[k + 1..], c);
    }
  }

  /** `splitn(2, '=')`: the name, and the value if there is an equals sign. */
  function NameAndValue(param: seq<Byte>): (seq<Byte>, Option<seq<Byte>>) {
    var k := IndexOf(param, EQUALS);
    if k == |param| then (param, None) else (param[..k], Some(param[k + 1..]))
  }

  /** The value of the first parameter with that name; a first one without equals sign hides later ones. */
  function FirstNamed(params: seq<seq<Byte>>, key: seq<Byte>): Option<seq<Byte>> {
    if params == [] then None else
    var (name, value) := NameAndValue(params[0]);
    if name == key then value else FirstNamed(params[1..], key)
  }

  /** `extract_param` */
  method ExtractParam(query: seq<Byte>, key: seq<Byte>) returns (value: Option<seq<Byte>>)
    ensures value == FirstNamed(Split(query, AMPERSAND), key)
  {
    var params := Split(query, AMPERSAND);
    for i := 0 to |params|
      invariant FirstNamed(params[i..], key) == FirstNamed(params, key)
    {
      var (name, v) := NameAndValue(params[i]);
      assert params[i..][1..] == params[i + 1..];
      if name == key {
        return v;
      }
    }
    return None;
  }

  datatype Pair = Pair(name: seq<Byte>, value: seq<Byte>)

  function ParamText(p: Pair): seq<Byte> {
    p.name + [EQUALS] + Encoded(p.value)
  }

  function QueryText(pairs: seq<Pair>): seq<Byte>
    requires pairs != []
  {
    if |pairs| == 1 then ParamText(pairs[0]) else ParamText(pairs[0]) + [AMPERSAND] + QueryText(pairs[1..])
  }

  predicate PlainNames(pairs: seq<Pair>) {
    forall i, j :: 0 <= i < |pairs| && 0 <= j < |pairs[i].name| ==> Unreserved(pairs[i].name[j])
  }

  function FirstValue(pairs: seq<Pair>, key: seq<Byte>): Option<seq<Byte>> {
    if pairs == [] then None
    else if pairs[0].name == key then Some(pairs[0].value)
    else FirstValue(pairs[1..], key)
  }

  lemma {:induction false} EncodedIsPlain(value: seq<Byte>, i: nat)
    requires i < |Encoded(value)|
    ensures Encoded(value)[i] != AMPERSAND
  {
    var n := |EncodedByte(value[0])|;
    if i >= n { EncodedIsPlain(value[1..], i - n); }
  }

  lemma IndexIs(s: seq<Byte>, c: Byte, k: nat)
    requires k <= |s| && (k < |s| ==> s[k] == c) && forall i :: 0 <= i < k ==> s[i] != c
    ensures IndexOf(s, c) == k
  {
    var j := IndexOf(s, c);
  }

  lemma ParamParses(p: Pair)
    requires forall j :: 0 <= j < |p.name| ==> Unreserved(p.name[j])
    ensures NameAndValue(ParamText(p)) == (p.name, Some(Encoded(p.value)))
    ensures IndexOf(ParamText(p), AMPERSAND) == |ParamText(p)|
  {
    var text := ParamText(p);
    IndexIs(text, EQUALS, |p.name|);
    assert text[..|p.name|] == p.name && text[|p.name| + 1..] == Encoded(p.value);
    forall i | 0 <= i < |text| ensures text[i] != AMPERSAND {
      if i > |p.name| { EncodedIsPlain(p.value, i - |p.name| - 1); }
    }
    IndexIs(text, AMPERSAND, |text|);
  }

  lemma SplitFront(text: seq<Byte>, rest: seq<Byte>, c: Byte)
    requires IndexOf(text, c) == |text|
    ensures Split(text + [c] + rest, c) == [text] + Split(rest, c)
  {
    var s := text + [c] + rest;
    IndexIs(s, c, |text|);
    assert s[..|text|] == text && s[|text| + 1..] == rest;
  }

  /** A query built from encoded pairs with unreserved names: the first value of a name, still encoded. */
  lemma {:induction false} ExtractFindsFirst(pairs: seq<Pair>, key: seq<Byte>)
    requires pairs != [] && PlainNames(pairs)
    ensures FirstNamed(Split(QueryText(pairs), AMPERSAND), key) ==
            match FirstValue(pairs, key) case None => None case Some(v) => Some(Encoded(v))
  {
    ParamParses(pairs[0]);
    var text := ParamText(pairs[0]);
    if |pairs| == 1 {
      var single: seq<seq<Byte>> := [text];
      assert Split(text, AMPERSAND) == single && single[1..] == [];
      assert pairs[1..] == [];
    } else {
      assert forall i :: 0 <= i < |pairs| - 1 ==> pairs[1..][i] == pairs[i + 1];
      ExtractFindsFirst(pairs[1..], key);
      SplitFront(text, QueryText(pairs[1..]), AMPERSAND);
      assert ([text] + Split(QueryText(pairs[1..]), AMPERSAND))[1..] == Split(QueryText(pairs[1..]), AMPERSAND);
    }
  }

  /** Extracting and decoding returns the first value of the key, for all values. */
  lemma ExtractThenDecode(pairs: seq<Pair>, key: seq<Byte>)
    requires pairs != [] && PlainNames(pairs)
    ensures var found := FirstNamed(Split(QueryText(pairs), AMPERSAND), key);
            (if found.Some? then Some(Decoded(found.value)) else None) == FirstValue(pairs, key)
  {
    ExtractFindsFirst(pairs, key);
    if FirstValue(pairs, key).Some? { DecodeEncode(FirstValue(pairs, key).value); }
  }
}
