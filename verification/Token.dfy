/**
 Base64url text and the locally signed access token.  (apps/api-gateway/src/auth/local.ts)

 HMAC-SHA256 and JSON are parameters: `Crypto` holds them as functions.
 */
module Token {
  import opened Common
  import opened Options

  type byte = n: int | 0 <= n < 0x100
  /** Six bits, the content of one base64 character. */
  type sextet = n: int | 0 <= n < 0x40

  // ---------- the characters of RFC 4648, sections 4 and 5 ----------

  function CharOf(n: sextet): char {
    if n < 26 then 'A' + n as char
    else if n < 52 then 'a' + (n - 26) as char
    else if n < 62 then '0' + (n - 52) as char
    else if n == 62 then '+' else '/'
  }

  function UrlCharOf(n: sextet): char {
    if n == 62 then '-' else if n == 63 then '_' else CharOf(n)
  }

  function SextetOf(c: char): Option<sextet> {
    if 'A' <= c <= 'Z' then Some((c - 'A') as int)
    else if 'a' <= c <= 'z' then Some((c - 'a') as int + 26)
    else if '0' <= c <= '9' then Some((c - '0') as int + 52)
    else if c == '+' then Some(62)
    else if c == '/' then Some(63)
    else None
  }

  /** What the translations of a single character amount to. */
  lemma CharFacts(n: sextet)
    ensures SextetOf(CharOf(n)) == Some(n)
    ensures CharOf(n) !in {'-', '_', '=', '.'} && UrlCharOf(n) !in {'+', '/', '=', '.'}
    ensures UrlCharOf(n) == if CharOf(n) == '+' then '-' else if CharOf(n) == '/' then '_' else CharOf(n)
    ensures CharOf(n) == if UrlCharOf(n) == '-' then '+' else if UrlCharOf(n) == '_' then '/' else UrlCharOf(n)
  {
  }

  // ---------- bytes and sextets ----------

  function Digit0(b0: int): sextet
    requires 0 <= b0 < 256
  {
    b0 / 4
  }

  function Digit1(b0: int, b1: int): sextet
    requires 0 <= b0 < 256 && 0 <= b1 < 256
  {
    b0 % 4 * 16 + b1 / 16
  }

  function Digit2(b1: int, b2: int): sextet
    requires 0 <= b1 < 256 && 0 <= b2 < 256
  {
    b1 % 16 * 4 + b2 / 64
  }

  function Digit3(b2: int): sextet
    requires 0 <= b2 < 256
  {
    b2 % 64
  }

  function Byte0(d0: int, d1: int): byte
    requires 0 <= d0 < 64 && 0 <= d1 < 64
  {
    d0 * 4 + d1 / 16
  }

  function Byte1(d1: int, d2: int): byte
    requires 0 <= d1 < 64 && 0 <= d2 < 64
  {
    d1 % 16 * 16 + d2 / 4
  }

  function Byte2(d2: int, d3: int): byte
    requires 0 <= d2 < 64 && 0 <= d3 < 64
  {
    d2 % 4 * 64 + d3
  }

  function Sextets(bytes: seq<byte>): (digits: seq<sextet>)
    ensures |digits| == (4 * |bytes| + 2) / 3
  {
    if bytes == [] then []
    else if |bytes| == 1 then [Digit0(bytes[0]), Digit1(bytes[0], 0)]
    else if |bytes| == 2 then [Digit0(bytes[0]), Digit1(bytes[0], bytes[1]), Digit2(bytes[1], 0)]
    else SextetGroup(bytes[0], bytes[1], bytes[2]) + Sextets(bytes[3..])
  }

  function SextetGroup(b0: byte, b1: byte, b2: byte): (group: seq<sextet>)
    ensures |group| == 4
  {
    [Digit0(b0), Digit1(b0, b1), Digit2(b1, b2), Digit3(b2)]
  }

  /** Bits left over behind the last whole byte are dropped. */
  function Bytes(digits: seq<sextet>): (bytes: seq<byte>)
    ensures |bytes| == 3 * |digits| / 4
  {
    if |digits| < 2 then []
    else if |digits| == 2 then [Byte0(digits[0], digits[1])]
    else if |digits| == 3 then [Byte0(digits[0], digits[1]), Byte1(digits[1], digits[2])]
    else ByteGroup(digits[0], digits[1], digits[2], digits[3]) + Bytes(digits[4..])
  }

  function ByteGroup(d0: sextet, d1: sextet, d2: sextet, d3: sextet): (group: seq<byte>)
    ensures |group| == 3
  {
    [Byte0(d0, d1), Byte1(d1, d2), Byte2(d2, d3)]
  }

  /** Four digits hold three bytes, and give them back. */
  lemma BytesBack(b0: byte, b1: byte, b2: byte)
    ensures var d := SextetGroup(b0, b1, b2); ByteGroup(d[0], d[1], d[2], d[3]) == [b0, b1, b2]
  {
    FirstByteBack(b0, b1);
    SecondByteBack(b0, b1, b2);
    ThirdByteBack(b1, b2);
  }

  lemma FirstByteBack(b0: byte, b1: byte)
    ensures Byte0(Digit0(b0), Digit1(b0, b1)) == b0
  {
  }

  lemma SecondByteBack(b0: byte, b1: byte, b2: byte)
    ensures Byte1(Digit1(b0, b1), Digit2(b1, b2)) == b1
  {
    var x: int := b1;
    assert Digit1(b0, b1) % 16 == x / 16;
    assert Digit2(b1, b2) / 4 == x % 16;
  }

  lemma ThirdByteBack(b1: byte, b2: byte)
    ensures Byte2(Digit2(b1, b2), Digit3(b2)) == b2
  {
    var x: int := b2;
    assert Digit2(b1, b2) % 4 == x / 64;
  }

  lemma {:induction false} BytesOfSextets(bytes: seq<byte>)
    ensures Bytes(Sextets(bytes)) == bytes
    decreases |bytes|
  {
    hide Digit0, Digit1, Digit2, Digit3, Byte0, Byte1, Byte2, SextetGroup, ByteGroup;
    if |bytes| >= 3 {
      var group := SextetGroup(bytes[0], bytes[1], bytes[2]);
      BytesOfSextets(bytes[3..]);
      BytesBack(bytes[0], bytes[1], bytes[2]);
      assert Sextets(bytes)[4..] == Sextets(bytes[3..]);
      assert bytes == [bytes[0], bytes[1], bytes[2]] + bytes[3..];
    } else if |bytes| == 2 {
      FirstByteBack(bytes[0], bytes[1]);
      SecondByteBack(bytes[0], bytes[1], 0);
      assert bytes == [bytes[0], bytes[1]];
    } else if |bytes| == 1 {
      FirstByteBack(bytes[0], 0);
      assert bytes == [bytes[0]];
    }
  }

  /** No single digit is left over and the left-over bits are zero. */
  predicate Canonical(digits: seq<sextet>) {
    && |digits| % 4 != 1
    && (|digits| % 4 == 2 ==> digits[|digits| - 1] % 16 == 0)
    && (|digits| % 4 == 3 ==> digits[|digits| - 1] % 4 == 0)
  }

  /** The bytes of these digits have these digits. */
  predicate ComeBack(digits: seq<sextet>) {
    Sextets(Bytes(digits)) == digits
  }

  lemma FirstDigitsBack(d0: sextet, d1: sextet, d2: sextet)
    ensures Digit0(Byte0(d0, d1)) == d0
    ensures Digit1(Byte0(d0, d1), Byte1(d1, d2)) == d1
    ensures Digit1(Byte0(d0, d1), 0) == d1 - d1 % 16
  {
    var x: int := d1;
    assert Byte0(d0, d1) % 4 == x / 16;
  }

  lemma LastDigitsBack(d1: sextet, d2: sextet, d3: sextet)
    ensures Digit2(Byte1(d1, d2), Byte2(d2, d3)) == d2
    ensures Digit3(Byte2(d2, d3)) == d3
    ensures Digit2(Byte1(d1, d2), 0) == d2 - d2 % 4
  {
    var x: int := d2;
    assert Byte1(d1, d2) % 16 == x / 4;
  }

  /** Three bytes hold four digits, and give them back. */
  lemma DigitsBack(d0: sextet, d1: sextet, d2: sextet, d3: sextet)
    ensures var b := ByteGroup(d0, d1, d2, d3); SextetGroup(b[0], b[1], b[2]) == [d0, d1, d2, d3]
  {
    hide Digit0, Digit1, Digit2, Digit3, Byte0, Byte1, Byte2;
    FirstDigitsBack(d0, d1, d2);
    LastDigitsBack(d1, d2, d3);
  }

  lemma {:induction false} SextetsOfBytes(digits: seq<sextet>)
    ensures ComeBack(digits) <==> Canonical(digits)
    decreases |digits|
  {
    if |digits| >= 4 {
      hide SextetGroup, ByteGroup, Canonical;
      SextetsOfBytes(digits[4..]);
      DigitsBack(digits[0], digits[1], digits[2], digits[3]);
      CanonicalRest(digits);
      assert Bytes(digits)[3..] == Bytes(digits[4..]);
      assert digits == [digits[0], digits[1], digits[2], digits[3]] + digits[4..];
    } else {
      ShortAgain(digits);
    }
  }

  lemma CanonicalRest(digits: seq<sextet>)
    requires |digits| >= 4
    ensures Canonical(digits[4..]) == Canonical(digits)
  {
    var rest := digits[4..];
    assert rest != [] ==> rest[|rest| - 1] == digits[|digits| - 1];
  }

  lemma ShortAgain(digits: seq<sextet>)
    requires |digits| < 4
    ensures ComeBack(digits) <==> Canonical(digits)
  {
    hide *;
    if |digits| < 2 {
      FewAgain(digits);
    } else if |digits| == 2 {
      var d0, d1 := digits[0], digits[1];
      assert digits == [d0, d1];
      TwoAgain(d0, d1);
    } else {
      var d0, d1, d2 := digits[0], digits[1], digits[2];
      assert digits == [d0, d1, d2];
      ThreeAgain(d0, d1, d2);
    }
  }

  lemma FewAgain(digits: seq<sextet>)
    requires |digits| < 2
    ensures ComeBack(digits) <==> Canonical(digits)
  {
    assert Bytes(digits) == [];
    assert Sextets([]) == [];
  }

  lemma TwoAgain(d0: sextet, d1: sextet)
    ensures ComeBack([d0, d1]) <==> Canonical([d0, d1])
  {
    hide Digit0, Digit1, Byte0;
    FirstDigitsBack(d0, d1, 0);
    var again := Sextets([Byte0(d0, d1)]);
    assert again == [d0, Digit1(Byte0(d0, d1), 0)];
  }

  lemma ThreeAgain(d0: sextet, d1: sextet, d2: sextet)
    ensures ComeBack([d0, d1, d2]) <==> Canonical([d0, d1, d2])
  {
    hide Digit0, Digit1, Digit2, Byte0, Byte1;
    FirstDigitsBack(d0, d1, d2);
    LastDigitsBack(d1, d2, 0);
    var again := Sextets([Byte0(d0, d1), Byte1(d1, d2)]);
    assert again == [d0, d1, Digit2(Byte1(d1, d2), 0)];
  }

  // ---------- text ----------

  function Chars(digits: seq<sextet>, url: bool): (text: string)
    ensures |text| == |digits|
    ensures forall i :: 0 <= i < |text| ==> text[i] == if url then UrlCharOf(digits[i]) else CharOf(digits[i])
  {
    if digits == [] then "" else [if url then UrlCharOf(digits[0]) else CharOf(digits[0])] + Chars(digits[1..], url)
  }

  /** `buffer.toString('base64')`. */
  function ToBase64(bytes: seq<byte>): string {
    Chars(Sextets(bytes), false) + Repeat('=', (3 - |bytes| % 3) % 3)
  }

  function Replace(text: string, c: char, d: char): (r: string)
    ensures |r| == |text|
    ensures forall i :: 0 <= i < |r| ==> r[i] == if text[i] == c then d else text[i]
  {
    if text == "" then "" else [if text[0] == c then d else text[0]] + Replace(text[1..], c, d)
  }

  /** `replace(/=+$/g, '')`. */
  function StripPadding(text: string): (r: string)
    ensures r <= text
    ensures r != "" ==> r[|r| - 1] != '='
    ensures forall i :: |r| <= i < |text| ==> text[i] == '='
  {
    if text != "" && text[|text| - 1] == '=' then StripPadding(text[..|text| - 1]) else text
  }

  function Base64UrlEncode(bytes: seq<byte>): string {
    StripPadding(Replace(Replace(ToBase64(bytes), '+', '-'), '/', '_'))
  }

  function Digits(text: string): (r: Option<seq<sextet>>)
    ensures r.Some? ==> |r.value| == |text| && forall i :: 0 <= i < |text| ==> SextetOf(text[i]) == Some(r.value[i])
    ensures r.None? ==> exists i :: 0 <= i < |text| && SextetOf(text[i]) == None
  {
    if text == "" then Some([])
    else if SextetOf(text[0]).None? then None
    else
      var rest := Digits(text[1..]);
      if rest.None? then None else Some([SextetOf(text[0]).value] + rest.value)
  }

  /** `Buffer.from(text, 'base64')` for text of the alphabet and closing padding; other text is not modelled. */
  function FromBase64(text: string): Option<seq<byte>> {
    var digits := Digits(StripPadding(text));
    if digits.None? then None else Some(Bytes(digits.value))
  }

  function Base64UrlDecode(value: string): Option<seq<byte>> {
    var normalized := Replace(Replace(value, '-', '+'), '_', '/');
    var padding := if |normalized| % 4 == 0 then "" else Repeat('=', 4 - |normalized| % 4);
    FromBase64(normalized + padding)
  }

  // ---------- round trips ----------

  lemma {:induction false} StripRepeat(text: string, n: nat)
    requires text != "" ==> text[|text| - 1] != '='
    ensures StripPadding(text + Repeat('=', n)) == text
  {
    var s := text + Repeat('=', n);
    if n == 0 {
      assert s == text;
    } else {
      assert s[..|s| - 1] == text + Repeat('=', n - 1);
      StripRepeat(text, n - 1);
    }
  }

  /** The two replacements turn one alphabet into the other and leave padding alone. */
  lemma ToUrl(digits: seq<sextet>, pad: nat)
    ensures Replace(Replace(Chars(digits, false) + Repeat('=', pad), '+', '-'), '/', '_')
         == Chars(digits, true) + Repeat('=', pad)
  {
    hide CharOf, UrlCharOf, Chars, Repeat, Replace;
    var std, url := Chars(digits, false) + Repeat('=', pad), Chars(digits, true) + Repeat('=', pad);
    var replaced := Replace(Replace(std, '+', '-'), '/', '_');
    forall i | 0 <= i < |url|
      ensures replaced[i] == url[i]
    {
      if i < |digits| {
        CharFacts(digits[i]);
      }
    }
  }

  lemma FromUrl(digits: seq<sextet>)
    ensures Replace(Replace(Chars(digits, true), '-', '+'), '_', '/') == Chars(digits, false)
  {
    hide CharOf, UrlCharOf, Chars, Replace;
    var std := Chars(digits, false);
    var replaced := Replace(Replace(Chars(digits, true), '-', '+'), '_', '/');
    forall i | 0 <= i < |digits|
      ensures replaced[i] == std[i]
    {
      CharFacts(digits[i]);
    }
  }

  lemma NoPaddingInChars(digits: seq<sextet>, url: bool)
    ensures '=' !in Chars(digits, url) && (url ==> '.' !in Chars(digits, url))
  {
    hide CharOf, UrlCharOf, Chars;
    forall i | 0 <= i < |digits|
      ensures Chars(digits, url)[i] != '=' && (url ==> Chars(digits, url)[i] != '.')
    {
      CharFacts(digits[i]);
    }
  }

  lemma DigitsOfChars(digits: seq<sextet>)
    ensures Digits(Chars(digits, false)) == Some(digits)
  {
    hide CharOf, SextetOf, Chars, Digits;
    var text := Chars(digits, false);
    forall i | 0 <= i < |digits|
      ensures SextetOf(text[i]) == Some(digits[i])
    {
      CharFacts(digits[i]);
    }
    assert Digits(text).Some?;
    assert Digits(text).value == digits;
  }

  /** Encoding writes exactly the digits, in the URL alphabet and without padding. */
  lemma EncodesDigits(bytes: seq<byte>)
    ensures Base64UrlEncode(bytes) == Chars(Sextets(bytes), true)
  {
    hide Sextets, Chars, Repeat, Replace, StripPadding;
    var pad := (3 - |bytes| % 3) % 3;
    ToUrl(Sextets(bytes), pad);
    NoPaddingInChars(Sextets(bytes), true);
    StripRepeat(Chars(Sextets(bytes), true), pad);
  }

  lemma DecodesDigits(digits: seq<sextet>)
    ensures Base64UrlDecode(Chars(digits, true)) == Some(Bytes(digits))
  {
    hide Bytes, Chars, Repeat, Replace, StripPadding, Digits;
    var normalized := Chars(digits, false);
    FromUrl(digits);
    var n := if |normalized| % 4 == 0 then 0 else 4 - |normalized| % 4;
    NoPaddingInChars(digits, false);
    StripRepeat(normalized, n);
    NoRepeat('=');
    DigitsOfChars(digits);
  }

  lemma NoRepeat(c: char)
    ensures Repeat(c, 0) == ""
  {
  }

  /** Decoding undoes encoding on every byte string, although the padding was cut off. */
  lemma DecodeEncode(bytes: seq<byte>)
    ensures Base64UrlDecode(Base64UrlEncode(bytes)) == Some(bytes)
  {
    hide *;
    EncodesDigits(bytes);
    DecodesDigits(Sextets(bytes));
    BytesOfSextets(bytes);
  }

  /**
   Encoding undoes decoding on text of the URL alphabet exactly when the text is canonical:
   otherwise the dropped bits make two texts decode to the same bytes.
   */
  lemma EncodeDecode(digits: seq<sextet>)
    ensures var text := Chars(digits, true);
      var bytes := Base64UrlDecode(text);
      bytes.Some? && (Base64UrlEncode(bytes.value) == text <==> Canonical(digits))
  {
    hide Sextets, Bytes, Base64UrlEncode, Base64UrlDecode, Canonical, UrlCharOf, CharOf;
    DecodesDigits(digits);
    EncodesDigits(Bytes(digits));
    SextetsOfBytes(digits);
    var again := Sextets(Bytes(digits));
    if Chars(again, true) == Chars(digits, true) {
      SameChars(again, digits);
    }
  }

  lemma SameChars(a: seq<sextet>, b: seq<sextet>)
    requires Chars(a, true) == Chars(b, true)
    ensures a == b
  {
    hide Chars, Digits, CharOf, UrlCharOf;
    FromUrl(a);
    FromUrl(b);
    DigitsOfChars(a);
    DigitsOfChars(b);
  }

  lemma EncodedPart(bytes: seq<byte>)
    ensures '.' !in Base64UrlEncode(bytes) && '=' !in Base64UrlEncode(bytes)
    ensures bytes != [] ==> Base64UrlEncode(bytes) != ""
  {
    hide Base64UrlEncode, Chars;
    EncodesDigits(bytes);
    NoPaddingInChars(Sextets(bytes), true);
  }

  // ---------- tokens ----------

  datatype Payload = Payload(sub: string, iat: int, exp: int)

  /** A member of a parsed JSON object; a missing one is `Other`. */
  datatype Member = Text(text: string) | Number(number: int) | Other
  datatype Json = Object(sub: Member, typ: Member, iat: Member, exp: Member) | NotAnObject

  datatype Crypto = Crypto(
    digest: (string, string) -> seq<byte>,
    header: seq<byte>,
    stringify: Payload -> seq<byte>,
    parse: seq<byte> -> Option<Json>)

  const TOKEN_TYPE := "wheelers.local.auth"
  const TOKEN_TTL_SECONDS := 60 * 60 * 24 * 30

  function AsJson(p: Payload): Json {
    Object(Text(p.sub), Text(TOKEN_TYPE), Number(p.iat), Number(p.exp))
  }

  /** What is assumed of HMAC-SHA256 and of JSON. */
  ghost predicate Lawful(crypto: Crypto) {
    && (forall key, text :: |crypto.digest(key, text)| == 32)
    && crypto.header != []
    && (forall p :: crypto.stringify(p) != [] && crypto.parse(crypto.stringify(p)) == Some(AsJson(p)))
  }

  datatype Failure =
    | SecretMissing | BadFormat | BadSignature | Undecodable | NotJson | InvalidPayload
    | MissingSubject | WrongType | InvalidExpiry | Expired

  datatype Verdict = Verified(payload: Payload) | Rejected(failure: Failure)

  predicate GoodSecret(secret: Option<string>) {
    secret.Some? && |secret.value| >= 32
  }

  function Sign(crypto: Crypto, input: string, secret: string): string {
    Base64UrlEncode(crypto.digest(secret, input))
  }

  /** None: the secret is refused. */
  function CreateLocalAccessToken(crypto: Crypto, userId: string, secret: Option<string>, now: int): Option<string> {
    if !GoodSecret(secret) then None
    else
      var payload := Payload(userId, now, now + TOKEN_TTL_SECONDS);
      var unsigned := Base64UrlEncode(crypto.header) + "." + Base64UrlEncode(crypto.stringify(payload));
      Some(unsigned + "." + Sign(crypto, unsigned, secret.value))
  }

  /** `token.split('.')`. */
  function Split(token: string): (parts: seq<string>)
    ensures parts != []
  {
    if token == "" then [""]
    else if token[0] == '.' then [""] + Split(token[1..])
    else
      var rest := Split(token[1..]);
      [[token[0]] + rest[0]] + rest[1..]
  }

  function ParsePayload(json: Json): Verdict {
    if json.NotAnObject? then Rejected(InvalidPayload)
    else if !json.sub.Text? || json.sub.text == "" then Rejected(MissingSubject)
    else if json.typ != Text(TOKEN_TYPE) then Rejected(WrongType)
    else if !json.iat.Number? || !json.exp.Number? then Rejected(InvalidExpiry)
    else Verified(Payload(json.sub.text, json.iat.number, json.exp.number))
  }

  function VerifyLocalAccessToken(crypto: Crypto, token: string, secret: Option<string>, now: int): Verdict {
    if !GoodSecret(secret) then Rejected(SecretMissing)
    else
      var parts := Split(token);
      if |parts| < 3 || parts[0] == "" || parts[1] == "" || parts[2] == "" then Rejected(BadFormat)
      else if Sign(crypto, parts[0] + "." + parts[1], secret.value) != parts[2] then Rejected(BadSignature)
      else
        var document := Base64UrlDecode(parts[1]);
        if document.None? then Rejected(Undecodable)
        else
          var json := crypto.parse(document.value);
          if json.None? then Rejected(NotJson)
          else
            var parsed := ParsePayload(json.value);
            if parsed.Verified? && parsed.payload.exp <= now then Rejected(Expired) else parsed
  }

  lemma {:induction false} SplitAtDot(part: string, rest: string)
    requires '.' !in part
    ensures Split(part + "." + rest) == [part] + Split(rest)
  {
    var token := part + "." + rest;
    if part == "" {
      assert token == "." + rest && token[1..] == rest;
    } else {
      assert token[1..] == part[1..] + "." + rest;
      SplitAtDot(part[1..], rest);
      assert part == [part[0]] + part[1..];
    }
  }

  lemma {:induction false} SplitWhole(part: string)
    requires '.' !in part
    ensures Split(part) == [part]
  {
    if part != "" {
      SplitWhole(part[1..]);
      assert part == [part[0]] + part[1..];
    }
  }

  /** A token's three parts come back; text behind a further dot only adds parts. */
  lemma SplitToken(header: string, payload: string, signature: string, extra: string)
    requires '.' !in header && '.' !in payload && '.' !in signature
    ensures Split(header + "." + payload + "." + signature) == [header, payload, signature]
    ensures Split(header + "." + payload + "." + signature + "." + extra) == [header, payload, signature] + Split(extra)
  {
    hide Split;
    SplitWhole(signature);
    SplitAtDot(payload, signature);
    SplitAtDot(header, payload + "." + signature);
    assert header + "." + (payload + "." + signature) == header + "." + payload + "." + signature;
    SplitAtDot(signature, extra);
    SplitAtDot(payload, signature + "." + extra);
    SplitAtDot(header, payload + "." + (signature + "." + extra));
    assert header + "." + (payload + "." + (signature + "." + extra))
        == header + "." + payload + "." + signature + "." + extra;
  }

  /**
   A created token verifies to the user it was created for at exactly the times before its expiry,
   if the user id is not empty; parts appended to it do not matter.
   */
  lemma CreatedVerifies(crypto: Crypto, userId: string, secret: Option<string>, issued: int, now: int, extra: string)
    requires Lawful(crypto)
    ensures var created := CreateLocalAccessToken(crypto, userId, secret, issued);
      && (created.Some? <==> secret.Some? && |secret.value| >= 32)
      && (created.Some? ==>
        var verdict := VerifyLocalAccessToken(crypto, created.value, secret, now);
        && (verdict == Verified(Payload(userId, issued, issued + TOKEN_TTL_SECONDS))
            <==> userId != "" && now < issued + 2592000)
        && (verdict == Rejected(MissingSubject) <==> userId == "")
        && (verdict == Rejected(Expired) <==> userId != "" && issued + 2592000 <= now)
        && VerifyLocalAccessToken(crypto, created.value + "." + extra, secret, now) == verdict)
  {
    hide Base64UrlEncode, Base64UrlDecode, Split;
    if GoodSecret(secret) {
      var payload := Payload(userId, issued, issued + TOKEN_TTL_SECONDS);
      var document := crypto.stringify(payload);
      var h, p := Base64UrlEncode(crypto.header), Base64UrlEncode(document);
      var digest := crypto.digest(secret.value, h + "." + p);
      EncodedPart(crypto.header);
      EncodedPart(document);
      EncodedPart(digest);
      SplitToken(h, p, Base64UrlEncode(digest), extra);
      DecodeEncode(document);
    }
  }

  /**
   A correctly signed token, whatever document it carries, verifies exactly if the document is an object that names
   a user, has the type "wheelers.local.auth" and a numeric issue time, and its numeric expiry lies ahead; a document
   that names a user but has another type is rejected for that.
   */
  lemma SignedDocument(crypto: Crypto, header: seq<byte>, document: seq<byte>, secret: string, now: int)
    requires |secret| >= 32 && header != [] && document != []
    requires forall text :: crypto.digest(secret, text) != []
    ensures var unsigned := Base64UrlEncode(header) + "." + Base64UrlEncode(document);
      var token := unsigned + "." + Base64UrlEncode(crypto.digest(secret, unsigned));
      var verdict := VerifyLocalAccessToken(crypto, token, Some(secret), now);
      match crypto.parse(document)
      case None => verdict == Rejected(NotJson)
      case Some(NotAnObject) => verdict == Rejected(InvalidPayload)
      case Some(Object(sub, typ, iat, exp)) =>
        && (verdict.Verified? <==>
              sub.Text? && sub.text != "" && typ == Text("wheelers.local.auth") && iat.Number? && exp.Number? && now < exp.number)
        && (verdict.Verified? ==> verdict.payload == Payload(sub.text, iat.number, exp.number))
        && (verdict == Rejected(MissingSubject) <==> !sub.Text? || sub.text == "")
        && (verdict == Rejected(WrongType) <==> sub.Text? && sub.text != "" && typ != Text("wheelers.local.auth"))
        && (verdict == Rejected(InvalidExpiry) <==>
              sub.Text? && sub.text != "" && typ == Text("wheelers.local.auth") && (!iat.Number? || !exp.Number?))
  {
    hide Base64UrlEncode, Base64UrlDecode, Split;
    var h, p := Base64UrlEncode(header), Base64UrlEncode(document);
    var digest := crypto.digest(secret, h + "." + p);
    EncodedPart(header);
    EncodedPart(document);
    EncodedPart(digest);
    SplitToken(h, p, Base64UrlEncode(digest), "");
    DecodeEncode(document);
  }

  /** What is refused before any signature is compared. */
  lemma RefusedUnread(crypto: Crypto, token: string, secret: Option<string>, now: int)
    ensures var verdict, parts := VerifyLocalAccessToken(crypto, token, secret, now), Split(token);
      && (verdict == Rejected(SecretMissing) <==> secret.None? || |secret.value| < 32)
      && (verdict == Rejected(BadFormat) <==>
            && secret.Some? && |secret.value| >= 32
            && (|parts| < 3 || parts[0] == "" || parts[1] == "" || parts[2] == ""))
  {
    hide Base64UrlEncode, Base64UrlDecode, Split;
  }

  /** Two different digests never print as the same signature. */
  lemma EncodeInjective(a: seq<byte>, b: seq<byte>)
    requires Base64UrlEncode(a) == Base64UrlEncode(b)
    ensures a == b
  {
    DecodeEncode(a);
    DecodeEncode(b);
  }

  /**
   Putting any other header and payload in front of a created token's signature, or verifying it
   under another secret, is rejected unless the HMAC of what is now signed is the old one.
   */
  lemma SignatureBinds(crypto: Crypto, userId: string, secret: Option<string>, issued: int,
                       header: string, payload: string, other: Option<string>, now: int)
    requires Lawful(crypto) && GoodSecret(secret) && GoodSecret(other)
    requires header != "" && payload != "" && '.' !in header && '.' !in payload
    ensures var parts := Split(CreateLocalAccessToken(crypto, userId, secret, issued).value);
      && |parts| == 3
      && var forged := VerifyLocalAccessToken(crypto, header + "." + payload + "." + parts[2], other, now);
        var signed := crypto.digest(secret.value, parts[0] + "." + parts[1]);
        forged == Rejected(BadSignature) <==> crypto.digest(other.value, header + "." + payload) != signed
  {
    hide Base64UrlEncode, Base64UrlDecode, Split, ParsePayload;
    var document := crypto.stringify(Payload(userId, issued, issued + TOKEN_TTL_SECONDS));
    var h, p := Base64UrlEncode(crypto.header), Base64UrlEncode(document);
    var digest := crypto.digest(secret.value, h + "." + p);
    EncodedPart(crypto.header);
    EncodedPart(document);
    EncodedPart(digest);
    SplitToken(h, p, Base64UrlEncode(digest), "");
    SplitToken(header, payload, Base64UrlEncode(digest), "");
    var now := crypto.digest(other.value, header + "." + payload);
    if Base64UrlEncode(now) == Base64UrlEncode(digest) {
      EncodeInjective(now, digest);
    }
    ParseNeverSigns();
  }

  lemma ParseNeverSigns()
    ensures forall json :: ParsePayload(json) != Rejected(BadSignature)
  {
  }
}
