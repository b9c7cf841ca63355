/** The printed form of an application key and the parsers that read it back:
    the server's and the controller's key-ID parsers and the Authorization header. */
module Token {
  import opened Text

  type byte = x: int | 0 <= x < 256

  // ---- Hexadecimal, section 8 of RFC 4648 ----

  function HexDigit(n: nat): (c: char)
    requires n < 16
    ensures HexValue(c) == Some(n)
    ensures c != '_' && BearerChar(c)
  {
    if n < 10 then (n + 48) as char else (n + 87) as char
  }

  function HexValue(c: char): Option<nat> {
    if '0' <= c <= '9' then Some(c as int - 48)
    else if 'a' <= c <= 'f' then Some(c as int - 87)
    else if 'A' <= c <= 'F' then Some(c as int - 55)
    else None
  }

  /** The alphabet of the encoder. */
  lemma HexAlphabet(n: nat)
    requires n < 16
    ensures HexDigit(n) == ['0', '1', '2', '3', '4', '5', '6', '7', '8', '9', 'a', 'b', 'c', 'd', 'e', 'f'][n]
  {
  }

  /** hex.EncodeToString */
  function HexEncode(b: seq<byte>): string {
    if b == [] then "" else [HexDigit(b[0] / 16), HexDigit(b[0] % 16)] + HexEncode(b[1..])
  }

  /** hex.DecodeString; None is its error return. */
  function HexDecode(s: string): Option<seq<byte>> {
    if s == "" then Some([])
    else if |s| == 1 then None
    else
      match (HexValue(s[0]), HexValue(s[1]), HexDecode(s[2..]))
      case (Some(h), Some(l), Some(rest)) => if h < 16 && l < 16 then Some([16 * h + l] + rest) else None
      case _ => None
  }

  /** Two digits stand for each byte, the high one first. */
  lemma {:induction false} HexDigits(b: seq<byte>, i: nat)
    requires i < |b|
    ensures |HexEncode(b)| == 2 * |b|
    ensures HexEncode(b)[2 * i] == HexDigit(b[i] / 16) && HexEncode(b)[2 * i + 1] == HexDigit(b[i] % 16)
    decreases b
  {
    HexRoundTrip(b);
    if i > 0 {
      HexDigits(b[1..], i - 1);
    }
  }

  lemma {:induction false} HexRoundTrip(b: seq<byte>)
    ensures HexDecode(HexEncode(b)) == Some(b)
    ensures |HexEncode(b)| == 2 * |b|
    ensures forall c :: c in HexEncode(b) ==> c != '_' && BearerChar(c)
  {
    if b != [] {
      HexRoundTrip(b[1..]);
      var s := HexEncode(b);
      assert s[2..] == HexEncode(b[1..]);
      assert [16 * (b[0] / 16) + b[0] % 16] + b[1..] == b;
    }
  }

  // ---- base64url without padding, sections 5 and 3.2 of RFC 4648 ----

  function B64Char(n: nat): (c: char)
    requires n < 64
    ensures B64Value(c) == Some(n)
    ensures BearerChar(c)
  {
    if n < 26 then (n + 65) as char
    else if n < 52 then (n + 71) as char
    else if n < 62 then (n - 4) as char
    else if n == 62 then '-' else '_'
  }

  function B64Value(c: char): (v: Option<nat>)
    ensures v.Some? ==> v.value < 64
  {
    if 'A' <= c <= 'Z' then Some(c as int - 65)
    else if 'a' <= c <= 'z' then Some(c as int - 71)
    else if '0' <= c <= '9' then Some(c as int + 4)
    else if c == '-' then Some(62)
    else if c == '_' then Some(63)
    else None
  }

  /** Table 2 of RFC 4648. */
  lemma B64Alphabet(n: nat)
    requires n < 64
    ensures n < 26 ==> B64Char(n) as int == 'A' as int + n
    ensures 26 <= n < 52 ==> B64Char(n) as int == 'a' as int + (n - 26)
    ensures 52 <= n < 62 ==> B64Char(n) as int == '0' as int + (n - 52)
    ensures n == 62 ==> B64Char(n) == '-'
    ensures n == 63 ==> B64Char(n) == '_'
  {
  }

  /** The sextets of a group are its 24 bits in order. */
  lemma SextetsInOrder(x: byte, y: byte, z: byte)
    ensures var q := Sextets(x, y, z); ((q.0 * 64 + q.1) * 64 + q.2) * 64 + q.3 == (x * 256 + y) * 256 + z
  {
  }

  /** The four sextets of three bytes. */
  function Sextets(x: byte, y: byte, z: byte): (q: (nat, nat, nat, nat))
    ensures q.0 < 64 && q.1 < 64 && q.2 < 64 && q.3 < 64
  {
    (x / 4, x % 4 * 16 + y / 16, y % 16 * 4 + z / 64, z % 64)
  }

  /** The three bytes of four sextets. */
  function Quantum(v0: nat, v1: nat, v2: nat, v3: nat): (b: seq<byte>)
    requires v0 < 64 && v1 < 64 && v2 < 64 && v3 < 64
    ensures |b| == 3
  {
    [v0 * 4 + v1 / 16, v1 % 16 * 16 + v2 / 4, v2 % 4 * 64 + v3]
  }

  /** The four characters of three bytes. */
  function Quad(x: byte, y: byte, z: byte): (r: string)
    ensures |r| == 4
  {
    var q := Sextets(x, y, z);
    [B64Char(q.0), B64Char(q.1), B64Char(q.2), B64Char(q.3)]
  }

  /** The characters of the last one or two bytes, without padding. */
  function EncodeTail(b: seq<byte>): (r: string)
    requires |b| < 3
    ensures |r| < 4
  {
    if |b| == 0 then ""
    else if |b| == 1 then Quad(b[0], 0, 0)[..2]
    else Quad(b[0], b[1], 0)[..3]
  }

  /** base64.RawURLEncoding.EncodeToString */
  function B64Encode(b: seq<byte>): string {
    if |b| < 3 then EncodeTail(b) else Quad(b[0], b[1], b[2]) + B64Encode(b[3..])
  }

  function DecodeQuad(c0: char, c1: char, c2: char, c3: char): (r: Option<seq<byte>>)
    ensures r.Some? ==> |r.value| == 3
  {
    match (B64Value(c0), B64Value(c1), B64Value(c2), B64Value(c3))
    case (Some(v0), Some(v1), Some(v2), Some(v3)) => Some(Quantum(v0, v1, v2, v3))
    case _ => None
  }

  /** The last group when it is short: two or three characters, which stand for one or two bytes. */
  function DecodeTail(s: string): Option<seq<byte>>
    requires |s| < 4
  {
    if |s| == 0 then Some([])
    else if |s| == 1 then None
    else
      match DecodeQuad(s[0], s[1], if |s| == 3 then s[2] else B64Char(0), B64Char(0))
      case None => None
      case Some(b) => Some(b[..|s| - 1])
  }

  /** The decoder the RFC describes for that alphabet, with the padding left off. */
  function B64Decode(s: string): Option<seq<byte>> {
    if |s| < 4 then DecodeTail(s)
    else
      match (DecodeQuad(s[0], s[1], s[2], s[3]), B64Decode(s[4..]))
      case (Some(b), Some(rest)) => Some(b + rest)
      case _ => None
  }

  lemma B64CharInverse(n: nat)
    requires n < 64
    ensures B64Value(B64Char(n)) == Some(n) && BearerChar(B64Char(n))
  {
  }

  lemma QuantumInverse(x: byte, y: byte, z: byte)
    ensures var q := Sextets(x, y, z); Quantum(q.0, q.1, q.2, q.3) == [x, y, z]
  {
  }

  lemma QuadInverse(x: byte, y: byte, z: byte)
    ensures var r := Quad(x, y, z); DecodeQuad(r[0], r[1], r[2], r[3]) == Some([x, y, z])
    ensures forall c :: c in Quad(x, y, z) ==> BearerChar(c)
  {
    var q := Sextets(x, y, z);
    B64CharInverse(q.0);
    B64CharInverse(q.1);
    B64CharInverse(q.2);
    B64CharInverse(q.3);
    QuantumInverse(x, y, z);
  }

  lemma TailInverse(b: seq<byte>)
    requires |b| < 3
    ensures DecodeTail(EncodeTail(b)) == Some(b)
    ensures forall c :: c in EncodeTail(b) ==> BearerChar(c)
  {
    if |b| == 1 {
      QuadInverse(b[0], 0, 0);
      assert b == [b[0], 0, 0][..1];
    } else if |b| == 2 {
      QuadInverse(b[0], b[1], 0);
      assert b == [b[0], b[1], 0][..2];
    }
  }

  lemma {:induction false} B64Chars(b: seq<byte>)
    ensures b != [] ==> B64Encode(b) != ""
    ensures forall c :: c in B64Encode(b) ==> BearerChar(c)
    decreases b
  {
    if |b| < 3 {
      TailInverse(b);
    } else {
      QuadInverse(b[0], b[1], b[2]);
      B64Chars(b[3..]);
    }
  }

  lemma DecodeCons(x: byte, y: byte, z: byte, tail: string)
    ensures B64Decode(Quad(x, y, z) + tail) ==
            match B64Decode(tail) case Some(rest) => Some([x, y, z] + rest) case None => None
  {
    assert (Quad(x, y, z) + tail)[4..] == tail;
    QuadInverse(x, y, z);
  }

  lemma EncodeCons(x: byte, y: byte, z: byte, rest: seq<byte>)
    ensures B64Encode([x, y, z] + rest) == Quad(x, y, z) + B64Encode(rest)
  {
    assert ([x, y, z] + rest)[3..] == rest;
  }

  lemma RoundTripCons(x: byte, y: byte, z: byte, rest: seq<byte>)
    requires B64Decode(B64Encode(rest)) == Some(rest)
    ensures B64Decode(B64Encode([x, y, z] + rest)) == Some([x, y, z] + rest)
  {
    EncodeCons(x, y, z, rest);
    DecodeCons(x, y, z, B64Encode(rest));
  }

  lemma {:induction false} B64RoundTrip(b: seq<byte>)
    ensures B64Decode(B64Encode(b)) == Some(b)
    decreases |b|
  {
    if |b| < 3 {
      TailInverse(b);
    } else {
      var rest := b[3..];
      assert b == [b[0], b[1], b[2]] + rest;
      B64RoundTrip(rest);
      RoundTripCons(b[0], b[1], b[2], rest);
    }
  }

  // ---- Tokens ----

  function KeyName(id: seq<byte>): string {
    "k_" + HexEncode(id)
  }

  /** The token IssueKey prints for the random ID and secret it drew. */
  function Print(id: seq<byte>, secret: seq<byte>): string {
    "cqk_" + KeyName(id) + "_" + B64Encode(secret)
  }

  /** keyID of the server's store. */
  function StoreKeyId(token: string): Option<string> {
    var parts := SplitN(token, '_', 4);
    if |parts| != 4 || parts[0] != "cqk" || parts[1] != "k" || parts[2] == "" || parts[3] == "" then None
    else Some("k_" + parts[2])
  }

  /** keyID of the controller; the empty string is its failure. */
  function ControllerKeyId(token: string): string {
    var parts := SplitN(token, '_', 4);
    if |parts| != 4 || parts[0] != "cqk" || parts[1] != "k" then ""
    else "k_" + parts[2]
  }

  /** The text cqk_k_<mid>_<rest>. */
  function Shape(mid: string, rest: string): string {
    "cqk" + ['_'] + ("k" + ['_'] + (mid + ['_'] + rest))
  }

  lemma SplitInTwo(mid: string, rest: string, n: nat)
    requires '_' !in mid && n == 2
    ensures SplitN(mid + ['_'] + rest, '_', n) == [mid, rest]
  {
    SplitFirst(mid, '_', rest, n);
    assert SplitN(rest, '_', n - 1) == [rest];
  }

  lemma SplitTwice(a: string, b: string, inner: string, tail: string, n: nat)
    requires '_' !in a && '_' !in b && n >= 3 && inner == b + ['_'] + tail
    ensures SplitN(a + ['_'] + inner, '_', n) == [a, b] + SplitN(tail, '_', n - 2)
  {
    SplitFirst(b, '_', tail, n - 1);
    SplitFirst(a, '_', inner, n);
    Cons(a, b, SplitN(tail, '_', n - 2));
  }

  lemma Cons(a: string, b: string, rest: seq<string>)
    ensures [a] + ([b] + rest) == [a, b] + rest
  {
  }

  lemma SplitsAs(mid: string, rest: string)
    requires '_' !in mid
    ensures SplitN(Shape(mid, rest), '_', 4) == ["cqk", "k", mid, rest]
  {
    var tail := mid + ['_'] + rest;
    SplitTwice("cqk", "k", "k" + ['_'] + tail, tail, 4);
    SplitInTwo(mid, rest, 2);
    assert ["cqk", "k"] + [mid, rest] == ["cqk", "k", mid, rest];
  }

  lemma PrintShape(id: seq<byte>, secret: seq<byte>)
    ensures Print(id, secret) == Shape(HexEncode(id), B64Encode(secret))
  {
    var h, b := HexEncode(id), B64Encode(secret);
    assert "cqk_" + KeyName(id) == "cqk" + ['_'] + ("k" + ['_'] + h);
    assert "_" == ['_'];
  }

  /** Splitting off one part cuts the text at its first underscore. */
  lemma SplitOne(s: string, n: nat) returns (rest: string)
    requires n >= 2 && |SplitN(s, '_', n)| >= 2
    ensures '_' !in SplitN(s, '_', n)[0]
    ensures s == SplitN(s, '_', n)[0] + ['_'] + rest
    ensures SplitN(s, '_', n)[1..] == SplitN(rest, '_', n - 1)
  {
    var i := IndexOf(s, '_');
    IndexOfFirst(s, '_');
    rest := s[i + 1..];
    assert s == s[..i] + [s[i]] + rest;
  }

  /** What it means for a token to split into four parts that start with cqk and k. */
  lemma FourParts(token: string)
    requires var parts := SplitN(token, '_', 4); |parts| == 4 && parts[0] == "cqk" && parts[1] == "k"
    ensures var parts := SplitN(token, '_', 4);
            '_' !in parts[2] && token == Shape(parts[2], parts[3])
  {
    var parts := SplitN(token, '_', 4);
    var t1 := SplitOne(token, 4);
    assert SplitN(t1, '_', 3) == parts[1..];
    var t2 := SplitOne(t1, 3);
    assert SplitN(t2, '_', 2) == parts[1..][1..];
    assert parts[1..][1..] == parts[2..];
    var t3 := SplitOne(t2, 2);
    assert parts[2..][1..] == parts[3..];
    assert SplitN(t3, '_', 1) == [t3];
  }

  /** Exactly the tokens of the shape cqk_k_<mid>_<rest> with both parts present are accepted,
      and the ID is read off that shape even when <rest> holds further underscores. */
  lemma StoreKeyIdMeaning(token: string, id: string)
    ensures StoreKeyId(token) == Some(id) <==>
            exists mid: string, rest: string :: mid != "" && rest != "" && '_' !in mid &&
              id == "k_" + mid && token == Shape(mid, rest)
  {
    if StoreKeyId(token) == Some(id) {
      FourParts(token);
      var parts := SplitN(token, '_', 4);
      assert parts[2] != "" && parts[3] != "" && '_' !in parts[2] && id == "k_" + parts[2]
          && token == Shape(parts[2], parts[3]);
    }
    forall mid: string, rest: string |
      mid != "" && rest != "" && '_' !in mid && id == "k_" + mid && token == Shape(mid, rest)
      ensures StoreKeyId(token) == Some(id)
    {
      ShapeIds(mid, rest);
    }
  }

  lemma ShapeIds(mid: string, rest: string)
    requires mid != "" && rest != "" && '_' !in mid
    ensures StoreKeyId(Shape(mid, rest)) == Some("k_" + mid)
    ensures ControllerKeyId(Shape(mid, rest)) == "k_" + mid
  {
    SplitsAs(mid, rest);
  }

  lemma PrintSpelled(id: seq<byte>, secret: seq<byte>)
    ensures Print(id, secret) == "cqk_k_" + HexEncode(id) + "_" + B64Encode(secret)
  {
    assert "cqk_" + KeyName(id) == "cqk_k_" + HexEncode(id);
  }

  /** keyID gives back the ID that was printed, whatever the secret's encoding looks like. */
  lemma PrintedKeyId(id: seq<byte>, secret: seq<byte>)
    requires id != [] && secret != []
    ensures KeyName(id) == "k_" + HexEncode(id)
    ensures Print(id, secret) == "cqk_k_" + HexEncode(id) + "_" + B64Encode(secret)
    ensures StoreKeyId(Print(id, secret)) == Some(KeyName(id))
    ensures ControllerKeyId(Print(id, secret)) == KeyName(id)
  {
    PrintSpelled(id, secret);
    PrintShape(id, secret);
    assert '_' !in HexEncode(id) && HexEncode(id) != "" by { HexRoundTrip(id); }
    assert B64Encode(secret) != "" by { B64Chars(secret); }
    ShapeIds(HexEncode(id), B64Encode(secret));
  }

  /** Reads a token back to the bytes it was printed from. */
  function Scan(token: string): Option<(seq<byte>, seq<byte>)> {
    var parts := SplitN(token, '_', 4);
    if |parts| != 4 || parts[0] != "cqk" || parts[1] != "k" then None else
      match (HexDecode(parts[2]), B64Decode(parts[3]))
      case (Some(id), Some(secret)) => Some((id, secret))
      case _ => None
  }

  lemma ScanShape(mid: string, rest: string)
    requires '_' !in mid && HexDecode(mid).Some? && B64Decode(rest).Some?
    ensures Scan(Shape(mid, rest)) == Some((HexDecode(mid).value, B64Decode(rest).value))
  {
    SplitsAs(mid, rest);
  }

  lemma PrintScan(id: seq<byte>, secret: seq<byte>)
    ensures Scan(Print(id, secret)) == Some((id, secret))
  {
    HexRoundTrip(id);
    B64RoundTrip(secret);
    PrintShape(id, secret);
    ScanShape(HexEncode(id), B64Encode(secret));
  }

  lemma PrintInjective(id: seq<byte>, secret: seq<byte>, id': seq<byte>, secret': seq<byte>)
    requires Print(id, secret) == Print(id', secret')
    ensures id == id' && secret == secret'
  {
    PrintScan(id, secret);
    PrintScan(id', secret');
  }

  /** The two key-ID parsers agree on every token the store's parser accepts, and differ on
      exactly the tokens that have the four parts but an empty third or fourth one. */
  lemma ParsersAgree(token: string)
    ensures StoreKeyId(token).Some? ==> ControllerKeyId(token) == StoreKeyId(token).value
    ensures StoreKeyId(token).None? && ControllerKeyId(token) != "" <==>
            (exists mid: string, rest: string :: (mid == "" || rest == "") && '_' !in mid &&
               token == Shape(mid, rest))
  {
    var parts := SplitN(token, '_', 4);
    if StoreKeyId(token).None? && ControllerKeyId(token) != "" {
      FourParts(token);
      assert (parts[2] == "" || parts[3] == "") && '_' !in parts[2] && token == Shape(parts[2], parts[3]);
    }
    forall mid: string, rest: string | (mid == "" || rest == "") && '_' !in mid && token == Shape(mid, rest)
      ensures StoreKeyId(token).None? && ControllerKeyId(token) != ""
    {
      SplitsAs(mid, rest);
    }
  }

  // ---- The Authorization header ----

  /** A character of a b64token, section 2.1 of RFC 6750. */
  predicate BearerChar(c: char) {
    'A' <= c <= 'Z' || 'a' <= c <= 'z' || '0' <= c <= '9' || c in "-._~+/"
  }

  function StripPadding(t: string): string {
    if t != "" && t[|t| - 1] == '=' then StripPadding(t[..|t| - 1]) else t
  }

  predicate IsB64Token(t: string) {
    var u := StripPadding(t);
    u != "" && forall c :: c in u ==> BearerChar(c)
  }

  /** strings.EqualFold(s, "Bearer"); none of these letters folds outside ASCII. */
  predicate FoldsToBearer(s: string) {
    && |s| == 6
    && AsciiFold(s[0], 'b') && AsciiFold(s[1], 'e') && AsciiFold(s[2], 'a')
    && AsciiFold(s[3], 'r') && AsciiFold(s[4], 'e') && AsciiFold(s[5], 'r')
  }

  predicate AsciiFold(c: char, lower: char)
    requires 'a' <= lower <= 'z'
  {
    c == lower || c as int + 32 == lower as int
  }

  function BearerToken(header: string): Option<string> {
    var parts := Fields(header);
    if |parts| != 2 || !FoldsToBearer(parts[0]) || parts[1] == "" then None else Some(parts[1])
  }

  function AsciiLower(s: string): string {
    seq(|s|, i requires 0 <= i < |s| => if 'A' <= s[i] <= 'Z' then (s[i] as int + 32) as char else s[i])
  }

  lemma SchemeInLower(s: string)
    ensures FoldsToBearer(s) <==> AsciiLower(s) == ['b', 'e', 'a', 'r', 'e', 'r']
  {
    var l, scheme := AsciiLower(s), ['b', 'e', 'a', 'r', 'e', 'r'];
    if |s| == 6 {
      assert l == scheme <==>
             l[0] == 'b' && l[1] == 'e' && l[2] == 'a' && l[3] == 'r' && l[4] == 'e' && l[5] == 'r';
    }
  }

  /** A header yields a token exactly if it has two fields of which the first is the scheme, in any case; the
      second is the token. */
  lemma BearerTokenMeaning(header: string)
    ensures BearerToken(header).Some? <==> |Fields(header)| == 2 && AsciiLower(Fields(header)[0]) == ['b', 'e', 'a', 'r', 'e', 'r']
    ensures BearerToken(header).Some? ==> BearerToken(header).value == Fields(header)[1] && Fields(header)[1] != ""
  {
    FieldsMeaning(header);
    if |Fields(header)| == 2 {
      SchemeInLower(Fields(header)[0]);
      assert Fields(header)[1] in Fields(header);
    }
  }

  lemma FieldsAfterBearer(t: string)
    ensures Fields("Bearer " + t) == ["Bearer"] + Fields(t)
  {
    var h := "Bearer " + t;
    assert h[0] == 'B';
    assert TrimLeft(h) == h;
    assert Word(h) == "Bearer" by {
      var w := Word(h);
      assert h[6] == ' ' && IsSpace(h[6]);
      assert forall i :: 0 <= i < |w| ==> w[i] in w && w[i] == h[i];
      assert |w| <= 6;
      assert forall i :: 0 <= i < 6 ==> h[i] == "Bearer"[i] && !IsSpace(h[i]);
    }
    var r := h[6..];
    assert r[0] == ' ' && r[1..] == t;
    assert TrimLeft(r) == TrimLeft(t);
  }

  lemma FieldsSingle(t: string)
    ensures Fields(t) == [t] <==> t != "" && (forall c :: c in t ==> !IsSpace(c))
  {
    if t != "" && (forall c :: c in t ==> !IsSpace(c)) {
      assert t[0] in t;
      WordWhole(t);
      assert t[|t|..] == "";
      assert Fields("") == [];
    } else if TrimLeft(t) != "" {
      assert Fields(t)[0] == Word(TrimLeft(t));
    }
  }

  lemma BearerOf(header: string, rest: seq<string>)
    requires Fields(header) == ["Bearer"] + rest
    ensures BearerToken(header) == if |rest| == 1 && rest[0] != "" then Some(rest[0]) else None
  {
    var parts := Fields(header);
    assert parts[0] == "Bearer";
    assert |parts| == 2 <==> |rest| == 1;
    assert |rest| == 1 ==> parts[1] == rest[0];
  }

  /** The header the client sends is read back unchanged for every non-empty text without spaces,
      and for no other text. */
  lemma BearerRoundTrip(t: string)
    ensures BearerToken("Bearer " + t) == Some(t) <==> t != "" && (forall c :: c in t ==> !IsSpace(c))
  {
    FieldsAfterBearer(t);
    BearerOf("Bearer " + t, Fields(t));
    FieldsSingle(t);
    var f := Fields(t);
    if |f| == 1 {
      assert f == [f[0]];
    }
  }

  lemma PrintedChars(id: seq<byte>, secret: seq<byte>, c: char)
    requires c in Print(id, secret)
    ensures BearerChar(c) && !IsSpace(c)
  {
    HexRoundTrip(id);
    B64Chars(secret);
    PrintShape(id, secret);
    ShapeChars(HexEncode(id), B64Encode(secret), c);
  }

  lemma NoPadding(t: string)
    requires t != "" && forall c :: c in t ==> BearerChar(c)
    ensures IsB64Token(t)
  {
    assert t[|t| - 1] in t;
  }

  lemma PrintNotEmpty(id: seq<byte>, secret: seq<byte>)
    ensures |Print(id, secret)| > 0
  {
    PrintShape(id, secret);
  }

  /** Every issued token is a b64token and survives the Authorization header. */
  lemma PrintedIsB64Token(id: seq<byte>, secret: seq<byte>)
    ensures IsB64Token(Print(id, secret))
    ensures BearerToken("Bearer " + Print(id, secret)) == Some(Print(id, secret))
  {
    var t := Print(id, secret);
    forall c | c in t ensures BearerChar(c) && !IsSpace(c) {
      PrintedChars(id, secret, c);
    }
    PrintNotEmpty(id, secret);
    NoPadding(t);
    BearerRoundTrip(t);
  }

  lemma ShapeChars(mid: string, rest: string, c: char)
    requires c in Shape(mid, rest)
    ensures c in mid || c in rest || (BearerChar(c) && !IsSpace(c))
  {
    assert c in "cqk" || c == '_' || c in ("k" + ['_'] + (mid + ['_'] + rest));
    assert c in "cqk" || c == '_' || c in "k" || c in mid || c in rest;
  }
}
