/** Public keys as JSON Web Keys, and the thumbprint that client, IdP and gateway each compute. */
module Jwk {
  import opened Common
  import opened Bytes
  import Base64Url

  /** `digest` is the unpadded base64url text of SHA-256; nothing is assumed of it. */
  datatype Hash = Hash(digest: string -> string)

  /** Two different texts with one digest. */
  ghost predicate Collision(h: Hash, a: string, b: string) {
    a != b && h.digest(a) == h.digest(b)
  }

  datatype Jwk = Jwk(kty: string, crv: string, x: string, y: string)

  datatype PublicKey = PublicKey(x: nat, y: nat)

  predicate OnField(key: PublicKey) {
    Fits(key.x, 32) && Fits(key.y, 32)
  }

  /** `copy(pad[32-len(b):], b)` into a zero buffer; a longer `b` makes the slice panic. */
  method PadCoordinate(b: seq<Byte>) returns (pad: array<Byte>)
    requires |b| <= 32
    ensures fresh(pad)
    ensures forall n: nat :: Fits(n, 32) && b == ToBytes(n) ==> pad[..] == Fixed(n, 32)
  {
    pad := new Byte[32](_ => 0);
    var start := 32 - |b|;
    for i := 0 to |b|
      invariant forall j :: 0 <= j < start ==> pad[j] == 0
      invariant forall j :: 0 <= j < i ==> pad[start + j] == b[j]
    {
      pad[start + i] := b[i];
    }
    assert pad[..] == Zeros(start) + b;
  }

  function Coordinate(n: nat): string
    requires Fits(n, 32)
  {
    Base64Url.Encode(Fixed(n, 32))
  }

  /** The key as the client puts it in a proof header and the IdP in its key set. */
  function Published(key: PublicKey): Jwk
    requires OnField(key)
  {
    Jwk("EC", "P-256", Coordinate(key.x), Coordinate(key.y))
  }

  /** JWKToECDSA of the gateway. */
  function ToEcdsa(x: string, y: string): Result<PublicKey> {
    var xb, yb := Base64Url.Decode(x), Base64Url.Decode(y);
    if xb.None? then Err("invalid x coordinate")
    else if yb.None? then Err("invalid y coordinate")
    else Ok(PublicKey(FromBytes(xb.value), FromBytes(yb.value)))
  }

  /** JWKToPublicKey of the IdP. */
  function ToPublicKey(jwk: Jwk): Result<PublicKey> {
    if jwk.kty != "EC" || jwk.crv != "P-256" then Err("unsupported key type or curve")
    else ToEcdsa(jwk.x, jwk.y)
  }

  /** The four members in alphabetical order, without spaces (section 3 of RFC 7638). */
  function Members(crv: string, kty: string, x: string, y: string): string {
    BeforeX(crv, kty) + x + "\",\"y\":\"" + y + "\"}"
  }

  function BeforeX(crv: string, kty: string): string {
    "{\"crv\":\"" + crv + "\",\"kty\":\"" + kty + "\",\"x\":\""
  }

  /** The text that client and gateway print and hash. */
  function CanonicalText(x: string, y: string): string {
    Members("P-256", "EC", x, y)
  }

  function HexDigit(v: int): char
    requires 0 <= v < 16
  {
    if v < 10 then (48 + v) as char else (87 + v) as char
  }

  /** Characters that json.Marshal of Go does not print as they are. */
  predicate NeedsEscape(c: char) {
    c == '\"' || c == '\\' || c as int < 0x20 || c == '<' || c == '>' || c == '&'
    || c as int == 0x2028 || c as int == 0x2029
  }

  function EscapeChar(c: char): string {
    if !NeedsEscape(c) then [c]
    else if c == '\"' || c == '\\' then ['\\', c]
    else if c == '\n' then "\\n"
    else if c == '\r' then "\\r"
    else if c == '\t' then "\\t"
    else if c as int == 8 then "\\b"
    else if c as int == 12 then "\\f"
    else ['\\', 'u', HexDigit(c as int / 4096 % 16), HexDigit(c as int / 256 % 16),
          HexDigit(c as int / 16 % 16), HexDigit(c as int % 16)]
  }

  function Escape(s: string): string {
    if s == "" then "" else EscapeChar(s[0]) + Escape(s[1..])
  }

  /** The text the IdP hashes: json.Marshal of a map, whose keys come out in order. */
  function MarshalledText(jwk: Jwk): string {
    Members(Escape(jwk.crv), Escape(jwk.kty), Escape(jwk.x), Escape(jwk.y))
  }

  function ClientThumbprint(h: Hash, key: PublicKey): string
    requires OnField(key)
  {
    h.digest(CanonicalText(Coordinate(key.x), Coordinate(key.y)))
  }

  function GatewayThumbprint(h: Hash, x: string, y: string): string {
    h.digest(CanonicalText(x, y))
  }

  function IdpThumbprint(h: Hash, jwk: Jwk): string {
    h.digest(MarshalledText(jwk))
  }

  predicate Plain(s: string) {
    forall i :: 0 <= i < |s| ==> !NeedsEscape(s[i])
  }

  /** The text that all three hash: the required members of an EC key in the order and form of section 3 of RFC 7638. */
  lemma {:induction false} CanonicalForm(x: string, y: string)
    ensures CanonicalText(x, y) == "{\"crv\":\"P-256\"," + ("\"kty\":\"EC\"," + ("\"x\":\"" + x + ("\",\"y\":\"" + y + "\"}")))
  {
    var literal := "{\"crv\":\"P-256\",\"kty\":\"EC\",\"x\":\"";
    assert BeforeX("P-256", "EC") == literal;
    assert "{\"crv\":\"P-256\"," + ("\"kty\":\"EC\"," + "\"x\":\"") == literal;
  }

  predicate HasNewline(s: string) {
    exists i :: 0 <= i < |s| && (s[i] == '\r' || s[i] == '\n')
  }

  lemma {:induction false} CoordinateShape(n: nat)
    requires Fits(n, 32)
    ensures |Coordinate(n)| == 43 && Base64Url.InAlphabet(Coordinate(n)) && Plain(Coordinate(n))
  {
    Base64Url.DecodeEncode(Fixed(n, 32));
    Base64Url.EncodedLength(Fixed(n, 32));
  }

  lemma {:induction false} CoordinateIsReadBack(n: nat)
    requires Fits(n, 32)
    ensures Base64Url.Decode(Coordinate(n)).Some? && FromBytes(Base64Url.Decode(Coordinate(n)).value) == n
  {
    Base64Url.DecodeEncode(Fixed(n, 32));
    FixedRoundTrip(n, 32);
  }

  /** The gateway reads back the very key that was published, */
  lemma {:induction false} GatewayReadsBack(key: PublicKey)
    requires OnField(key)
    ensures ToEcdsa(Published(key).x, Published(key).y) == Ok(key)
  {
    CoordinateIsReadBack(key.x);
    CoordinateIsReadBack(key.y);
  }

  /** and so does the IdP. */
  lemma {:induction false} IdpReadsBack(key: PublicKey)
    requires OnField(key)
    ensures ToPublicKey(Published(key)) == Ok(key)
  {
    GatewayReadsBack(key);
  }

  /** Escaping changes a string exactly when some character needs it, and then lengthens it. */
  lemma {:induction false} EscapeLength(s: string)
    ensures |Escape(s)| >= |s|
    ensures Plain(s) ==> Escape(s) == s
    ensures !Plain(s) ==> |Escape(s)| > |s|
  {
    if s != "" {
      EscapeLength(s[1..]);
      if !Plain(s) && !NeedsEscape(s[0]) {
        var i :| 0 <= i < |s| && NeedsEscape(s[i]);
        assert s[1..][i - 1] == s[i];
      }
    }
  }

  /** For an EC P-256 key the IdP and the gateway hash the same text exactly when x and y need no escape. */
  lemma TextsAgreeIff(jwk: Jwk)
    requires jwk.kty == "EC" && jwk.crv == "P-256"
    ensures MarshalledText(jwk) == CanonicalText(jwk.x, jwk.y) <==> Plain(jwk.x) && Plain(jwk.y)
  {
    EscapeLength(jwk.x);
    EscapeLength(jwk.y);
    EscapeLength(jwk.crv);
    EscapeLength(jwk.kty);
  }

  lemma {:induction false} SkippedOrInAlphabet(s: string, i: int)
    requires Base64Url.InAlphabet(Base64Url.SkipNewlines(s)) && 0 <= i < |s|
    ensures s[i] == '\r' || s[i] == '\n' || Base64Url.ValueOf(s[i]) >= 0
  {
    var t := Base64Url.SkipNewlines(s);
    if s[0] != '\r' && s[0] != '\n' {
      assert t[0] == s[0] && t[1..] == Base64Url.SkipNewlines(s[1..]);
    }
    if i > 0 {
      SkippedOrInAlphabet(s[1..], i - 1);
    }
  }

  /**
   * Of the keys that decode, the two texts differ only for those written with a line break,
   * which the base64 decoder skips and only one of the two printers escapes.
   */
  lemma DecodableTextsAgreeIff(jwk: Jwk)
    requires ToPublicKey(jwk).Ok?
    ensures MarshalledText(jwk) == CanonicalText(jwk.x, jwk.y) <==> !HasNewline(jwk.x) && !HasNewline(jwk.y)
  {
    TextsAgreeIff(jwk);
    PlainIffNoNewline(jwk.x);
    PlainIffNoNewline(jwk.y);
  }

  lemma PlainIffNoNewline(s: string)
    requires Base64Url.Decode(s).Some?
    ensures Plain(s) <==> !HasNewline(s)
  {
    forall i | 0 <= i < |s| ensures NeedsEscape(s[i]) <==> s[i] == '\r' || s[i] == '\n' {
      SkippedOrInAlphabet(s, i);
    }
  }

  /** The three implementations give one thumbprint for every key a client can hold. */
  lemma ThumbprintsAgree(h: Hash, key: PublicKey)
    requires OnField(key)
    ensures GatewayThumbprint(h, Published(key).x, Published(key).y) == ClientThumbprint(h, key)
    ensures IdpThumbprint(h, Published(key)) == ClientThumbprint(h, key)
  {
    CoordinateShape(key.x);
    CoordinateShape(key.y);
    TextsAgreeIff(Published(key));
  }

  lemma Sandwich(a: string, x: string, b: string, y: string, c: string, x': string, y': string)
    requires |x| == |x'| && |y| == |y'|
    requires a + x + b + y + c == a + x' + b + y' + c
    ensures x == x' && y == y'
  {
    var t, t' := a + x + b + y + c, a + x' + b + y' + c;
    var p, q := |a|, |a| + |x| + |b|;
    assert t[p..p + |x|] == x && t'[p..p + |x|] == x';
    assert t[q..q + |y|] == y && t'[q..q + |y|] == y';
  }

  /** Different keys have different canonical texts. */
  lemma CanonicalTextIdentifiesKey(k: PublicKey, k': PublicKey)
    requires OnField(k) && OnField(k')
    requires CanonicalText(Coordinate(k.x), Coordinate(k.y)) == CanonicalText(Coordinate(k'.x), Coordinate(k'.y))
    ensures k == k'
  {
    CoordinateShape(k.x);
    CoordinateShape(k.y);
    CoordinateShape(k'.x);
    CoordinateShape(k'.y);
    Sandwich(BeforeX("P-256", "EC"), Coordinate(k.x), "\",\"y\":\"", Coordinate(k.y), "\"}", Coordinate(k'.x), Coordinate(k'.y));
    GatewayReadsBack(k);
    GatewayReadsBack(k');
  }

  /** A shared thumbprint means a shared key, or it exhibits a SHA-256 collision. */
  lemma ThumbprintIdentifiesKey(h: Hash, k: PublicKey, k': PublicKey)
    requires OnField(k) && OnField(k')
    requires ClientThumbprint(h, k) == ClientThumbprint(h, k')
    ensures k == k' || Collision(h, CanonicalText(Coordinate(k.x), Coordinate(k.y)),
                                 CanonicalText(Coordinate(k'.x), Coordinate(k'.y)))
  {
    if k != k' && CanonicalText(Coordinate(k.x), Coordinate(k.y)) == CanonicalText(Coordinate(k'.x), Coordinate(k'.y)) {
      CanonicalTextIdentifiesKey(k, k');
    }
  }
}
