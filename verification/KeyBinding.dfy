/**
 * Sender constraint across the two servers: the IdP binds a token to one reading of a key, and the
 * gateway compares it with another. Equal thumbprints mean the same key, or a SHA-256 collision.
 */
module KeyBinding {
  import opened Common
  import opened Jwk
  import Base64Url

  /** Every character is one that a coordinate may hold, or a line break that decoding skips. */
  predicate Decodable(s: string) {
    forall i :: 0 <= i < |s| ==> s[i] == '\r' || s[i] == '\n' || Base64Url.ValueOf(s[i]) >= 0
  }

  lemma {:induction false} DecodedIsDecodable(s: string)
    requires Base64Url.Decode(s).Some?
    ensures Decodable(s)
  {
    forall i | 0 <= i < |s| ensures s[i] == '\r' || s[i] == '\n' || Base64Url.ValueOf(s[i]) >= 0 {
      SkippedOrInAlphabet(s, i);
    }
  }

  lemma {:induction false} DecodableHasNoQuote(s: string)
    requires Decodable(s)
    ensures '\"' !in s && '\\' !in s
  {
  }

  /** Escaped, such a text has no quote, and a backslash exactly where it had a line break. */
  lemma {:induction false} EscapedDecodable(s: string)
    requires Decodable(s)
    ensures '\"' !in Escape(s)
    ensures '\\' !in Escape(s) ==> Escape(s) == s
  {
    if s != "" {
      EscapedDecodable(s[1..]);
      assert s == [s[0]] + s[1..];
    }
  }

  lemma {:induction false} CutAtQuote(p: string, a: string, s: string, a': string, s': string)
    requires '\"' !in a && '\"' !in a' && p + a + "\"" + s == p + a' + "\"" + s'
    ensures a == a' && s == s'
  {
    var t, t', n := p + a + "\"" + s, p + a' + "\"" + s', |p|;
    assert t[n + |a|] == '\"' && t'[n + |a'|] == '\"';
    assert forall i :: 0 <= i < |a| ==> t[n + i] == a[i];
    assert forall i :: 0 <= i < |a'| ==> t'[n + i] == a'[i];
    assert |a| == |a'|;
    assert a == t[n..n + |a|] && a' == t'[n..n + |a'|];
    assert s == t[n + |a| + 1..] && s' == t'[n + |a'| + 1..];
  }

  /** Of two coordinates that decode, one escaped and one not, equal texts mean equal coordinates. */
  lemma {:induction false} MembersIdentify(p: string, x: string, y: string, x': string, y': string)
    requires '\"' !in x && '\"' !in y && '\"' !in x' && '\"' !in y'
    requires p + x + "\",\"y\":\"" + y + "\"}" == p + x' + "\",\"y\":\"" + y' + "\"}"
    ensures x == x' && y == y'
  {
    var m := ",\"y\":\"";
    assert p + x + "\",\"y\":\"" + y + "\"}" == p + x + "\"" + (m + y + "\"" + "}");
    assert p + x' + "\",\"y\":\"" + y' + "\"}" == p + x' + "\"" + (m + y' + "\"" + "}");
    CutAtQuote(p, x, m + y + "\"" + "}", x', m + y' + "\"" + "}");
    CutAtQuote(m, y, "}", y', "}");
  }

  lemma PlainNames()
    ensures Escape("P-256") == "P-256" && Escape("EC") == "EC"
  {
    EscapeLength("P-256");
    EscapeLength("EC");
  }

  /** The IdP's text of `a` is the gateway's text of `b` only if both read the same key. */
  lemma {:induction false} OneTextOneKey(a: Jwk, b: Jwk)
    requires ToPublicKey(a).Ok? && ToEcdsa(b.x, b.y).Ok? && MarshalledText(a) == CanonicalText(b.x, b.y)
    ensures a.x == b.x && a.y == b.y && ToPublicKey(a) == ToEcdsa(b.x, b.y)
  {
    DecodedIsDecodable(a.x);
    DecodedIsDecodable(a.y);
    DecodedIsDecodable(b.x);
    DecodedIsDecodable(b.y);
    EscapedDecodable(a.x);
    EscapedDecodable(a.y);
    DecodableHasNoQuote(b.x);
    DecodableHasNoQuote(b.y);
    PlainNames();
    MembersIdentify(BeforeX("P-256", "EC"), Escape(a.x), Escape(a.y), b.x, b.y);
  }

  /** A token bound to `a` at the IdP is accepted with a proof under `b` only if one key signed both. */
  lemma {:induction false} EqualThumbprintsOneKey(h: Hash, a: Jwk, b: Jwk)
    requires ToPublicKey(a).Ok? && ToEcdsa(b.x, b.y).Ok? && IdpThumbprint(h, a) == GatewayThumbprint(h, b.x, b.y)
    ensures ToPublicKey(a) == ToEcdsa(b.x, b.y) || Collision(h, MarshalledText(a), CanonicalText(b.x, b.y))
  {
    if MarshalledText(a) == CanonicalText(b.x, b.y) {
      OneTextOneKey(a, b);
    }
  }
}
