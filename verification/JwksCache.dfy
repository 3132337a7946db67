/** The gateway's cache of the IdP's signing keys. */
module JwksCache {
  import opened Common
  import opened Jwk

  datatype Entry = Entry(kty: string, crv: string, x: string, y: string, kid: string)

  /** What one request to the key endpoint brings: a decoded document or some failure. */
  datatype Reply = Document(keys: seq<Entry>) | Failure(error: string)

  predicate Usable(e: Entry) {
    e.kty == "EC" && e.crv == "P-256" && ToEcdsa(e.x, e.y).Ok?
  }

  /** The last usable entry of the document with this key ID, or -1. */
  function LastUsable(doc: seq<Entry>, kid: string): (i: int)
    ensures -1 <= i < |doc|
    ensures i >= 0 ==> Usable(doc[i]) && doc[i].kid == kid
    ensures forall j :: i < j < |doc| && Usable(doc[j]) ==> doc[j].kid != kid
  {
    LastWhere(doc, e => Usable(e) && e.kid == kid)
  }

  /** The key that a document gives for `kid`. */
  function KeyIn(doc: seq<Entry>, kid: string): Option<PublicKey> {
    var i := LastUsable(doc, kid);
    if i < 0 then None else Some(ToEcdsa(doc[i].x, doc[i].y).value)
  }

  /** `keys` holds exactly what the document gives. */
  ghost predicate HoldsKeysOf(keys: map<string, PublicKey>, doc: seq<Entry>) {
    forall kid :: (kid in keys <==> KeyIn(doc, kid).Some?) && (kid in keys ==> KeyIn(doc, kid) == Some(keys[kid]))
  }

  /** The document in the cache, with the time it came; none before the first success. */
  datatype Held = Nothing | Held(doc: seq<Entry>, at: int)

  function HeldDoc(h: Held): seq<Entry> {
    if h.Nothing? then [] else h.doc
  }

  predicate Fresh(h: Held, kid: string, ttl: int, now: int) {
    h.Held? && KeyIn(h.doc, kid).Some? && now - h.at < ttl
  }

  /** A lookup at `now`; should it ask the endpoint, `reply` comes at `repliedAt`. */
  datatype Lookup = Lookup(kid: string, now: int, reply: Reply, repliedAt: int)

  /** Which lookups are served from the cache. */
  function Freshness(ttl: int): (Held, Lookup) -> bool {
    (h: Held, l: Lookup) => Fresh(h, l.kid, ttl, l.now)
  }

  /** The specification: only a lookup that is not served fresh asks, and only a document replaces a document. */
  function After(fromCache: bool, h: Held, l: Lookup): Held {
    if fromCache || l.reply.Failure? then h else Held(l.reply.keys, l.repliedAt)
  }

  function AfterAll(live: (Held, Lookup) -> bool, ls: seq<Lookup>): Held {
    if ls == [] then Nothing
    else
      var before, l := AfterAll(live, ls[..|ls| - 1]), ls[|ls| - 1];
      After(live(before, l), before, l)
  }

  function AfterLookup(h: Held, l: Lookup, ttl: int): Held {
    After(Fresh(h, l.kid, ttl, l.now), h, l)
  }

  function AfterLookups(ls: seq<Lookup>, ttl: int): Held {
    AfterAll(Freshness(ttl), ls)
  }

  /** The one entry of the document that the IdP serves, under a fixed ID. */
  function Served(key: PublicKey): Entry
    requires OnField(key)
  {
    Entry("EC", "P-256", Coordinate(key.x), Coordinate(key.y), "idp-signing-key")
  }

  /** An entry from which the gateway makes this key. */
  predicate Gives(e: Entry, key: PublicKey) {
    e.kty == "EC" && e.crv == "P-256" && ToEcdsa(e.x, e.y) == Ok(key)
  }

  lemma {:induction false} ServedGivesKey(key: PublicKey)
    requires OnField(key)
    ensures Gives(Served(key), key) && Served(key).kid == "idp-signing-key"
  {
    GatewayReadsBack(key);
  }

  /** A document of one usable key gives that key, and no other. */
  lemma {:induction false} OneKeyDocument(e: Entry, key: PublicKey, kid: string)
    requires Gives(e, key)
    ensures KeyIn([e], kid) == if kid == e.kid then Some(key) else None
  {
    assert [e][..0] == [];
  }

  class Cache {
    const ttl: int
    var keys: map<string, PublicKey>
    var lastUpdate: Option<int>

    /** The fields mean the held document `h`. */
    ghost predicate Means(h: Held)
      reads this
    {
      HoldsKeysOf(keys, HeldDoc(h)) && lastUpdate == (if h.Nothing? then None else Some(h.at))
    }

    constructor (ttl: int)
      ensures this.ttl == ttl && Means(Nothing)
    {
      this.ttl := ttl;
      keys, lastUpdate := map[], None;
    }

    /** A failed fetch changes nothing; a document replaces all keys. */
    method FetchKeys(reply: Reply, now: int) returns (ok: bool)
      modifies this
      ensures ok <==> reply.Document?
      ensures ok ==> Means(Held(reply.keys, now))
      ensures !ok ==> keys == old(keys) && lastUpdate == old(lastUpdate)
    {
      if reply.Failure? {
        return false;
      }
      var newKeys := map[];
      for i := 0 to |reply.keys|
        invariant HoldsKeysOf(newKeys, reply.keys[..i])
      {
        var k := reply.keys[i];
        assert reply.keys[..i + 1][..i] == reply.keys[..i];
        if k.kty == "EC" && k.crv == "P-256" {
          var pubKey := ToEcdsa(k.x, k.y);
          if pubKey.Ok? {
            newKeys := newKeys[k.kid := pubKey.value];
          }
        }
      }
      assert reply.keys[..|reply.keys|] == reply.keys;
      keys, lastUpdate := newKeys, Some(now);
      return true;
    }

    method GetPublicKey(ghost h: Held, l: Lookup) returns (key: Result<PublicKey>)
      requires Means(h)
      modifies this
      ensures Means(AfterLookup(h, l, ttl))
      ensures key.Ok? <==> KeyIn(HeldDoc(AfterLookup(h, l, ttl)), l.kid).Some?
      ensures key.Ok? ==> KeyIn(HeldDoc(AfterLookup(h, l, ttl)), l.kid) == Some(key.value)
    {
      var ok := l.kid in keys;
      var young := lastUpdate.Some? && l.now - lastUpdate.value < ttl;
      if ok && young {
        return Ok(keys[l.kid]);
      }
      var cached := if ok then Some(keys[l.kid]) else None;
      var fetched := FetchKeys(l.reply, l.repliedAt);
      if !fetched {
        if cached.Some? {
          return Ok(cached.value);
        }
        return Err("failed to fetch JWKS");
      }
      if l.kid !in keys {
        return Err("key ID not found in JWKS");
      }
      return Ok(keys[l.kid]);
    }
  }

  /** Lookup `i` asked the endpoint. */
  predicate AskedBy(live: (Held, Lookup) -> bool, ls: seq<Lookup>, i: nat)
    requires i < |ls|
  {
    !live(AfterAll(live, ls[..i]), ls[i])
  }

  predicate Asked(ls: seq<Lookup>, ttl: int, i: nat)
    requires i < |ls|
  {
    AskedBy(Freshness(ttl), ls, i)
  }

  /** The last of the first `n` lookups that asked and got a document, or -1. */
  function LastAnswered(live: (Held, Lookup) -> bool, ls: seq<Lookup>, n: nat): (i: int)
    requires n <= |ls|
    ensures -1 <= i < n
    ensures i >= 0 ==> AskedBy(live, ls, i) && ls[i].reply.Document?
    ensures forall j: nat :: i < j < n && AskedBy(live, ls, j) ==> ls[j].reply.Failure?
  {
    if n == 0 then -1
    else if AskedBy(live, ls, n - 1) && ls[n - 1].reply.Document? then n - 1
    else LastAnswered(live, ls, n - 1)
  }

  function LastSuccess(ls: seq<Lookup>, ttl: int, n: nat): (i: int)
    requires n <= |ls|
    ensures -1 <= i < n
    ensures i >= 0 ==> Asked(ls, ttl, i) && ls[i].reply.Document?
    ensures forall j: nat :: i < j < n && Asked(ls, ttl, j) ==> ls[j].reply.Failure?
  {
    LastAnswered(Freshness(ttl), ls, n)
  }

  /** After any lookups the document held is that of the last one that asked and was answered, whatever counts as fresh. */
  lemma {:induction false} HeldIsLastAnswered(live: (Held, Lookup) -> bool, ls: seq<Lookup>, n: nat)
    requires n <= |ls|
    ensures var i := LastAnswered(live, ls, n);
      AfterAll(live, ls[..n]) == if i < 0 then Nothing else Held(ls[i].reply.keys, ls[i].repliedAt)
  {
    if n > 0 {
      HeldIsLastAnswered(live, ls, n - 1);
      assert ls[..n][..n - 1] == ls[..n - 1];
    }
  }

  /** A lookup answers from its own fetch, or from what was held, which was fresh or its own fetch has failed. */
  lemma {:induction false} OwnFetchOrHeld(live: (Held, Lookup) -> bool, ls: seq<Lookup>, n: nat)
    requires n < |ls|
    ensures var i := LastAnswered(live, ls, n + 1);
      || i == n
      || (i == LastAnswered(live, ls, n) && (live(AfterAll(live, ls[..n]), ls[n]) || (AskedBy(live, ls, n) && ls[n].reply.Failure?)))
  {
  }

  /** After any lookups the cache holds the document of the most recent successful fetch. */
  lemma {:induction false} HeldIsLastSuccess(ls: seq<Lookup>, ttl: int, n: nat)
    requires n <= |ls|
    ensures var i := LastSuccess(ls, ttl, n);
      AfterLookups(ls[..n], ttl) == if i < 0 then Nothing else Held(ls[i].reply.keys, ls[i].repliedAt)
  {
    HeldIsLastAnswered(Freshness(ttl), ls, n);
  }

  lemma {:induction false} HeldIsCurrent(ls: seq<Lookup>, ttl: int, n: nat)
    requires n < |ls| && AfterLookups(ls[..n + 1], ttl).Held?
    ensures var i := LastSuccess(ls, ttl, n + 1);
      && i >= 0 && HeldDoc(AfterLookups(ls[..n + 1], ttl)) == ls[i].reply.keys
      && (i == n || ls[n].now - ls[i].repliedAt < ttl || (Asked(ls, ttl, n) && ls[n].reply.Failure?))
  {
    HeldIsLastSuccess(ls, ttl, n + 1);
    HeldIsLastSuccess(ls, ttl, n);
    OwnFetchOrHeld(Freshness(ttl), ls, n);
  }

  /**
   * A key that a lookup returns is in the document of the most recent successful fetch, as the last usable
   * entry with its ID; the document is younger than the TTL, or came with this lookup, or is what remained
   * because the fetch of this lookup failed.
   */
  lemma {:induction false} ReturnedKeyIsCurrent(ls: seq<Lookup>, ttl: int, n: nat)
    requires n < |ls|
    requires KeyIn(HeldDoc(AfterLookups(ls[..n + 1], ttl)), ls[n].kid).Some?
    ensures var i := LastSuccess(ls, ttl, n + 1);
      && i >= 0 && HeldDoc(AfterLookups(ls[..n + 1], ttl)) == ls[i].reply.keys
      && (i == n || ls[n].now - ls[i].repliedAt < ttl || (Asked(ls, ttl, n) && ls[n].reply.Failure?))
  {
    if AfterLookups(ls[..n + 1], ttl).Nothing? {
      NothingInNothing(ls[n].kid);
    } else {
      HeldIsCurrent(ls, ttl, n);
    }
  }

  lemma NothingInNothing(kid: string)
    ensures KeyIn(HeldDoc(Nothing), kid).None?
  {
  }

  /** So where the endpoint has always served one entry, as the IdP does, and once did so when asked, every lookup of its ID gives its key. */
  lemma {:induction false} LookupsFindTheKey(ls: seq<Lookup>, ttl: int, n: nat, e: Entry, key: PublicKey)
    requires Gives(e, key) && n <= |ls| && LastSuccess(ls, ttl, n) >= 0
    requires forall i :: 0 <= i < |ls| && ls[i].reply.Document? ==> ls[i].reply.keys == [e]
    ensures KeyIn(HeldDoc(AfterLookups(ls[..n], ttl)), e.kid) == Some(key)
  {
    HeldIsLastSuccess(ls, ttl, n);
    OneKeyDocument(e, key, e.kid);
  }
}
