/** The gateway's metrics: counting, the Prometheus text, and the patterns by which the dashboard reads it. */
module Metrics {
  import opened Common

  // ----- decimal numbers

  predicate IsDigit(c: char) { '0' <= c <= '9' }

  predicate AllDigits(s: string) {
    forall i :: 0 <= i < |s| ==> IsDigit(s[i])
  }

  function Digits(n: nat): (s: string)
    ensures s != "" && AllDigits(s)
  {
    if n < 10 then [(48 + n) as char] else Digits(n / 10) + [(48 + n % 10) as char]
  }

  function NumberOf(s: string): nat
    requires AllDigits(s)
  {
    if s == "" then 0 else 10 * NumberOf(s[..|s| - 1]) + (s[|s| - 1] as int - 48)
  }

  lemma {:induction false} NumberOfDigits(n: nat)
    ensures NumberOf(Digits(n)) == n
  {
    if n >= 10 {
      NumberOfDigits(n / 10);
      assert Digits(n)[..|Digits(n)| - 1] == Digits(n / 10);
    } else {
      assert Digits(n)[..0] == "";
    }
  }

  /** `%d` of fmt. */
  function Decimal(n: int): (s: string)
    ensures s != "" && '\"' !in s && ':' !in s && '\n' !in s
  {
    if n < 0 then "-" + Digits(-n) else Digits(n)
  }

  /** fmt.Sscanf with `%d` on text without spaces: a sign and digits up to the first other character, else 0. */
  function Scan(s: string): int {
    if s != "" && s[0] == '-' then -(NumberOf(s[1..][..DigitRun(s[1..])]) as int)
    else if s != "" && s[0] == '+' then NumberOf(s[1..][..DigitRun(s[1..])])
    else NumberOf(s[..DigitRun(s)])
  }

  lemma {:induction false} ScanDecimal(n: int)
    ensures Scan(Decimal(n)) == n
  {
    var d := Digits(if n < 0 then -n else n);
    NumberOfDigits(if n < 0 then -n else n);
    RunOfDigits(d, "");
    assert d + "" == d && d[..|d|] == d;
    if n < 0 {
      assert Decimal(n)[1..] == d;
    }
  }

  // ----- regular expressions: literal text, [^"]+ and \d+

  datatype Piece = Lit(text: string) | Quoted | Number

  /** Length of the longest prefix without a quote; of digits only. */
  function QuoteFreeRun(s: string): (n: nat)
    ensures n <= |s|
    ensures '\"' !in s[..n]
  {
    if s == "" || s[0] == '\"' then 0 else 1 + QuoteFreeRun(s[1..])
  }

  function DigitRun(s: string): (n: nat)
    ensures n <= |s|
    ensures AllDigits(s[..n])
  {
    if s == "" || !IsDigit(s[0]) then 0 else 1 + DigitRun(s[1..])
  }

  lemma {:induction false} RunOfDigits(d: string, rest: string)
    requires AllDigits(d) && (rest == "" || !IsDigit(rest[0]))
    ensures DigitRun(d + rest) == |d|
  {
    if d != "" {
      assert (d + rest)[1..] == d[1..] + rest;
      RunOfDigits(d[1..], rest);
    } else {
      assert d + rest == rest;
    }
  }

  lemma {:induction false} RunOfQuoteFree(q: string, rest: string)
    requires '\"' !in q && rest != "" && rest[0] == '\"'
    ensures QuoteFreeRun(q + rest) == |q|
  {
    if q != "" {
      assert (q + rest)[1..] == q[1..] + rest;
      RunOfQuoteFree(q[1..], rest);
    } else {
      assert q + rest == rest;
    }
  }

  /**
   * The pattern at the front of `s`.  Runs are taken whole: giving characters back never helps, as
   * what follows a [^"]+ in these patterns is a quote and \d+ comes last.
   */
  function MatchHere(pattern: seq<Piece>, s: string): Option<seq<string>>
    decreases |pattern|, 0
  {
    if pattern == [] then Some([])
    else match pattern[0]
      case Lit(text) => if text <= s then MatchHere(pattern[1..], s[|text|..]) else None
      case Quoted => Captured(pattern[1..], s, QuoteFreeRun(s))
      case Number => Captured(pattern[1..], s, DigitRun(s))
  }

  function Captured(pattern: seq<Piece>, s: string, n: nat): Option<seq<string>>
    requires n <= |s|
    decreases |pattern|, 1
  {
    if n == 0 then None
    else
      var rest := MatchHere(pattern, s[n..]);
      if rest.None? then None else Some([s[..n]] + rest.value)
  }

  /** The leftmost match. */
  function Match(pattern: seq<Piece>, s: string): Option<seq<string>> {
    if MatchHere(pattern, s).Some? then MatchHere(pattern, s)
    else if s == "" then None
    else Match(pattern, s[1..])
  }

  /** The pattern with its captures put in. */
  function Fill(pattern: seq<Piece>, captures: seq<string>): string {
    if pattern == [] then ""
    else if pattern[0].Lit? then pattern[0].text + Fill(pattern[1..], captures)
    else if captures == [] then ""
    else captures[0] + Fill(pattern[1..], captures[1..])
  }

  /** The captures suit the pattern, and the text after each shows where it ends. */
  predicate Suits(pattern: seq<Piece>, captures: seq<string>) {
    if pattern == [] then captures == []
    else if pattern[0].Lit? then Suits(pattern[1..], captures)
    else
      && captures != [] && captures[0] != "" && Suits(pattern[1..], captures[1..])
      && var rest := Fill(pattern[1..], captures[1..]);
         if pattern[0].Quoted? then '\"' !in captures[0] && rest != "" && rest[0] == '\"'
         else AllDigits(captures[0]) && (rest == "" || !IsDigit(rest[0]))
  }

  /** Matching a filled pattern finds what was put in. */
  lemma {:induction false} MatchFill(pattern: seq<Piece>, captures: seq<string>)
    requires Suits(pattern, captures)
    ensures MatchHere(pattern, Fill(pattern, captures)) == Some(captures)
    decreases |pattern|
  {
    if pattern != [] {
      var s := Fill(pattern, captures);
      if pattern[0].Lit? {
        MatchFill(pattern[1..], captures);
        assert s[|pattern[0].text|..] == Fill(pattern[1..], captures);
      } else {
        var rest := Fill(pattern[1..], captures[1..]);
        MatchFill(pattern[1..], captures[1..]);
        assert s[|captures[0]|..] == rest && s[..|captures[0]|] == captures[0];
        if pattern[0].Quoted? {
          RunOfQuoteFree(captures[0], rest);
        } else {
          RunOfDigits(captures[0], rest);
        }
        assert captures == [captures[0]] + captures[1..];
      }
    }
  }

  // ----- the store and its text

  /** Key of the counters map: the handler, a colon, the status. */
  function Key(handler: string, status: int): string {
    handler + ":" + Decimal(status)
  }

  /** How ServeMetrics takes a key apart. */
  function KeyParts(key: string): (string, int) {
    var i := LastIndex(key, ':');
    if i == -1 then (key, 0) else (key[..i], Scan(key[i + 1..]))
  }

  /** Colons in a handler do no harm: no two (handler, status) pairs share a key. */
  lemma {:induction false} KeyRoundTrip(handler: string, status: int)
    ensures KeyParts(Key(handler, status)) == (handler, status)
  {
    var key := Key(handler, status);
    assert key[|handler|] == ':';
    assert key[..|handler|] == handler && key[|handler| + 1..] == Decimal(status);
    forall j | |handler| < j < |key| ensures key[j] != ':' {
      assert key[j] == Decimal(status)[j - |handler| - 1];
    }
    ScanDecimal(status);
  }

  datatype Snapshot = Snapshot(
    requests: map<string, nat>, dpop: int, token: int, ziti: int, pdp: int, rlsContext: int, wormExec: int)

  const REQUESTS := "gateway_requests_total"
  const OVERHEAD := "gateway_security_overhead_microseconds"
  const LATENCY := "gateway_db_latency_microseconds"

  const REQUEST_LINE := [Lit(REQUESTS), Lit("{handler=\""), Quoted, Lit("\",status=\""), Quoted, Lit("\"} "), Number]
  const OVERHEAD_LINE := [Lit(OVERHEAD), Lit("{stage=\""), Quoted, Lit("\"} "), Number]
  const LATENCY_LINE := [Lit(LATENCY), Lit("{operation=\""), Quoted, Lit("\"} "), Number]

  function RequestLine(key: string, count: nat): string {
    Fill(REQUEST_LINE, [KeyParts(key).0, Decimal(KeyParts(key).1), Decimal(count)])
  }

  lemma {:induction false} FillThree(a: string, b: string, c: string, d: string, x: string, y: string, z: string)
    ensures Fill([Lit(a), Lit(b), Quoted, Lit(c), Quoted, Lit(d), Number], [x, y, z]) == a + (b + (x + (c + (y + (d + z)))))
  {
    var p, v := [Lit(a), Lit(b), Quoted, Lit(c), Quoted, Lit(d), Number], [x, y, z];
    assert Fill(p[4..], v[1..]) == y + (d + z) by {
      assert Fill(p[6..], v[2..]) == z + Fill(p[7..], v[3..]) == z;
      assert Fill(p[5..], v[2..]) == d + z;
    }
    assert Fill(p[3..], v[1..]) == c + (y + (d + z));
    assert Fill(p[2..], v) == x + (c + (y + (d + z)));
    assert Fill(p[1..], v) == b + (x + (c + (y + (d + z))));
  }

  lemma {:induction false} FillTwo(a: string, b: string, c: string, x: string, y: string)
    ensures Fill([Lit(a), Lit(b), Quoted, Lit(c), Number], [x, y]) == a + (b + (x + (c + y)))
  {
    var p, v := [Lit(a), Lit(b), Quoted, Lit(c), Number], [x, y];
    assert Fill(p[4..], v[1..]) == y + Fill(p[5..], v[2..]) == y;
    assert Fill(p[3..], v[1..]) == c + y;
    assert Fill(p[2..], v) == x + (c + y);
    assert Fill(p[1..], v) == b + (x + (c + y));
  }

  /** The lines of a gauge. */
  lemma {:induction false} GaugeLineForm(name: string, value: int)
    ensures Fill(OVERHEAD_LINE, [name, Decimal(value)])
         == "gateway_security_overhead_microseconds" + ("{stage=\"" + (name + ("\"} " + Decimal(value))))
    ensures Fill(LATENCY_LINE, [name, Decimal(value)])
         == "gateway_db_latency_microseconds" + ("{operation=\"" + (name + ("\"} " + Decimal(value))))
  {
    FillTwo("gateway_security_overhead_microseconds", "{stage=\"", "\"} ", name, Decimal(value));
    FillTwo("gateway_db_latency_microseconds", "{operation=\"", "\"} ", name, Decimal(value));
  }

  /** A counter's line in the Prometheus text format. */
  lemma {:induction false} RequestLineForm(handler: string, status: int, count: nat)
    ensures RequestLine(Key(handler, status), count)
      == "gateway_requests_total" + ("{handler=\"" + (handler + ("\",status=\"" + (Decimal(status) + ("\"} " + Decimal(count))))))
  {
    KeyRoundTrip(handler, status);
    FillThree("gateway_requests_total", "{handler=\"", "\",status=\"", "\"} ", handler, Decimal(status), Decimal(count));
  }

  function RequestLines(requests: map<string, nat>, order: seq<string>): seq<string>
    requires forall k :: k in order ==> k in requests
  {
    if order == [] then []
    else RequestLines(requests, order[..|order| - 1]) + [RequestLine(order[|order| - 1], requests[order[|order| - 1]])]
  }

  /** The comment lines of one metric. */
  function Comments(name: string, help: string, kind: string): seq<string> {
    ["# HELP " + name + " " + help, "# TYPE " + name + " " + kind]
  }

  const REQUESTS_HELP := "Total number of HTTP requests" + " processed by the API Gateway."
  const OVERHEAD_HELP := "Latency of security layer" + " checks in microseconds."
  const LATENCY_HELP := "Latency of database transaction" + " and security operations in" + " microseconds."

  const HEAD := Comments(REQUESTS, REQUESTS_HELP, "counter")

  function OverheadLines(s: Snapshot): seq<string> {
    [ Fill(OVERHEAD_LINE, ["dpop", Decimal(s.dpop)]),
      Fill(OVERHEAD_LINE, ["token", Decimal(s.token)]),
      Fill(OVERHEAD_LINE, ["ziti", Decimal(s.ziti)]),
      Fill(OVERHEAD_LINE, ["pdp_grpc", Decimal(s.pdp)])]
  }

  function LatencyLines(s: Snapshot): seq<string> {
    [ Fill(LATENCY_LINE, ["rls_context", Decimal(s.rlsContext)]),
      Fill(LATENCY_LINE, ["worm_exec", Decimal(s.wormExec)])]
  }

  function Tail(s: Snapshot): seq<string> {
    [""] + Comments(OVERHEAD, OVERHEAD_HELP, "gauge") + OverheadLines(s)
    + [""] + Comments(LATENCY, LATENCY_HELP, "gauge") + LatencyLines(s)
  }

  /** `order` lists every key of the map once: the order in which Go happens to range over it. */
  ghost predicate IsOrder<K(!new)>(order: seq<K>, requests: map<K, nat>) {
    && (forall k :: k in order <==> k in requests)
    && (forall i, j :: 0 <= i < j < |order| ==> order[i] != order[j])
  }

  function Unlines(lines: seq<string>): string {
    if lines == [] then "" else Unlines(lines[..|lines| - 1]) + lines[|lines| - 1] + "\n"
  }

  lemma {:induction false} UnlinesConcat(a: seq<string>, b: seq<string>)
    ensures Unlines(a + b) == Unlines(a) + Unlines(b)
  {
    if b == [] {
      assert a + b == a;
    } else {
      assert (a + b)[..|a + b| - 1] == a + b[..|b| - 1];
      UnlinesConcat(a, b[..|b| - 1]);
    }
  }

  lemma {:induction false} LineAdded(head: seq<string>, requests: map<string, nat>, order: seq<string>, key: string)
    requires key in requests && forall k :: k in order ==> k in requests
    ensures Unlines(head + RequestLines(requests, order + [key]))
         == Unlines(head + RequestLines(requests, order)) + RequestLine(key, requests[key]) + "\n"
  {
    assert (order + [key])[..|order|] == order;
    var lines, line := head + RequestLines(requests, order), RequestLine(key, requests[key]);
    assert head + RequestLines(requests, order + [key]) == lines + [line];
    assert (lines + [line])[..|lines|] == lines;
  }

  class MetricsStore {
    var requestsTotal: map<string, nat>
    var dpopVerifyUs: int
    var tokenVerifyUs: int
    var zitiVerifyUs: int
    var pdpVerifyUs: int
    var dbRlsContextUs: int
    var dbWormExecUs: int

    function Now(): Snapshot
      reads this
    {
      Snapshot(requestsTotal, dpopVerifyUs, tokenVerifyUs, zitiVerifyUs, pdpVerifyUs, dbRlsContextUs, dbWormExecUs)
    }

    constructor ()
      ensures Now() == Snapshot(map[], 0, 0, 0, 0, 0, 0)
    {
      requestsTotal := map[];
      dpopVerifyUs, tokenVerifyUs, zitiVerifyUs, pdpVerifyUs := 0, 0, 0, 0;
      dbRlsContextUs, dbWormExecUs := 0, 0;
    }

    method IncrementRequestCounter(handler: string, status: int)
      modifies this`requestsTotal
      ensures requestsTotal == Counted(old(requestsTotal), (handler, status))
    {
      var key := Key(handler, status);
      var was := if key in requestsTotal then requestsTotal[key] else 0;
      requestsTotal := requestsTotal[key := was + 1];
    }

    method RecordSecurityOverhead(dpop: int, token: int, ziti: int)
      modifies this`dpopVerifyUs, this`tokenVerifyUs, this`zitiVerifyUs
      ensures Now() == old(Now()).(dpop := dpop, token := token, ziti := ziti)
    {
      dpopVerifyUs := dpop;
      tokenVerifyUs := token;
      zitiVerifyUs := ziti;
    }

    method RecordDbLatency(rls: int, worm: int)
      modifies this`dbRlsContextUs, this`dbWormExecUs
      ensures Now() == old(Now()).(rlsContext := rls, wormExec := worm)
    {
      dbRlsContextUs := rls;
      dbWormExecUs := worm;
    }

    method RecordPDPOverhead(pdp: int)
      modifies this`pdpVerifyUs
      ensures Now() == old(Now()).(pdp := pdp)
    {
      pdpVerifyUs := pdp;
    }

    /** The printing loop, after `head` has been written. */
    method PrintCounters(head: seq<string>) returns (text: string, order: seq<string>)
      ensures IsOrder(order, requestsTotal)
      ensures text == Unlines(head + RequestLines(requestsTotal, order))
    {
      assert head + [] == head;
      text := Unlines(head);
      order := [];
      var left := requestsTotal.Keys;
      while left != {}
        invariant left <= requestsTotal.Keys
        invariant forall k :: k in order <==> k in requestsTotal && k !in left
        invariant forall i, j :: 0 <= i < j < |order| ==> order[i] != order[j]
        invariant text == Unlines(head + RequestLines(requestsTotal, order))
      {
        var key :| key in left;
        var line := RequestLine(key, requestsTotal[key]);
        LineAdded(head, requestsTotal, order, key);
        text := text + line + "\n";
        order := order + [key];
        left := left - {key};
      }
    }

    method ServeMetrics() returns (text: string, order: seq<string>)
      ensures IsOrder(order, requestsTotal)
      ensures text == Unlines(HEAD + RequestLines(requestsTotal, order) + Tail(Now()))
    {
      text, order := PrintCounters(HEAD);
      UnlinesConcat(HEAD + RequestLines(requestsTotal, order), Tail(Now()));
      text := text + Unlines(Tail(Now()));
    }
  }

  // ----- counting

  function Counted(requests: map<string, nat>, event: (string, int)): map<string, nat> {
    var key := Key(event.0, event.1);
    requests[key := (if key in requests then requests[key] else 0) + 1]
  }

  /** The counters after a history of increments. */
  function Counters(history: seq<(string, int)>): map<string, nat> {
    if history == [] then map[] else Counted(Counters(history[..|history| - 1]), history[|history| - 1])
  }

  function Occurrences(history: seq<(string, int)>, event: (string, int)): nat {
    if history == [] then 0
    else Occurrences(history[..|history| - 1], event) + (if history[|history| - 1] == event then 1 else 0)
  }

  /** Every pair has a counter of its own, which counts its increments and no others. */
  lemma {:induction false} CounterOfPair(history: seq<(string, int)>, handler: string, status: int)
    ensures Key(handler, status) in Counters(history) <==> Occurrences(history, (handler, status)) > 0
    ensures Key(handler, status) in Counters(history)
      ==> Counters(history)[Key(handler, status)] == Occurrences(history, (handler, status))
  {
    if history != [] {
      var e := history[|history| - 1];
      CounterOfPair(history[..|history| - 1], handler, status);
      KeyRoundTrip(handler, status);
      KeyRoundTrip(e.0, e.1);
    }
  }

  /** Every key in the map is the key of some pair in the history. */
  lemma {:induction false} KeysComeFromHistory(history: seq<(string, int)>, key: string)
    requires key in Counters(history)
    ensures exists i :: 0 <= i < |history| && key == Key(history[i].0, history[i].1)
  {
    var e := history[|history| - 1];
    if key != Key(e.0, e.1) {
      KeysComeFromHistory(history[..|history| - 1], key);
    }
  }

  function Total<K>(requests: map<K, nat>, order: seq<K>): nat
    requires forall k :: k in order ==> k in requests
  {
    if order == [] then 0 else Total(requests, order[..|order| - 1]) + requests[order[|order| - 1]]
  }

  lemma {:induction false} TotalTakeOut<K>(requests: map<K, nat>, a: seq<K>, key: K, b: seq<K>)
    requires forall k :: k in a + [key] + b ==> k in requests
    ensures forall k :: k in a + b ==> k in requests
    ensures Total(requests, a + [key] + b) == Total(requests, a + b) + requests[key]
  {
    forall k | k in a + b ensures k in requests {
      assert k in a + [key] + b;
    }
    if b == [] {
      assert a + b == a && (a + [key] + b)[..|a|] == a;
    } else {
      var b' := b[..|b| - 1];
      assert (a + [key] + b)[..|a| + |b|] == a + [key] + b';
      assert (a + b)[..|a + b| - 1] == a + b';
      TotalTakeOut(requests, a, key, b');
    }
  }

  lemma {:induction false} TotalElsewhere<K>(m: map<K, nat>, m': map<K, nat>, order: seq<K>)
    requires forall k :: k in order ==> k in m && k in m' && m[k] == m'[k]
    ensures Total(m, order) == Total(m', order)
  {
    if order != [] {
      TotalElsewhere(m, m', order[..|order| - 1]);
    }
  }

  /** Taking a key out of an order of the map leaves an order of the map without it. */
  lemma {:induction false} OrderWithout<K(!new)>(m: map<K, nat>, a: seq<K>, key: K, b: seq<K>)
    requires IsOrder(a + [key] + b, m)
    ensures key in m && IsOrder(a + b, m - {key})
  {
    var order, rest := a + [key] + b, a + b;
    assert order[|a|] == key;
    forall k ensures k in rest <==> k in m && k != key {
      if k in rest {
        var i :| 0 <= i < |rest| && rest[i] == k;
        assert order[if i < |a| then i else i + 1] == k;
      }
      assert k in order ==> k in a || k == key || k in b;
    }
    forall i, j | 0 <= i < j < |rest| ensures rest[i] != rest[j] {
      assert order[if i < |a| then i else i + 1] != order[if j < |a| then j else j + 1];
    }
  }

  lemma {:induction false} NoOrderOfNothing<K>(order: seq<K>)
    ensures order == [] || order[0] in order
  {
  }

  lemma {:induction false} AroundKey<K>(order: seq<K>, key: K) returns (a: seq<K>, b: seq<K>)
    requires key in order
    ensures order == a + [key] + b
  {
    var i :| 0 <= i < |order| && order[i] == key;
    a, b := order[..i], order[i + 1..];
  }

  /** One increment raises the total by one. */
  lemma {:induction false} TotalAfterIncrement<K(!new)>(m: map<K, nat>, m': map<K, nat>, key: K, order: seq<K>) returns (before: seq<K>)
    requires m' == m[key := (if key in m then m[key] else 0) + 1]
    requires IsOrder(order, m')
    ensures IsOrder(before, m)
    ensures Total(m', order) == Total(m, before) + 1
  {
    var a, b := AroundKey(order, key);
    OrderWithout(m', a, key, b);
    TotalTakeOut(m', a, key, b);
    TotalElsewhere(m, m', a + b);
    if key in m {
      before := order;
      assert m.Keys == m'.Keys;
      TotalTakeOut(m, a, key, b);
    } else {
      before := a + b;
      assert m' - {key} == m;
    }
  }

  /** Conservation: the counters add up to the number of increments, in whatever order they are added. */
  lemma {:induction false} CountersAddUp(history: seq<(string, int)>, order: seq<string>)
    requires IsOrder(order, Counters(history))
    ensures Total(Counters(history), order) == |history|
  {
    if history == [] {
      NoOrderOfNothing(order);
    } else {
      var e := history[|history| - 1];
      var before := TotalAfterIncrement(Counters(history[..|history| - 1]), Counters(history), Key(e.0, e.1), order);
      CountersAddUp(history[..|history| - 1], before);
    }
  }
}
