/** The dashboard's reader of the metrics text, and the round trip through it. */
module MetricsParser {
  import opened Common
  import opened Metrics

  datatype Entry = Entry(handler: string, status: string, count: nat)

  datatype Parsed = Parsed(requests: seq<Entry>, overhead: map<string, nat>, latency: map<string, nat>)

  const EMPTY := Parsed([], map["dpop" := 0, "token" := 0, "ziti" := 0], map["rls_context" := 0, "worm_exec" := 0])

  /** The integers a JavaScript number holds exactly reach up to here; parseInt rounds the others. */
  const MAX_SAFE: nat := 9007199254740991

  datatype Js = Js(round: nat -> nat)

  ghost predicate ExactWhenSafe(js: Js) {
    forall n: nat :: n <= MAX_SAFE ==> js.round(n) == n
  }

  function ParseInt(js: Js, s: string): nat {
    js.round(NumberOf(s[..DigitRun(s)]))
  }

  /** `text.split("\n")` */
  function SplitLines(text: string): seq<string>
    decreases |text|
  {
    var i := LastIndex(text, '\n');
    if i == -1 then [text] else SplitLines(text[..i]) + [text[i + 1..]]
  }

  function ParseLine(js: Js, p: Parsed, line: string): Parsed {
    if line == "" || line[0] == '#' then p
    else if REQUESTS <= line then
      var m := Match(REQUEST_LINE, line);
      if m.Some? && |m.value| == 3 then p.(requests := p.requests + [Entry(m.value[0], m.value[1], ParseInt(js, m.value[2]))]) else p
    else if OVERHEAD <= line then
      var m := Match(OVERHEAD_LINE, line);
      if m.Some? && |m.value| == 2 then p.(overhead := p.overhead[m.value[0] := ParseInt(js, m.value[1])]) else p
    else if LATENCY <= line then
      var m := Match(LATENCY_LINE, line);
      if m.Some? && |m.value| == 2 then p.(latency := p.latency[m.value[0] := ParseInt(js, m.value[1])]) else p
    else p
  }

  function ParseLines(js: Js, p: Parsed, lines: seq<string>): Parsed {
    if lines == [] then p else ParseLine(js, ParseLines(js, p, lines[..|lines| - 1]), lines[|lines| - 1])
  }

  method Parse(js: Js, text: string) returns (metrics: Parsed)
    ensures metrics == ParseLines(js, EMPTY, SplitLines(text))
  {
    metrics := EMPTY;
    var lines := SplitLines(text);
    for i := 0 to |lines|
      invariant metrics == ParseLines(js, EMPTY, lines[..i])
    {
      assert lines[..i + 1][..i] == lines[..i];
      var line := lines[i];
      if line == "" || line[0] == '#' {
        continue;
      }
      if REQUESTS <= line {
        var m := Match(REQUEST_LINE, line);
        if m.Some? && |m.value| == 3 {
          metrics := metrics.(requests := metrics.requests + [Entry(m.value[0], m.value[1], ParseInt(js, m.value[2]))]);
        }
      } else if OVERHEAD <= line {
        var m := Match(OVERHEAD_LINE, line);
        if m.Some? && |m.value| == 2 {
          metrics := metrics.(overhead := metrics.overhead[m.value[0] := ParseInt(js, m.value[1])]);
        }
      } else if LATENCY <= line {
        var m := Match(LATENCY_LINE, line);
        if m.Some? && |m.value| == 2 {
          metrics := metrics.(latency := metrics.latency[m.value[0] := ParseInt(js, m.value[1])]);
        }
      }
    }
    assert lines[..|lines|] == lines;
  }

  // ----- splitting undoes the joining of lines

  predicate NoNewlines(lines: seq<string>) {
    forall i :: 0 <= i < |lines| ==> '\n' !in lines[i]
  }

  lemma {:induction false} SplitAtLastNewline(front: string, last: string)
    requires '\n' !in last
    ensures SplitLines(front + ['\n'] + last) == SplitLines(front) + [last]
  {
    var text, at := front + ['\n'] + last, |front|;
    assert text[at] == '\n' && text[..at] == front && text[at + 1..] == last;
    forall j | at < j < |text| ensures text[j] != '\n' {
      assert text[j] == last[j - at - 1];
    }
    assert LastIndex(text, '\n') == at;
  }

  lemma {:induction false} SplitSingle(last: string)
    requires '\n' !in last
    ensures SplitLines(last) == [last]
  {
  }

  lemma {:induction false} SplitAfterUnlines(lines: seq<string>, last: string)
    requires NoNewlines(lines) && '\n' !in last
    ensures SplitLines(Unlines(lines) + last) == lines + [last]
  {
    if lines == [] {
      assert Unlines(lines) + last == last;
      SplitSingle(last);
    } else {
      var front, l := lines[..|lines| - 1], lines[|lines| - 1];
      SplitAfterUnlines(front, l);
      SplitAtLastNewline(Unlines(front) + l, last);
      assert Unlines(lines) + last == Unlines(front) + l + ['\n'] + last;
    }
  }

  lemma {:induction false} ParseLinesConcat(js: Js, p: Parsed, a: seq<string>, b: seq<string>)
    ensures ParseLines(js, p, a + b) == ParseLines(js, ParseLines(js, p, a), b)
  {
    if b == [] {
      assert a + b == a;
    } else {
      assert (a + b)[..|a + b| - 1] == a + b[..|b| - 1];
      ParseLinesConcat(js, p, a, b[..|b| - 1]);
    }
  }

  // ----- one line

  lemma {:induction false} ParseIntOfDecimal(js: Js, n: int)
    requires ExactWhenSafe(js) && 0 <= n <= MAX_SAFE
    ensures ParseInt(js, Decimal(n)) == n
  {
    RunOfDigits(Digits(n), "");
    assert Digits(n) + "" == Digits(n) && Digits(n)[..|Digits(n)|] == Digits(n);
    NumberOfDigits(n);
  }

  lemma {:induction false} AddLit(text: string, pattern: seq<Piece>, captures: seq<string>)
    requires Suits(pattern, captures)
    ensures Suits([Lit(text)] + pattern, captures)
    ensures Fill([Lit(text)] + pattern, captures) == text + Fill(pattern, captures)
  {
    assert ([Lit(text)] + pattern)[1..] == pattern;
  }

  lemma {:induction false} AddQuoted(capture: string, pattern: seq<Piece>, captures: seq<string>)
    requires Suits(pattern, captures) && capture != "" && '\"' !in capture
    requires Fill(pattern, captures) != "" && Fill(pattern, captures)[0] == '\"'
    ensures Suits([Quoted] + pattern, [capture] + captures)
    ensures Fill([Quoted] + pattern, [capture] + captures) == capture + Fill(pattern, captures)
  {
    assert ([Quoted] + pattern)[1..] == pattern && ([capture] + captures)[1..] == captures;
  }

  const VALUE := [Lit("\"} "), Number]

  lemma {:induction false} ValueSuits(n: nat)
    ensures Suits(VALUE, [Decimal(n)])
    ensures Fill(VALUE, [Decimal(n)]) != "" && Fill(VALUE, [Decimal(n)])[0] == '\"'
  {
    assert [Number][1..] == [] && [Decimal(n)][1..] == [];
    assert Fill([], []) == "" && Suits([], []);
    assert Suits([Number], [Decimal(n)]);
    assert VALUE == [Lit("\"} ")] + [Number];
    AddLit("\"} ", [Number], [Decimal(n)]);
  }

  /** A gauge line is its name, its label, the stage in quotes and the value. */
  lemma {:induction false} GaugeSuits(name: string, tag: string, stage: string, n: nat)
    requires stage != "" && '\"' !in stage
    ensures Suits([Lit(name), Lit(tag), Quoted] + VALUE, [stage, Decimal(n)])
    ensures name <= Fill([Lit(name), Lit(tag), Quoted] + VALUE, [stage, Decimal(n)])
  {
    ValueSuits(n);
    AddQuoted(stage, VALUE, [Decimal(n)]);
    assert [stage] + [Decimal(n)] == [stage, Decimal(n)];
    AddLit(tag, [Quoted] + VALUE, [stage, Decimal(n)]);
    AddLit(name, [Lit(tag)] + ([Quoted] + VALUE), [stage, Decimal(n)]);
    assert [Lit(name)] + ([Lit(tag)] + ([Quoted] + VALUE)) == [Lit(name), Lit(tag), Quoted] + VALUE;
  }

  lemma {:induction false} RequestSuits(name: string, tag: string, handler: string, tag': string, status: int, n: nat)
    requires handler != "" && '\"' !in handler && tag' != "" && tag'[0] == '\"'
    ensures Suits([Lit(name), Lit(tag), Quoted, Lit(tag'), Quoted] + VALUE, [handler, Decimal(status), Decimal(n)])
    ensures name <= Fill([Lit(name), Lit(tag), Quoted, Lit(tag'), Quoted] + VALUE, [handler, Decimal(status), Decimal(n)])
  {
    ValueSuits(n);
    AddQuoted(Decimal(status), VALUE, [Decimal(n)]);
    assert [Decimal(status)] + [Decimal(n)] == [Decimal(status), Decimal(n)];
    AddLit(tag', [Quoted] + VALUE, [Decimal(status), Decimal(n)]);
    AddQuoted(handler, [Lit(tag')] + ([Quoted] + VALUE), [Decimal(status), Decimal(n)]);
    assert [handler] + [Decimal(status), Decimal(n)] == [handler, Decimal(status), Decimal(n)];
    var rest := [Quoted] + ([Lit(tag')] + ([Quoted] + VALUE));
    AddLit(tag, rest, [handler, Decimal(status), Decimal(n)]);
    AddLit(name, [Lit(tag)] + rest, [handler, Decimal(status), Decimal(n)]);
    assert [Lit(name)] + ([Lit(tag)] + rest) == [Lit(name), Lit(tag), Quoted, Lit(tag'), Quoted] + VALUE;
  }

  lemma {:induction false} NamesApart(line: string)
    ensures REQUESTS <= line ==> line != "" && line[0] != '#'
    ensures OVERHEAD <= line ==> line != "" && line[0] != '#' && !(REQUESTS <= line)
    ensures LATENCY <= line ==> line != "" && line[0] != '#' && !(REQUESTS <= line) && !(OVERHEAD <= line)
  {
    assert REQUESTS[8] == 'r' && OVERHEAD[8] == 's' && LATENCY[8] == 'd';
    assert REQUESTS[0] == 'g' && OVERHEAD[0] == 'g' && LATENCY[0] == 'g';
  }

  lemma {:induction false} ParseRequestLine(js: Js, p: Parsed, handler: string, status: int, n: nat)
    requires ExactWhenSafe(js) && n <= MAX_SAFE && handler != "" && '\"' !in handler
    ensures ParseLine(js, p, Fill(REQUEST_LINE, [handler, Decimal(status), Decimal(n)]))
         == p.(requests := p.requests + [Entry(handler, Decimal(status), n)])
  {
    var captures := [handler, Decimal(status), Decimal(n)];
    RequestSuits(REQUESTS, "{handler=\"", handler, "\",status=\"", status, n);
    assert REQUEST_LINE == [Lit(REQUESTS), Lit("{handler=\""), Quoted, Lit("\",status=\""), Quoted] + VALUE;
    MatchFill(REQUEST_LINE, captures);
    NamesApart(Fill(REQUEST_LINE, captures));
    ParseIntOfDecimal(js, n);
  }

  lemma {:induction false} ParseOverheadLine(js: Js, p: Parsed, stage: string, n: nat)
    requires ExactWhenSafe(js) && n <= MAX_SAFE && stage != "" && '\"' !in stage
    ensures ParseLine(js, p, Fill(OVERHEAD_LINE, [stage, Decimal(n)])) == p.(overhead := p.overhead[stage := n])
  {
    GaugeSuits(OVERHEAD, "{stage=\"", stage, n);
    assert OVERHEAD_LINE == [Lit(OVERHEAD), Lit("{stage=\""), Quoted] + VALUE;
    MatchFill(OVERHEAD_LINE, [stage, Decimal(n)]);
    NamesApart(Fill(OVERHEAD_LINE, [stage, Decimal(n)]));
    ParseIntOfDecimal(js, n);
  }

  lemma {:induction false} ParseLatencyLine(js: Js, p: Parsed, operation: string, n: nat)
    requires ExactWhenSafe(js) && n <= MAX_SAFE && operation != "" && '\"' !in operation
    ensures ParseLine(js, p, Fill(LATENCY_LINE, [operation, Decimal(n)])) == p.(latency := p.latency[operation := n])
  {
    GaugeSuits(LATENCY, "{operation=\"", operation, n);
    assert LATENCY_LINE == [Lit(LATENCY), Lit("{operation=\""), Quoted] + VALUE;
    MatchFill(LATENCY_LINE, [operation, Decimal(n)]);
    NamesApart(Fill(LATENCY_LINE, [operation, Decimal(n)]));
    ParseIntOfDecimal(js, n);
  }

  // ----- the whole text

  lemma {:induction false} ParseOne(js: Js, p: Parsed, line: string)
    ensures ParseLines(js, p, [line]) == ParseLine(js, p, line)
  {
    assert [line][..0] == [];
  }

  lemma {:induction false} ParseTwo(js: Js, p: Parsed, a: string, b: string)
    ensures ParseLines(js, p, [a, b]) == ParseLine(js, ParseLine(js, p, a), b)
  {
    assert [a, b] == [a] + [b];
    ParseLinesConcat(js, p, [a], [b]);
    ParseOne(js, p, a);
    ParseOne(js, ParseLine(js, p, a), b);
  }

  lemma {:induction false} ParseComments(js: Js, p: Parsed, name: string, help: string, kind: string)
    ensures ParseLines(js, p, Comments(name, help, kind)) == p
    ensures ParseLines(js, p, [""] + Comments(name, help, kind)) == p
  {
    ParseTwo(js, p, Comments(name, help, kind)[0], Comments(name, help, kind)[1]);
    ParseLinesConcat(js, p, [""], Comments(name, help, kind));
    ParseOne(js, p, "");
  }

  /** Handlers the text can carry: not empty, no quote, no line break.  Colons and braces are welcome. */
  predicate Printable(handler: string) {
    handler != "" && '\"' !in handler && '\n' !in handler
  }

  predicate Safe(n: int) {
    0 <= n <= MAX_SAFE
  }

  ghost predicate SafeSnapshot(s: Snapshot) {
    && (forall k :: k in s.requests ==> Printable(KeyParts(k).0) && s.requests[k] <= MAX_SAFE)
    && Safe(s.dpop) && Safe(s.token) && Safe(s.ziti) && Safe(s.pdp) && Safe(s.rlsContext) && Safe(s.wormExec)
  }

  function EntryOf(key: string, count: nat): Entry {
    Entry(KeyParts(key).0, Decimal(KeyParts(key).1), count)
  }

  function Entries(requests: map<string, nat>, order: seq<string>): seq<Entry>
    requires forall k :: k in order ==> k in requests
  {
    seq(|order|, i requires 0 <= i < |order| => EntryOf(order[i], requests[order[i]]))
  }

  lemma {:induction false} ParseLastRequest(js: Js, p: Parsed, key: string, count: nat)
    requires ExactWhenSafe(js) && Printable(KeyParts(key).0) && count <= MAX_SAFE
    ensures ParseLines(js, p, [RequestLine(key, count)]) == p.(requests := p.requests + [EntryOf(key, count)])
  {
    ParseOne(js, p, RequestLine(key, count));
    ParseRequestLine(js, p, KeyParts(key).0, KeyParts(key).1, count);
  }

  lemma {:induction false} ParseRequestLines(js: Js, p: Parsed, requests: map<string, nat>, order: seq<string>)
    requires ExactWhenSafe(js)
    requires forall k :: k in order ==> k in requests && Printable(KeyParts(k).0) && requests[k] <= MAX_SAFE
    ensures ParseLines(js, p, RequestLines(requests, order)) == p.(requests := p.requests + Entries(requests, order))
  {
    if order == [] {
      assert p.requests + [] == p.requests;
    } else {
      var front, k := order[..|order| - 1], order[|order| - 1];
      assert k in order;
      ParseRequestLines(js, p, requests, front);
      ParseLinesConcat(js, p, RequestLines(requests, front), [RequestLine(k, requests[k])]);
      ParseLastRequest(js, p.(requests := p.requests + Entries(requests, front)), k, requests[k]);
      assert p.requests + Entries(requests, order) == p.requests + Entries(requests, front) + [EntryOf(k, requests[k])];
    }
  }

  function WithOverhead(p: Parsed, s: Snapshot): Parsed
    requires Safe(s.dpop) && Safe(s.token) && Safe(s.ziti) && Safe(s.pdp)
  {
    p.(overhead := p.overhead["dpop" := s.dpop]["token" := s.token]["ziti" := s.ziti]["pdp_grpc" := s.pdp])
  }

  function WithLatency(p: Parsed, s: Snapshot): Parsed
    requires Safe(s.rlsContext) && Safe(s.wormExec)
  {
    p.(latency := p.latency["rls_context" := s.rlsContext]["worm_exec" := s.wormExec])
  }

  lemma {:induction false} ParseOverhead(js: Js, p: Parsed, s: Snapshot)
    requires ExactWhenSafe(js) && SafeSnapshot(s)
    ensures ParseLines(js, p, OverheadLines(s)) == WithOverhead(p, s)
  {
    var ls := OverheadLines(s);
    assert ls == [ls[0], ls[1]] + [ls[2], ls[3]];
    ParseLinesConcat(js, p, [ls[0], ls[1]], [ls[2], ls[3]]);
    ParseTwo(js, p, ls[0], ls[1]);
    ParseOverheadLine(js, p, "dpop", s.dpop);
    var p1 := ParseLine(js, p, ls[0]);
    ParseOverheadLine(js, p1, "token", s.token);
    var p2 := ParseLine(js, p1, ls[1]);
    ParseTwo(js, p2, ls[2], ls[3]);
    ParseOverheadLine(js, p2, "ziti", s.ziti);
    ParseOverheadLine(js, ParseLine(js, p2, ls[2]), "pdp_grpc", s.pdp);
  }

  lemma {:induction false} ParseLatency(js: Js, p: Parsed, s: Snapshot)
    requires ExactWhenSafe(js) && SafeSnapshot(s)
    ensures ParseLines(js, p, LatencyLines(s)) == WithLatency(p, s)
  {
    var ls := LatencyLines(s);
    ParseTwo(js, p, ls[0], ls[1]);
    ParseLatencyLine(js, p, "rls_context", s.rlsContext);
    ParseLatencyLine(js, ParseLine(js, p, ls[0]), "worm_exec", s.wormExec);
  }

  // ----- no line of the text contains a line break

  predicate OneLine(s: string) {
    '\n' !in s
  }

  lemma {:induction false} FillIsOneLine(pattern: seq<Piece>, captures: seq<string>)
    requires forall x :: x in pattern && x.Lit? ==> OneLine(x.text)
    requires forall c :: c in captures ==> OneLine(c)
    ensures OneLine(Fill(pattern, captures))
    decreases |pattern|
  {
    if pattern != [] {
      assert pattern[0] in pattern;
      if pattern[0].Lit? {
        FillIsOneLine(pattern[1..], captures);
      } else if captures != [] {
        assert captures[0] in captures;
        FillIsOneLine(pattern[1..], captures[1..]);
      }
    }
  }

  lemma {:induction false} NamesAreOneLine()
    ensures OneLine(REQUESTS) && OneLine(OVERHEAD) && OneLine(LATENCY)
  {
  }

  lemma {:induction false} RequestsHelpIsOneLine()
    ensures OneLine(REQUESTS_HELP)
  {
    assert OneLine("Total number of HTTP requests") && OneLine(" processed by the API Gateway.");
  }

  lemma {:induction false} OverheadHelpIsOneLine()
    ensures OneLine(OVERHEAD_HELP)
  {
    assert OneLine("Latency of security layer") && OneLine(" checks in microseconds.");
  }

  lemma {:induction false} LatencyHelpIsOneLine()
    ensures OneLine(LATENCY_HELP)
  {
    assert OneLine("Latency of database transaction") && OneLine(" and security operations in") && OneLine(" microseconds.");
  }

  lemma {:induction false} CommentsAreOneLine(name: string, help: string, kind: string)
    requires OneLine(name) && OneLine(help) && OneLine(kind)
    ensures NoNewlines(Comments(name, help, kind))
  {
  }

  lemma {:induction false} RequestLinesAreOneLine(requests: map<string, nat>, order: seq<string>)
    requires forall k :: k in order ==> k in requests && Printable(KeyParts(k).0)
    ensures NoNewlines(RequestLines(requests, order))
  {
    if order != [] {
      var k := order[|order| - 1];
      RequestLinesAreOneLine(requests, order[..|order| - 1]);
      NamesAreOneLine();
      FillIsOneLine(REQUEST_LINE, [KeyParts(k).0, Decimal(KeyParts(k).1), Decimal(requests[k])]);
    }
  }

  lemma {:induction false} GaugeIsOneLine(name: string, tag: string, stage: string, n: int)
    requires OneLine(name) && OneLine(tag) && OneLine(stage)
    ensures OneLine(Fill([Lit(name), Lit(tag), Quoted, Lit("\"} "), Number], [stage, Decimal(n)]))
  {
    FillIsOneLine([Lit(name), Lit(tag), Quoted, Lit("\"} "), Number], [stage, Decimal(n)]);
  }

  lemma {:induction false} GaugesAreOneLineEach(s: Snapshot)
    ensures NoNewlines(OverheadLines(s)) && NoNewlines(LatencyLines(s))
  {
    NamesAreOneLine();
    GaugeIsOneLine(OVERHEAD, "{stage=\"", "dpop", s.dpop);
    GaugeIsOneLine(OVERHEAD, "{stage=\"", "token", s.token);
    GaugeIsOneLine(OVERHEAD, "{stage=\"", "ziti", s.ziti);
    GaugeIsOneLine(OVERHEAD, "{stage=\"", "pdp_grpc", s.pdp);
    GaugeIsOneLine(LATENCY, "{operation=\"", "rls_context", s.rlsContext);
    GaugeIsOneLine(LATENCY, "{operation=\"", "worm_exec", s.wormExec);
  }

  lemma {:induction false} TextIsOneLineEach(s: Snapshot, order: seq<string>)
    requires forall k :: k in order ==> k in s.requests && Printable(KeyParts(k).0)
    ensures NoNewlines(HEAD + RequestLines(s.requests, order) + Tail(s))
  {
    NamesAreOneLine();
    RequestsHelpIsOneLine();
    OverheadHelpIsOneLine();
    LatencyHelpIsOneLine();
    CommentsAreOneLine(REQUESTS, REQUESTS_HELP, "counter");
    CommentsAreOneLine(OVERHEAD, OVERHEAD_HELP, "gauge");
    CommentsAreOneLine(LATENCY, LATENCY_HELP, "gauge");
    RequestLinesAreOneLine(s.requests, order);
    GaugesAreOneLineEach(s);
  }

  // ----- the round trip

  function Expected(s: Snapshot, order: seq<string>): Parsed
    requires Safe(s.dpop) && Safe(s.token) && Safe(s.ziti) && Safe(s.pdp) && Safe(s.rlsContext) && Safe(s.wormExec)
    requires forall k :: k in order ==> k in s.requests
  {
    Parsed(Entries(s.requests, order),
           map["dpop" := s.dpop, "token" := s.token, "ziti" := s.ziti, "pdp_grpc" := s.pdp],
           map["rls_context" := s.rlsContext, "worm_exec" := s.wormExec])
  }

  /** Reading the served text gives back every counter, in the order printed, and every gauge. */
  lemma {:induction false} ServedTextIsReadBack(js: Js, s: Snapshot, order: seq<string>)
    requires ExactWhenSafe(js) && SafeSnapshot(s) && IsOrder(order, s.requests)
    ensures ParseLines(js, EMPTY, SplitLines(Unlines(HEAD + RequestLines(s.requests, order) + Tail(s)))) == Expected(s, order)
  {
    var lines := HEAD + RequestLines(s.requests, order) + Tail(s);
    TextIsOneLineEach(s, order);
    SplitAfterUnlines(lines, "");
    assert Unlines(lines) + "" == Unlines(lines);
    ParseLinesConcat(js, EMPTY, lines, [""]);
    ParseOne(js, ParseLines(js, EMPTY, lines), "");
    ParseAllLines(js, s, order);
  }

  lemma {:induction false} ParseAllLines(js: Js, s: Snapshot, order: seq<string>)
    requires ExactWhenSafe(js) && SafeSnapshot(s) && IsOrder(order, s.requests)
    ensures ParseLines(js, EMPTY, HEAD + RequestLines(s.requests, order) + Tail(s)) == Expected(s, order)
  {
    ParseLinesConcat(js, EMPTY, HEAD + RequestLines(s.requests, order), Tail(s));
    ParseLinesConcat(js, EMPTY, HEAD, RequestLines(s.requests, order));
    ParseComments(js, EMPTY, REQUESTS, REQUESTS_HELP, "counter");
    ParseRequestLines(js, EMPTY, s.requests, order);
    var counted := EMPTY.(requests := Entries(s.requests, order));
    assert EMPTY.requests + Entries(s.requests, order) == Entries(s.requests, order);
    ParseTail(js, counted, s);
    GaugesReplaceDefaults(s);
  }

  /** Every gauge the parser starts with at zero is overwritten. */
  lemma {:induction false} GaugesReplaceDefaults(s: Snapshot)
    requires SafeSnapshot(s)
    ensures WithOverhead(EMPTY, s).overhead == map["dpop" := s.dpop, "token" := s.token, "ziti" := s.ziti, "pdp_grpc" := s.pdp]
    ensures WithLatency(EMPTY, s).latency == map["rls_context" := s.rlsContext, "worm_exec" := s.wormExec]
  {
  }

  lemma {:induction false} ParseTail(js: Js, p: Parsed, s: Snapshot)
    requires ExactWhenSafe(js) && SafeSnapshot(s)
    ensures ParseLines(js, p, Tail(s)) == WithLatency(WithOverhead(p, s), s)
  {
    var a, b := [""] + Comments(OVERHEAD, OVERHEAD_HELP, "gauge"), [""] + Comments(LATENCY, LATENCY_HELP, "gauge");
    assert Tail(s) == a + OverheadLines(s) + b + LatencyLines(s);
    ParseLinesConcat(js, p, a + OverheadLines(s) + b, LatencyLines(s));
    ParseLinesConcat(js, p, a + OverheadLines(s), b);
    ParseLinesConcat(js, p, a, OverheadLines(s));
    ParseComments(js, p, OVERHEAD, OVERHEAD_HELP, "gauge");
    ParseOverhead(js, p, s);
    ParseComments(js, WithOverhead(p, s), LATENCY, LATENCY_HELP, "gauge");
    ParseLatency(js, WithOverhead(p, s), s);
  }

  // ----- from increments to the dashboard

  /** The dashboard's throughput: all counts added up. */
  function Throughput(entries: seq<Entry>): nat {
    if entries == [] then 0 else Throughput(entries[..|entries| - 1]) + entries[|entries| - 1].count
  }

  lemma {:induction false} ThroughputIsTotal(requests: map<string, nat>, order: seq<string>)
    requires forall k :: k in order ==> k in requests
    ensures Throughput(Entries(requests, order)) == Total(requests, order)
  {
    if order != [] {
      ThroughputIsTotal(requests, order[..|order| - 1]);
      assert Entries(requests, order)[..|order| - 1] == Entries(requests, order[..|order| - 1]);
    }
  }

  lemma {:induction false} OccurrencesBounded(history: seq<(string, int)>, event: (string, int))
    ensures Occurrences(history, event) <= |history|
  {
    if history != [] {
      OccurrencesBounded(history[..|history| - 1], event);
    }
  }

  /** The counters of a history of printable handlers, shorter than 2^53, are safe to print. */
  lemma {:induction false} HistoryIsSafe(history: seq<(string, int)>, key: string) returns (event: (string, int))
    requires (forall e :: e in history ==> Printable(e.0)) && |history| <= MAX_SAFE && key in Counters(history)
    ensures event in history && key == Key(event.0, event.1) && KeyParts(key) == event
    ensures Counters(history)[key] == Occurrences(history, event) <= MAX_SAFE
  {
    KeysComeFromHistory(history, key);
    var i :| 0 <= i < |history| && key == Key(history[i].0, history[i].1);
    event := history[i];
    KeyRoundTrip(event.0, event.1);
    CounterOfPair(history, event.0, event.1);
    OccurrencesBounded(history, event);
  }

  /** The printed order lists each pair of the history once, with its number of occurrences. */
  lemma {:induction false} OrderListsHistory(history: seq<(string, int)>, order: seq<string>)
    requires (forall e :: e in history ==> Printable(e.0)) && |history| <= MAX_SAFE && IsOrder(order, Counters(history))
    ensures forall i :: 0 <= i < |order| ==>
      KeyParts(order[i]) in history && Counters(history)[order[i]] == Occurrences(history, KeyParts(order[i])) <= MAX_SAFE
    ensures forall i, j :: 0 <= i < j < |order| ==> KeyParts(order[i]) != KeyParts(order[j])
  {
    forall i | 0 <= i < |order|
      ensures KeyParts(order[i]) in history && order[i] == Key(KeyParts(order[i]).0, KeyParts(order[i]).1)
      ensures Counters(history)[order[i]] == Occurrences(history, KeyParts(order[i])) <= MAX_SAFE
    {
      assert order[i] in order;
      var event := HistoryIsSafe(history, order[i]);
    }
  }

  lemma {:induction false} OrderIsComplete(history: seq<(string, int)>, order: seq<string>, event: (string, int)) returns (i: nat)
    requires IsOrder(order, Counters(history)) && event in history
    ensures i < |order| && KeyParts(order[i]) == event
  {
    OccursWhenIn(history, event);
    CounterOfPair(history, event.0, event.1);
    KeyRoundTrip(event.0, event.1);
    assert Key(event.0, event.1) in order;
    i :| 0 <= i < |order| && order[i] == Key(event.0, event.1);
  }

  lemma {:induction false} HistorySnapshotIsSafe(history: seq<(string, int)>, s: Snapshot)
    requires (forall e :: e in history ==> Printable(e.0)) && |history| <= MAX_SAFE && s.requests == Counters(history)
    requires Safe(s.dpop) && Safe(s.token) && Safe(s.ziti) && Safe(s.pdp) && Safe(s.rlsContext) && Safe(s.wormExec)
    ensures SafeSnapshot(s)
  {
    forall k | k in s.requests ensures Printable(KeyParts(k).0) && s.requests[k] <= MAX_SAFE {
      var event := HistoryIsSafe(history, k);
    }
  }

  function Shown(js: Js, s: Snapshot, order: seq<string>): Parsed
    requires forall k :: k in order ==> k in s.requests
  {
    ParseLines(js, EMPTY, SplitLines(Unlines(HEAD + RequestLines(s.requests, order) + Tail(s))))
  }

  /**
   * What the dashboard shows after any history of increments: for every (handler, status) that
   * occurred exactly one entry, with the number of its occurrences, no other entry, and a
   * throughput equal to the number of increments.
   */
  lemma {:induction false} DashboardShowsHistory(js: Js, history: seq<(string, int)>, s: Snapshot, order: seq<string>)
    requires ExactWhenSafe(js) && s.requests == Counters(history) && IsOrder(order, s.requests)
    requires (forall e :: e in history ==> Printable(e.0)) && |history| <= MAX_SAFE
    requires Safe(s.dpop) && Safe(s.token) && Safe(s.ziti) && Safe(s.pdp) && Safe(s.rlsContext) && Safe(s.wormExec)
    ensures Throughput(Shown(js, s, order).requests) == |history|
    ensures |Shown(js, s, order).requests| == |order|
    ensures Shown(js, s, order).overhead == map["dpop" := s.dpop, "token" := s.token, "ziti" := s.ziti, "pdp_grpc" := s.pdp]
    ensures Shown(js, s, order).latency == map["rls_context" := s.rlsContext, "worm_exec" := s.wormExec]
    ensures forall i :: 0 <= i < |order| ==>
      && KeyParts(order[i]) in history
      && Shown(js, s, order).requests[i]
         == Entry(KeyParts(order[i]).0, Decimal(KeyParts(order[i]).1), Occurrences(history, KeyParts(order[i])))
    ensures forall e :: e in history ==> exists i :: 0 <= i < |order| && KeyParts(order[i]) == e
    ensures forall i, j :: 0 <= i < j < |order| ==> KeyParts(order[i]) != KeyParts(order[j])
  {
    HistorySnapshotIsSafe(history, s);
    ServedTextIsReadBack(js, s, order);
    ThroughputIsTotal(s.requests, order);
    CountersAddUp(history, order);
    OrderListsHistory(history, order);
    forall e | e in history ensures exists i :: 0 <= i < |order| && KeyParts(order[i]) == e {
      var i := OrderIsComplete(history, order, e);
    }
  }

  lemma {:induction false} OccursWhenIn(history: seq<(string, int)>, event: (string, int))
    requires event in history
    ensures Occurrences(history, event) > 0
  {
    if history[|history| - 1] != event {
      OccursWhenIn(history[..|history| - 1], event);
    }
  }
}
