/** base64.RawURLEncoding of Go: the URL alphabet, no padding, not strict. */
module Base64Url {
  import opened Common
  import opened Bytes

  function CharOf(v: int): (c: char)
    requires 0 <= v < 64
    ensures ValueOf(c) == v
  {
    if v < 26 then (65 + v) as char
    else if v < 52 then (71 + v) as char
    else if v < 62 then (v - 4) as char
    else if v == 62 then '-' else '_'
  }

  /** The value of a character, or -1 outside the alphabet. */
  function ValueOf(c: char): (v: int)
    ensures -1 <= v < 64
  {
    if 'A' <= c <= 'Z' then c as int - 65
    else if 'a' <= c <= 'z' then c as int - 71
    else if '0' <= c <= '9' then c as int + 4
    else if c == '-' then 62 else if c == '_' then 63 else -1
  }

  predicate InAlphabet(s: string) {
    forall i :: 0 <= i < |s| ==> ValueOf(s[i]) >= 0
  }

  type Sextet = v: int | 0 <= v < 64

  /** Every three bytes give four six-bit values; one or two bytes left over give two or three. */
  function Sextets(bs: seq<Byte>): seq<Sextet> {
    if |bs| == 0 then []
    else if |bs| == 1 then [bs[0] / 4, bs[0] % 4 * 16]
    else if |bs| == 2 then [bs[0] / 4, bs[0] % 4 * 16 + bs[1] / 16, bs[1] % 16 * 4]
    else [bs[0] / 4, bs[0] % 4 * 16 + bs[1] / 16, bs[1] % 16 * 4 + bs[2] / 64, bs[2] % 64] + Sextets(bs[3..])
  }

  /** The three bytes that four six-bit values hold. */
  function Byte0(v0: Sextet, v1: Sextet): Byte { v0 as int * 4 + v1 as int / 16 }
  function Byte1(v1: Sextet, v2: Sextet): Byte { v1 as int % 16 * 16 + v2 as int / 4 }
  function Byte2(v2: Sextet, v3: Sextet): Byte { v2 as int % 4 * 64 + v3 as int }

  /** The bytes of a list of six-bit values; a single value left over is an error, spare low bits are not. */
  function Join(vs: seq<Sextet>): Option<seq<Byte>> {
    if |vs| == 0 then Some([])
    else if |vs| == 1 then None
    else if |vs| == 2 then Some([Byte0(vs[0], vs[1])])
    else if |vs| == 3 then Some([Byte0(vs[0], vs[1]), Byte1(vs[1], vs[2])])
    else
      var rest := Join(vs[4..]);
      if rest.None? then None
      else Some([Byte0(vs[0], vs[1]), Byte1(vs[1], vs[2]), Byte2(vs[2], vs[3])] + rest.value)
  }

  function Encode(bs: seq<Byte>): string {
    seq(|Sextets(bs)|, i requires 0 <= i < |Sextets(bs)| => CharOf(Sextets(bs)[i]))
  }

  /** The decoder skips carriage returns and line feeds wherever they stand. */
  function SkipNewlines(s: string): string {
    if s == "" then ""
    else if s[0] == '\r' || s[0] == '\n' then SkipNewlines(s[1..])
    else [s[0]] + SkipNewlines(s[1..])
  }

  function Decode(s: string): Option<seq<Byte>> {
    var t := SkipNewlines(s);
    if InAlphabet(t) then Join(seq(|t|, i requires 0 <= i < |t| => ValueOf(t[i]))) else None
  }

  /** The alphabet of section 5 of RFC 4648. */
  lemma AlphabetInOrder(v: int)
    requires 0 <= v < 64
    ensures CharOf(v) == ("ABCDEFGHIJKLMNOPQRSTUVWXYZ" + "abcdefghijklmnopqrstuvwxyz" + "0123456789-_")[v]
  {
  }

  /** Three bytes, the first one highest, are one number with four digits to the base 64. */
  lemma SextetsHoldTheNumber(b0: Byte, b1: Byte, b2: Byte)
    ensures var s := Sextets([b0, b1, b2]);
      |s| == 4 && ((s[0] as int * 64 + s[1] as int) * 64 + s[2] as int) * 64 + s[3] as int == (b0 as int * 256 + b1 as int) * 256 + b2 as int
    ensures var s := Sextets([b0, b1]); |s| == 3 && (s[0] as int * 64 + s[1] as int) * 64 + s[2] as int == (b0 as int * 256 + b1 as int) * 4
    ensures var s := Sextets([b0]); |s| == 2 && s[0] as int * 64 + s[1] as int == b0 as int * 16
  {
    assert [b0, b1, b2][3..] == [];
  }

  lemma ThreeBytes(b0: Byte, b1: Byte, b2: Byte)
    ensures Byte0(b0 / 4, b0 % 4 * 16 + b1 / 16) == b0
    ensures Byte1(b0 % 4 * 16 + b1 / 16, b1 % 16 * 4 + b2 / 64) == b1
    ensures Byte2(b1 % 16 * 4 + b2 / 64, b2 % 64) == b2
  {
  }

  lemma {:induction false} JoinShort(bs: seq<Byte>)
    requires |bs| < 3
    ensures Join(Sextets(bs)) == Some(bs)
  {
    if |bs| == 1 {
      ThreeBytes(bs[0], 0, 0);
      assert Join(Sextets(bs)).value == bs;
    } else if |bs| == 2 {
      ThreeBytes(bs[0], bs[1], 0);
      assert Join(Sextets(bs)).value == bs;
    }
  }

  lemma {:induction false} JoinSextets(bs: seq<Byte>)
    ensures Join(Sextets(bs)) == Some(bs)
  {
    if |bs| < 3 {
      JoinShort(bs);
    } else {
      var vs := Sextets(bs);
      JoinSextets(bs[3..]);
      ThreeBytes(bs[0], bs[1], bs[2]);
      assert vs[4..] == Sextets(bs[3..]);
      assert Join(vs).value == bs;
    }
  }

  lemma {:induction false} NoNewlinesToSkip(s: string)
    requires InAlphabet(s)
    ensures SkipNewlines(s) == s
  {
    if s != "" {
      NoNewlinesToSkip(s[1..]);
    }
  }

  /** Every byte string is read back from its encoding, so no two share one. */
  lemma DecodeEncode(bs: seq<Byte>)
    ensures Decode(Encode(bs)) == Some(bs)
    ensures InAlphabet(Encode(bs))
  {
    var s, vs := Encode(bs), Sextets(bs);
    NoNewlinesToSkip(s);
    assert seq(|s|, i requires 0 <= i < |s| => ValueOf(s[i])) == vs;
    JoinSextets(bs);
  }

  lemma {:induction false} EncodedLength(bs: seq<Byte>)
    ensures |Encode(bs)| == (|bs| * 4 + 2) / 3
  {
    if |bs| >= 3 {
      EncodedLength(bs[3..]);
    }
  }
}
