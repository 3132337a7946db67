/** The signature converter of the benchmark route: DER in, the 64 raw bytes of JOSE out. */
module DerToJose {
  import opened Common
  import opened Bytes

  /** A JavaScript number that may be NaN; reading past a buffer gives such a value. */
  type Num = Option<int>

  function Plus(a: Num, b: int): Num {
    if a.Some? then Some(a.value + b) else None
  }

  /** `buf[i]`: undefined outside the buffer. */
  function At(buf: seq<Byte>, i: Num): Num {
    if i.Some? && 0 <= i.value < |buf| then Some(buf[i.value]) else None
  }

  /** How `subarray` reads one bound: NaN counts as 0, a number is cut to the buffer. */
  function Bound(buf: seq<Byte>, i: Num): (b: nat)
    requires i.Some? ==> 0 <= i.value
    ensures b <= |buf|
  {
    if i.None? then 0 else if i.value <= |buf| then i.value else |buf|
  }

  /** `buf.subarray(from, to)` for bounds that are not negative. */
  function Subarray(buf: seq<Byte>, from: Num, to: Num): seq<Byte>
    requires from.Some? ==> 0 <= from.value
    requires to.Some? ==> 0 <= to.value
  {
    if Bound(buf, from) <= Bound(buf, to) then buf[Bound(buf, from)..Bound(buf, to)] else []
  }

  /** The DER content of a positive INTEGER: minimal, with a zero byte when the top bit is set. */
  function IntegerContent(n: nat): seq<Byte>
    requires n > 0
  {
    NoLeadingZero(n);
    if ToBytes(n)[0] >= 128 then [0] + ToBytes(n) else ToBytes(n)
  }

  /** r and s of a P-256 signature lie in this range. */
  predicate InRange(n: nat) {
    n > 0 && Fits(n, 32)
  }

  lemma IntegerContentLength(n: nat)
    requires InRange(n)
    ensures 1 <= |IntegerContent(n)| <= 33
  {
    NoLeadingZero(n);
  }

  /** SEQUENCE { INTEGER r, INTEGER s }, all lengths in the short form. */
  function Der(r: nat, s: nat): seq<Byte>
    requires InRange(r) && InRange(s)
  {
    IntegerContentLength(r);
    IntegerContentLength(s);
    var rc, sc := IntegerContent(r), IntegerContent(s);
    [0x30, 4 + |rc| + |sc|] + [2, |rc|] + rc + [2, |sc|] + sc
  }

  /** What JOSE wants: r then s, each in 32 big-endian bytes. */
  function Jose(r: nat, s: nat): (out: seq<Byte>)
    requires InRange(r) && InRange(s)
    ensures |out| == 64
    ensures FromBytes(out[..32]) == r && FromBytes(out[32..]) == s
  {
    FixedRoundTrip(r, 32);
    FixedRoundTrip(s, 32);
    var out := Fixed(r, 32) + Fixed(s, 32);
    assert out[..32] == Fixed(r, 32) && out[32..] == Fixed(s, 32);
    out
  }

  /** `if (x.length === 33 && x[0] === 0) x = x.subarray(1)` */
  function DropSignByte(part: seq<Byte>): seq<Byte> {
    if |part| == 33 && part[0] == 0 then part[1..] else part
  }

  /** Where the converter finds r and s, whatever the buffer holds. */
  function RPart(sig: seq<Byte>): seq<Byte> {
    var rLen := At(sig, Some(3));
    Subarray(sig, Some(4), Plus(rLen, 4))
  }

  function SPart(sig: seq<Byte>): seq<Byte> {
    var sTag := Plus(At(sig, Some(3)), 4);
    var sLen := At(sig, Plus(sTag, 1));
    Subarray(sig, Plus(sTag, 2), if sTag.None? then None else Plus(sLen, sTag.value + 2))
  }

  lemma PartsOfDer(r: nat, s: nat)
    requires InRange(r) && InRange(s)
    ensures RPart(Der(r, s)) == IntegerContent(r)
    ensures SPart(Der(r, s)) == IntegerContent(s)
  {
    IntegerContentLength(r);
    IntegerContentLength(s);
    var rc, sc, sig := IntegerContent(r), IntegerContent(s), Der(r, s);
    assert sig[3] == |rc|;
    assert sig[4..4 + |rc|] == rc;
    assert sig[4 + |rc| + 1] == |sc|;
    assert sig[6 + |rc|..6 + |rc| + |sc|] == sc;
  }

  /** Dropping the sign byte of a DER INTEGER leaves its plain bytes, give or take the padding. */
  lemma SignByteAndPadding(n: nat)
    requires InRange(n)
    ensures |DropSignByte(IntegerContent(n))| <= 32
    ensures Zeros(32 - |DropSignByte(IntegerContent(n))|) + DropSignByte(IntegerContent(n))
         == Fixed(n, 32)
  {
    NoLeadingZero(n);
    var c, k := IntegerContent(n), |ToBytes(n)|;
    if c[0] == 0 && k < 32 {
      assert Zeros(32 - k) == Zeros(32 - k - 1) + [0];
      assert Zeros(32 - |c|) + c == Zeros(32 - k) + ToBytes(n);
    }
  }

  /** The 64 bytes that two parts of at most 32 bytes are laid out as. */
  function Padded(r: seq<Byte>, s: seq<Byte>): (out: seq<Byte>)
    requires |r| <= 32 && |s| <= 32
    ensures |out| == 64
  {
    Zeros(32 - |r|) + r + (Zeros(32 - |s|) + s)
  }

  predicate PartsFit(sig: seq<Byte>) {
    |DropSignByte(RPart(sig))| <= 32 && |DropSignByte(SPart(sig))| <= 32
  }

  /** On a DER signature both parts fit and their layout is the JOSE form. */
  lemma DerIsPaddedToJose(r: nat, s: nat)
    requires InRange(r) && InRange(s)
    ensures PartsFit(Der(r, s))
    ensures Padded(DropSignByte(RPart(Der(r, s))), DropSignByte(SPart(Der(r, s)))) == Jose(r, s)
  {
    PartsOfDer(r, s);
    SignByteAndPadding(r);
    SignByteAndPadding(s);
  }

  /** On any buffer the two halves of the layout hold the values of the two parts. */
  lemma PaddedPartsKeepTheirValue(sig: seq<Byte>)
    requires PartsFit(sig)
    ensures var out := Padded(DropSignByte(RPart(sig)), DropSignByte(SPart(sig)));
            FromBytes(out[..32]) == FromBytes(RPart(sig)) && FromBytes(out[32..]) == FromBytes(SPart(sig))
  {
    var r, s := DropSignByte(RPart(sig)), DropSignByte(SPart(sig));
    assert Padded(r, s)[..32] == Zeros(32 - |r|) + r && Padded(r, s)[32..] == Zeros(32 - |s|) + s;
    DropKeepsValue(RPart(sig));
    DropKeepsValue(SPart(sig));
    LeadingZeros(32 - |r|, r);
    LeadingZeros(32 - |s|, s);
  }

  /**
   * The converter, on any buffer at all.  A part longer than 32 bytes makes
   * `copy` throw, because its target position would be negative.
   */
  method Convert(sig: seq<Byte>) returns (out: Result<seq<Byte>>)
    ensures out.Ok? <==> PartsFit(sig)
    ensures out.Ok? ==> (
      && |out.value| == 64
      && FromBytes(out.value[..32]) == FromBytes(RPart(sig))
      && FromBytes(out.value[32..]) == FromBytes(SPart(sig)))
    ensures forall r: nat, s: nat :: InRange(r) && InRange(s) && sig == Der(r, s) ==> out == Ok(Jose(r, s))
  {
    var rLen := At(sig, Some(3));
    var r := Subarray(sig, Some(4), Plus(rLen, 4));
    if |r| == 33 && r[0] == 0 {
      r := r[1..];
    }
    var sTagPos := Plus(rLen, 4);
    var sLen := At(sig, Plus(sTagPos, 1));
    var s := Subarray(sig, Plus(sTagPos, 2), if sTagPos.None? then None else Plus(sLen, sTagPos.value + 2));
    if |s| == 33 && s[0] == 0 {
      s := s[1..];
    }
    assert r == DropSignByte(RPart(sig)) && s == DropSignByte(SPart(sig));
    forall a: nat, b: nat | InRange(a) && InRange(b) && sig == Der(a, b)
      ensures PartsFit(sig) && Padded(r, s) == Jose(a, b)
    {
      DerIsPaddedToJose(a, b);
    }
    if |r| > 32 || |s| > 32 {
      return Err("ERR_OUT_OF_RANGE: targetStart");
    }
    var rPad := CopyIntoPad(r);
    var sPad := CopyIntoPad(s);
    out := Ok(rPad[..] + sPad[..]);
    PaddedPartsKeepTheirValue(sig);
  }

  lemma DropKeepsValue(part: seq<Byte>)
    ensures FromBytes(DropSignByte(part)) == FromBytes(part)
  {
    if |part| == 33 && part[0] == 0 {
      assert part == Zeros(1) + part[1..];
      LeadingZeros(1, part[1..]);
    }
  }

  /** A fresh zero buffer of 32 bytes with `part` copied to its end. */
  method CopyIntoPad(part: seq<Byte>) returns (pad: array<Byte>)
    requires |part| <= 32
    ensures fresh(pad) && pad[..] == Zeros(32 - |part|) + part
  {
    pad := new Byte[32](_ => 0);
    var at := 32 - |part|;
    for i := 0 to |part|
      invariant forall j :: 0 <= j < at ==> pad[j] == 0
      invariant forall j :: 0 <= j < i ==> pad[at + j] == part[j]
    {
      pad[at + i] := part[i];
    }
  }

  /** Two signatures with the same JOSE form are the same signature. */
  lemma JoseInjective(r: nat, s: nat, r': nat, s': nat)
    requires InRange(r) && InRange(s) && InRange(r') && InRange(s')
    requires Jose(r, s) == Jose(r', s')
    ensures r == r' && s == s'
  {
    assert FromBytes(Jose(r, s)[..32]) == FromBytes(Jose(r', s')[..32]);
  }
}
