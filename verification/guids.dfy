/**
  System.Guid and its "D" format: 32 lower-case hex digits in groups of
  8-4-4-4-12 separated by hyphens, the textual UUID layout of section 3 of
  RFC 4122.
 */
module Guids {
  import opened Wrappers

  type Byte = x: nat | x < 0x100
  type UInt16 = x: nat | x < 0x1_0000
  type UInt32 = x: nat | x < 0x1_0000_0000

  /** The fields of a System.Guid, in the order the "D" format prints them. */
  datatype Guid = Guid(a: UInt32, b: UInt16, c: UInt16,
                       d: Byte, e: Byte, f: Byte, g: Byte, h: Byte, i: Byte, j: Byte, k: Byte)

  function Pow16(n: nat): (p: nat)
    ensures p > 0
  {
    if n == 0 then 1 else 16 * Pow16(n - 1)
  }

  const HexDigits := "0123456789abcdef"

  predicate IsLowerHexDigit(ch: char) {
    '0' <= ch <= '9' || 'a' <= ch <= 'f'
  }

  /** The value of a hex digit of either case, or None for any other character. */
  function DigitValue(ch: char): (r: Option<nat>)
    ensures r.Some? ==> r.value < 16
  {
    if '0' <= ch <= '9' then Some(ch as nat - '0' as nat)
    else if 'a' <= ch <= 'f' then Some(ch as nat - 'a' as nat + 10)
    else if 'A' <= ch <= 'F' then Some(ch as nat - 'A' as nat + 10)
    else None
  }

  lemma DigitRoundTrip(x: nat)
    requires x < 16
    ensures IsLowerHexDigit(HexDigits[x]) && DigitValue(HexDigits[x]) == Some(x)
  {
  }

  /** `n` written with exactly `width` lower-case hex digits, most significant first. */
  function Hex(n: nat, width: nat): (s: string)
    requires n < Pow16(width)
    ensures |s| == width
    ensures forall q :: 0 <= q < |s| ==> IsLowerHexDigit(s[q])
  {
    if width == 0 then []
    else
      DigitRoundTrip(n % 16);
      Hex(n / 16, width - 1) + [HexDigits[n % 16]]
  }

  /** Reads a string of hex digits (either case) as a number; None if any character is not one. */
  function ParseHex(s: string): (r: Option<nat>)
    ensures r.Some? ==> r.value < Pow16(|s|)
  {
    if |s| == 0 then Some(0)
    else
      match (ParseHex(s[..|s| - 1]), DigitValue(s[|s| - 1]))
      case (Some(high), Some(low)) => Some(16 * high + low)
      case _ => None
  }

  lemma {:induction false} HexRoundTrip(n: nat, width: nat)
    requires n < Pow16(width)
    ensures ParseHex(Hex(n, width)) == Some(n)
  {
    if width > 0 {
      var s := Hex(n, width);
      assert s[..|s| - 1] == Hex(n / 16, width - 1);
      HexRoundTrip(n / 16, width - 1);
      DigitRoundTrip(n % 16);
    }
  }

  /** `guid.ToString("D")`: the eleven fields in hex, hyphens after the 8th, 12th, 16th and 20th digit. */
  function FormatD(id: Guid): (s: string)
    ensures |s| == 36
    ensures s[8] == '-' && s[13] == '-' && s[18] == '-' && s[23] == '-'
    ensures forall q :: 0 <= q < 36 && q != 8 && q != 13 && q != 18 && q != 23 ==> IsLowerHexDigit(s[q])
  {
    Hex(id.a, 8) + ("-" + (Hex(id.b, 4) + ("-" + (Hex(id.c, 4) + ("-" +
    (Hex(id.d, 2) + (Hex(id.e, 2) + ("-" +
    (Hex(id.f, 2) + (Hex(id.g, 2) + (Hex(id.h, 2) + (Hex(id.i, 2) + (Hex(id.j, 2) + Hex(id.k, 2))))))))))))))
  }

  /** Reads `width` hex digits off the front of `s`, returning their value and the rest. */
  function TakeHex(s: string, width: nat): (r: Option<(nat, string)>)
    ensures r.Some? ==> r.value.0 < Pow16(width)
  {
    if |s| < width then None
    else
      match ParseHex(s[..width])
      case Some(n) => Some((n, s[width..]))
      case None => None
  }

  /** Reads one hyphen off the front of `s`. */
  function TakeHyphen(s: string): Option<string> {
    if 0 < |s| && s[0] == '-' then Some(s[1..]) else None
  }

  lemma TakeHexOfHex(n: nat, width: nat, rest: string)
    requires n < Pow16(width)
    ensures TakeHex(Hex(n, width) + rest, width) == Some((n, rest))
  {
    var s := Hex(n, width) + rest;
    assert s[..width] == Hex(n, width);
    assert s[width..] == rest;
    HexRoundTrip(n, width);
  }

  /** A reference reader for the strings FormatD writes. */
  function ParseD(s: string): Option<Guid> {
    var a :- TakeHex(s, 8);
    var s1 :- TakeHyphen(a.1);
    var b :- TakeHex(s1, 4);
    var s2 :- TakeHyphen(b.1);
    var c :- TakeHex(s2, 4);
    var s3 :- TakeHyphen(c.1);
    var d :- TakeHex(s3, 2);
    var e :- TakeHex(d.1, 2);
    var s4 :- TakeHyphen(e.1);
    var f :- TakeHex(s4, 2);
    var g :- TakeHex(f.1, 2);
    var h :- TakeHex(g.1, 2);
    var i :- TakeHex(h.1, 2);
    var j :- TakeHex(i.1, 2);
    var k :- TakeHex(j.1, 2);
    if k.1 == [] then Some(Guid(a.0, b.0, c.0, d.0, e.0, f.0, g.0, h.0, i.0, j.0, k.0)) else None
  }

  /** Reading back what FormatD wrote gives the same Guid. */
  lemma FormatDRoundTrip(id: Guid)
    ensures ParseD(FormatD(id)) == Some(id)
  {
    var k := Hex(id.k, 2);
    var j := Hex(id.j, 2) + k;
    var i := Hex(id.i, 2) + j;
    var h := Hex(id.h, 2) + i;
    var g := Hex(id.g, 2) + h;
    var f := Hex(id.f, 2) + g;
    var e := Hex(id.e, 2) + ("-" + f);
    var d := Hex(id.d, 2) + e;
    var c := Hex(id.c, 4) + ("-" + d);
    var b := Hex(id.b, 4) + ("-" + c);
    var a := Hex(id.a, 8) + ("-" + b);
    assert a == FormatD(id);
    TakeHexOfHex(id.a, 8, "-" + b);
    TakeHexOfHex(id.b, 4, "-" + c);
    TakeHexOfHex(id.c, 4, "-" + d);
    TakeHexOfHex(id.d, 2, e);
    TakeHexOfHex(id.e, 2, "-" + f);
    TakeHexOfHex(id.f, 2, g);
    TakeHexOfHex(id.g, 2, h);
    TakeHexOfHex(id.h, 2, i);
    TakeHexOfHex(id.i, 2, j);
    TakeHexOfHex(id.j, 2, k);
    TakeHexOfHex(id.k, 2, []);
    assert k + [] == k;
  }

  /** Distinct Guids have distinct "D" strings. */
  lemma FormatDInjective(x: Guid, y: Guid)
    ensures FormatD(x) == FormatD(y) <==> x == y
  {
    if FormatD(x) == FormatD(y) {
      FormatDRoundTrip(x);
      FormatDRoundTrip(y);
    }
  }
}
