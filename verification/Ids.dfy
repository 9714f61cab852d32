/** Six-digit challenge codes drawn from three random bytes (internal/infrastructure/ids). */
module Ids {
  import opened Text

  type byte = b: int | 0 <= b < 256

  /** One reading of the random source. */
  datatype Draw = Draw(b0: byte, b1: byte, b2: byte)

  /** The 24-bit big-endian number the three bytes spell, reduced to six digits. */
  function Reduced(d: Draw): (n: nat)
    ensures n < 1000000
  {
    (d.b0 * 65536 + d.b1 * 256 + d.b2) % 1000000
  }

  function PadZeros(s: string, width: nat): string
    decreases width - |s|
  {
    if |s| < width then PadZeros("0" + s, width) else s
  }

  /** The verb %06d. */
  function CodeOf(d: Draw): string {
    PadZeros(Decimal(Reduced(d)), 6)
  }

  method NewCode(draw: Draw) returns (code: string)
    ensures code == CodeOf(draw)
    ensures Denotes(code, draw)
  {
    var b := new byte[3];
    b[0], b[1], b[2] := draw.b0, draw.b1, draw.b2;
    var hi: int, mid: int, lo: int := b[0], b[1], b[2];
    var n: nat := (hi * 65536 + mid * 256 + lo) % 1000000;
    code := PadZeros(Decimal(n), 6);
    CodeMeaning(draw, code);
  }

  function Pow10(w: nat): nat {
    if w == 0 then 1 else 10 * Pow10(w - 1)
  }

  lemma {:induction false} DecimalFits(n: nat, w: nat)
    requires 1 <= w && n < Pow10(w)
    ensures |Decimal(n)| <= w
  {
    if n >= 10 {
      DecimalFits(n / 10, w - 1);
    }
  }

  lemma {:induction false} LeadingZero(s: string)
    requires AllDigits(s)
    ensures AllDigits("0" + s) && ValueOf("0" + s) == ValueOf(s)
  {
    var z := "0" + s;
    if s == "" {
      assert z[..|z| - 1] == "";
    } else {
      assert z[..|z| - 1] == "0" + s[..|s| - 1];
      LeadingZero(s[..|s| - 1]);
    }
  }

  lemma {:induction false} PadZerosShape(s: string, width: nat)
    requires AllDigits(s) && |s| <= width
    ensures |PadZeros(s, width)| == width && AllDigits(PadZeros(s, width))
    ensures ValueOf(PadZeros(s, width)) == ValueOf(s)
    decreases width - |s|
  {
    if |s| < width {
      LeadingZero(s);
      PadZerosShape("0" + s, width);
    }
  }

  lemma {:induction false} SameDigits(s: string, t: string)
    requires AllDigits(s) && AllDigits(t) && |s| == |t| && ValueOf(s) == ValueOf(t)
    ensures s == t
  {
    if s != "" {
      var k := |s| - 1;
      SameDigits(s[..k], t[..k]);
      assert s == s[..k] + [s[k]] && t == t[..k] + [t[k]];
    }
  }

  /** Six digits whose number is the big-endian value of the three bytes, modulo one million. */
  predicate Denotes(c: string, d: Draw) {
    |c| == 6 && AllDigits(c) && ValueOf(c) == (65536 * d.b0 + 256 * d.b1 + d.b2) % 1000000
  }

  /** A code is the one six-digit string that denotes its draw. */
  lemma CodeMeaning(d: Draw, c: string)
    ensures c == CodeOf(d) <==> Denotes(c, d)
  {
    var n := Reduced(d);
    DecimalRoundTrip(n);
    assert Pow10(6) == 1000000 by {
      assert Pow10(3) == 1000;
    }
    DecimalFits(n, 6);
    PadZerosShape(Decimal(n), 6);
    if |c| == 6 && AllDigits(c) && ValueOf(c) == n {
      SameDigits(c, CodeOf(d));
    }
  }

  /** Every code survives trimming, and every six-digit string is some draw's code. */
  lemma CodesAreTrimmed(d: Draw)
    ensures Trimmed(CodeOf(d)) && CodeOf(d) != ""
    ensures forall a: string, b: string :: AllBlank(a) && AllBlank(b) ==> TrimSpace(a + CodeOf(d) + b) == CodeOf(d)
  {
    CodeMeaning(d, CodeOf(d));
    forall a: string, b: string | AllBlank(a) && AllBlank(b)
      ensures TrimSpace(a + CodeOf(d) + b) == CodeOf(d)
    {
      TrimPadded(a, CodeOf(d), b);
    }
  }

  lemma {:induction false} ValueBound(s: string)
    requires AllDigits(s)
    ensures ValueOf(s) < Pow10(|s|)
  {
    if s != "" {
      ValueBound(s[..|s| - 1]);
    }
  }

  /** A draw that reduces to this number. */
  function DrawOf(n: nat): (d: Draw)
    requires n < 1000000
    ensures Reduced(d) == n
  {
    var q := n / 256;
    var d := Draw(q / 256, q % 256, n % 256);
    assert d.b0 * 256 + d.b1 == q;
    assert d.b0 * 65536 + d.b1 * 256 + d.b2 == q * 256 + d.b2 == n;
    d
  }

  lemma CodeBound(c: string)
    requires |c| == 6 && AllDigits(c)
    ensures ValueOf(c) < 1000000
  {
    ValueBound(c);
    assert Pow10(6) == 1000000 by {
      assert Pow10(3) == 1000;
    }
  }

  lemma EveryCodeIsDrawn(c: string)
    requires |c| == 6 && AllDigits(c)
    ensures ValueOf(c) < 1000000 && c == CodeOf(DrawOf(ValueOf(c)))
  {
    CodeBound(c);
    CodeMeaning(DrawOf(ValueOf(c)), c);
  }
}
