/**
  The string operations the edge applies to identifiers, restricted to ASCII:
  characters above 127 are neither folded nor treated as blank.
 */
module Text {

  // ---------- strings.TrimSpace and strings.ToLower ----------

  predicate IsBlank(c: char) {
    c == ' ' || '\t' <= c <= '\r'
  }

  predicate AllBlank(s: string) {
    forall i :: 0 <= i < |s| ==> IsBlank(s[i])
  }

  /** No blank at either end. */
  predicate Trimmed(s: string) {
    s == "" || (!IsBlank(s[0]) && !IsBlank(s[|s| - 1]))
  }

  function TrimLeft(s: string): string {
    if s != "" && IsBlank(s[0]) then TrimLeft(s[1..]) else s
  }

  function TrimRight(s: string): string {
    if s != "" && IsBlank(s[|s| - 1]) then TrimRight(s[..|s| - 1]) else s
  }

  function TrimSpace(s: string): string {
    TrimRight(TrimLeft(s))
  }

  function LowerChar(c: char): char {
    if 'A' <= c <= 'Z' then (c as int + 32) as char else c
  }

  function ToLower(s: string): (r: string)
    ensures |r| == |s|
    ensures forall i :: 0 <= i < |s| ==> r[i] == LowerChar(s[i])
  {
    seq(|s|, i requires 0 <= i < |s| => LowerChar(s[i]))
  }

  /** The form in which the edge stores and compares addresses. */
  function Normalize(s: string): string {
    TrimSpace(ToLower(s))
  }

  // ---------- What trimming means ----------

  lemma {:induction false} TrimLeftPadded(a: string, m: string)
    requires AllBlank(a)
    requires m == "" || !IsBlank(m[0])
    ensures TrimLeft(a + m) == m
  {
    if a == "" {
      assert a + m == m;
    } else {
      assert (a + m)[1..] == a[1..] + m;
      TrimLeftPadded(a[1..], m);
    }
  }

  lemma {:induction false} TrimRightPadded(m: string, b: string)
    requires AllBlank(b)
    requires m == "" || !IsBlank(m[|m| - 1])
    ensures TrimRight(m + b) == m
  {
    if b == "" {
      assert m + b == m;
    } else {
      var n := |m + b|;
      assert (m + b)[..n - 1] == m + b[..|b| - 1];
      TrimRightPadded(m, b[..|b| - 1]);
    }
  }

  /** Blank padding on either side of a trimmed string disappears, and nothing else does. */
  lemma TrimPadded(a: string, m: string, b: string)
    requires AllBlank(a) && AllBlank(b) && Trimmed(m)
    ensures TrimSpace(a + m + b) == m
  {
    if m == "" {
      assert a + m + b == (a + b) + "";
      TrimLeftPadded(a + b, "");
    } else {
      assert a + m + b == a + (m + b);
      TrimLeftPadded(a, m + b);
      TrimRightPadded(m, b);
    }
  }

  lemma {:induction false} TrimLeftSplit(s: string) returns (a: string)
    ensures AllBlank(a) && s == a + TrimLeft(s)
    ensures TrimLeft(s) == "" || !IsBlank(TrimLeft(s)[0])
  {
    if s != "" && IsBlank(s[0]) {
      var rest := TrimLeftSplit(s[1..]);
      a := [s[0]] + rest;
      Regroup([s[0]], rest, TrimLeft(s[1..]));
      assert s == [s[0]] + s[1..];
    } else {
      a := "";
    }
  }

  lemma {:induction false} TrimRightSplit(s: string) returns (b: string)
    ensures AllBlank(b) && s == TrimRight(s) + b
    ensures TrimRight(s) == "" || !IsBlank(TrimRight(s)[|TrimRight(s)| - 1])
  {
    if s != "" && IsBlank(s[|s| - 1]) {
      var rest := TrimRightSplit(s[..|s| - 1]);
      b := rest + [s[|s| - 1]];
      Regroup(TrimRight(s[..|s| - 1]), rest, [s[|s| - 1]]);
      assert s == s[..|s| - 1] + [s[|s| - 1]];
    } else {
      b := "";
    }
  }

  /** Every string is blank padding around its trimmed core. */
  lemma TrimSplit(s: string) returns (a: string, b: string)
    ensures AllBlank(a) && AllBlank(b) && Trimmed(TrimSpace(s))
    ensures s == a + TrimSpace(s) + b
  {
    a := TrimLeftSplit(s);
    b := TrimRightSplit(TrimLeft(s));
    var m := TrimSpace(s);
    assert s == a + (m + b) == a + m + b;
    assert m != "" ==> m[0] == TrimLeft(s)[0];
  }

  /** TrimSpace is the only way to strip blank padding down to a trimmed core. */
  lemma TrimSpaceMeaning(s: string, m: string)
    ensures TrimSpace(s) == m <==>
            Trimmed(m) && exists a: string, b: string :: AllBlank(a) && AllBlank(b) && s == a + m + b
  {
    var a, b := TrimSplit(s);
    assert AllBlank(a) && AllBlank(b) && s == a + TrimSpace(s) + b;
    forall a': string, b': string | Trimmed(m) && AllBlank(a') && AllBlank(b') && s == a' + m + b'
      ensures TrimSpace(s) == m
    {
      TrimPadded(a', m, b');
    }
  }

  lemma BlankExactlyWhen(s: string)
    ensures TrimSpace(s) == "" <==> AllBlank(s)
  {
    var a, b := TrimSplit(s);
    if TrimSpace(s) != "" {
      assert s[|a|] == TrimSpace(s)[0];
    }
  }

  // ---------- Trimming and folding together ----------

  lemma ToLowerConcat(a: string, b: string)
    ensures ToLower(a + b) == ToLower(a) + ToLower(b)
  {
  }

  lemma ToLowerKeepsBlanks(s: string)
    ensures AllBlank(s) ==> AllBlank(ToLower(s))
    ensures Trimmed(s) ==> Trimmed(ToLower(s))
    ensures ToLower(ToLower(s)) == ToLower(s)
  {
  }

  /**
    Trim-then-fold and fold-then-trim agree, and the common result is a fixed
    point of both, whatever the string.
   */
  lemma NormalizeLaws(s: string)
    ensures ToLower(TrimSpace(s)) == Normalize(s)
    ensures Normalize(Normalize(s)) == Normalize(s)
    ensures TrimSpace(Normalize(s)) == Normalize(s) && ToLower(Normalize(s)) == Normalize(s)
    ensures Normalize(TrimSpace(s)) == Normalize(s) && Normalize(ToLower(s)) == Normalize(s)
  {
    var a, b := TrimSplit(s);
    var m := TrimSpace(s);
    ToLowerConcat(a + m, b);
    ToLowerConcat(a, m);
    ToLowerKeepsBlanks(a);
    ToLowerKeepsBlanks(b);
    ToLowerKeepsBlanks(m);
    ToLowerKeepsBlanks(s);
    TrimPadded(ToLower(a), ToLower(m), ToLower(b));
    TrimPadded("", ToLower(m), "");
    assert "" + ToLower(m) + "" == ToLower(m);
  }

  /** Padding an address and changing its case leave its normal form alone. */
  lemma NormalizePadded(a: string, s: string, b: string)
    requires AllBlank(a) && AllBlank(b)
    ensures Normalize(a + s + b) == Normalize(s)
  {
    var p, q := TrimSplit(s);
    var m := TrimSpace(s);
    assert a + s + b == (a + p) + m + (q + b);
    TrimPadded(a + p, m, q + b);
    NormalizeLaws(s);
    NormalizeLaws(a + s + b);
  }

  // ---------- What folding means ----------

  /** The blank characters are tab, line feed, vertical tab, form feed, carriage return and space. */
  lemma BlankCharacters(c: char)
    ensures IsBlank(c) <==> c as int in [9, 10, 11, 12, 13, 32]
  {
  }

  /** One character, or one letter in both cases, which are 32 apart. */
  predicate SameLetter(c: char, d: char) {
    || c == d
    || ('A' <= c <= 'Z' && d as int == c as int + 32)
    || ('A' <= d <= 'Z' && c as int == d as int + 32)
  }

  /** The same text up to the case of letters. */
  predicate SameText(a: string, b: string) {
    |a| == |b| && forall i :: 0 <= i < |a| ==> SameLetter(a[i], b[i])
  }

  predicate NoCapitals(s: string) {
    forall i :: 0 <= i < |s| ==> !('A' <= s[i] <= 'Z')
  }

  /** Folding gives the one text without capitals that is the same up to case. */
  lemma ToLowerMeaning(s: string, t: string)
    ensures t == ToLower(s) <==> SameText(s, t) && NoCapitals(t)
  {
    if SameText(s, t) && NoCapitals(t) {
      assert forall i :: 0 <= i < |s| ==> SameLetter(s[i], t[i]) && t[i] == LowerChar(s[i]);
    }
  }

  /** Two texts fold to one exactly when they are the same up to case. */
  lemma ToLowerAgrees(a: string, b: string)
    ensures ToLower(a) == ToLower(b) <==> SameText(a, b)
  {
    if ToLower(a) == ToLower(b) {
      forall i | 0 <= i < |a| ensures SameLetter(a[i], b[i]) {
        assert ToLower(a)[i] == ToLower(b)[i];
      }
    }
    if SameText(a, b) {
      assert forall i :: 0 <= i < |a| ==> SameLetter(a[i], b[i]) && ToLower(a)[i] == ToLower(b)[i];
    }
  }

  /** The text without its blank padding. */
  ghost predicate IsCore(s: string, m: string) {
    Trimmed(m) && exists a: string, b: string :: AllBlank(a) && AllBlank(b) && s == a + m + b
  }

  /** The same text up to case and blank padding. */
  ghost predicate Alike(a: string, b: string) {
    exists x: string, y: string :: IsCore(a, x) && IsCore(b, y) && SameText(x, y)
  }

  /** Two texts have one normal form exactly when they are alike. */
  lemma NormalizeMeaning(a: string, b: string)
    ensures Normalize(a) == Normalize(b) <==> Alike(a, b)
  {
    NormalizeLaws(a);
    NormalizeLaws(b);
    TrimSpaceMeaning(a, TrimSpace(a));
    TrimSpaceMeaning(b, TrimSpace(b));
    ToLowerAgrees(TrimSpace(a), TrimSpace(b));
    assert IsCore(a, TrimSpace(a)) && IsCore(b, TrimSpace(b));
    forall x: string, y: string | IsCore(a, x) && IsCore(b, y) ensures x == TrimSpace(a) && y == TrimSpace(b) {
      TrimSpaceMeaning(a, x);
      TrimSpaceMeaning(b, y);
    }
  }

  /** A normal form is blank exactly when its text is, and holds an "@" exactly when its text does. */
  lemma NormalizeKeeps(s: string)
    ensures Normalize(s) == "" <==> AllBlank(s)
    ensures '@' in Normalize(s) <==> '@' in s
  {
    NormalizeLaws(s);
    BlankExactlyWhen(s);
    var a, b := TrimSplit(s);
    var m := TrimSpace(s);
    assert '@' in s <==> '@' in m;
    if '@' in m {
      var i :| 0 <= i < |m| && m[i] == '@';
      assert ToLower(m)[i] == '@';
    }
    if '@' in ToLower(m) {
      var i :| 0 <= i < |m| && ToLower(m)[i] == '@';
      assert m[i] == '@';
    }
  }

  // ---------- strings.HasPrefix and strings.TrimPrefix ----------

  predicate HasPrefix(s: string, prefix: string) {
    prefix <= s
  }

  function TrimPrefix(s: string, prefix: string): string {
    if HasPrefix(s, prefix) then s[|prefix|..] else s
  }

  /** A prefix is what can be put before some rest, and trimming it leaves that rest. */
  lemma PrefixMeaning(s: string, prefix: string, rest: string)
    ensures HasPrefix(s, prefix) && TrimPrefix(s, prefix) == rest <==> s == prefix + rest
    ensures !HasPrefix(s, prefix) ==> TrimPrefix(s, prefix) == s
  {
  }

  // ---------- Decimal rendering ----------

  function Digit(d: int): (c: char)
    requires 0 <= d < 10
    ensures '0' <= c <= '9' && c as int == d + '0' as int
  {
    (d + '0' as int) as char
  }

  predicate AllDigits(s: string) {
    forall i :: 0 <= i < |s| ==> '0' <= s[i] <= '9'
  }

  function Decimal(n: nat): string {
    if n < 10 then [Digit(n)] else Decimal(n / 10) + [Digit(n % 10)]
  }

  /** The number a digit string denotes: the inverse of Decimal, leading zeros ignored. */
  function ValueOf(s: string): nat
    requires AllDigits(s)
  {
    if s == "" then 0
    else ValueOf(s[..|s| - 1]) * 10 + (s[|s| - 1] as int - '0' as int)
  }

  lemma {:induction false} DecimalRoundTrip(n: nat)
    ensures Decimal(n) != "" && AllDigits(Decimal(n))
    ensures ValueOf(Decimal(n)) == n
  {
    if n < 10 {
      var s := Decimal(n);
      assert s[..|s| - 1] == "";
    } else {
      DecimalRoundTrip(n / 10);
      var s := Decimal(n);
      assert s[..|s| - 1] == Decimal(n / 10);
    }
  }

  /** strconv.Itoa. */
  function Itoa(n: int): string {
    if n < 0 then "-" + Decimal(-n) else Decimal(n)
  }

  /** The decimal digits of the magnitude, after a minus sign for a negative number. */
  lemma ItoaMeaning(n: int)
    ensures var digits := if n < 0 then Itoa(n)[1..] else Itoa(n);
            && (n < 0 ==> Itoa(n) != "" && Itoa(n)[0] == '-')
            && AllDigits(digits) && ValueOf(digits) == if n < 0 then -n else n
  {
    DecimalRoundTrip(if n < 0 then -n else n);
  }

  lemma ItoaInjective(m: int, n: int)
    ensures Itoa(m) == Itoa(n) ==> m == n
  {
    DecimalRoundTrip(if m < 0 then -m else m);
    DecimalRoundTrip(if n < 0 then -n else n);
    if Itoa(m) == Itoa(n) {
      assert Itoa(m)[0] == Itoa(n)[0];
      if m < 0 && n < 0 {
        assert Itoa(m)[1..] == Decimal(-m) && Itoa(n)[1..] == Decimal(-n);
      }
    }
  }

  // ---------- Joining with a colon ----------

  function Join(a: string, b: string): string {
    a + ":" + b
  }

  lemma Regroup(a: string, b: string, c: string)
    ensures a + (b + c) == a + b + c
  {
  }

  lemma JoinAfter(prefix: string, a: string, b: string)
    ensures prefix + Join(a, b) == prefix + a + ":" + b
  {
  }

  /**
    When two joined pairs collide: the pairs are the same, or one boundary colon
    of one pair lies inside a component of the other.
   */
  lemma JoinCollision(a: string, b: string, c: string, d: string)
    ensures Join(a, b) == Join(c, d) <==>
            || (a == c && b == d)
            || (exists w: string :: a == Join(c, w) && d == Join(w, b))
            || (exists w: string :: c == Join(a, w) && b == Join(w, d))
  {
    if Join(a, b) == Join(c, d) {
      if |a| == |c| {
        assert a == Join(a, b)[..|a|] && b == Join(a, b)[|a| + 1..];
        assert c == Join(c, d)[..|c|] && d == Join(c, d)[|c| + 1..];
      } else if |a| < |c| {
        JoinShift(a, b, c, d);
      } else {
        JoinShift(c, d, a, b);
      }
    }
    forall w: string | a == Join(c, w) && d == Join(w, b)
      ensures Join(a, b) == Join(c, d)
    {
      assert Join(a, b) == c + ":" + w + ":" + b == Join(c, d);
    }
    forall w: string | c == Join(a, w) && b == Join(w, d)
      ensures Join(a, b) == Join(c, d)
    {
      assert Join(a, b) == a + ":" + w + ":" + d == Join(c, d);
    }
  }

  lemma JoinShift(a: string, b: string, c: string, d: string)
    requires Join(a, b) == Join(c, d) && |a| < |c|
    ensures exists w: string :: c == Join(a, w) && b == Join(w, d)
  {
    var s := Join(a, b);
    var w := s[|a| + 1..|c|];
    assert s[..|c|] == c && s[..|a|] == a && s[|a|] == ':' && s[|c|] == ':';
    assert c == Join(a, w);
    assert s[|a| + 1..] == b && s[|c| + 1..] == d;
    assert b == Join(w, d);
  }

  lemma JoinSameRight(a: string, c: string, b: string)
    ensures Join(a, b) == Join(c, b) <==> a == c
  {
    var k := |Join(a, b)| - |b| - 1;
    assert Join(a, b)[..k] == a;
    if |Join(c, b)| == |Join(a, b)| {
      assert Join(c, b)[..k] == c;
    }
  }

  /** Without a colon in the second components, the join determines the pair. */
  lemma JoinInjective(a: string, b: string, c: string, d: string)
    requires ':' !in b && ':' !in d
    ensures Join(a, b) == Join(c, d) <==> a == c && b == d
  {
    JoinCollision(a, b, c, d);
    forall w: string, x: string ensures ':' in Join(w, x) {
      assert Join(w, x)[|w|] == ':';
    }
  }

  /** Likewise without a colon in the first components. */
  lemma JoinInjectiveLeft(a: string, b: string, c: string, d: string)
    requires ':' !in a && ':' !in c
    ensures Join(a, b) == Join(c, d) <==> a == c && b == d
  {
    JoinCollision(a, b, c, d);
    forall w: string, x: string ensures ':' in Join(w, x) {
      assert Join(w, x)[|w|] == ':';
    }
  }
}
