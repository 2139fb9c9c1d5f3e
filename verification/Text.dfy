/** Decimal numerals, byte-wise string order, and splitting.
    A Go string is a sequence of bytes; one char stands for one byte. */
module Text {
  predicate IsDigit(c: char) { '0' <= c <= '9' }

  predicate AllDigits(s: string) { forall i :: 0 <= i < |s| ==> IsDigit(s[i]) }

  function DigitChar(d: nat): (c: char)
    requires d < 10
    ensures IsDigit(c)
  {
    '0' + d as char
  }

  /** strconv.Itoa and %d on a natural number. */
  function Decimal(n: nat): string {
    if n < 10 then [DigitChar(n)] else Decimal(n / 10) + [DigitChar(n % 10)]
  }

  /** The number a digit string denotes. */
  function Value(s: string): nat
    requires AllDigits(s)
  {
    if s == "" then 0 else Value(s[..|s| - 1]) * 10 + (s[|s| - 1] as nat - '0' as nat)
  }

  lemma {:induction false} ValueOfDecimal(n: nat)
    ensures |Decimal(n)| >= 1 && AllDigits(Decimal(n)) && Value(Decimal(n)) == n
  {
    if n < 10 {
      assert Decimal(n)[..0] == "";
    } else {
      ValueOfDecimal(n / 10);
      assert Decimal(n)[..|Decimal(n)| - 1] == Decimal(n / 10);
    }
  }

  /** The low w digits of n. */
  function Digits(n: nat, w: nat): (s: string)
    ensures |s| == w && AllDigits(s)
  {
    if w == 0 then "" else Digits(n / 10, w - 1) + [DigitChar(n % 10)]
  }

  function Power10(w: nat): (p: nat)
    ensures p >= 1
  {
    if w == 0 then 1 else 10 * Power10(w - 1)
  }

  function Zeros(k: nat): (s: string)
    ensures |s| == k
  {
    seq(k, _ => '0')
  }

  /** %0wd: pad the numeral with zeros on the left up to w characters. */
  function ZeroPadded(n: nat, w: nat): string {
    var d := Decimal(n);
    if |d| < w then Zeros(w - |d|) + d else d
  }

  lemma {:induction false} DigitsOfZero(w: nat)
    ensures Digits(0, w) == Zeros(w)
  {
    if w > 0 {
      DigitsOfZero(w - 1);
    }
  }

  /** Padding a number that fits gives exactly its w low digits. */
  lemma {:induction false} ZeroPaddedIsDigits(n: nat, w: nat)
    requires w >= 1 && n < Power10(w)
    ensures ZeroPadded(n, w) == Digits(n, w)
  {
    if n < 10 {
      DigitsOfZero(w - 1);
      assert Digits(n, w) == Zeros(w - 1) + [DigitChar(n)];
    } else {
      assert Power10(1) == 10;
      ZeroPaddedIsDigits(n / 10, w - 1);
      assert ZeroPadded(n, w) == ZeroPadded(n / 10, w - 1) + [DigitChar(n % 10)];
    }
  }

  /** Byte-wise order of Go strings. */
  predicate Less(a: string, b: string) {
    b != "" && (a == "" || a[0] < b[0] || (a[0] == b[0] && Less(a[1..], b[1..])))
  }

  /** The strings agree up to k, where the first ends or has the smaller character. */
  predicate Precedes(a: string, b: string, k: nat) {
    k <= |a| && k < |b| && a[..k] == b[..k] && (k == |a| || a[k] < b[k])
  }

  lemma {:induction false} LessIsLexicographic(a: string, b: string)
    ensures Less(a, b) <==> exists k: nat :: Precedes(a, b, k)
  {
    if b == "" {
    } else if a == "" || a[0] < b[0] {
      assert Precedes(a, b, 0);
    } else if a[0] == b[0] {
      LessIsLexicographic(a[1..], b[1..]);
      if k: nat :| Precedes(a, b, k) { PrecedesNext(a, b, k - 1); }
      if k: nat :| Precedes(a[1..], b[1..], k) { PrecedesNext(a, b, k); }
    } else {
      forall k: nat
        ensures !Precedes(a, b, k)
      {
        if 0 < k <= |a| && k < |b| { assert a[..k][0] != b[..k][0]; }
      }
    }
  }

  lemma PrecedesNext(a: string, b: string, k: nat)
    requires a != "" && b != "" && a[0] == b[0]
    ensures Precedes(a, b, k + 1) <==> Precedes(a[1..], b[1..], k)
  {
    if k <= |a[1..]| && k < |b[1..]| {
      assert a[..k + 1] == [a[0]] + a[1..][..k] && b[..k + 1] == [b[0]] + b[1..][..k];
      assert a[1..][..k] == a[..k + 1][1..] && b[1..][..k] == b[..k + 1][1..];
    }
  }

  lemma {:induction false} LessTrans(a: string, b: string, c: string)
    requires Less(a, b) && Less(b, c)
    ensures Less(a, c)
  {
    if a != "" && a[0] == b[0] == c[0] {
      LessTrans(a[1..], b[1..], c[1..]);
    }
  }

  lemma {:induction false} LessTotal(a: string, b: string)
    ensures Less(a, b) || a == b || Less(b, a)
    ensures !(Less(a, b) && Less(b, a))
    ensures !Less(a, a)
  {
    if a != "" && b != "" && a[0] == b[0] {
      LessTotal(a[1..], b[1..]);
      assert a == [a[0]] + a[1..] && b == [b[0]] + b[1..];
    }
    LessIrreflexive(a);
  }

  lemma {:induction false} LessIrreflexive(a: string)
    ensures !Less(a, a)
  {
    if a != "" {
      LessIrreflexive(a[1..]);
    }
  }

  lemma {:induction false} LessPrefix(p: string, a: string, b: string)
    ensures Less(p + a, p + b) <==> Less(a, b)
  {
    if p == "" {
      assert p + a == a && p + b == b;
    } else {
      LessPrefix(p[1..], a, b);
      assert (p + a)[1..] == p[1..] + a && (p + b)[1..] == p[1..] + b;
    }
  }

  lemma {:induction false} LessSnoc(a: string, b: string, x: char, y: char)
    requires |a| == |b|
    ensures Less(a + [x], b + [y]) <==> Less(a, b) || (a == b && x < y)
  {
    if a == "" {
      assert a + [x] == [x] && b + [y] == [y];
    } else {
      LessSnoc(a[1..], b[1..], x, y);
      assert (a + [x])[1..] == a[1..] + [x] && (b + [y])[1..] == b[1..] + [y];
      assert a == [a[0]] + a[1..] && b == [b[0]] + b[1..];
      LessIrreflexive(a);
    }
  }

  lemma {:induction false} DigitsInjective(m: nat, n: nat, w: nat)
    requires m < Power10(w) && n < Power10(w)
    ensures Digits(m, w) == Digits(n, w) ==> m == n
  {
    if w > 0 && Digits(m, w) == Digits(n, w) {
      assert Digits(m, w)[..w - 1] == Digits(m / 10, w - 1);
      assert Digits(n, w)[..w - 1] == Digits(n / 10, w - 1);
      assert Digits(m, w)[w - 1] == Digits(n, w)[w - 1];
      DigitsInjective(m / 10, n / 10, w - 1);
    }
  }

  /** Byte order of equally wide numerals is numeric order. */
  lemma {:induction false} DigitsOrder(m: nat, n: nat, w: nat)
    requires m < Power10(w) && n < Power10(w)
    ensures Less(Digits(m, w), Digits(n, w)) <==> m < n
  {
    if w > 0 {
      DigitsOrder(m / 10, n / 10, w - 1);
      DigitsInjective(m / 10, n / 10, w - 1);
      LessSnoc(Digits(m / 10, w - 1), Digits(n / 10, w - 1), DigitChar(m % 10), DigitChar(n % 10));
    }
  }
}
