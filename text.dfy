/** Python's string slicing, str(), f"{n:03d}", str.lstrip and int(), on strings of
    characters, as the rest of the model uses them. */
module Text {
  import opened Results

  // ---------------------------------------------------------------------------
  // Slicing, prefixes and suffixes
  // ---------------------------------------------------------------------------

  function Min(a: int, b: int): int { if a <= b then a else b }

  /** Python's s[lo:hi] for 0 <= lo <= hi: both bounds are clamped to the string,
      so slicing past the end never fails. */
  function Slice(s: string, lo: nat, hi: nat): (r: string)
    requires lo <= hi
    ensures |r| == Min(hi, |s|) - Min(lo, |s|)
    ensures forall k :: 0 <= k < |r| ==> r[k] == s[lo + k]
  {
    s[Min(lo, |s|)..Min(hi, |s|)]
  }

  /** Python's s[-n:] for n >= 1 (the whole string when it is shorter than n). */
  function LastChars(s: string, n: nat): (r: string)
    requires 0 < n
    ensures |r| == Min(n, |s|)
    ensures r == s[|s| - |r|..]
  {
    if |s| <= n then s else s[|s| - n..]
  }

  predicate StartsWith(s: string, prefix: string) {
    |prefix| <= |s| && s[..|prefix|] == prefix
  }

  /** str.endswith */
  predicate EndsWith(s: string, suffix: string) {
    |suffix| <= |s| && s[|s| - |suffix|..] == suffix
  }

  /** str.lstrip(c) with a single character: drops every leading c. */
  function LStrip(s: string, c: char): (r: string)
    ensures |r| <= |s| && r == s[|s| - |r|..]
    ensures r == [] || r[0] != c
    ensures forall k :: 0 <= k < |s| - |r| ==> s[k] == c
  {
    if s != [] && s[0] == c then LStrip(s[1..], c) else s
  }

  /** Python's string repetition s * n: empty for n <= 0. */
  function Repeat(s: string, n: int): (r: string)
    ensures |r| == if n <= 0 then 0 else n * |s|
    ensures |s| == 1 ==> forall k :: 0 <= k < |r| ==> r[k] == s[0]
    decreases n
  {
    if n <= 0 then [] else s + Repeat(s, n - 1)
  }

  lemma {:induction false} RepeatCharAt(c: char, n: int, k: nat)
    requires k < n
    ensures |Repeat([c], n)| == n && Repeat([c], n)[k] == c
    decreases n
  {
    if k > 0 {
      RepeatCharAt(c, n - 1, k - 1);
    }
  }

  // ---------------------------------------------------------------------------
  // Decimal digits: str(n) for n >= 0 and the zero-padded f"{n:03d}"
  // ---------------------------------------------------------------------------

  predicate IsDigit(c: char) { '0' <= c <= '9' }

  function DigitChar(d: nat): (c: char)
    requires d < 10
    ensures IsDigit(c)
  {
    ('0' as int + d) as char
  }

  function DigitValue(c: char): (d: nat)
    requires IsDigit(c)
    ensures d < 10 && DigitChar(d) == c
  {
    c as int - '0' as int
  }

  /** str(n) for n >= 0: decimal digits, most significant first, no leading zero. */
  function Digits(n: nat): (r: string)
    ensures 1 <= |r|
    ensures forall k :: 0 <= k < |r| ==> IsDigit(r[k])
    ensures r[0] == '0' <==> n == 0
  {
    if n < 10 then [DigitChar(n)] else Digits(n / 10) + [DigitChar(n % 10)]
  }

  /** f"{n:03d}" for n >= 0: the digits of n, left-padded with '0' to three characters. */
  function ZeroPad3(n: nat): (r: string)
    ensures |r| >= 3 && |r| >= |Digits(n)|
  {
    Repeat("0", 3 - |Digits(n)|) + Digits(n)
  }

  /** f"{n:03d}" is str(n) when that has three digits or more; otherwise it is three
      characters: '0's, then str(n). */
  lemma ZeroPad3Shape(n: nat)
    ensures |ZeroPad3(n)| == 3 || ZeroPad3(n) == Digits(n)
    ensures EndsWith(ZeroPad3(n), Digits(n))
    ensures forall k :: 0 <= k < |ZeroPad3(n)| - |Digits(n)| ==> ZeroPad3(n)[k] == '0'
  {
    var pad, d := Repeat("0", 3 - |Digits(n)|), Digits(n);
    assert ZeroPad3(n) == pad + d;
    assert (pad + d)[|pad + d| - |d|..] == d;
  }

  /** The numeric value of a string of decimal digits (0 for the empty string). */
  function ValueOf(s: string): nat
    requires forall k :: 0 <= k < |s| ==> IsDigit(s[k])
  {
    if s == [] then 0 else ValueOf(s[..|s| - 1]) * 10 + DigitValue(s[|s| - 1])
  }

  // ---------------------------------------------------------------------------
  // int() on a string
  // ---------------------------------------------------------------------------

  predicate IsSpace(c: char) {
    c as int == 32 || 9 <= c as int <= 13 || 28 <= c as int <= 31
  }

  /** Strings on which int() is exactly "an optional sign followed by ASCII digits":
      no whitespace (which int() strips), no '_' (which it accepts between digits) and
      no non-ASCII character (it reads every Unicode decimal digit). */
  predicate Plain(s: string) {
    forall k :: 0 <= k < |s| ==> s[k] as int < 128 && s[k] != '_' && !IsSpace(s[k])
  }

  predicate AllDigits(s: string) {
    forall k :: 0 <= k < |s| ==> IsDigit(s[k])
  }

  /** int(s) for base 10 on a plain string: an optional '+' or '-' followed by at
      least one digit, leading zeros allowed; anything else raises ValueError. On a
      string that is not plain, int() accepts more than this. */
  function ParseInt(s: string): (r: Result<int>)
    ensures r.Ok? <==> (AllDigits(s) && s != []) ||
                       (|s| >= 2 && (s[0] == '+' || s[0] == '-') && AllDigits(s[1..]))
    ensures r.Err? ==> r.error == ValueError
    ensures r.Ok? && s[0] != '-' ==> r.value >= 0
  {
    if s != [] && (s[0] == '+' || s[0] == '-') then
      if |s| >= 2 && AllDigits(s[1..]) then
        var v: int := ValueOf(s[1..]);
        Ok(if s[0] == '-' then -v else v)
      else Err(ValueError)
    else if s != [] && AllDigits(s) then Ok(ValueOf(s))
    else Err(ValueError)
  }

  // ---------------------------------------------------------------------------
  // Round trips and bounds
  // ---------------------------------------------------------------------------

  /** Reading back the digits of n gives n. */
  lemma {:induction false} ValueOfDigits(n: nat)
    ensures ValueOf(Digits(n)) == n
  {
    if n >= 10 {
      var s := Digits(n);
      assert s[..|s| - 1] == Digits(n / 10);
      ValueOfDigits(n / 10);
    }
  }

  function Pow10(k: nat): (p: nat)
    ensures p >= 1
  {
    if k == 0 then 1 else 10 * Pow10(k - 1)
  }

  /** A string of k decimal digits spells a number below 10^k. */
  lemma {:induction false} ValueOfBelow(s: string)
    requires forall k :: 0 <= k < |s| ==> IsDigit(s[k])
    ensures ValueOf(s) < Pow10(|s|)
  {
    if s != [] {
      ValueOfBelow(s[..|s| - 1]);
    }
  }

  /** int() of at most three characters lies between -99 and 999. */
  lemma ParseIntThreeChars(s: string)
    requires |s| <= 3 && ParseInt(s).Ok?
    ensures -99 <= ParseInt(s).value <= 999
  {
    assert Pow10(2) == 100 && Pow10(3) == 1000;
    if s[0] == '+' || s[0] == '-' {
      ValueOfBelow(s[1..]);
      assert Pow10(|s[1..]|) <= 100 by {
        assert Pow10(0) == 1 && Pow10(1) == 10;
      }
    } else {
      ValueOfBelow(s);
      assert Pow10(|s|) <= 1000 by {
        assert Pow10(0) == 1 && Pow10(1) == 10;
      }
    }
  }

  /** int(str(n)) == n for n >= 0. */
  lemma ParseIntDigits(n: nat)
    ensures ParseInt(Digits(n)) == Ok(n)
  {
    ValueOfDigits(n);
  }

  /** str(n) has at most three characters exactly when n is below 1000. */
  lemma {:induction false} DigitsLength3(n: nat)
    ensures |Digits(n)| <= 3 <==> n <= 999
  {
    if n >= 10 {
      DigitsLength3(n / 10);
      if n / 10 >= 10 {
        if n / 100 >= 10 {
          assert |Digits(n / 10)| >= 3 by {
            assert Digits(n / 10) == Digits(n / 100) + [DigitChar(n / 10 % 10)];
          }
        } else {
          assert Digits(n / 10) == Digits(n / 100) + [DigitChar(n / 10 % 10)];
        }
      }
    }
  }

  /** For 0 <= n <= 999 the padded form is exactly the three decimal digits of n. */
  lemma ZeroPad3Small(n: nat)
    requires n <= 999
    ensures ZeroPad3(n) == [DigitChar(n / 10 / 10), DigitChar(n / 10 % 10), DigitChar(n % 10)]
  {
    if n >= 100 {
      assert Digits(n / 10) == [DigitChar(n / 10 / 10), DigitChar(n / 10 % 10)];
    } else if n >= 10 {
      assert Digits(n) == [DigitChar(n / 10), DigitChar(n % 10)];
      assert Repeat("0", 1) == "0";
    } else {
      assert Repeat("0", 2) == "00";
    }
  }

  /** Stripping the padding zeros of f"{n:03d}" leaves str(n), for n >= 1. */
  lemma ZeroPad3Strip(n: nat)
    requires 1 <= n
    ensures LStrip(ZeroPad3(n), '0') == Digits(n)
  {
    var pad := Repeat("0", 3 - |Digits(n)|);
    forall k | 0 <= k < |pad| ensures pad[k] == '0' {
      RepeatCharAt('0', 3 - |Digits(n)|, k);
    }
    StripZerosBefore(pad, Digits(n));
  }

  lemma {:induction false} StripZerosBefore(zeros: string, s: string)
    requires forall k :: 0 <= k < |zeros| ==> zeros[k] == '0'
    requires s != [] && s[0] != '0'
    ensures LStrip(zeros + s, '0') == s
  {
    if zeros != [] {
      assert (zeros + s)[1..] == zeros[1..] + s;
      StripZerosBefore(zeros[1..], s);
    }
  }

  /** f"{n:03d}" is injective on the positive integers. */
  lemma ZeroPad3Injective(a: nat, b: nat)
    requires 1 <= a && 1 <= b && ZeroPad3(a) == ZeroPad3(b)
    ensures a == b
  {
    ZeroPad3Strip(a);
    ZeroPad3Strip(b);
    ValueOfDigits(a);
    ValueOfDigits(b);
  }

  // ---------------------------------------------------------------------------
  // Python's ordering of strings
  // ---------------------------------------------------------------------------

  /** a < b on Python strings: the first differing character decides, and a proper
      prefix comes first. */
  predicate LexLess(a: string, b: string) {
    if a == [] then b != []
    else if b == [] then false
    else if a[0] != b[0] then a[0] < b[0]
    else LexLess(a[1..], b[1..])
  }

  /** A common prefix does not change the order. */
  lemma {:induction false} LexLessCommonPrefix(p: string, x: string, y: string)
    ensures LexLess(p + x, p + y) == LexLess(x, y)
  {
    if p != [] {
      assert (p + x)[1..] == p[1..] + x;
      assert (p + y)[1..] == p[1..] + y;
      LexLessCommonPrefix(p[1..], x, y);
    } else {
      assert p + x == x && p + y == y;
    }
  }

  /** For numbers below 1000, comparing the padded forms (followed by a common
      suffix) as strings is the same as comparing the numbers. */
  lemma ZeroPad3Order(a: nat, b: nat, suffix: string)
    requires a <= 999 && b <= 999
    ensures LexLess(ZeroPad3(a) + suffix, ZeroPad3(b) + suffix) <==> a < b
  {
    ZeroPad3Small(a);
    ZeroPad3Small(b);
    ThreeDigitOrder(a / 10 / 10, a / 10 % 10, a % 10, b / 10 / 10, b / 10 % 10, b % 10, suffix);
  }

  /** Three digits followed by a common suffix compare like the numbers they spell. */
  lemma ThreeDigitOrder(a2: nat, a1: nat, a0: nat, b2: nat, b1: nat, b0: nat, suffix: string)
    requires a2 < 10 && a1 < 10 && a0 < 10 && b2 < 10 && b1 < 10 && b0 < 10
    ensures LexLess([DigitChar(a2), DigitChar(a1), DigitChar(a0)] + suffix,
                    [DigitChar(b2), DigitChar(b1), DigitChar(b0)] + suffix)
            <==> (a2 * 10 + a1) * 10 + a0 < (b2 * 10 + b1) * 10 + b0
  {
    var ta, tb := [DigitChar(a1), DigitChar(a0)] + suffix, [DigitChar(b1), DigitChar(b0)] + suffix;
    var ua, ub := [DigitChar(a0)] + suffix, [DigitChar(b0)] + suffix;
    assert [DigitChar(a2), DigitChar(a1), DigitChar(a0)] + suffix == [DigitChar(a2)] + ta;
    assert [DigitChar(b2), DigitChar(b1), DigitChar(b0)] + suffix == [DigitChar(b2)] + tb;
    assert ta == [DigitChar(a1)] + ua && tb == [DigitChar(b1)] + ub;
    LexLessHead(DigitChar(a2), DigitChar(b2), ta, tb);
    LexLessHead(DigitChar(a1), DigitChar(b1), ua, ub);
    LexLessHead(DigitChar(a0), DigitChar(b0), suffix, suffix);
    LexLessIrreflexive(suffix);
  }

  /** Strings that start with a character compare by that character first. */
  lemma LexLessHead(c: char, d: char, x: string, y: string)
    ensures LexLess([c] + x, [d] + y) == if c != d then c < d else LexLess(x, y)
  {
    assert ([c] + x)[1..] == x && ([d] + y)[1..] == y;
  }

  lemma {:induction false} LexLessIrreflexive(s: string)
    ensures !LexLess(s, s)
  {
    if s != [] {
      LexLessIrreflexive(s[1..]);
    }
  }
}
