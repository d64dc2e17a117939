/** The pieces of Go's `strings` and `strconv` behaviour that the core relies on. */
module Text {

  /** unicode.IsSpace: the characters strings.TrimSpace removes. */
  predicate IsSpace(c: char)
  {
    c == ' ' || c == '\t' || c == '\n' || c == '\U{000B}' || c == '\U{000C}' || c == '\r'
    || c == '\U{0085}' || c == '\U{00A0}' || c == '\U{1680}'
    || ('\U{2000}' <= c <= '\U{200A}')
    || c == '\U{2028}' || c == '\U{2029}' || c == '\U{202F}' || c == '\U{205F}' || c == '\U{3000}'
  }

  /** Appending is associative. */
  lemma SeqAssoc<T>(a: seq<T>, b: seq<T>, c: seq<T>)
    ensures a + (b + c) == (a + b) + c
  {
  }

  predicate AllSpace(s: string)
  {
    forall k :: 0 <= k < |s| ==> IsSpace(s[k])
  }

  /** Leading white space removed: the result is the suffix of s that starts at its first non-space. */
  function TrimLeft(s: string): (r: string)
    ensures |r| <= |s| && r == s[|s| - |r|..]
    ensures AllSpace(s[..|s| - |r|])
    ensures r != [] ==> !IsSpace(r[0])
  {
    if s != [] && IsSpace(s[0]) then
      var r := TrimLeft(s[1..]);
      assert s[..|s| - |r|] == [s[0]] + s[1..][..|s| - 1 - |r|];
      AllSpaceCons(s[0], s[1..][..|s| - 1 - |r|]);
      r
    else
      s
  }

  lemma AllSpaceCons(c: char, t: string)
    requires IsSpace(c) && AllSpace(t)
    ensures AllSpace([c] + t)
  {
    assert forall k :: 0 < k <= |t| ==> ([c] + t)[k] == t[k - 1];
  }

  /** Trailing white space removed: the result is the prefix of s that ends at its last non-space. */
  function TrimRight(s: string): (r: string)
    ensures |r| <= |s| && r == s[..|r|]
    ensures AllSpace(s[|r|..])
    ensures r != [] ==> !IsSpace(r[|r| - 1])
  {
    if s != [] && IsSpace(s[|s| - 1]) then TrimRight(s[..|s| - 1]) else s
  }

  /** strings.TrimSpace */
  function TrimSpace(s: string): (r: string)
    ensures |r| <= |s|
    ensures r != [] ==> !IsSpace(r[0]) && !IsSpace(r[|r| - 1])
  {
    TrimRight(TrimLeft(s))
  }

  /** A string with no white space at either end is its own trim. */
  lemma TrimSpaceFixed(s: string)
    requires s == [] || (!IsSpace(s[0]) && !IsSpace(s[|s| - 1]))
    ensures TrimSpace(s) == s
  {
  }

  /** Trimming the end leaves nothing only of white space. */
  lemma TrimRightEmpty(s: string)
    requires TrimRight(s) == []
    ensures AllSpace(s)
  {
    assert s[|TrimRight(s)|..] == s;
  }

  /** Only white space trims to the empty string. */
  lemma {:induction false} TrimSpaceEmptyIff(s: string)
    ensures TrimSpace(s) == [] <==> AllSpace(s)
  {
    var l := TrimLeft(s);
    if AllSpace(s) {
      assert l == [];
    }
    if TrimSpace(s) == [] {
      assert AllSpace(l[|TrimRight(l)|..]);
      assert s == s[..|s| - |l|] + l;
      assert AllSpace(s);
    }
  }

  /** Trimming the front of a + b stops before b when a or b has a non-space to stop at. */
  lemma {:induction false} TrimLeftAppend(a: string, b: string)
    requires !AllSpace(a) || (b != [] && !IsSpace(b[0]))
    ensures TrimLeft(a + b) == TrimLeft(a) + b
    decreases |a|
  {
    if a != [] {
      assert (a + b)[0] == a[0];
      if IsSpace(a[0]) {
        assert (a + b)[1..] == a[1..] + b;
        assert !AllSpace(a) ==> !AllSpace(a[1..]);
        TrimLeftAppend(a[1..], b);
      }
    } else {
      assert a + b == b;
    }
  }

  /** Trimming the end of a + b stops inside b unless b is all white space, and then at a's end. */
  lemma {:induction false} TrimRightAppend(a: string, b: string)
    requires a != [] && !IsSpace(a[|a| - 1])
    ensures TrimRight(a + b) == if AllSpace(b) then a else a + TrimRight(b)
    decreases |b|
  {
    if b == [] {
      assert a + b == a;
    } else {
      assert (a + b)[|a + b| - 1] == b[|b| - 1];
      assert (a + b)[..|a + b| - 1] == a + b[..|b| - 1];
      if IsSpace(b[|b| - 1]) {
        TrimRightAppend(a, b[..|b| - 1]);
        if AllSpace(b[..|b| - 1]) {
          assert AllSpace(b);
        } else {
          assert !AllSpace(b);
        }
      } else {
        assert !AllSpace(b);
      }
    }
  }

  /** strings.IndexByte / strings.Index for one character: the first position of c, or -1. */
  function IndexOf(s: string, c: char): (r: int)
    ensures -1 <= r < |s|
    ensures r == -1 <==> c !in s
    ensures r >= 0 ==> s[r] == c && c !in s[..r]
  {
    if s == [] then -1
    else if s[0] == c then 0
    else
      var k := IndexOf(s[1..], c);
      assert s[1..][..if k < 0 then 0 else k] == s[1..1 + (if k < 0 then 0 else k)];
      if k < 0 then -1 else k + 1
  }

  /** strings.SplitN(s, string(c), 2): s itself, or the text before and after the first c. */
  function SplitOnce(s: string, c: char): (parts: seq<string>)
    ensures |parts| == (if c in s then 2 else 1)
    ensures |parts| == 1 ==> parts[0] == s
    ensures |parts| == 2 ==> parts[0] + [c] + parts[1] == s && c !in parts[0]
    ensures |parts| == 2 ==> parts[1] == s[IndexOf(s, c) + 1..]
  {
    var i := IndexOf(s, c);
    if i < 0 then [s]
    else
      assert s[..i] + [c] + s[i + 1..] == s;
      [s[..i], s[i + 1..]]
  }

  /** strings.HasPrefix */
  predicate HasPrefix(s: string, p: string)
  {
    |p| <= |s| && s[..|p|] == p
  }

  predicate IsDigit(c: char)
  {
    '0' <= c <= '9'
  }

  predicate AllDigits(s: string)
  {
    forall k :: 0 <= k < |s| ==> IsDigit(s[k])
  }

  function DigitChar(d: nat): (c: char)
    requires d < 10
    ensures IsDigit(c)
  {
    (48 + d) as char
  }

  function DigitValue(c: char): (d: nat)
    requires IsDigit(c)
    ensures d < 10 && DigitChar(d) == c
  {
    (c as int) - 48
  }

  function Pow10(w: nat): (p: nat)
    ensures p >= 1
  {
    if w == 0 then 1 else 10 * Pow10(w - 1)
  }

  /**
   * The decimal digits of n, padded with leading zeros to at least w digits: Go's
   * internal appendInt(b, n, w), used by time.Format, and with w = 1 the `%d` verb.
   */
  function Decimal(n: nat, w: nat): (r: string)
    ensures |r| >= 1 && |r| >= w
    ensures AllDigits(r)
    decreases n + w
  {
    if n < 10 && w <= 1 then [DigitChar(n)]
    else Decimal(n / 10, if w > 0 then w - 1 else 0) + [DigitChar(n % 10)]
  }

  /** The number a string of decimal digits denotes (strconv.Atoi on digits only). */
  function Value(s: string): nat
    requires AllDigits(s)
  {
    if s == [] then 0 else 10 * Value(s[..|s| - 1]) + DigitValue(s[|s| - 1])
  }

  /** Reading back what Decimal wrote gives the number again. */
  lemma {:induction false} ValueOfDecimal(n: nat, w: nat)
    ensures Value(Decimal(n, w)) == n
    decreases n + w
  {
    var r := Decimal(n, w);
    if n < 10 && w <= 1 {
      assert r[..0] == [];
    } else {
      var rest := Decimal(n / 10, if w > 0 then w - 1 else 0);
      assert r[..|r| - 1] == rest;
      ValueOfDecimal(n / 10, if w > 0 then w - 1 else 0);
    }
  }

  /** A number below 10^w is written with exactly w digits. */
  lemma {:induction false} DecimalWidth(n: nat, w: nat)
    requires w >= 1 && n < Pow10(w)
    ensures |Decimal(n, w)| == w
    decreases w
  {
    if !(n < 10 && w <= 1) {
      DecimalWidth(n / 10, w - 1);
    }
  }

  /** Different numbers are written differently: decimal formatting is injective. */
  lemma DecimalInjective(a: nat, b: nat, w: nat)
    requires Decimal(a, w) == Decimal(b, w)
    ensures a == b
  {
    ValueOfDecimal(a, w);
    ValueOfDecimal(b, w);
  }

  /** Strings joined in order with no separator. */
  function Concat(ss: seq<string>): string
  {
    if ss == [] then [] else Concat(ss[..|ss| - 1]) + ss[|ss| - 1]
  }

  /** Joining two lists of strings is joining their joins. */
  lemma {:induction false} ConcatAppend(a: seq<string>, b: seq<string>)
    ensures Concat(a + b) == Concat(a) + Concat(b)
    decreases |b|
  {
    if b == [] {
      assert a + b == a;
    } else {
      var init, last := b[..|b| - 1], b[|b| - 1];
      var ab := a + b;
      assert ab[..|ab| - 1] == a + init && ab[|ab| - 1] == last;
      ConcatAppend(a, init);
      assert Concat(ab) == (Concat(a) + Concat(init)) + last;
      SeqAssoc(Concat(a), Concat(init), last);
    }
  }
}
