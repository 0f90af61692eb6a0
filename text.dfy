/**
 * The string operations the core relies on: Go's strings.Trim with a
 * one-character cutset, strings.TrimSpace and the "%d" verb of fmt.Sprintf,
 * and JavaScript's String.prototype.split on a one-character separator.
 * Strings are sequences of Unicode scalar values.
 */
module Text {
  import opened Wrappers

  /** Go's unicode.IsSpace: the Latin-1 spaces and the other White_Space code points. */
  predicate IsSpace(c: char) {
    var n := c as int;
    n == 0x09 || n == 0x0A || n == 0x0B || n == 0x0C || n == 0x0D || n == 0x20
    || n == 0x85 || n == 0xA0 || n == 0x1680 || (0x2000 <= n <= 0x200A)
    || n == 0x2028 || n == 0x2029 || n == 0x202F || n == 0x205F || n == 0x3000
  }

  predicate IsNewline(c: char) {
    c == '\n'
  }

  /** Number of leading characters of s that satisfy f. */
  function LeadCount(s: string, f: char -> bool): (n: nat)
    ensures n <= |s|
    ensures forall k :: 0 <= k < n ==> f(s[k])
    ensures n < |s| ==> !f(s[n])
  {
    if |s| == 0 || !f(s[0]) then 0 else 1 + LeadCount(s[1..], f)
  }

  /** Number of trailing characters of s that satisfy f. */
  function TrailCount(s: string, f: char -> bool): (n: nat)
    ensures n <= |s|
    ensures forall k :: |s| - n <= k < |s| ==> f(s[k])
    ensures n < |s| ==> !f(s[|s| - 1 - n])
  {
    if |s| == 0 || !f(s[|s| - 1]) then 0 else 1 + TrailCount(s[..|s| - 1], f)
  }

  /** Go's strings.TrimFunc: drop the leading, then the trailing characters satisfying f. */
  function TrimFunc(s: string, f: char -> bool): (r: string)
    ensures |r| <= |s|
    ensures r != [] ==> !f(r[0]) && !f(r[|r| - 1])
  {
    var t := s[LeadCount(s, f)..];
    t[..|t| - TrailCount(t, f)]
  }

  /** Go's strings.Trim(s, "\n"). */
  function TrimNewlines(s: string): (r: string)
    ensures |r| <= |s|
    ensures r != [] ==> r[0] != '\n' && r[|r| - 1] != '\n'
  {
    TrimFunc(s, IsNewline)
  }

  /** Go's strings.TrimSpace. */
  function TrimSpace(s: string): (r: string)
    ensures |r| <= |s|
    ensures r != [] ==> !IsSpace(r[0]) && !IsSpace(r[|r| - 1])
  {
    TrimFunc(s, IsSpace)
  }

  /**
   * s[i..j] is what is left of s once the characters satisfying f are
   * dropped from both ends: everything outside satisfies f, and the
   * infix, when not empty, neither starts nor ends with such a character.
   */
  ghost predicate TrimmedAt(s: string, f: char -> bool, i: int, j: int) {
    && 0 <= i <= j <= |s|
    && (forall k :: 0 <= k < i ==> f(s[k]))
    && (forall k :: j <= k < |s| ==> f(s[k]))
    && (i < j ==> !f(s[i]) && !f(s[j - 1]))
  }

  /** TrimFunc's result is such an infix. */
  lemma TrimFuncTrimmedAt(s: string, f: char -> bool) returns (i: nat, j: nat)
    ensures TrimmedAt(s, f, i, j) && TrimFunc(s, f) == s[i..j]
  {
    var a := LeadCount(s, f);
    var t := s[a..];
    var b := TrailCount(t, f);
    i, j := a, |s| - b;
    forall k | j <= k < |s| ensures f(s[k]) {
      assert s[k] == t[k - a];
    }
    if i < j {
      assert s[j - 1] == t[|t| - 1 - b];
    }
  }

  /** ... and the only one. */
  lemma TrimFuncExact(s: string, f: char -> bool, i: int, j: int)
    requires TrimmedAt(s, f, i, j)
    ensures TrimFunc(s, f) == s[i..j]
  {
    var i', j' := TrimFuncTrimmedAt(s, f);
    assert i < j ==> !f(s[i]);
    assert i' < j' ==> !f(s[i']);
    assert i < j <==> i' < j';
    if i < j {
      assert i == i' by {
        assert !f(s[i']) && !f(s[i]);
      }
      assert j == j' by {
        assert !f(s[j' - 1]) && !f(s[j - 1]);
      }
    }
  }

  /** Trimming g from what is left after trimming f, where f implies g, trims g from the whole. */
  lemma TrimmedAtCompose(s: string, f: char -> bool, g: char -> bool, a: int, b: int, c: int, d: int)
    requires forall x :: f(x) ==> g(x)
    requires TrimmedAt(s, f, a, b)
    requires TrimmedAt(s[a..b], g, c, d)
    ensures TrimmedAt(s, g, a + c, a + d)
  {
    var t := s[a..b];
    forall k | 0 <= k < a + c ensures g(s[k]) {
      if k >= a {
        assert s[k] == t[k - a];
      } else {
        assert f(s[k]);
      }
    }
    forall k | a + d <= k < |s| ensures g(s[k]) {
      if k < b {
        assert s[k] == t[k - a];
      } else {
        assert f(s[k]);
      }
    }
    if c < d {
      assert s[a + c] == t[c] && s[a + d - 1] == t[d - 1];
    }
  }

  lemma SliceOfSlice(s: string, a: int, b: int, c: int, d: int)
    requires 0 <= a <= b <= |s| && 0 <= c <= d <= b - a
    ensures s[a..b][c..d] == s[a + c..a + d]
  {
    var x, y := s[a..b][c..d], s[a + c..a + d];
    assert |x| == |y|;
    forall k | 0 <= k < |x| ensures x[k] == y[k] {
      assert x[k] == s[a..b][c + k] == s[a + c + k];
    }
  }

  /** Trimming a subclass f of g first changes nothing about trimming g. */
  lemma {:induction false} TrimFuncAbsorbed(s: string, f: char -> bool, g: char -> bool)
    requires forall x :: f(x) ==> g(x)
    ensures TrimFunc(TrimFunc(s, f), g) == TrimFunc(s, g)
  {
    var a, b, c, d := TrimFuncTwice(s, f, g);
    assert TrimFunc(s, g) == s[a + c..a + d] by {
      TrimmedAtCompose(s, f, g, a, b, c, d);
      TrimFuncExact(s, g, a + c, a + d);
    }
  }

  /** Where the two trims of TrimFunc(TrimFunc(s, f), g) cut s. */
  lemma {:induction false} TrimFuncTwice(s: string, f: char -> bool, g: char -> bool)
    returns (a: int, b: int, c: int, d: int)
    ensures TrimmedAt(s, f, a, b) && TrimmedAt(s[a..b], g, c, d)
    ensures TrimFunc(TrimFunc(s, f), g) == s[a + c..a + d]
  {
    a, b := TrimFuncTrimmedAt(s, f);
    c, d := TrimFuncTrimmedAt(s[a..b], g);
    SliceOfSlice(s, a, b, c, d);
  }

  /** Trimming newlines before spaces is redundant: a newline is a space. */
  lemma TrimSpaceAfterNewlines(s: string)
    ensures TrimSpace(TrimNewlines(s)) == TrimSpace(s)
  {
    TrimFuncAbsorbed(s, IsNewline, IsSpace);
  }

  /** TrimSpace is idempotent. */
  lemma TrimSpaceIdempotent(s: string)
    ensures TrimSpace(TrimSpace(s)) == TrimSpace(s)
  {
    TrimFuncAbsorbed(s, IsSpace, IsSpace);
  }

  /** Number of occurrences of c in s. */
  function Count(s: string, c: char): nat {
    if s == [] then 0 else (if s[0] == c then 1 else 0) + Count(s[1..], c)
  }

  /**
   * JavaScript's s.split(sep) for a one-character separator: the pieces
   * between separators, in order; an empty string gives one empty piece.
   */
  function Split(s: string, sep: char): (parts: seq<string>)
    ensures |parts| == Count(s, sep) + 1
    ensures forall k :: 0 <= k < |parts| ==> sep !in parts[k]
  {
    if s == [] then [""]
    else
      var rest := Split(s[1..], sep);
      if s[0] == sep then [""] + rest
      else [[s[0]] + rest[0]] + rest[1..]
  }

  /** The pieces joined with sep between consecutive ones. */
  function Join(parts: seq<string>, sep: char): string
    requires |parts| >= 1
  {
    if |parts| == 1 then parts[0] else parts[0] + [sep] + Join(parts[1..], sep)
  }

  /** Joining the pieces of a split gives back the string. */
  lemma {:induction false} JoinSplit(s: string, sep: char)
    ensures Join(Split(s, sep), sep) == s
  {
    if s != [] {
      var rest := Split(s[1..], sep);
      JoinSplit(s[1..], sep);
      if s[0] != sep {
        var parts := Split(s, sep);
        if |rest| == 1 {
          assert parts == [[s[0]] + rest[0]];
        } else {
          assert parts[1..] == rest[1..];
          assert Join(rest, sep) == rest[0] + [sep] + Join(rest[1..], sep);
        }
      }
    }
  }

  /** Splitting a join of separator-free pieces gives back the pieces. */
  lemma {:induction false} SplitJoin(parts: seq<string>, sep: char)
    requires |parts| >= 1
    requires forall k :: 0 <= k < |parts| ==> sep !in parts[k]
    ensures Split(Join(parts, sep), sep) == parts
  {
    if |parts| == 1 {
      SplitNoSeparator(parts[0], sep);
    } else {
      SplitJoin(parts[1..], sep);
      SplitAppend(parts[0], Join(parts[1..], sep), sep);
    }
  }

  /** A string without sep splits into itself. */
  lemma {:induction false} SplitNoSeparator(s: string, sep: char)
    requires sep !in s
    ensures Split(s, sep) == [s]
  {
    if s != [] {
      SplitNoSeparator(s[1..], sep);
      assert [s[0]] + s[1..] == s;
    }
  }

  /** Splitting p + [sep] + q, where p has no sep, puts p in front of the pieces of q. */
  lemma {:induction false} SplitAppend(p: string, q: string, sep: char)
    requires sep !in p
    ensures Split(p + [sep] + q, sep) == [p] + Split(q, sep)
  {
    if p != [] {
      assert (p + [sep] + q)[1..] == p[1..] + [sep] + q;
      assert p[0] in p && [p[0]] + p[1..] == p;
      SplitAppend(p[1..], q, sep);
    } else {
      assert (p + [sep] + q)[1..] == q;
    }
  }

  predicate IsDigit(c: char) {
    '0' <= c <= '9'
  }

  function DigitChar(d: nat): (c: char)
    requires d < 10
    ensures IsDigit(c) && (c as int) - ('0' as int) == d
  {
    ((d + '0' as int) as char)
  }

  /** Decimal digits of n, most significant first, without leading zeros. */
  function NatToDecimal(n: nat): (s: string)
    ensures |s| >= 1
    ensures AllDigits(s)
    ensures s[0] == '0' ==> s == "0"
  {
    if n < 10 then [DigitChar(n)] else NatToDecimal(n / 10) + [DigitChar(n % 10)]
  }

  /** Go's fmt.Sprintf("%d", n). */
  function FormatInt(n: int): (r: string)
    ensures |r| >= 1
    ensures r[0] == '-' <==> n < 0
    ensures forall k :: (if n < 0 then 1 else 0) <= k < |r| ==> IsDigit(r[k])
  {
    if n < 0 then "-" + NatToDecimal(-n) else NatToDecimal(n)
  }

  /** Value of a string of decimal digits. */
  function DecimalValue(s: string): nat
    requires AllDigits(s)
  {
    if s == [] then 0
    else DecimalValue(s[..|s| - 1]) * 10 + DigitValue(s[|s| - 1])
  }

  function DigitValue(c: char): (d: nat)
    requires IsDigit(c)
    ensures d < 10 && DigitChar(d) == c
  {
    (c as int) - ('0' as int)
  }

  predicate AllDigits(s: string) {
    forall k :: 0 <= k < |s| ==> IsDigit(s[k])
  }

  /** Reads an optional minus sign followed by at least one decimal digit. */
  function ParseInt(s: string): Option<int> {
    if |s| >= 2 && s[0] == '-' && AllDigits(s[1..]) then Some(0 - DecimalValue(s[1..]))
    else if |s| >= 1 && AllDigits(s) then Some(DecimalValue(s))
    else None
  }

  lemma {:induction false} DecimalOfNat(n: nat)
    ensures DecimalValue(NatToDecimal(n)) == n
  {
    if n >= 10 {
      var s := NatToDecimal(n);
      DecimalOfNat(n / 10);
      assert s[..|s| - 1] == NatToDecimal(n / 10);
    }
  }

  /** Printing an integer with %d and reading it back gives the integer. */
  lemma FormatIntRoundTrip(n: int)
    ensures ParseInt(FormatInt(n)) == Some(n)
  {
    if n < 0 {
      DecimalOfNat(-n);
      assert FormatInt(n)[1..] == NatToDecimal(-n);
    } else {
      DecimalOfNat(n);
    }
  }

  /** Distinct integers print differently. */
  lemma FormatIntInjective(a: int, b: int)
    requires FormatInt(a) == FormatInt(b)
    ensures a == b
  {
    FormatIntRoundTrip(a);
    FormatIntRoundTrip(b);
  }
}
