/** String helpers the installer relies on: decimal rendering of numbers,
    newline stripping, suffix and substring tests. */
module Text {

  predicate IsDigit(c: char) {
    '0' <= c <= '9'
  }

  function Digit(d: nat): (c: char)
    requires d < 10
    ensures IsDigit(c)
  {
    ('0' as int + d) as char
  }

  /** Decimal rendering of a number, as fmt's %d prints it. */
  function NatToString(n: nat): (s: string)
    ensures |s| >= 1
    ensures forall i :: 0 <= i < |s| ==> IsDigit(s[i])
    ensures n >= 10 ==> |s| >= 2
  {
    if n < 10 then [Digit(n)] else NatToString(n / 10) + [Digit(n % 10)]
  }

  /** Different numbers print differently. */
  lemma {:induction false} NatToStringInjective(a: nat, b: nat)
    requires NatToString(a) == NatToString(b)
    ensures a == b
  {
    if a >= 10 && b >= 10 {
      var sa, sb := NatToString(a), NatToString(b);
      assert sa[|sa| - 1] == Digit(a % 10) && sb[|sb| - 1] == Digit(b % 10);
      assert a % 10 == b % 10;
      assert sa[..|sa| - 1] == NatToString(a / 10);
      assert sb[..|sb| - 1] == NatToString(b / 10);
      NatToStringInjective(a / 10, b / 10);
    }
  }

  /** strings.Replace(s, "\n", "", -1): every newline removed. */
  function StripNewlines(s: string): (r: string)
    ensures '\n' !in r
    ensures |r| <= |s|
  {
    if s == [] then []
    else (if s[0] == '\n' then [] else [s[0]]) + StripNewlines(s[1..])
  }

  lemma {:induction false} StripNewlinesAppend(a: string, b: string)
    ensures StripNewlines(a + b) == StripNewlines(a) + StripNewlines(b)
  {
    if a != [] {
      assert (a + b)[1..] == a[1..] + b;
      StripNewlinesAppend(a[1..], b);
    } else {
      assert a + b == b;
    }
  }

  /** A string without newlines is left as it is, and only such strings are. */
  lemma {:induction false} StripNewlinesFixes(s: string)
    ensures StripNewlines(s) == s <==> '\n' !in s
  {
    if s != [] {
      StripNewlinesFixes(s[1..]);
      if s[0] == '\n' {
        assert |StripNewlines(s)| < |s| by {
          assert StripNewlines(s) == StripNewlines(s[1..]);
        }
      } else {
        assert s == [s[0]] + s[1..];
      }
    }
  }

  /** A one-line checksum file ending in a newline reads as its line. */
  lemma TrailingNewlineIgnored(d: string)
    requires '\n' !in d
    ensures StripNewlines(d + "\n") == d
  {
    StripNewlinesAppend(d, "\n");
    StripNewlinesFixes(d);
  }

  predicate HasSuffix(s: string, suffix: string) {
    |suffix| <= |s| && s[|s| - |suffix|..] == suffix
  }

  /** strings.Contains: `part` occurs somewhere in `s`. */
  predicate Contains(s: string, part: string)
    decreases |s|
  {
    |part| <= |s| && (s[..|part|] == part || Contains(s[1..], part))
  }

  /** Splitting two strings at the first occurrence of a separator that
      neither head contains gives equal heads and equal tails. */
  lemma SplitAtFirst(x1: string, y1: string, x2: string, y2: string, c: char)
    requires c !in x1 && c !in x2
    requires x1 + [c] + y1 == x2 + [c] + y2
    ensures x1 == x2 && y1 == y2
  {
    var s := x1 + [c] + y1;
    assert s[|x1|] == c && s[|x2|] == c;
    assert forall k :: 0 <= k < |x1| ==> s[k] != c;
    assert forall k :: 0 <= k < |x2| ==> s[k] != c;
    assert |x1| == |x2|;
    assert x1 == s[..|x1|] == x2;
    assert y1 == s[|x1| + 1..] == y2;
  }
}
