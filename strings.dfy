/**
 * The few Python string operations the chat pipeline relies on:
 * `sep.join(xs)`, `f"{i}"` for a non-negative integer and `str.strip()`.
 */
module Strings {

  /** `sep.join(xs)`: the elements of `xs` with `sep` between neighbours. */
  function Join(sep: string, xs: seq<string>): string
  {
    if |xs| == 0 then ""
    else if |xs| == 1 then xs[0]
    else Join(sep, xs[..|xs| - 1]) + sep + xs[|xs| - 1]
  }

  /** Sum of the lengths of the strings in `xs`. */
  function TotalLength(xs: seq<string>): nat
  {
    if xs == [] then 0 else TotalLength(xs[..|xs| - 1]) + |xs[|xs| - 1]|
  }

  /** The length of a join: every element's length plus one separator between each pair. */
  lemma {:induction false} JoinLength(sep: string, xs: seq<string>)
    requires |xs| > 0
    ensures |Join(sep, xs)| == TotalLength(xs) + (|xs| - 1) * |sep|
  {
    if |xs| > 1 {
      JoinLength(sep, xs[..|xs| - 1]);
      assert TotalLength(xs) == TotalLength(xs[..|xs| - 1]) + |xs[|xs| - 1]|;
    } else {
      assert xs[..0] == [];
    }
  }

  /** Joining from the front: the first element, a separator, then the rest joined. */
  lemma {:induction false} JoinCons(sep: string, x: string, xs: seq<string>)
    requires |xs| > 0
    ensures Join(sep, [x] + xs) == x + sep + Join(sep, xs)
  {
    if |xs| == 1 {
      assert ([x] + xs)[..1] == [x];
    } else {
      var init := xs[..|xs| - 1];
      assert ([x] + xs)[..|[x] + xs| - 1] == [x] + init;
      JoinCons(sep, x, init);
    }
  }

  /** A join can be cut at any inner boundary: left part, one separator, right part. */
  lemma {:induction false} JoinSplit(sep: string, xs: seq<string>, k: nat)
    requires 0 < k < |xs|
    ensures Join(sep, xs) == Join(sep, xs[..k]) + sep + Join(sep, xs[k..])
    decreases |xs|
  {
    var init := xs[..|xs| - 1];
    if k == |xs| - 1 {
      assert xs[k..] == [xs[k]];
      assert init == xs[..k];
    } else {
      JoinSplit(sep, init, k);
      assert init[..k] == xs[..k];
      assert xs[k..][..|xs[k..]| - 1] == init[k..];
    }
  }

  /** A join begins with its first element. */
  lemma JoinStartsWithFirst(sep: string, xs: seq<string>)
    requires |xs| > 0
    ensures |xs[0]| <= |Join(sep, xs)| && Join(sep, xs)[..|xs[0]|] == xs[0]
  {
    if |xs| > 1 {
      assert xs == [xs[0]] + xs[1..];
      JoinCons(sep, xs[0], xs[1..]);
    }
  }

  /**
   * Element `i` of `xs` sits in the join right after the `i` elements before
   * it and the `i` separators that follow them.
   */
  lemma JoinElementAt(sep: string, xs: seq<string>, i: nat)
    requires i < |xs|
    ensures TotalLength(xs[..i]) + i * |sep| + |xs[i]| <= |Join(sep, xs)|
    ensures Join(sep, xs)[TotalLength(xs[..i]) + i * |sep|..TotalLength(xs[..i]) + i * |sep| + |xs[i]|] == xs[i]
  {
    var rest := xs[i..];
    var w := |xs[i]|;
    assert rest[0] == xs[i];
    JoinStartsWithFirst(sep, rest);
    if i == 0 {
      assert xs[..0] == [] && rest == xs;
    } else {
      JoinSplit(sep, xs, i);
      JoinLength(sep, xs[..i]);
      assert |xs[..i]| == i;
      assert (i - 1) * |sep| + |sep| == i * |sep|;
      var left := Join(sep, xs[..i]) + sep;
      var right := Join(sep, rest);
      var at := TotalLength(xs[..i]) + i * |sep|;
      assert |left| == at;
      assert Join(sep, xs) == left + right;
      assert (left + right)[at..at + w] == right[..w];
    }
  }

  predicate IsDigit(c: char) { '0' <= c <= '9' }

  function DigitChar(d: nat): (c: char)
    requires d < 10
    ensures IsDigit(c) && c as int - '0' as int == d
  {
    (d + '0' as int) as char
  }

  /** `f"{n}"` for `n >= 0`: the canonical decimal numeral of `n`. */
  function NatToString(n: nat): (r: string)
    ensures |r| > 0
    ensures forall k :: 0 <= k < |r| ==> IsDigit(r[k])
    ensures r[0] == '0' ==> r == "0"
  {
    if n < 10 then [DigitChar(n)] else NatToString(n / 10) + [DigitChar(n % 10)]
  }

  /** The value of a string of decimal digits, read from the left. */
  function DigitsValue(s: string): nat
    requires forall k :: 0 <= k < |s| ==> IsDigit(s[k])
  {
    if s == [] then 0
    else
      assert IsDigit(s[|s| - 1]);
      DigitsValue(s[..|s| - 1]) * 10 + (s[|s| - 1] as int - '0' as int)
  }

  /** The numeral names its number: reading it back gives `n` (so distinct indices print differently). */
  lemma {:induction false} NatToStringRoundTrip(n: nat)
    ensures DigitsValue(NatToString(n)) == n
  {
    if n >= 10 {
      NatToStringRoundTrip(n / 10);
      var r := NatToString(n);
      assert r[..|r| - 1] == NatToString(n / 10);
    }
  }

  /** `str.isspace()` for one character, as Python 3 defines it. */
  predicate IsSpace(c: char)
  {
    c == ' ' || ('\t' <= c <= '\r') || ('\U{1c}' <= c <= '\U{1f}') || c == '\U{85}' || c == '\U{a0}'
    || c == '\U{1680}' || ('\U{2000}' <= c <= '\U{200a}') || c == '\U{2028}' || c == '\U{2029}'
    || c == '\U{202f}' || c == '\U{205f}' || c == '\U{3000}'
  }

  predicate AllSpace(s: string)
  {
    forall k :: 0 <= k < |s| ==> IsSpace(s[k])
  }

  lemma AllSpaceSnoc(t: string, c: char)
    requires AllSpace(t) && IsSpace(c)
    ensures AllSpace(t + [c])
  {
    assert forall k :: 0 <= k < |t| ==> (t + [c])[k] == t[k];
  }

  /** Number of whitespace characters at the front of `s`. */
  function LeadingSpace(s: string): (n: nat)
    ensures n <= |s| && AllSpace(s[..n])
    ensures n < |s| ==> !IsSpace(s[n])
  {
    if s == [] || !IsSpace(s[0]) then 0 else 1 + LeadingSpace(s[1..])
  }

  /** Number of whitespace characters at the back of `s`. */
  function TrailingSpace(s: string): (n: nat)
    ensures n <= |s| && AllSpace(s[|s| - n..])
    ensures n < |s| ==> !IsSpace(s[|s| - n - 1])
  {
    if s == [] || !IsSpace(s[|s| - 1]) then 0
    else
      var init := s[..|s| - 1];
      var m := TrailingSpace(init);
      assert s[|s| - (1 + m)..] == init[|init| - m..] + [s[|s| - 1]];
      AllSpaceSnoc(init[|init| - m..], s[|s| - 1]);
      1 + m
  }

  /** `str.strip()`: `s` without its leading and trailing whitespace. */
  function Strip(s: string): (r: string)
    ensures r == [] || (!IsSpace(r[0]) && !IsSpace(r[|r| - 1]))
    ensures exists p, q :: s == p + r + q && AllSpace(p) && AllSpace(q)
  {
    var lead := LeadingSpace(s);
    var t := s[lead..];
    var trail := TrailingSpace(t);
    var end := |s| - trail;
    assert t[|t| - trail..] == s[end..] && t[..|t| - trail] == s[lead..end];
    SplitAround(s, lead, end);
    s[lead..end]
  }

  lemma SplitAround<T>(s: seq<T>, i: nat, j: nat)
    requires i <= j <= |s|
    ensures s == s[..i] + s[i..j] + s[j..]
  {
  }

  /** `k` whitespace characters followed by a non-space (or the end) are exactly the leading space. */
  lemma {:induction false} LeadingSpaceAt(s: string, k: nat)
    requires k <= |s| && AllSpace(s[..k]) && (k < |s| ==> !IsSpace(s[k]))
    ensures LeadingSpace(s) == k
  {
    if k > 0 {
      assert IsSpace(s[..k][0]);
      assert s[1..][..k - 1] == s[..k][1..];
      LeadingSpaceAt(s[1..], k - 1);
    }
  }

  /** The mirror image of `LeadingSpaceAt` at the back of the string. */
  lemma {:induction false} TrailingSpaceAt(s: string, k: nat)
    requires k <= |s| && AllSpace(s[|s| - k..]) && (k < |s| ==> !IsSpace(s[|s| - k - 1]))
    ensures TrailingSpace(s) == k
  {
    if k > 0 {
      var suffix := s[|s| - k..];
      assert IsSpace(suffix[k - 1]) && s[|s| - 1] == suffix[k - 1];
      var u := s[..|s| - 1];
      assert forall j :: 0 <= j < k - 1 ==> u[|u| - (k - 1)..][j] == suffix[j];
      if k - 1 < |u| {
        assert u[|u| - (k - 1) - 1] == s[|s| - k - 1];
      }
      TrailingSpaceAt(u, k - 1);
      assert TrailingSpace(s) == 1 + TrailingSpace(u);
    }
  }

  /**
   * Stripping is determined by the whitespace around the text: any split of `s` into
   * whitespace, a core that neither starts nor ends with whitespace, and whitespace,
   * has that core as `Strip(s)`.
   */
  lemma StripUnique(s: string, p: string, r: string, q: string)
    requires s == p + r + q && AllSpace(p) && AllSpace(q)
    requires r == [] || (!IsSpace(r[0]) && !IsSpace(r[|r| - 1]))
    ensures Strip(s) == r
  {
    if r == [] {
      assert AllSpace(s[..|s|]) by {
        assert s[..|s|] == s;
        forall k | 0 <= k < |s| ensures IsSpace(s[k]) {
          if k < |p| { assert s[k] == p[k]; } else { assert s[k] == q[k - |p|]; }
        }
      }
      LeadingSpaceAt(s, |s|);
    } else {
      assert s[..|p|] == p;
      assert s[|p|] == r[0];
      LeadingSpaceAt(s, |p|);
      var t := s[|p|..];
      assert t == r + q;
      assert t[|t| - |q|..] == q;
      assert t[|t| - |q| - 1] == r[|r| - 1];
      TrailingSpaceAt(t, |q|);
      assert t[..|t| - |q|] == r;
    }
  }
}
