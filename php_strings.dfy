/** The PHP string primitives the walker relies on: case-insensitive comparison
    (strcasecmp), the truthiness of a string, array_filter, join, str_repeat and
    the conversion of an integer to its decimal text. */
module PhpStrings {

  /** ASCII case folding of one character, as strcasecmp folds bytes. */
  function LowerChar(c: char): char {
    if 'A' <= c <= 'Z' then (c as int - 'A' as int + 'a' as int) as char else c
  }

  function ToLower(s: string): string {
    seq(|s|, i requires 0 <= i < |s| => LowerChar(s[i]))
  }

  /** `strcasecmp(a, b) == 0`: same length, and equal byte by byte after
      ASCII case folding. */
  predicate EqualsIgnoreCase(a: string, b: string) {
    |a| == |b| && forall i :: 0 <= i < |a| ==> LowerChar(a[i]) == LowerChar(b[i])
  }

  /** Comparing without case is comparing the lower-cased strings. */
  lemma EqualsIgnoreCaseIsLowerEquality(a: string, b: string)
    ensures EqualsIgnoreCase(a, b) <==> ToLower(a) == ToLower(b)
  {
    if EqualsIgnoreCase(a, b) {
      assert forall i :: 0 <= i < |a| ==> ToLower(a)[i] == ToLower(b)[i];
    }
    if ToLower(a) == ToLower(b) {
      assert |ToLower(a)| == |a| && |ToLower(b)| == |b|;
      forall i | 0 <= i < |a| ensures LowerChar(a[i]) == LowerChar(b[i]) {
        assert ToLower(a)[i] == ToLower(b)[i];
      }
    }
  }

  /** PHP truthiness of a string: only "" and "0" are false. */
  predicate Truthy(s: string) {
    s != "" && s != "0"
  }

  /** array_filter without a callback: keeps the truthy strings, in order. */
  function FilterFalsy(xs: seq<string>): seq<string> {
    if xs == [] then [] else (if Truthy(xs[0]) then [xs[0]] else []) + FilterFalsy(xs[1..])
  }

  /** array_filter keeps exactly the truthy members, and never lengthens the list. */
  lemma {:induction false} FilterFalsyMembers(xs: seq<string>)
    ensures |FilterFalsy(xs)| <= |xs|
    ensures forall w :: w in FilterFalsy(xs) <==> w in xs && Truthy(w)
  {
    if xs != [] {
      FilterFalsyMembers(xs[1..]);
      assert xs == [xs[0]] + xs[1..];
    }
  }

  /** A list of truthy strings passes array_filter unchanged. */
  lemma {:induction false} FilterFalsyKeepsTruthy(xs: seq<string>)
    requires forall w :: w in xs ==> Truthy(w)
    ensures FilterFalsy(xs) == xs
  {
    if xs != [] {
      assert xs[0] in xs;
      assert forall w :: w in xs[1..] ==> w in xs;
      FilterFalsyKeepsTruthy(xs[1..]);
      assert [xs[0]] + xs[1..] == xs;
    }
  }

  /** join(sep, xs) */
  function Join(sep: string, xs: seq<string>): string {
    if xs == [] then "" else if |xs| == 1 then xs[0] else xs[0] + sep + Join(sep, xs[1..])
  }

  /** str_repeat(s, n) */
  function Repeat(s: string, n: nat): string {
    if n == 0 then "" else s + Repeat(s, n - 1)
  }

  /** The characters of a decimal digit string. */
  function DigitChar(d: nat): (c: char)
    requires d < 10
    ensures '0' <= c <= '9'
    ensures c as int - '0' as int == d
  {
    ('0' as int + d) as char
  }

  /** The decimal text PHP produces when a non-negative integer is concatenated. */
  function NatToString(n: nat): (r: string)
    ensures |r| > 0
    ensures forall i :: 0 <= i < |r| ==> '0' <= r[i] <= '9'
    ensures n < 10 <==> |r| == 1
  {
    if n < 10 then [DigitChar(n)] else NatToString(n / 10) + [DigitChar(n % 10)]
  }

  /** The decimal text PHP produces when an integer is concatenated to a string. */
  function IntToString(i: int): (r: string)
    ensures |r| > 0
    ensures forall k :: 0 <= k < |r| ==> r[k] == '-' || '0' <= r[k] <= '9'
    ensures i < 0 <==> r[0] == '-'
  {
    if i < 0 then "-" + NatToString(-i) else NatToString(i)
  }

  /** Different numbers have different decimal texts. */
  lemma {:induction false} NatToStringInjective(m: nat, n: nat)
    requires NatToString(m) == NatToString(n)
    ensures m == n
  {
    var sm, sn := NatToString(m), NatToString(n);
    if m < 10 && n < 10 {
      assert sm[0] == DigitChar(m) && sn[0] == DigitChar(n);
    } else if m >= 10 && n >= 10 {
      assert sm[|sm| - 1] == DigitChar(m % 10) && sn[|sn| - 1] == DigitChar(n % 10);
      assert sm[..|sm| - 1] == NatToString(m / 10);
      assert sn[..|sn| - 1] == NatToString(n / 10);
      NatToStringInjective(m / 10, n / 10);
    }
  }

  lemma IntToStringInjective(i: int, j: int)
    requires IntToString(i) == IntToString(j)
    ensures i == j
  {
    var si, sj := IntToString(i), IntToString(j);
    if i < 0 && j < 0 {
      assert si[1..] == NatToString(-i) && sj[1..] == NatToString(-j);
      NatToStringInjective(-i, -j);
    } else if i >= 0 && j >= 0 {
      NatToStringInjective(i, j);
    }
  }

  /** A string holding no tab and no newline: what "discard" spacing promises. */
  predicate NoBreaks(s: string) {
    forall i :: 0 <= i < |s| ==> s[i] != '\t' && s[i] != '\n'
  }

  /** NoBreaks says that neither a tab nor a newline occurs in the string. */
  lemma NoBreaksMeans(s: string)
    ensures NoBreaks(s) <==> '\t' !in s && '\n' !in s
  {
  }

  lemma NoBreaksConcat(a: string, b: string)
    requires NoBreaks(a) && NoBreaks(b)
    ensures NoBreaks(a + b)
  {
    forall i | 0 <= i < |a + b| ensures (a + b)[i] != '\t' && (a + b)[i] != '\n' {
      if i < |a| {
        assert (a + b)[i] == a[i];
      } else {
        assert (a + b)[i] == b[i - |a|];
      }
    }
  }

  lemma NoBreaks3(a: string, b: string, c: string)
    requires NoBreaks(a) && NoBreaks(b) && NoBreaks(c)
    ensures NoBreaks(a + b + c)
  {
    NoBreaksConcat(a, b);
    NoBreaksConcat(a + b, c);
  }

  lemma NoBreaks5(a: string, b: string, c: string, d: string, e: string)
    requires NoBreaks(a) && NoBreaks(b) && NoBreaks(c) && NoBreaks(d) && NoBreaks(e)
    ensures NoBreaks(a + b + c + d + e)
  {
    NoBreaks3(a, b, c);
    NoBreaks3(a + b + c, d, e);
  }

  /** str_repeat of the empty string is empty. */
  lemma {:induction false} RepeatEmpty(n: nat)
    ensures Repeat("", n) == ""
  {
    if n > 0 {
      RepeatEmpty(n - 1);
    }
  }

  lemma {:induction false} JoinNoBreaks(sep: string, xs: seq<string>)
    requires NoBreaks(sep)
    requires forall w :: w in xs ==> NoBreaks(w)
    ensures NoBreaks(Join(sep, xs))
  {
    if |xs| > 1 {
      assert xs[0] in xs;
      assert forall w :: w in xs[1..] ==> w in xs;
      JoinNoBreaks(sep, xs[1..]);
      NoBreaksConcat(xs[0], sep);
      NoBreaksConcat(xs[0] + sep, Join(sep, xs[1..]));
    } else if |xs| == 1 {
      assert xs[0] in xs;
    }
  }

  /** The number of tabs a string starts with: its indentation. */
  function LeadingTabs(s: string): nat {
    if s != [] && s[0] == '\t' then 1 + LeadingTabs(s[1..]) else 0
  }

  /** n tabs followed by text that does not start with a tab is indented by n. */
  lemma {:induction false} LeadingTabsOfRepeat(n: nat, rest: string)
    requires rest == [] || rest[0] != '\t'
    ensures LeadingTabs(Repeat("\t", n) + rest) == n
  {
    if n > 0 {
      LeadingTabsOfRepeat(n - 1, rest);
      assert (Repeat("\t", n) + rest)[1..] == Repeat("\t", n - 1) + rest;
    }
  }
}
