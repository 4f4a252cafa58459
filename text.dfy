/** ASCII models of the Python string operations the report generator relies on:
    str.lower(), str.strip(), str.startswith(), the substring test `k in s`,
    and str() of an integer. */
module Text {

  /** The ASCII characters that Python's str.isspace() accepts, hence the ones
      str.strip() removes: tab, line feed, vertical tab, form feed, carriage
      return, the four information separators 0x1C-0x1F, and space. */
  predicate IsSpace(c: char) {
    c == ' ' || '\t' <= c <= '\r' || '\U{1C}' <= c <= '\U{1F}'
  }

  /** str.lower() on one character, restricted to ASCII letters. */
  function LowerChar(c: char): char {
    if 'A' <= c <= 'Z' then (c as int + 32) as char else c
  }

  /** str.lower(): every character lower-cased, nothing added or removed. */
  function Lower(s: string): (r: string)
    ensures |r| == |s|
    ensures forall i :: 0 <= i < |r| ==> !('A' <= r[i] <= 'Z')
    ensures forall i :: 0 <= i < |r| ==>
      r[i] == s[i] || ('A' <= s[i] <= 'Z' && r[i] as int == s[i] as int + 32)
  {
    seq(|s|, i requires 0 <= i < |s| => LowerChar(s[i]))
  }

  /** str.lstrip(): drops leading whitespace only. */
  function StripStart(s: string): (r: string)
    ensures |r| <= |s| && r == s[|s| - |r|..]
    ensures r == [] || !IsSpace(r[0])
    ensures forall i :: 0 <= i < |s| - |r| ==> IsSpace(s[i])
  {
    if s != [] && IsSpace(s[0]) then StripStart(s[1..]) else s
  }

  /** str.rstrip(): drops trailing whitespace only. */
  function StripEnd(s: string): (r: string)
    ensures |r| <= |s| && r == s[..|r|]
    ensures r == [] || !IsSpace(r[|r| - 1])
    ensures forall i :: |r| <= i < |s| ==> IsSpace(s[i])
  {
    if s != [] && IsSpace(s[|s| - 1]) then StripEnd(s[..|s| - 1]) else s
  }

  /** str.strip(): the longest middle slice of `s` with no whitespace at either end.
      `lead` is the number of leading characters removed. */
  function Strip(s: string): (r: string)
    ensures r == [] || (!IsSpace(r[0]) && !IsSpace(r[|r| - 1]))
    ensures |r| <= |s|
    ensures var lead := |s| - |StripStart(s)|;
      && lead + |r| <= |s|
      && r == s[lead..lead + |r|]
      && (forall i :: 0 <= i < lead ==> IsSpace(s[i]))
      && (forall i :: lead + |r| <= i < |s| ==> IsSpace(s[i]))
  {
    var t := StripStart(s);
    var r := StripEnd(t);
    TrimmedSlice(s, |s| - |t|, t, r);
    r
  }

  /** Removing `lead` leading whitespace characters of `s` and then a whitespace
      tail leaves a middle slice of `s` surrounded by whitespace only. */
  lemma TrimmedSlice(s: string, lead: nat, t: string, r: string)
    requires lead <= |s| && t == s[lead..]
    requires forall i :: 0 <= i < lead ==> IsSpace(s[i])
    requires t == [] || !IsSpace(t[0])
    requires |r| <= |t| && r == t[..|r|]
    requires r == [] || !IsSpace(r[|r| - 1])
    requires forall i :: |r| <= i < |t| ==> IsSpace(t[i])
    ensures r == [] || (!IsSpace(r[0]) && !IsSpace(r[|r| - 1]))
    ensures |r| <= |s|
    ensures lead + |r| <= |s|
    ensures r == s[lead..lead + |r|]
    ensures forall i :: 0 <= i < lead ==> IsSpace(s[i])
    ensures forall i :: lead + |r| <= i < |s| ==> IsSpace(s[i])
  {
    forall i | lead + |r| <= i < |s|
      ensures IsSpace(s[i])
    {
      assert s[i] == t[i - lead];
    }
  }

  /** Stripping a string that has no whitespace at either end leaves it as it is;
      in particular stripping twice is stripping once. */
  lemma StripIdempotent(s: string)
    ensures Strip(Strip(s)) == Strip(s)
  {
    var t := Strip(s);
    assert StripStart(t) == t;
    assert StripEnd(t) == t;
  }

  /** str.startswith(p). */
  predicate StartsWith(s: string, p: string) {
    |p| <= |s| && s[..|p|] == p
  }

  /** `k` occurs in `s` starting at position `i`. */
  predicate Occurs(s: string, k: string, i: int) {
    0 <= i && i + |k| <= |s| && s[i..i + |k|] == k
  }

  /** Python's substring test `k in s`. */
  predicate Contains(s: string, k: string) {
    exists i | 0 <= i <= |s| - |k| :: Occurs(s, k, i)
  }

  /** `k` occurs at position `i` of `s` when letter case in `s` is ignored. */
  predicate MatchesAt(s: string, k: string, i: int) {
    0 <= i && i + |k| <= |s| && forall j :: 0 <= j < |k| ==> LowerChar(s[i + j]) == k[j]
  }

  /** Reference definition of a case-insensitive substring search, stated on the
      original string without building its lower-cased copy. */
  ghost predicate ContainsIgnoringCase(s: string, k: string) {
    exists i :: MatchesAt(s, k, i)
  }

  /** Searching the lower-cased string is the same as searching the original
      string case-insensitively. */
  lemma ContainsLowerIff(s: string, k: string)
    ensures Contains(Lower(s), k) <==> ContainsIgnoringCase(s, k)
  {
    var l := Lower(s);
    if Contains(l, k) {
      var i :| 0 <= i <= |l| - |k| && Occurs(l, k, i);
      forall j | 0 <= j < |k|
        ensures LowerChar(s[i + j]) == k[j]
      {
        assert l[i..i + |k|][j] == l[i + j];
      }
      assert MatchesAt(s, k, i);
    }
    if ContainsIgnoringCase(s, k) {
      var i :| MatchesAt(s, k, i);
      assert l[i..i + |k|] == k;
      assert Occurs(l, k, i);
    }
  }

  /** A key holding a character that `s` lacks cannot occur in `s`. */
  lemma AbsentCharBlocks(s: string, k: string, j: nat)
    requires j < |k| && k[j] !in s
    ensures !Contains(s, k)
  {
  }

  /** Two strings that differ only in the case of their letters. */
  ghost predicate EqualIgnoringCase(s: string, t: string) {
    |s| == |t| && forall i :: 0 <= i < |s| ==> LowerChar(s[i]) == LowerChar(t[i])
  }

  /** Lower-casing forgets exactly the letter case. */
  lemma LowerIgnoresCase(s: string, t: string)
    ensures Lower(s) == Lower(t) <==> EqualIgnoringCase(s, t)
  {
    if EqualIgnoringCase(s, t) {
      assert forall i :: 0 <= i < |s| ==> Lower(s)[i] == Lower(t)[i];
    }
    if Lower(s) == Lower(t) {
      assert forall i :: 0 <= i < |s| ==> LowerChar(s[i]) == Lower(s)[i] == LowerChar(t[i]);
    }
  }

  predicate IsDigit(c: char) {
    '0' <= c <= '9'
  }

  function DigitChar(d: int): (c: char)
    requires 0 <= d < 10
    ensures IsDigit(c) && c as int - '0' as int == d
  {
    "0123456789"[d]
  }

  /** The number a string of decimal digits denotes, most significant digit first. */
  function DigitsValue(s: string): nat
    requires forall i :: 0 <= i < |s| ==> IsDigit(s[i])
  {
    if s == [] then 0
    else
      assert IsDigit(s[|s| - 1]);
      DigitsValue(s[..|s| - 1]) * 10 + (s[|s| - 1] as int - '0' as int)
  }

  /** str(n) for a non-negative integer: its decimal numeral, digits only, with no
      leading zero unless the number is 0 itself. */
  function NatText(n: nat): (r: string)
    ensures |r| >= 1
    ensures forall i :: 0 <= i < |r| ==> IsDigit(r[i])
    ensures DigitsValue(r) == n
    ensures r[0] == '0' <==> n == 0
  {
    if n < 10 then [DigitChar(n)]
    else
      var t := NatText(n / 10);
      assert (t + [DigitChar(n % 10)])[..|t|] == t;
      t + [DigitChar(n % 10)]
  }

  /** Different numbers have different numerals. */
  lemma NatTextInjective(m: nat, n: nat)
    ensures NatText(m) == NatText(n) <==> m == n
  {
  }

  /** str(i) for any integer: a minus sign before the numeral of a negative value. */
  function IntText(i: int): (r: string)
    ensures |r| >= 1
    ensures forall j :: 0 <= j < |r| ==> IsDigit(r[j]) || r[j] == '-'
    ensures forall j :: 1 <= j < |r| ==> IsDigit(r[j])
    ensures r[0] == '-' <==> i < 0
    ensures i >= 0 ==> DigitsValue(r) == i
    ensures i < 0 ==> |r| >= 2 && DigitsValue(r[1..]) == -i
  {
    if i < 0 then "-" + NatText(-i) else NatText(i)
  }
}
