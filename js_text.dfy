/** The JavaScript string built-ins the dashboard relies on:
    `toLowerCase`/`toUpperCase` (ASCII range only), `includes`,
    `split`/`join` on a single-character separator and `replace` with a
    one-character string pattern, which replaces the first occurrence only. */
module JsText {

  /** `toLowerCase` on one character, restricted to the ASCII letters. */
  function LowerChar(c: char): (r: char)
    ensures !('A' <= r <= 'Z')
    ensures 'A' <= c <= 'Z' ==> r as int == c as int + 32
    ensures !('A' <= c <= 'Z') ==> r == c
  {
    if 'A' <= c <= 'Z' then (c as int + 32) as char else c
  }

  /** `toUpperCase` on one character, restricted to the ASCII letters. */
  function UpperChar(c: char): (r: char)
    ensures !('a' <= r <= 'z')
    ensures 'a' <= c <= 'z' ==> r as int == c as int - 32
    ensures !('a' <= c <= 'z') ==> r == c
  {
    if 'a' <= c <= 'z' then (c as int - 32) as char else c
  }

  function ToLower(s: string): (r: string)
    ensures |r| == |s|
    ensures forall i :: 0 <= i < |s| ==> r[i] == LowerChar(s[i])
  {
    seq(|s|, i requires 0 <= i < |s| => LowerChar(s[i]))
  }

  function ToUpper(s: string): (r: string)
    ensures |r| == |s|
    ensures forall i :: 0 <= i < |s| ==> r[i] == UpperChar(s[i])
  {
    seq(|s|, i requires 0 <= i < |s| => UpperChar(s[i]))
  }

  /** Lower-casing twice is lower-casing once, so a search term that is
      already lower case is matched exactly as its original. */
  lemma ToLowerIdempotent(s: string)
    ensures ToLower(ToLower(s)) == ToLower(s)
  {
    var once := ToLower(s);
    forall i | 0 <= i < |s| ensures ToLower(once)[i] == once[i] {
      assert !('A' <= once[i] <= 'Z');
    }
  }

  /** `t` occurs in `s` starting at index `i`. */
  ghost predicate OccursAt(s: string, t: string, i: int) {
    0 <= i && i + |t| <= |s| && s[i..i + |t|] == t
  }

  /** `s.includes(t)`: some window of `s` equals `t`. */
  function Includes(s: string, t: string): (r: bool)
    ensures r <==> exists i :: OccursAt(s, t, i)
    decreases |s|
  {
    if |t| <= |s| && s[..|t|] == t then
      assert OccursAt(s, t, 0);
      true
    else if |t| >= |s| then
      assert forall i :: OccursAt(s, t, i) ==> i == 0 && s == t;
      false
    else
      var rest := Includes(s[1..], t);
      assert forall i :: OccursAt(s[1..], t, i) <==> OccursAt(s, t, i + 1) by {
        forall i ensures OccursAt(s[1..], t, i) <==> OccursAt(s, t, i + 1) {
          if 0 <= i && i + |t| <= |s| - 1 {
            assert s[1..][i..i + |t|] == s[i + 1..i + 1 + |t|];
          }
        }
      }
      assert !OccursAt(s, t, 0);
      assert forall i :: OccursAt(s, t, i) ==> OccursAt(s[1..], t, i - 1);
      rest
  }

  /** The empty string is a substring of every string: an empty search box
      excludes nothing. */
  lemma IncludesEmpty(s: string)
    ensures Includes(s, "")
  {
    assert OccursAt(s, "", 0);
  }

  /** The case-insensitive match every list view applies to its searchable
      fields: `field.toLowerCase().includes(search.toLowerCase())`. */
  predicate IncludesIgnoringCase(field: string, search: string) {
    Includes(ToLower(field), ToLower(search))
  }

  /** The match does not depend on the case of the search term. */
  lemma IncludesIgnoringCaseOfSearch(field: string, search: string)
    ensures IncludesIgnoringCase(field, search) == IncludesIgnoringCase(field, ToLower(search))
  {
    ToLowerIdempotent(search);
  }

  /** Nor on the case of the field. */
  lemma IncludesIgnoringCaseOfField(field: string, search: string)
    ensures IncludesIgnoringCase(field, search) == IncludesIgnoringCase(ToLower(field), search)
  {
    ToLowerIdempotent(field);
  }

  /** `s.split(sep)` on a one-character separator, `cur` being the segment
      read so far. Consecutive separators yield empty segments and the
      empty string splits into one empty segment, as in JavaScript. */
  function SplitFrom(s: string, sep: char, cur: string): (r: seq<string>)
    ensures |r| >= 1
    decreases |s|
  {
    if s == [] then [cur]
    else if s[0] == sep then [cur] + SplitFrom(s[1..], sep, [])
    else SplitFrom(s[1..], sep, cur + [s[0]])
  }

  function Split(s: string, sep: char): (r: seq<string>)
    ensures |r| >= 1
  {
    SplitFrom(s, sep, [])
  }

  /** `parts.join(sep)` on a one-character separator. */
  function Join(parts: seq<string>, sep: char): string
    decreases |parts|
  {
    if |parts| == 0 then ""
    else if |parts| == 1 then parts[0]
    else parts[0] + [sep] + Join(parts[1..], sep)
  }

  lemma {:induction false} JoinSplitFrom(s: string, sep: char, cur: string)
    ensures Join(SplitFrom(s, sep, cur), sep) == cur + s
    decreases |s|
  {
    if s == [] {
    } else if s[0] == sep {
      JoinSplitFrom(s[1..], sep, []);
      assert cur + s == cur + [sep] + s[1..];
    } else {
      JoinSplitFrom(s[1..], sep, cur + [s[0]]);
      assert cur + s == cur + [s[0]] + s[1..];
    }
  }

  /** Joining the segments of a split with the same separator gives back
      the original string. */
  lemma JoinSplit(s: string, sep: char)
    ensures Join(Split(s, sep), sep) == s
  {
    JoinSplitFrom(s, sep, []);
  }

  lemma {:induction false} SplitFromHasNoSeparator(s: string, sep: char, cur: string)
    requires sep !in cur
    ensures forall p :: p in SplitFrom(s, sep, cur) ==> sep !in p
    decreases |s|
  {
    if s == [] {
    } else if s[0] == sep {
      SplitFromHasNoSeparator(s[1..], sep, []);
    } else {
      SplitFromHasNoSeparator(s[1..], sep, cur + [s[0]]);
    }
  }

  /** No segment of a split contains the separator. */
  lemma SplitHasNoSeparator(s: string, sep: char)
    ensures forall p :: p in Split(s, sep) ==> sep !in p
  {
    SplitFromHasNoSeparator(s, sep, []);
  }

  /** `s.indexOf(c)`: the first index holding `c`, or -1. */
  function IndexOf(s: string, c: char): (k: int)
    ensures -1 <= k < |s|
    ensures k == -1 <==> c !in s
    ensures k >= 0 ==> s[k] == c && c !in s[..k]
    decreases |s|
  {
    if s == [] then -1
    else if s[0] == c then 0
    else
      var k := IndexOf(s[1..], c);
      assert s == [s[0]] + s[1..];
      if k == -1 then -1
      else
        assert s[..k + 1] == [s[0]] + s[1..][..k];
        k + 1
  }

  /** `s.replace(from, to)` with a one-character string pattern: only the
      first occurrence of `from` is replaced. */
  function ReplaceFirst(s: string, from: char, to: char): (r: string)
    ensures |r| == |s|
    ensures IndexOf(s, from) == -1 ==> r == s
    ensures IndexOf(s, from) >= 0 ==>
      var k := IndexOf(s, from); r == s[..k] + [to] + s[k + 1..]
    decreases |s|
  {
    if s == [] then []
    else if s[0] == from then [to] + s[1..]
    else
      assert s == [s[0]] + s[1..];
      [s[0]] + ReplaceFirst(s[1..], from, to)
  }

  /** How many times `c` occurs in `s`. */
  function CountChar(s: string, c: char): (n: nat)
    ensures n <= |s|
    ensures n == 0 <==> c !in s
    decreases |s|
  {
    if s == [] then 0
    else
      assert s == [s[0]] + s[1..];
      (if s[0] == c then 1 else 0) + CountChar(s[1..], c)
  }

  /** `replace` with a one-character pattern removes exactly one
      occurrence of the pattern, when there is one, and leaves the others. */
  lemma {:induction false} ReplaceFirstCount(s: string, from: char, to: char)
    requires from != to
    ensures CountChar(ReplaceFirst(s, from, to), from)
            == if from in s then CountChar(s, from) - 1 else CountChar(s, from)
    decreases |s|
  {
    if s != [] {
      assert s == [s[0]] + s[1..];
      if s[0] == from {
        assert ReplaceFirst(s, from, to) == [to] + s[1..];
        assert ([to] + s[1..])[1..] == s[1..];
      } else {
        ReplaceFirstCount(s[1..], from, to);
        var r := [s[0]] + ReplaceFirst(s[1..], from, to);
        assert r[1..] == ReplaceFirst(s[1..], from, to);
      }
    }
  }

  /** The number a string of decimal digits denotes, most significant
      digit first. */
  function DigitsValue(s: string): int
    decreases |s|
  {
    if s == [] then 0 else 10 * DigitsValue(s[..|s| - 1]) + (s[|s| - 1] as int - '0' as int)
  }

  /** The decimal digits of a natural number, as a template renders it:
      digits only, spelling `n`, with no leading zero. */
  function NatToString(n: nat): (r: string)
    ensures |r| >= 1
    ensures forall c :: c in r ==> '0' <= c <= '9'
    ensures DigitsValue(r) == n
    ensures r[0] == '0' <==> n == 0
    decreases n
  {
    var digit := [(('0' as int) + n % 10) as char];
    if n < 10 then digit
    else
      var r := NatToString(n / 10) + digit;
      assert r[..|r| - 1] == NatToString(n / 10);
      r
  }

  /** Different numbers render as different texts. */
  lemma NatToStringInjective(m: nat, n: nat)
    requires NatToString(m) == NatToString(n)
    ensures m == n
  {
  }

  /** `${i}` for an integer: a '-' exactly for a negative value, followed
      by the digits of its magnitude. */
  function IntToString(i: int): (r: string)
    ensures |r| >= 1
    ensures r[0] == '-' <==> i < 0
    ensures i >= 0 ==> DigitsValue(r) == i
    ensures i < 0 ==> |r| >= 2 && DigitsValue(r[1..]) == -i && r[1] != '0'
  {
    if i < 0 then
      var r := "-" + NatToString(-i);
      assert r[1..] == NatToString(-i);
      r
    else
      assert NatToString(i)[0] in NatToString(i);
      NatToString(i)
  }

  /** Two texts with the same prefix are equal only if the rests are. */
  lemma PrefixCancel(p: string, a: string, b: string)
    requires p + a == p + b
    ensures a == b
  {
    assert a == (p + a)[|p|..];
    assert b == (p + b)[|p|..];
  }
}
