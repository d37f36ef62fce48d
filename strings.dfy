/**
 * The java.lang.String and commons-lang3 StringUtils operations the core relies on,
 * specified by their documented behaviour on the characters the core feeds them.
 */
module Strings {

  import opened Wrappers

  /** `s` starts with `prefix`. */
  predicate StartsWith(s: string, prefix: string) {
    |prefix| <= |s| && s[..|prefix|] == prefix
  }

  /** `s` ends with `suffix`. */
  predicate EndsWith(s: string, suffix: string) {
    |suffix| <= |s| && s[|s| - |suffix|..] == suffix
  }

  /** A concatenation starts with its left part and ends with its right part. */
  lemma ConcatEnds(a: string, b: string)
    ensures StartsWith(a + b, a) && EndsWith(a + b, b)
  {
    assert (a + b)[..|a|] == a;
    assert (a + b)[|a + b| - |b|..] == b;
  }

  /** A suffix of the right part is a suffix of the concatenation. */
  lemma EndsWithConcat(a: string, b: string, suffix: string)
    requires EndsWith(b, suffix)
    ensures EndsWith(a + b, suffix)
  {
    assert (a + b)[|a + b| - |suffix|..] == b[|b| - |suffix|..];
  }

  /** `t` occurs in `s` as a contiguous part. */
  predicate Occurs(s: string, t: string) {
    exists i, j :: 0 <= i <= j <= |s| && s[i..j] == t
  }

  /** Every string occurs in itself. */
  lemma OccursWhole(t: string)
    ensures Occurs(t, t)
  {
    assert t[0..|t|] == t;
  }

  /** What occurs in `s` occurs in any text around `s`. */
  lemma OccursWithin(a: string, s: string, b: string, t: string)
    requires Occurs(s, t)
    ensures Occurs(a + s + b, t)
  {
    var i, j :| 0 <= i <= j <= |s| && s[i..j] == t;
    assert (a + s + b)[|a| + i..|a| + j] == t;
  }

  /** What occurs in `s` occurs in `s` followed by any text. */
  lemma OccursBefore(s: string, b: string, t: string)
    requires Occurs(s, t)
    ensures Occurs(s + b, t)
  {
    var i, j :| 0 <= i <= j <= |s| && s[i..j] == t;
    assert (s + b)[i..j] == t;
  }

  /** What occurs in `s` occurs in any text followed by `s`. */
  lemma OccursAfter(a: string, s: string, t: string)
    requires Occurs(s, t)
    ensures Occurs(a + s, t)
  {
    var i, j :| 0 <= i <= j <= |s| && s[i..j] == t;
    assert (a + s)[|a| + i..|a| + j] == t;
  }

  /** A prefix of `a` is a prefix of `a + b`. */
  lemma PrefixKept(a: string, b: string, p: string)
    requires StartsWith(a, p)
    ensures StartsWith(a + b, p)
  {
    assert (a + b)[..|p|] == a[..|p|];
  }

  /** Three parts put together start with the first and end with the other two. */
  lemma ConcatThree(a: string, b: string, c: string)
    ensures StartsWith(a + b + c, a) && EndsWith(a + b + c, b + c)
  {
    assert (a + b + c)[..|a|] == a;
    assert (a + b + c)[|a|..] == b + c;
  }

  /** Four parts put together start with the first and end with the last two. */
  lemma ConcatFour(a: string, b: string, c: string, d: string)
    ensures StartsWith(a + b + c + d, a) && EndsWith(a + b + c + d, c + d)
  {
    assert (a + b + c + d)[..|a|] == a;
    assert (a + b + c + d)[|a + b|..] == c + d;
  }

  /** String.join(sep, parts) and Collectors.joining(sep). */
  function Join(parts: seq<string>, sep: string): (r: string)
    ensures parts == [] ==> r == ""
    ensures |parts| == 1 ==> r == parts[0]
  {
    if parts == [] then ""
    else if |parts| == 1 then parts[0]
    else parts[0] + sep + Join(parts[1..], sep)
  }

  /** Joining one more part adds the separator and that part at the end. */
  lemma {:induction false} JoinSnoc(parts: seq<string>, sep: string, last: string)
    requires parts != []
    ensures Join(parts + [last], sep) == Join(parts, sep) + sep + last
  {
    if |parts| == 1 {
      assert parts + [last] == [parts[0], last];
    } else {
      assert (parts + [last])[1..] == parts[1..] + [last];
      JoinSnoc(parts[1..], sep, last);
    }
  }

  /** The decimal digit `d`. */
  function DigitChar(d: nat): (c: char)
    requires d < 10
    ensures '0' <= c <= '9'
  {
    ('0' as int + d) as char
  }

  /** Integer.toString for non-negative numbers, as used by "param" + n. */
  function NatToString(n: nat): (r: string)
    ensures r != []
    ensures forall i :: 0 <= i < |r| ==> '0' <= r[i] <= '9'
  {
    if n < 10 then [DigitChar(n)] else NatToString(n / 10) + [DigitChar(n % 10)]
  }

  /** Different numbers have different decimal texts. */
  lemma {:induction false} NatToStringInjective(a: nat, b: nat)
    requires NatToString(a) == NatToString(b)
    ensures a == b
  {
    var sa, sb := NatToString(a), NatToString(b);
    if a < 10 && b < 10 {
      assert DigitChar(a) == sa[0] == DigitChar(b);
    } else if a >= 10 && b >= 10 {
      assert DigitChar(a % 10) == sa[|sa| - 1] == DigitChar(b % 10);
      assert NatToString(a / 10) == sa[..|sa| - 1] == NatToString(b / 10);
      NatToStringInjective(a / 10, b / 10);
    }
  }

  /** A character absent from every part and from the separator is absent from the join. */
  lemma {:induction false} JoinAvoids(parts: seq<string>, sep: string, c: char)
    requires c !in sep && forall i :: 0 <= i < |parts| ==> c !in parts[i]
    ensures c !in Join(parts, sep)
  {
    if |parts| > 1 {
      JoinAvoids(parts[1..], sep, c);
      assert Join(parts, sep) == parts[0] + sep + Join(parts[1..], sep);
    }
  }

  /** Character.toUpperCase, restricted to ASCII letters. */
  function UpperChar(c: char): char {
    if 'a' <= c <= 'z' then (c as int - 'a' as int + 'A' as int) as char else c
  }

  /** Character.toLowerCase, restricted to ASCII letters. */
  function LowerChar(c: char): char {
    if 'A' <= c <= 'Z' then (c as int - 'A' as int + 'a' as int) as char else c
  }

  /** String.toLowerCase(Locale.ROOT) on ASCII text. */
  function Lowercase(s: string): (r: string)
    ensures |r| == |s|
    ensures forall i :: 0 <= i < |s| ==> r[i] == LowerChar(s[i])
  {
    if s == [] then [] else [LowerChar(s[0])] + Lowercase(s[1..])
  }

  /** String.toUpperCase(Locale.ROOT) on ASCII text. */
  function Uppercase(s: string): (r: string)
    ensures |r| == |s|
    ensures forall i :: 0 <= i < |s| ==> r[i] == UpperChar(s[i])
  {
    if s == [] then [] else [UpperChar(s[0])] + Uppercase(s[1..])
  }

  /**
   * StringUtils.capitalize: the first character is changed to title case, the
   * rest is kept; the empty string stays empty.
   */
  function Capitalize(s: string): (r: string)
    ensures |r| == |s|
    ensures s != [] ==> r[0] == UpperChar(s[0]) && r[1..] == s[1..]
  {
    if s == [] then s else [UpperChar(s[0])] + s[1..]
  }

  /** The index of the last occurrence of `c` in `s`, if any (String.lastIndexOf). */
  function LastIndexOf(s: string, c: char): (r: Option<nat>)
    ensures r.None? <==> c !in s
    ensures r.Some? ==> r.value < |s| && s[r.value] == c
    ensures r.Some? ==> forall j :: r.value < j < |s| ==> s[j] != c
  {
    if s == [] then None
    else if s[|s| - 1] == c then Some(|s| - 1)
    else LastIndexOf(s[..|s| - 1], c)
  }

  /** The index of the first occurrence of `c` in `s`, if any (String.indexOf). */
  function FirstIndexOf(s: string, c: char): (r: Option<nat>)
    ensures r.None? <==> c !in s
    ensures r.Some? ==> r.value < |s| && s[r.value] == c
    ensures r.Some? ==> forall j :: 0 <= j < r.value ==> s[j] != c
  {
    if s == [] then None
    else if s[0] == c then Some(0)
    else match FirstIndexOf(s[1..], c)
      case None => None
      case Some(i) => Some(i + 1)
  }

  /**
   * StringUtils.substringBeforeLast(s, sep) for a one-character separator: the text
   * before the last `sep`, or all of `s` when `sep` does not occur.
   */
  function SubstringBeforeLast(s: string, sep: char): (r: string)
    ensures sep !in s ==> r == s
    ensures sep in s ==> |r| < |s| && s[|r|] == sep && StartsWith(s, r) && sep !in s[|r| + 1..]
  {
    match LastIndexOf(s, sep)
    case None => s
    case Some(i) => s[..i]
  }
  /**
   * String.replace(target, replacement): every occurrence of `target`, scanning from the
   * left and without overlaps, is replaced.
   */
  function ReplaceAll(s: string, target: string, repl: string): (r: string)
    requires target != []
    decreases |s|
  {
    if |s| < |target| then s
    else if s[..|target|] == target then repl + ReplaceAll(s[|target|..], target, repl)
    else [s[0]] + ReplaceAll(s[1..], target, repl)
  }

  /** Text not holding the target's first character passes through unchanged. */
  lemma {:induction false} ReplaceAllSkip(x: string, y: string, target: string, repl: string)
    requires target != [] && target[0] !in x
    ensures ReplaceAll(x + y, target, repl) == x + ReplaceAll(y, target, repl)
    decreases |x|
  {
    var s := x + y;
    if x != [] && |s| >= |target| {
      assert s[0] == x[0] != target[0];
      assert s[..|target|] != target;
      assert s[1..] == x[1..] + y;
      ReplaceAllSkip(x[1..], y, target, repl);
    } else if x != [] {
      assert |y| < |target|;
      assert ReplaceAll(s, target, repl) == s;
    } else {
      assert x + y == y;
    }
  }

  /** A single occurrence of the target, between texts without its first character, is replaced. */
  lemma ReplaceAllOnce(x: string, rest: string, target: string, repl: string)
    requires target != [] && target[0] !in x && target[0] !in rest
    ensures ReplaceAll(x + target + rest, target, repl) == x + repl + rest
  {
    assert x + target + rest == x + (target + rest);
    ReplaceAllSkip(x, target + rest, target, repl);
    ReplaceAllAt(rest, target, repl);
    ReplaceAllSkip(rest, [], target, repl);
    assert rest + [] == rest;
  }

  /** An occurrence of the target at the start is replaced. */
  lemma ReplaceAllAt(y: string, target: string, repl: string)
    requires target != []
    ensures ReplaceAll(target + y, target, repl) == repl + ReplaceAll(y, target, repl)
  {
    assert (target + y)[..|target|] == target;
    assert (target + y)[|target|..] == y;
  }
}
