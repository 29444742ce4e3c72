/**
 * The few JavaScript string operations the plugin relies on, with their
 * ECMAScript meaning: `startsWith`, `endsWith`, `split(separator, limit)`
 * for a one-character separator, and the decimal rendering of a
 * non-negative integer inside a template literal (`${i}`).
 */
module JsString {
  import opened Wrappers

  /** `s.startsWith(prefix)` */
  predicate StartsWith(s: string, prefix: string) {
    |prefix| <= |s| && s[..|prefix|] == prefix
  }

  /** `s.endsWith(suffix)` */
  predicate EndsWith(s: string, suffix: string) {
    |suffix| <= |s| && s[|s| - |suffix|..] == suffix
  }

  /** `s.indexOf(c)`, with `None` for -1. */
  function FirstIndex(s: string, c: char): (r: Option<nat>)
    ensures r.None? <==> c !in s
    ensures r.Some? ==> r.value < |s| && s[r.value] == c && c !in s[..r.value]
  {
    if |s| == 0 then None
    else if s[0] == c then Some(0)
    else match FirstIndex(s[1..], c)
      case None => None
      case Some(i) =>
        assert s[..i + 1] == [s[0]] + s[1..][..i];
        Some(i + 1)
  }

  /** The text of `s` before its first `c` (all of `s` when there is none). */
  function Before(s: string, c: char): (r: string)
    ensures c !in r && StartsWith(s, r)
    ensures |r| == |s| || s[|r|] == c
    ensures |r| == |s| <==> c !in s
  {
    match FirstIndex(s, c)
    case None => s
    case Some(i) => s[..i]
  }

  /** The text of `s` after its first `c`, absent when `s` has no `c`. */
  function After(s: string, c: char): (r: Option<string>)
    ensures r.Some? <==> c in s
    ensures r.Some? ==> s == Before(s, c) + [c] + r.value
  {
    match FirstIndex(s, c)
    case None => None
    case Some(i) =>
      assert s == s[..i] + [c] + s[i + 1..];
      Some(s[i + 1..])
  }

  /** `s.split(c)`: every piece between occurrences of `c`. */
  function SplitAll(s: string, c: char): (r: seq<string>)
    ensures |r| >= 1
    ensures forall k :: 0 <= k < |r| ==> c !in r[k]
    decreases |s|
  {
    match FirstIndex(s, c)
    case None => [s]
    case Some(i) => [s[..i]] + SplitAll(s[i + 1..], c)
  }

  /** `pieces.join(c)`: the reference inverse of `SplitAll`. */
  function Join(pieces: seq<string>, c: char): string
  {
    if |pieces| == 0 then ""
    else if |pieces| == 1 then pieces[0]
    else pieces[0] + [c] + Join(pieces[1..], c)
  }

  /** `s.split(c, limit)`: the first `limit` pieces of `s.split(c)`; the rest is dropped. */
  function Split(s: string, c: char, limit: nat): seq<string>
  {
    var all := SplitAll(s, c);
    all[..if limit < |all| then limit else |all|]
  }

  lemma {:induction false} JoinSplitAll(s: string, c: char)
    ensures Join(SplitAll(s, c), c) == s
    decreases |s|
  {
    match FirstIndex(s, c)
    case None =>
    case Some(i) =>
      var rest := SplitAll(s[i + 1..], c);
      var pieces := [s[..i]] + rest;
      assert pieces[1..] == rest;
      assert Join(pieces, c) == s[..i] + [c] + Join(rest, c);
      JoinSplitAll(s[i + 1..], c);
      assert s == s[..i] + [c] + s[i + 1..];
  }

  lemma FirstIndexAfterPrefix(a: string, c: char, b: string)
    requires c !in a
    ensures FirstIndex(a + [c] + b, c) == Some(|a|)
  {
    var s := a + [c] + b;
    assert s[|a|] == c;
    assert s[..|a|] == a;
    var r := FirstIndex(s, c);
    assert r.value <= |a| ==> s[r.value] == s[..|a| + 1][r.value];
  }

  lemma BeforeAfterAtSeparator(a: string, c: char, b: string)
    requires c !in a
    ensures Before(a + [c] + b, c) == a
    ensures After(a + [c] + b, c) == Some(b)
  {
    var s := a + [c] + b;
    FirstIndexAfterPrefix(a, c, b);
    assert s[..|a|] == a;
    assert s[|a| + 1..] == b;
  }

  lemma {:induction false} SplitAllJoin(pieces: seq<string>, c: char)
    requires |pieces| >= 1
    requires forall k :: 0 <= k < |pieces| ==> c !in pieces[k]
    ensures SplitAll(Join(pieces, c), c) == pieces
  {
    if |pieces| > 1 {
      var head, rest := pieces[0], Join(pieces[1..], c);
      var s := head + [c] + rest;
      assert Join(pieces, c) == s;
      FirstIndexAfterPrefix(head, c, rest);
      assert s[..|head|] == head;
      assert s[|head| + 1..] == rest;
      assert SplitAll(s, c) == [head] + SplitAll(rest, c);
      SplitAllJoin(pieces[1..], c);
      assert pieces == [head] + pieces[1..];
    }
  }

  /** What `s.split(c, 2)` is: the text before the first `c` and the text between the first and second `c`. */
  lemma SplitTwo(s: string, c: char)
    ensures Split(s, c, 2) == if c in s then [Before(s, c), Before(After(s, c).value, c)] else [s]
  {
    match FirstIndex(s, c)
    case None =>
    case Some(i) =>
      var rest := SplitAll(s[i + 1..], c);
      assert SplitAll(s, c) == [s[..i]] + rest;
      assert rest[0] == Before(s[i + 1..], c);
  }

  lemma SplitTwoAtSeparator(a: string, c: char, b: string)
    requires c !in a && c !in b
    ensures Split(a + [c] + b, c, 2) == [a, b]
  {
    var s := a + [c] + b;
    FirstIndexAfterPrefix(a, c, b);
    assert s[..|a|] == a;
    assert s[|a| + 1..] == b;
    SplitTwo(s, c);
  }

  function Digit(d: nat): char
    requires d < 10
  {
    "0123456789"[d]
  }

  predicate IsDigit(ch: char) {
    '0' <= ch <= '9'
  }

  /** `${n}` for a non-negative integer: its decimal rendering. */
  function NumberToString(n: nat): (r: string)
    ensures |r| >= 1
    ensures forall k :: 0 <= k < |r| ==> IsDigit(r[k])
    ensures n >= 10 ==> |r| >= 2
  {
    if n < 10 then [Digit(n)] else NumberToString(n / 10) + [Digit(n % 10)]
  }

  lemma {:induction false} NumberToStringInjective(a: nat, b: nat)
    requires NumberToString(a) == NumberToString(b)
    ensures a == b
  {
    if a >= 10 && b >= 10 {
      var sa, sb := NumberToString(a), NumberToString(b);
      assert sa[|sa| - 1] == Digit(a % 10) && sb[|sb| - 1] == Digit(b % 10);
      assert sa[..|sa| - 1] == NumberToString(a / 10);
      assert sb[..|sb| - 1] == NumberToString(b / 10);
      NumberToStringInjective(a / 10, b / 10);
    }
  }
}
