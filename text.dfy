/** The few Python `str` operations the conversation core relies on:
    `isspace`, `strip`, `split(sep)`, `split(sep, 1)`, `in` and `sep.join`. */
module Text {

  import opened Wrappers

  /** Python's `str.isspace()` on one character; the same set is what `\s`
      matches in a `str` regular expression and what `strip()` removes. */
  predicate IsSpace(c: char) {
    || c == ' '
    || ('\t' <= c <= '\r')
    || ('\U{1c}' <= c <= '\U{1f}')
    || c == '\U{85}' || c == '\U{a0}' || c == '\U{1680}'
    || ('\U{2000}' <= c <= '\U{200a}')
    || c == '\U{2028}' || c == '\U{2029}' || c == '\U{202f}' || c == '\U{205f}' || c == '\U{3000}'
  }

  /** Every character of `s` is whitespace (the empty string included). */
  predicate AllSpace(s: string) {
    forall k :: 0 <= k < |s| ==> IsSpace(s[k])
  }

  /** The number of whitespace characters `s` starts with. */
  function SpacePrefix(s: string): (n: nat)
    ensures n <= |s| && AllSpace(s[..n])
    ensures n < |s| ==> !IsSpace(s[n])
  {
    if s != [] && IsSpace(s[0]) then
      var n := SpacePrefix(s[1..]);
      assert s[..n + 1] == [s[0]] + s[1..][..n];
      n + 1
    else 0
  }

  /** The length of `s` without the whitespace it ends with. */
  function ContentEnd(s: string): (n: nat)
    ensures n <= |s| && AllSpace(s[n..])
    ensures n > 0 ==> !IsSpace(s[n - 1])
  {
    if s != [] && IsSpace(s[|s| - 1]) then
      var n := ContentEnd(s[..|s| - 1]);
      assert s[n..] == s[..|s| - 1][n..] + [s[|s| - 1]];
      n
    else |s|
  }

  /** `s.strip()`: `s` without its leading and trailing whitespace. */
  function Strip(s: string): (r: string)
    ensures exists i, j :: 0 <= i <= j <= |s| && r == s[i..j] && AllSpace(s[..i]) && AllSpace(s[j..])
    ensures r != [] ==> !IsSpace(r[0]) && !IsSpace(r[|r| - 1])
    ensures r == [] <==> AllSpace(s)
  {
    var i := SpacePrefix(s);
    var t := s[i..];
    var j := ContentEnd(t);
    assert t[j..] == s[i + j..];
    assert AllSpace(s) ==> i == |s|;
    assert i == |s| ==> AllSpace(s) by {
      if i == |s| { assert s[..i] == s; }
    }
    assert i < |s| ==> j > 0;
    t[..j]
  }

  /** Python's `c in s`, with the first position of `c` when it is there. */
  function IndexOf(s: string, c: char): (r: Option<nat>)
    ensures r.None? <==> c !in s
    ensures r.Some? ==> r.value < |s| && s[r.value] == c && c !in s[..r.value]
  {
    if s == [] then None
    else if s[0] == c then (assert s[..0] == []; Some(0))
    else
      match IndexOf(s[1..], c)
      case None => None
      case Some(k) => (assert s[..k + 1] == [s[0]] + s[1..][..k]; Some(k + 1))
  }

  /** `s.split(c, 1)` when `c` occurs in `s`: the part before the first `c`
      and the part after it. */
  function SplitOnce(s: string, c: char): (r: (string, string))
    requires c in s
    ensures s == r.0 + [c] + r.1 && c !in r.0
  {
    var k := IndexOf(s, c).value;
    assert s == s[..k] + [c] + s[k + 1..];
    (s[..k], s[k + 1..])
  }

  /** `s.split(c)`: the pieces between the occurrences of `c`, empty pieces
      kept, so there is always at least one. */
  function Split(s: string, c: char): (r: seq<string>)
    ensures |r| > 0
    ensures forall k :: 0 <= k < |r| ==> c !in r[k]
    decreases |s|
  {
    if c !in s then [s]
    else
      var (head, tail) := SplitOnce(s, c);
      [head] + Split(tail, c)
  }

  /** `sep.join(parts)` */
  function Join(parts: seq<string>, sep: string): string {
    if parts == [] then ""
    else if |parts| == 1 then parts[0]
    else parts[0] + sep + Join(parts[1..], sep)
  }

  /** Joining the pieces of `s.split(c)` with `c` gives `s` back. */
  lemma {:induction false} JoinSplit(s: string, c: char)
    ensures Join(Split(s, c), [c]) == s
    decreases |s|
  {
    if c in s {
      var (head, tail) := SplitOnce(s, c);
      JoinSplit(tail, c);
      assert Split(s, c) == [head] + Split(tail, c);
    }
  }

  /** Splitting a join whose parts do not contain the separator gives the
      parts back. */
  lemma {:induction false} SplitJoin(parts: seq<string>, c: char)
    requires |parts| > 0
    requires forall k :: 0 <= k < |parts| ==> c !in parts[k]
    ensures Split(Join(parts, [c]), c) == parts
  {
    if |parts| == 1 {
    } else {
      var s := Join(parts, [c]);
      var rest := Join(parts[1..], [c]);
      assert s == parts[0] + [c] + rest;
      assert s[|parts[0]|] == c;
      assert c in s;
      var (head, tail) := SplitOnce(s, c);
      PrefixBeforeSeparator(parts[0], rest, head, tail, c);
      SplitJoin(parts[1..], c);
      assert Split(s, c) == [head] + Split(tail, c);
    }
  }

  /** Cutting `a + [c] + b` at its first `c`, when `a` holds no `c`, gives `a` and `b`. */
  lemma PrefixBeforeSeparator(a: string, b: string, head: string, tail: string, c: char)
    requires c !in a && c !in head
    requires a + [c] + b == head + [c] + tail
    ensures head == a && tail == b
  {
    FirstIndex(a, b, c);
    FirstIndex(head, tail, c);
    var s := a + [c] + b;
    assert head == s[..|head|] && a == s[..|a|];
    assert tail == s[|head| + 1..] && b == s[|a| + 1..];
  }

  /** The first `c` of `a + [c] + b` is the one after `a` when `a` holds none. */
  lemma {:induction false} FirstIndex(a: string, b: string, c: char)
    requires c !in a
    ensures IndexOf(a + [c] + b, c) == Some(|a|)
  {
    if a != [] {
      FirstIndex(a[1..], b, c);
      assert (a + [c] + b)[1..] == a[1..] + [c] + b;
    }
  }
}
