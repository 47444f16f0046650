/**
 * The string operations the caching layer is built from: Python's `str.lower`,
 * `str.replace`, `str.join` and `os.path.join`, written out on `seq<char>`.
 */
module Text {

  /** `str.lower` on one character; only the ASCII letters A-Z are mapped. */
  function LowerChar(c: char): char {
    if 'A' <= c <= 'Z' then (c as int + 32) as char else c
  }

  /** `s.lower()`, character by character. */
  function Lower(s: string): string {
    seq(|s|, i requires 0 <= i < |s| => LowerChar(s[i]))
  }

  /** `s.replace(".", "_")`: every dot becomes an underscore. */
  function DotsToUnderscores(s: string): string {
    seq(|s|, i requires 0 <= i < |s| => if s[i] == '.' then '_' else s[i])
  }

  /**
   * `s.replace(p, "")`: scan left to right and drop every non-overlapping
   * occurrence of `p`. The result is never longer than `s`, and it has the
   * same length only when nothing was removed.
   */
  function RemoveAll(s: string, p: string): (r: string)
    requires p != []
    ensures |r| <= |s|
    ensures |r| == |s| ==> r == s
    decreases |s|
  {
    if |s| < |p| then s
    else if s[..|p|] == p then RemoveAll(s[|p|..], p)
    else [s[0]] + RemoveAll(s[1..], p)
  }

  /** An occurrence of `p` at the very start of `s` is dropped and scanning resumes after it. */
  lemma RemoveAllLeading(p: string, s: string)
    requires p != []
    ensures RemoveAll(p + s, p) == RemoveAll(s, p)
  {
    assert (p + s)[..|p|] == p;
    assert (p + s)[|p|..] == s;
  }

  /** A string that lacks some character of `p` holds no occurrence of `p`, so nothing is removed. */
  lemma {:induction false} RemoveAllAbsent(s: string, p: string, c: char)
    requires p != [] && c in p && c !in s
    ensures RemoveAll(s, p) == s
    decreases |s|
  {
    if |s| >= |p| {
      RemoveAllAbsent(s[1..], p, c);
      assert [s[0]] + s[1..] == s;
    }
  }

  /** `sep.join(xs)`. */
  function Join(sep: string, xs: seq<string>): string
    decreases |xs|
  {
    if xs == [] then []
    else if |xs| == 1 then xs[0]
    else Join(sep, xs[..|xs| - 1]) + sep + xs[|xs| - 1]
  }

  /**
   * POSIX `os.path.join(a, b)` for two parts: an absolute `b` replaces `a`;
   * otherwise a slash is put between them unless `a` is empty or already ends
   * in one.
   */
  function PathJoin(a: string, b: string): string {
    if |b| > 0 && b[0] == '/' then b
    else if a == [] || a[|a| - 1] == '/' then a + b
    else a + "/" + b
  }

  /** The joined path always ends with its last part. */
  lemma PathJoinEndsWith(a: string, b: string)
    ensures |PathJoin(a, b)| >= |b|
    ensures PathJoin(a, b)[|PathJoin(a, b)| - |b|..] == b
  {
  }
}
