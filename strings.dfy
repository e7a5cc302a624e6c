/** The part of Go's `strings` package that the descriptor parser uses. */
module Strings {

  /**
   * `strings.IndexRune(s, c)`: the index of the first occurrence of `c` in `s`,
   * or -1 when `c` does not occur. Go counts the index in bytes of UTF-8 and this model in
   * characters; the two pick the same split point, and the parser relies only on the
   * slices before and after it, so the difference never shows.
   */
  function IndexRune(s: string, c: char): (r: int)
    ensures -1 <= r < |s|
    ensures r == -1 <==> c !in s
    ensures r >= 0 ==> s[r] == c && c !in s[..r]
  {
    if s == [] then -1
    else if s[0] == c then 0
    else
      var k := IndexRune(s[1..], c);
      if k == -1 then -1
      else
        assert s[..k + 1] == [s[0]] + s[1..][..k];
        k + 1
  }

  /** The first `c` in `p + [c] + q` is the one right after `p`, when `p` holds none. */
  lemma {:induction false} IndexRuneAfter(p: string, c: char, q: string)
    requires c !in p
    ensures IndexRune(p + [c] + q, c) == |p|
  {
    var s := p + [c] + q;
    assert s[..|p|] == p;
    assert s[|p|] == c;
  }
}
