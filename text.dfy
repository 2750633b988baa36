/**
 * The case-insensitive substring test the front-end search boxes use:
 * `a.toLowerCase().includes(b.toLowerCase())`.
 */
module Text {

  /** Lower-cases an ASCII capital letter and leaves every other character alone. */
  function LowerChar(c: char): (r: char)
    ensures 'A' <= c <= 'Z' ==> 'a' <= r <= 'z'
    ensures !('A' <= c <= 'Z') ==> r == c
  {
    if 'A' <= c <= 'Z' then (c as int + 32) as char else c
  }

  /** `String.prototype.toLowerCase`, restricted to ASCII letters. */
  function LowerCase(s: string): (r: string)
    ensures |r| == |s|
    ensures forall i :: 0 <= i < |s| ==> r[i] == LowerChar(s[i])
  {
    seq(|s|, i requires 0 <= i < |s| => LowerChar(s[i]))
  }

  /** `sub` occurs in `s` starting at offset `i`. */
  predicate OccursAt(s: string, sub: string, i: int)
  {
    0 <= i <= |s| - |sub| && s[i..i + |sub|] == sub
  }

  /** `String.prototype.includes`: `sub` occurs in `s` at some offset. */
  predicate Includes(s: string, sub: string)
  {
    exists i | 0 <= i <= |s| - |sub| :: OccursAt(s, sub, i)
  }

  /** The search predicate of the list pages. */
  predicate ContainsIgnoreCase(s: string, keyword: string)
  {
    Includes(LowerCase(s), LowerCase(keyword))
  }

  /** Every string includes the empty string, so an empty search box keeps everything. */
  lemma EmptyKeywordMatches(s: string)
    ensures ContainsIgnoreCase(s, "")
  {
    assert OccursAt(LowerCase(s), LowerCase(""), 0);
  }

  /** Searching is insensitive to the case of the keyword. */
  lemma KeywordCaseIrrelevant(s: string, keyword: string)
    ensures ContainsIgnoreCase(s, keyword) == ContainsIgnoreCase(s, LowerCase(keyword))
  {
    var k := LowerCase(keyword);
    var kk := LowerCase(k);
    assert forall i :: 0 <= i < |k| ==> kk[i] == k[i];
    assert kk == k;
  }
}
