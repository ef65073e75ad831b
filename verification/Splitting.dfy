/** Joined strings come apart at a separator that one part does not contain. */
module Splitting {
  /** A head without the separator ends at the first separator. */
  lemma SplitAtFirst(a: string, r: string, a': string, r': string, sep: char)
    requires sep !in a && sep !in a' && a + [sep] + r == a' + [sep] + r'
    ensures a == a' && r == r'
  {
    var s := a + [sep] + r;
    assert s[|a|] == sep && s[|a'|] == sep;
    assert forall j :: 0 <= j < |a| ==> s[j] == a[j];
    assert forall j :: 0 <= j < |a'| ==> s[j] == a'[j];
    assert |a| == |a'|;
    assert s[..|a|] == a && s[..|a'|] == a';
    assert s[|a| + 1..] == r && s[|a'| + 1..] == r';
  }

  /** A tail without the separator starts at the last separator. */
  lemma SplitAtLast(r: string, n: string, r': string, n': string, sep: char)
    requires sep !in n && sep !in n' && r + [sep] + n == r' + [sep] + n'
    ensures r == r' && n == n'
  {
    var s := r + [sep] + n;
    assert s[|r|] == sep && s[|r'|] == sep;
    assert forall j :: |r| < j < |s| ==> s[j] == n[j - |r| - 1];
    assert forall j :: |r'| < j < |s| ==> s[j] == n'[j - |r'| - 1];
    assert |r| == |r'|;
    assert s[..|r|] == r && s[..|r'|] == r';
    assert s[|r| + 1..] == n && s[|r'| + 1..] == n';
  }
}
