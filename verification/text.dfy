/** Case folding and substring containment on strings.

    ImgFlipApi's MemeIdCache folds case in two ways: `ToLowerInvariant` before a substring
    test, and `StringComparison.OrdinalIgnoreCase` for equality. Both are
    modelled by the one character-wise fold `FoldChar`, which lowers the ASCII
    letters and leaves every other character alone. */
module Text {

  /** Lower-cases one character: 'A'..'Z' become 'a'..'z'. */
  function FoldChar(c: char): (r: char)
    ensures 'a' <= r <= 'z' <==> 'a' <= c <= 'z' || 'A' <= c <= 'Z'
    ensures !('A' <= r <= 'Z')
    ensures !('A' <= c <= 'Z') ==> r == c
  {
    if 'A' <= c <= 'Z' then (c as int - 'A' as int + 'a' as int) as char else c
  }

  /** Folds every character of `s`, keeping length and positions. */
  function Fold(s: string): (r: string)
    ensures |r| == |s|
    ensures forall i :: 0 <= i < |s| ==> r[i] == FoldChar(s[i])
  {
    seq(|s|, i requires 0 <= i < |s| => FoldChar(s[i]))
  }

  /** Folding twice is folding once. */
  lemma FoldIdempotent(s: string)
    ensures Fold(Fold(s)) == Fold(s)
  {
    var f := Fold(s);
    assert forall i :: 0 <= i < |s| ==> Fold(f)[i] == FoldChar(FoldChar(s[i])) == f[i];
  }

  /** `t` occurs in `s` starting at index `i`. */
  predicate OccursAt(s: string, t: string, i: nat)
  {
    i + |t| <= |s| && s[i..i + |t|] == t
  }

  /** `s` contains `t` as a contiguous substring (String.Contains). */
  predicate Contains(s: string, t: string)
  {
    exists i: nat | i <= |s| :: OccursAt(s, t, i)
  }

  /** Every string contains the empty string. */
  lemma ContainsEmpty(s: string)
    ensures Contains(s, [])
  {
    assert OccursAt(s, [], 0);
  }

  /** Every string contains itself. */
  lemma ContainsSelf(s: string)
    ensures Contains(s, s)
  {
    assert s[0..|s|] == s;
    assert OccursAt(s, s, 0);
  }
}
