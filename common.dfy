/** Small value types and string relations shared by the relay, the route and the page. */
module Common {

  /** An optional value; `None` stands for JavaScript's `null` or a missing property. */
  datatype Option<+T> = None | Some(value: T)

  /** The result of a step that either produces a value or stops with a finished response. */
  datatype Result<+R, +E> = Success(value: R) | Failure(error: E)

  predicate StartsWith(s: string, p: string) {
    |p| <= |s| && s[..|p|] == p
  }

  predicate IsSuffix(r: string, s: string) {
    |r| <= |s| && s[|s| - |r|..] == r
  }

  /** `sub` occurs in `s` starting at index `k`. */
  predicate OccursAt(s: string, sub: string, k: nat) {
    k + |sub| <= |s| && s[k..k + |sub|] == sub
  }

  ghost predicate Contains(s: string, sub: string) {
    exists k: nat :: OccursAt(s, sub, k)
  }

  /** Where each piece of a five-piece concatenation sits. */
  lemma FivePieces(a: string, b: string, c: string, d: string, e: string)
    ensures var s := a + b + c + d + e;
            && StartsWith(s, a)
            && OccursAt(s, b, |a|)
            && OccursAt(s, c, |a| + |b|)
            && OccursAt(s, d, |a| + |b| + |c|)
            && IsSuffix(e, s)
  {
    var s := a + b + c + d + e;
    assert s[..|a|] == a;
    assert s[|a|..|a| + |b|] == b;
    assert s[|a| + |b|..|a| + |b| + |c|] == c;
    assert s[|a| + |b| + |c|..|a| + |b| + |c| + |d|] == d;
    assert s[|s| - |e|..] == e;
  }

  /** A string that is concatenated from three pieces contains its middle piece. */
  lemma MiddleOccurs(a: string, b: string, c: string)
    ensures OccursAt(a + b + c, b, |a|)
    ensures Contains(a + b + c, b)
  {
    assert (a + b + c)[|a|..|a| + |b|] == b;
    var k: nat := |a|;
    assert OccursAt(a + b + c, b, k);
  }
}
