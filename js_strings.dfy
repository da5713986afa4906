/**
 * The two JavaScript string predicates the interceptors decide on:
 * `String.prototype.startsWith` and `String.prototype.includes`, defined by
 * recursion over the string and proved equal to their slice-based meaning.
 */
module JsStrings {

  /** `s.startsWith(prefix)`: the first |prefix| characters of `s` are `prefix`. */
  function StartsWith(s: string, prefix: string): (r: bool)
    ensures r <==> |prefix| <= |s| && s[..|prefix|] == prefix
  {
    if prefix == [] then true
    else if s == [] then false
    else
      var r := s[0] == prefix[0] && StartsWith(s[1..], prefix[1..]);
      assert r ==> s[..|prefix|] == [s[0]] + s[1..][..|prefix| - 1];
      r
  }

  /** `sub` occurs in `s` starting at index `i`. */
  predicate OccursAt(s: string, sub: string, i: nat)
  {
    i + |sub| <= |s| && s[i..i + |sub|] == sub
  }

  /** `s.includes(sub)`: `sub` occurs in `s` at some position. */
  function Includes(s: string, sub: string): (r: bool)
    ensures r <==> exists i: nat :: OccursAt(s, sub, i)
    decreases |s|
  {
    if StartsWith(s, sub) then
      assert OccursAt(s, sub, 0);
      true
    else if s == [] then false
    else
      var r := Includes(s[1..], sub);
      assert r ==> exists i: nat :: OccursAt(s, sub, i) by {
        if r {
          var j: nat :| OccursAt(s[1..], sub, j);
          assert s[j + 1..j + 1 + |sub|] == s[1..][j..j + |sub|];
          assert OccursAt(s, sub, j + 1);
        }
      }
      assert !r ==> forall i: nat :: !OccursAt(s, sub, i) by {
        if !r {
          forall i: nat ensures !OccursAt(s, sub, i) {
            if i > 0 && i + |sub| <= |s| {
              assert s[i..i + |sub|] == s[1..][i - 1..i - 1 + |sub|];
              assert !OccursAt(s[1..], sub, i - 1);
            }
          }
        }
      }
      r
  }
}
