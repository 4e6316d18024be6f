/** The one string operation the handlers use: `String.prototype.includes`. */
module Text {

  /** `sub` occurs in `s` at index `i`. */
  ghost predicate OccursAt(s: string, sub: string, i: int) {
    0 <= i && i + |sub| <= |s| && s[i..i + |sub|] == sub
  }

  /** Reference meaning of "`s` contains `sub`": some index where it occurs. */
  ghost predicate Mentions(s: string, sub: string) {
    exists i :: OccursAt(s, sub, i)
  }

  predicate StartsWith(s: string, prefix: string) {
    |prefix| <= |s| && s[..|prefix|] == prefix
  }

  /** `s.includes(sub)`: try every start position from the left. */
  function Includes(s: string, sub: string): bool
    decreases |s|
  {
    if StartsWith(s, sub) then true
    else if s == [] then false
    else Includes(s[1..], sub)
  }

  /** The scan finds `sub` exactly when it occurs somewhere in `s`. */
  lemma {:induction false} IncludesIff(s: string, sub: string)
    ensures Includes(s, sub) <==> Mentions(s, sub)
  {
    if StartsWith(s, sub) {
      assert OccursAt(s, sub, 0);
    } else if s == [] {
      assert forall i :: !OccursAt(s, sub, i);
    } else {
      var t := s[1..];
      IncludesIff(t, sub);
      if Includes(t, sub) {
        var i :| OccursAt(t, sub, i);
        assert t[i..i + |sub|] == s[i + 1..i + 1 + |sub|];
        assert OccursAt(s, sub, i + 1);
      }
      if Mentions(s, sub) {
        var i :| OccursAt(s, sub, i);
        assert i != 0;
        assert s[i..i + |sub|] == t[i - 1..i - 1 + |sub|];
        assert OccursAt(t, sub, i - 1);
      }
    }
  }
}
