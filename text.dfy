/** String helpers: ASCII lower-casing and substring search. */
module Text {

  predicate IsUpper(c: char) {
    'A' <= c <= 'Z'
  }

  function LowerChar(c: char): (r: char)
    ensures !IsUpper(r)
    ensures !IsUpper(c) ==> r == c
    ensures IsUpper(c) ==> r as int == c as int + 32
  {
    if IsUpper(c) then (c as int + 32) as char else c
  }

  /** `toLowerCase` restricted to the ASCII letters. */
  function Lower(s: string): (r: string)
    ensures |r| == |s|
    ensures forall i :: 0 <= i < |s| ==> r[i] == LowerChar(s[i])
  {
    if s == [] then [] else [LowerChar(s[0])] + Lower(s[1..])
  }

  lemma {:induction false} LowerIdempotent(s: string)
    ensures Lower(Lower(s)) == Lower(s)
  {
    if s != [] {
      LowerIdempotent(s[1..]);
      assert Lower(s)[1..] == Lower(s[1..]);
    }
  }

  /** `sub` occurs in `s` at position `i`. */
  predicate OccursAt(s: string, sub: string, i: int) {
    0 <= i && i + |sub| <= |s| && s[i..i + |sub|] == sub
  }

  /** `s.includes(sub)` / SQL `contains`: some position of `s` starts `sub`. */
  function Contains(s: string, sub: string): (r: bool)
    ensures r <==> exists i :: OccursAt(s, sub, i)
    decreases |s|
  {
    if |sub| > |s| then
      assert forall i :: !OccursAt(s, sub, i);
      false
    else if s[..|sub|] == sub then
      assert OccursAt(s, sub, 0);
      true
    else
      var rest := Contains(s[1..], sub);
      assert forall i :: OccursAt(s, sub, i) && i > 0 ==> OccursAt(s[1..], sub, i - 1) by {
        forall i | OccursAt(s, sub, i) && i > 0 ensures OccursAt(s[1..], sub, i - 1) {
          assert s[1..][i - 1..i - 1 + |sub|] == s[i..i + |sub|];
        }
      }
      assert forall i :: OccursAt(s[1..], sub, i) ==> OccursAt(s, sub, i + 1) by {
        forall i | OccursAt(s[1..], sub, i) ensures OccursAt(s, sub, i + 1) {
          assert s[1..][i..i + |sub|] == s[i + 1..i + 1 + |sub|];
        }
      }
      rest
  }

  /** Case-insensitive containment (ASCII letters only): `sub` occurs in `s` once both are lower-cased. */
  function ContainsInsensitive(s: string, sub: string): (r: bool)
    ensures r <==> exists i :: OccursAt(Lower(s), Lower(sub), i)
    ensures sub == [] ==> r
  {
    var ls := Lower(s);
    var lsub := Lower(sub);
    var r := Contains(ls, lsub);
    assert r ==> exists i :: OccursAt(Lower(s), Lower(sub), i) by {
      if r {
        var i :| OccursAt(ls, lsub, i);
        assert OccursAt(Lower(s), Lower(sub), i);
      }
    }
    assert (exists i :: OccursAt(Lower(s), Lower(sub), i)) ==> r by {
      if exists i :: OccursAt(Lower(s), Lower(sub), i) {
        var i :| OccursAt(Lower(s), Lower(sub), i);
        assert OccursAt(ls, lsub, i);
      }
    }
    assert sub == [] ==> OccursAt(ls, lsub, 0);
    r
  }
}
