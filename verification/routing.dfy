/** `lambda_handler`'s dispatch: the request path is searched for the
    endpoint names, `surface` first, then `altitude`; anything else is a bulk
    request. */
module Routing {

  datatype Endpoint = Surface | Altitude | Bulk

  /** `sub` occurs in `s` at position `i`. */
  ghost predicate OccursAt(sub: string, s: string, i: int) {
    0 <= i && i + |sub| <= |s| && s[i..i + |sub|] == sub
  }

  /** An occurrence past the first character is an occurrence in the tail. */
  lemma OccursInTail(sub: string, s: string, i: int)
    requires 1 <= i && |s| >= 1
    ensures OccursAt(sub, s, i) <==> OccursAt(sub, s[1..], i - 1)
  {
  }

  /** Python's `sub in s` for strings: `sub` occurs somewhere in `s`. */
  function Contains(s: string, sub: string): (r: bool)
    ensures r <==> exists i :: OccursAt(sub, s, i)
    decreases |s|
  {
    if |sub| <= |s| && s[..|sub|] == sub then
      assert OccursAt(sub, s, 0);
      true
    else if |s| <= |sub| then
      assert forall i :: !OccursAt(sub, s, i);
      false
    else
      var rest := Contains(s[1..], sub);
      if rest then
        assert exists i :: OccursAt(sub, s, i) by {
          var j :| OccursAt(sub, s[1..], j);
          OccursInTail(sub, s, j + 1);
        }
        true
      else
        assert forall i :: !OccursAt(sub, s, i) by {
          forall i | OccursAt(sub, s, i) ensures false {
            if i >= 1 {
              OccursInTail(sub, s, i);
            }
          }
        }
        false
  }

  /** The endpoint a path is served by. */
  function Route(path: string): (r: Endpoint)
    ensures r == Surface <==> exists i :: OccursAt("surface", path, i)
    ensures r == Altitude <==> (!exists i :: OccursAt("surface", path, i)) && exists i :: OccursAt("altitude", path, i)
    ensures r == Bulk <==> (!exists i :: OccursAt("surface", path, i)) && !exists i :: OccursAt("altitude", path, i)
  {
    if Contains(path, "surface") then Surface
    else if Contains(path, "altitude") then Altitude
    else Bulk
  }

  /** A path naming both endpoints goes to the surface handler, wherever the
      two names occur in it. */
  lemma SurfaceTakesPrecedence(path: string)
    requires Contains(path, "surface") && Contains(path, "altitude")
    ensures Route(path) == Surface
    ensures Route(path) != Altitude
  {
  }

  /** A path naming the altitude endpoint before the surface one. */
  lemma PrecedenceExample()
    ensures Route("/altitude/surface") == Surface
  {
    assert OccursAt("surface", "/altitude/surface", 10);
  }

  /** A pattern whose first character is absent from `s` occurs nowhere in it. */
  lemma FirstCharAbsent(sub: string, s: string)
    requires |sub| > 0 && sub[0] !in s
    ensures forall i :: !OccursAt(sub, s, i)
  {
    forall i | 0 <= i < |s|
      ensures !OccursAt(sub, s, i)
    {
      assert s[i] in s;
    }
  }

  lemma RouteExamples()
    ensures Route("/altitude") == Altitude
    ensures Route("/msis") == Bulk
  {
    assert OccursAt("altitude", "/altitude", 1);
    FirstCharAbsent("surface", "/altitude");
    assert forall i :: !OccursAt("surface", "/msis", i) && !OccursAt("altitude", "/msis", i);
  }
}
