/** Room names for a matched pair: Python's ordering of `str`, `min`, `max`,
    and the name `f"{min(a, b)}-{max(a, b)}"` built from them (app.py:41). */
module Rooms {

  /** Python's `a < b` on `str`: compares code points left to right; a proper
      prefix is smaller than the longer string. */
  predicate Less(a: string, b: string)
  {
    if a == [] then b != []
    else if b == [] then false
    else if a[0] != b[0] then a[0] < b[0]
    else Less(a[1..], b[1..])
  }

  /** `<` on strings is asymmetric (and hence irreflexive). */
  lemma {:induction false} LessAsymmetric(a: string, b: string)
    ensures Less(a, b) ==> !Less(b, a)
  {
    if a != [] && b != [] && a[0] == b[0] {
      LessAsymmetric(a[1..], b[1..]);
    }
  }

  /** `<` on strings is total: of two different strings one is smaller. */
  lemma {:induction false} LessTrichotomy(a: string, b: string)
    ensures a == b || Less(a, b) || Less(b, a)
  {
    if a != [] && b != [] && a[0] == b[0] {
      LessTrichotomy(a[1..], b[1..]);
      assert a == [a[0]] + a[1..] && b == [b[0]] + b[1..];
    }
  }

  /** Python's `min(a, b)`: the first argument unless the second is strictly smaller. */
  function Min(a: string, b: string): (r: string)
    ensures r == a || r == b
    ensures !Less(a, r) && !Less(b, r)
  {
    LessAsymmetric(a, a);
    LessAsymmetric(b, b);
    LessAsymmetric(a, b);
    if Less(b, a) then b else a
  }

  /** Python's `max(a, b)`: the first argument unless the second is strictly larger. */
  function Max(a: string, b: string): (r: string)
    ensures r == a || r == b
    ensures !Less(r, a) && !Less(r, b)
  {
    LessAsymmetric(a, a);
    LessAsymmetric(b, b);
    LessAsymmetric(a, b);
    if Less(a, b) then b else a
  }

  /** The room shared by a matched pair: the smaller id, a dash, the larger id. */
  function RoomName(u: string, p: string): (r: string)
    ensures r == u + "-" + p || r == p + "-" + u
    ensures Less(u, p) ==> r == u + "-" + p
    ensures Less(p, u) ==> r == p + "-" + u
    ensures |r| == |u| + |p| + 1
  {
    LessAsymmetric(u, p);
    LessTrichotomy(u, p);
    Min(u, p) + "-" + Max(u, p)
  }

  /** The room name does not depend on which of the two users joined last. */
  lemma RoomSymmetric(u: string, p: string)
    ensures RoomName(u, p) == RoomName(p, u)
  {
    LessTrichotomy(u, p);
  }
}
