/** Facts about sequence concatenation, stated once for any element type so
    that they are proved without the contents of the sequences in view. */
module SeqFacts {

  lemma RightUnit<T>(a: seq<T>)
    ensures a + [] == a
  {
  }

  lemma Assoc<T>(x: seq<T>, y: seq<T>, z: seq<T>)
    ensures x + y + z == x + (y + z)
  {
  }

  /** Appending four pieces one after another appends their concatenation. */
  lemma {:induction false} AssocFour<T>(p: seq<T>, a: seq<T>, b: seq<T>, c: seq<T>, d: seq<T>)
    ensures p + a + b + c + d == p + (a + b + c + d)
  {
    Assoc(p, a, b);
    Assoc(p, a + b, c);
    Assoc(p, a + b + c, d);
  }

  /** Where the pieces of `p + a + [x] + b + r` sit. */
  lemma Pieces<T>(p: seq<T>, a: seq<T>, x: T, b: seq<T>, r: seq<T>)
    ensures var s := p + a + [x] + b + r;
      && |s| == |p| + |a| + 1 + |b| + |r|
      && s[0..|p|] == p
      && s[|p|..|p| + |a|] == a
      && s[|p| + |a|] == x
      && s[|p| + |a| + 1..|p| + |a| + 1 + |b|] == b
      && (r != [] ==> s[|p| + |a| + 1 + |b|] == r[0])
  {
    var s := p + a + [x] + b + r;
    assert s[0..|p|] == p;
    assert s[|p|..|p| + |a|] == a;
    assert s[|p| + |a| + 1..|p| + |a| + 1 + |b|] == b;
  }

  lemma DropLastOfConcat<T>(a: seq<T>, b: seq<T>)
    requires b != []
    ensures (a + b)[..|a + b| - 1] == a + b[..|b| - 1]
    ensures (a + b)[|a + b| - 1] == b[|b| - 1]
  {
  }
}
