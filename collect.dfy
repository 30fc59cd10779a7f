/** Accumulating over a sequence the way the generator's walks do: inserting
    into a set (the include set), and inserting into a set that remembers
    first-insertion order (the slice element types). */
module Collect {
  import opened Optional

  /** The union of `g` over `xs`, accumulated left to right. */
  function UnionOf<T, U>(xs: seq<T>, g: T -> set<U>): set<U>
  {
    if xs == [] then {} else UnionOf(xs[..|xs| - 1], g) + g(xs[|xs| - 1])
  }

  /** One more element adds its own set. */
  lemma UnionOfStep<T, U>(xs: seq<T>, g: T -> set<U>, k: nat)
    requires k < |xs|
    ensures UnionOf(xs[..k + 1], g) == UnionOf(xs[..k], g) + g(xs[k])
  {
    assert xs[..k + 1][..k] == xs[..k];
  }

  /** An element is in the union exactly when some element's set holds it. */
  lemma {:induction false} UnionOfMembership<T, U>(xs: seq<T>, g: T -> set<U>, u: U)
    ensures u in UnionOf(xs, g) <==> exists k :: 0 <= k < |xs| && u in g(xs[k])
  {
    if xs != [] {
      var init := xs[..|xs| - 1];
      UnionOfMembership(init, g, u);
      if u in UnionOf(init, g) {
        var k :| 0 <= k < |init| && u in g(init[k]);
        assert xs[k] == init[k];
      }
      if exists k :: 0 <= k < |xs| && u in g(xs[k]) {
        var k :| 0 <= k < |xs| && u in g(xs[k]);
        if k < |init| {
          assert init[k] == xs[k];
        }
      }
    }
  }

  /** Inserting into a set kept as a sequence in first-insertion order. */
  function Insert<U(==)>(acc: seq<U>, o: Option<U>): seq<U>
  {
    match o
    case None => acc
    case Some(x) => if x in acc then acc else acc + [x]
  }

  /** Everything `g` yields over `xs`, each once, in first-insertion order. */
  function InsertAll<T, U(==)>(xs: seq<T>, g: T -> Option<U>): seq<U>
  {
    if xs == [] then [] else Insert(InsertAll(xs[..|xs| - 1], g), g(xs[|xs| - 1]))
  }

  lemma InsertAllStep<T, U>(xs: seq<T>, g: T -> Option<U>, k: nat)
    requires k < |xs|
    ensures InsertAll(xs[..k + 1], g) == Insert(InsertAll(xs[..k], g), g(xs[k]))
  {
    assert xs[..k + 1][..k] == xs[..k];
  }

  /** No value is inserted twice, and a value is present exactly when some
      element yields it. */
  lemma {:induction false} InsertAllDistinct<T, U>(xs: seq<T>, g: T -> Option<U>)
    ensures forall a, b :: 0 <= a < b < |InsertAll(xs, g)| ==> InsertAll(xs, g)[a] != InsertAll(xs, g)[b]
    ensures forall u :: u in InsertAll(xs, g) <==> exists k :: 0 <= k < |xs| && g(xs[k]) == Some(u)
  {
    if xs != [] {
      var init := xs[..|xs| - 1];
      InsertAllDistinct(init, g);
      forall u
        ensures u in InsertAll(xs, g) <==> exists k :: 0 <= k < |xs| && g(xs[k]) == Some(u)
      {
        if u in InsertAll(init, g) {
          var k :| 0 <= k < |init| && g(init[k]) == Some(u);
          assert xs[k] == init[k];
        }
        if exists k :: 0 <= k < |xs| && g(xs[k]) == Some(u) {
          var k :| 0 <= k < |xs| && g(xs[k]) == Some(u);
          if k < |init| {
            assert init[k] == xs[k];
          }
        }
      }
    }
  }
}
