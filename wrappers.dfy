/** Optional values: JavaScript's `undefined`/`null` become `None`. */
module Wrappers {

  datatype Option<+T> = None | Some(value: T) {

    /** The wrapped value, or `default` when there is none. */
    function GetOr(default: T): T
    {
      match this
      case Some(v) => v
      case None => default
    }
  }

  /** Keeps the present entries of `xs`, in order (JavaScript's `.filter(series => !!series)`). */
  function Present<T>(xs: seq<Option<T>>): (r: seq<T>)
    ensures |r| <= |xs|
    ensures forall k :: 0 <= k < |r| ==> Some(r[k]) in xs
    ensures forall k :: 0 <= k < |xs| && xs[k].Some? ==> xs[k].value in r
    ensures (forall k :: 0 <= k < |xs| ==> xs[k].None?) <==> r == []
  {
    if xs == [] then []
    else
      var rest := Present(xs[1..]);
      assert xs == [xs[0]] + xs[1..];
      if xs[0].Some? then [xs[0].value] + rest else rest
  }

  /** Filtering keeps order and multiplicity: it distributes over concatenation. */
  lemma {:induction false} PresentAppend<T>(a: seq<Option<T>>, b: seq<Option<T>>)
    ensures Present(a + b) == Present(a) + Present(b)
  {
    if a == [] {
      assert a + b == b;
    } else {
      assert (a + b)[0] == a[0] && (a + b)[1..] == a[1..] + b;
      PresentAppend(a[1..], b);
    }
  }

  /** A present entry is kept, an absent one dropped. */
  lemma PresentSingle<T>(x: T)
    ensures Present([Some(x)]) == [x]
    ensures Present<T>([None]) == []
  {
    var none: seq<Option<T>> := [None];
    assert [Some(x)][1..] == [];
    assert none[1..] == [];
  }

  /** Filtering a pair: the present entries, first one first. */
  lemma PresentPair<T>(a: Option<T>, b: Option<T>)
    ensures Present([a, b]) ==
      (if a.Some? then [a.value] else []) + (if b.Some? then [b.value] else [])
  {
    assert [a, b][1..] == [b];
    assert [b][1..] == [];
  }
}
