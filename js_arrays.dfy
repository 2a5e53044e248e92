/** The two array idioms the realm reducer and the window's `unsubFromState`
 *  use to find and drop records by id: `xs.map(key).indexOf(k)` and
 *  `xs.filter(e => key(e) !== k)`. */
module JsArrays {

  /** `xs.map(key).indexOf(k)`: the first position whose key is `k`, or -1. */
  function IndexOf<T>(xs: seq<T>, key: T -> string, k: string): (i: int)
    ensures -1 <= i < |xs|
    ensures i == -1 <==> forall j :: 0 <= j < |xs| ==> key(xs[j]) != k
    ensures i >= 0 ==> key(xs[i]) == k && forall j :: 0 <= j < i ==> key(xs[j]) != k
  {
    if xs == [] then -1
    else if key(xs[0]) == k then 0
    else
      var rest := IndexOf(xs[1..], key, k);
      if rest == -1 then -1 else rest + 1
  }

  /** `xs.filter(e => key(e) !== k)`: every record whose key is not `k`. */
  function Without<T>(xs: seq<T>, key: T -> string, k: string): (r: seq<T>)
    ensures |r| <= |xs|
    ensures forall i :: 0 <= i < |r| ==> key(r[i]) != k
    ensures forall i :: 0 <= i < |r| ==> r[i] in xs
    ensures forall j :: 0 <= j < |xs| && key(xs[j]) != k ==> xs[j] in r
    ensures (forall j :: 0 <= j < |xs| ==> key(xs[j]) != k) ==> r == xs
  {
    if xs == [] then []
    else (if key(xs[0]) != k then [xs[0]] else []) + Without(xs[1..], key, k)
  }

  /** Filtering keeps the relative order of what it keeps: it distributes over
   *  concatenation. */
  lemma {:induction false} WithoutConcat<T>(a: seq<T>, b: seq<T>, key: T -> string, k: string)
    ensures Without(a + b, key, k) == Without(a, key, k) + Without(b, key, k)
  {
    if a == [] {
      assert a + b == b;
    } else {
      assert (a + b)[0] == a[0];
      assert (a + b)[1..] == a[1..] + b;
      WithoutConcat(a[1..], b, key, k);
    }
  }

  /** A record that survives the filter keeps its place between the
   *  survivors before it and those after it. */
  lemma KeepsOrderAround<T>(a: seq<T>, x: T, b: seq<T>, key: T -> string, k: string)
    requires key(x) != k
    ensures Without(a + [x] + b, key, k) == Without(a, key, k) + [x] + Without(b, key, k)
  {
    WithoutConcat(a + [x], b, key, k);
    WithoutConcat(a, [x], key, k);
    assert Without([x], key, k) == [x] by {
      assert [x][1..] == [];
    }
  }
}
