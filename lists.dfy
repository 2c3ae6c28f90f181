/** Searching and filtering lists by a string key, as `Array.prototype.find` and `filter` do. */
module Lists {
  import opened Wrappers

  /**
   * The index `xs.find(x => key(x) === id)` stops at: the first element
   * whose key is the id. A null id matches no element, since keys are strings.
   */
  function FindIndex<T>(xs: seq<T>, key: T -> string, id: Option<string>): (r: Option<nat>)
    ensures r.Some? ==> id.Some? && r.value < |xs| && key(xs[r.value]) == id.value
    ensures r.Some? ==> forall j :: 0 <= j < r.value ==> key(xs[j]) != id.value
    ensures r.None? ==> id.None? || forall j :: 0 <= j < |xs| ==> key(xs[j]) != id.value
  {
    if id.None? || xs == [] then None
    else if key(xs[0]) == id.value then Some(0)
    else
      match FindIndex(xs[1..], key, id)
      case None => None
      case Some(i) => Some(i + 1)
  }

  /** `xs.find(x => key(x) === id)`. */
  function Find<T>(xs: seq<T>, key: T -> string, id: Option<string>): (r: Option<T>)
    ensures r.Some? ==> id.Some? && r.value in xs && key(r.value) == id.value
    ensures r.None? <==> id.None? || forall j :: 0 <= j < |xs| ==> key(xs[j]) != id.value
    ensures r.Some? ==> id.Some? && (exists i :: 0 <= i < |xs| && xs[i] == r.value
                                      && forall j :: 0 <= j < i ==> key(xs[j]) != id.value)
  {
    match FindIndex(xs, key, id)
    case None => None
    case Some(i) => Some(xs[i])
  }

  /** `xs.filter(x => key(x) !== id)`. */
  function Without<T>(xs: seq<T>, key: T -> string, id: string): (r: seq<T>)
    ensures |r| <= |xs|
    ensures forall i :: 0 <= i < |r| ==> r[i] in xs && key(r[i]) != id
    ensures forall i :: 0 <= i < |xs| && key(xs[i]) != id ==> xs[i] in r
  {
    if xs == [] then []
    else (if key(xs[0]) == id then [] else [xs[0]]) + Without(xs[1..], key, id)
  }

  /** Filtering keeps the survivors in their order: it distributes over concatenation. */
  lemma {:induction false} WithoutAppend<T>(a: seq<T>, b: seq<T>, key: T -> string, id: string)
    ensures Without(a + b, key, id) == Without(a, key, id) + Without(b, key, id)
  {
    if a != [] {
      assert (a + b)[0] == a[0] && (a + b)[1..] == a[1..] + b;
      WithoutAppend(a[1..], b, key, id);
    } else {
      assert a + b == b;
    }
  }

  /** Filtering out an id no element has changes nothing. */
  lemma {:induction false} WithoutAbsent<T>(xs: seq<T>, key: T -> string, id: string)
    requires forall i :: 0 <= i < |xs| ==> key(xs[i]) != id
    ensures Without(xs, key, id) == xs
  {
    if xs != [] {
      WithoutAbsent(xs[1..], key, id);
      assert [xs[0]] + xs[1..] == xs;
    }
  }
}
