/**
 * The two array operations the store is built from, on sequences of records
 * identified by a string key: `find`/`findIndex` (first match) and
 * `filter(x => key(x) !== id)`.
 */
module Keyed {
  import opened Wrappers

  /** Some element of `xs` has key `id`. */
  predicate HasKey<T>(xs: seq<T>, key: T -> string, id: string) {
    exists i :: 0 <= i < |xs| && key(xs[i]) == id
  }

  /** The index of the first element whose key is `id`, as `findIndex` finds it. */
  function FirstIndex<T>(xs: seq<T>, key: T -> string, id: string): (r: Option<nat>)
    ensures r.None? <==> !HasKey(xs, key, id)
    ensures r.Some? ==> r.value < |xs| && key(xs[r.value]) == id
    ensures r.Some? ==> forall j :: 0 <= j < r.value ==> key(xs[j]) != id
    decreases |xs|
  {
    if xs == [] then None
    else if key(xs[0]) == id then Some(0)
    else
      match FirstIndex(xs[1..], key, id)
      case None => None
      case Some(k) => Some(k + 1)
  }

  /** `xs.filter(x => key(x) !== id)`. */
  function RemoveKey<T>(xs: seq<T>, key: T -> string, id: string): (r: seq<T>)
    ensures |r| <= |xs|
    ensures |r| < |xs| <==> HasKey(xs, key, id)
    ensures forall i :: 0 <= i < |r| ==> key(r[i]) != id
    decreases |xs|
  {
    if xs == [] then []
    else
      var rest := RemoveKey(xs[1..], key, id);
      assert HasKey(xs, key, id) <==> key(xs[0]) == id || HasKey(xs[1..], key, id) by {
        if HasKey(xs, key, id) && key(xs[0]) != id {
          var i :| 0 <= i < |xs| && key(xs[i]) == id;
          assert key(xs[1..][i - 1]) == id;
        }
        if HasKey(xs[1..], key, id) {
          var i :| 0 <= i < |xs[1..]| && key(xs[1..][i]) == id;
          assert key(xs[i + 1]) == id;
        }
      }
      if key(xs[0]) == id then rest else [xs[0]] + rest
  }

  /** Filtering distributes over concatenation: survivors keep their relative order. */
  lemma {:induction false} RemoveKeyAppend<T>(a: seq<T>, b: seq<T>, key: T -> string, id: string)
    ensures RemoveKey(a + b, key, id) == RemoveKey(a, key, id) + RemoveKey(b, key, id)
    decreases |a|
  {
    if a == [] {
      assert a + b == b;
    } else {
      var head := if key(a[0]) == id then [] else [a[0]];
      calc {
        RemoveKey(a + b, key, id);
        { assert (a + b)[0] == a[0] && (a + b)[1..] == a[1..] + b; }
        head + RemoveKey(a[1..] + b, key, id);
        { RemoveKeyAppend(a[1..], b, key, id); }
        head + (RemoveKey(a[1..], key, id) + RemoveKey(b, key, id));
        (head + RemoveKey(a[1..], key, id)) + RemoveKey(b, key, id);
        RemoveKey(a, key, id) + RemoveKey(b, key, id);
      }
    }
  }

  /** A filter that matches nothing gives back the sequence itself. */
  lemma {:induction false} RemoveKeyAbsent<T>(xs: seq<T>, key: T -> string, id: string)
    requires !HasKey(xs, key, id)
    ensures RemoveKey(xs, key, id) == xs
    decreases |xs|
  {
    if xs != [] {
      RemoveKeyAbsent(xs[1..], key, id);
    }
  }

  /** When exactly one element has the key, the filter removes just that element. */
  lemma RemoveKeyUnique<T>(xs: seq<T>, key: T -> string, id: string, k: nat)
    requires k < |xs| && key(xs[k]) == id
    requires forall j :: 0 <= j < |xs| && j != k ==> key(xs[j]) != id
    ensures RemoveKey(xs, key, id) == xs[..k] + xs[k + 1..]
  {
    assert xs == xs[..k] + ([xs[k]] + xs[k + 1..]);
    RemoveKeyAppend(xs[..k], [xs[k]] + xs[k + 1..], key, id);
    RemoveKeyAppend([xs[k]], xs[k + 1..], key, id);
    RemoveKeyAbsent(xs[..k], key, id);
    RemoveKeyAbsent(xs[k + 1..], key, id);
  }

  /** An element at the front is the one `findIndex` finds for its own key. */
  lemma FirstIndexHead<T>(xs: seq<T>, key: T -> string)
    requires |xs| > 0
    ensures FirstIndex(xs, key, key(xs[0])) == Some(0)
  {
  }

  /** Appending the first element with a key makes that element the one `findIndex` finds. */
  lemma FirstIndexAppendFresh<T>(xs: seq<T>, x: T, key: T -> string, id: string)
    requires !HasKey(xs, key, id) && key(x) == id
    ensures FirstIndex(xs + [x], key, id) == Some(|xs|)
  {
    assert key((xs + [x])[|xs|]) == id;
  }
}
