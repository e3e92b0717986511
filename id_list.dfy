/** The two id-keyed list transforms the app's stores are built from:
    `list.map(e => e.id === id ? f(e) : e)` and `list.filter(e => e.id !== id)`.
    Ids are not assumed unique: both act on every element with the id. */
module IdList {

  /** `xs.map(e => key(e) === id ? f(e) : e)`. */
  function MapWhere<T>(xs: seq<T>, key: T -> string, id: string, f: T -> T): (r: seq<T>)
    ensures |r| == |xs|
    ensures forall k :: 0 <= k < |xs| && key(xs[k]) == id ==> r[k] == f(xs[k])
    ensures forall k :: 0 <= k < |xs| && key(xs[k]) != id ==> r[k] == xs[k]
  {
    if |xs| == 0 then []
    else [if key(xs[0]) == id then f(xs[0]) else xs[0]] + MapWhere(xs[1..], key, id, f)
  }

  /** `xs.filter(e => key(e) !== id)`. */
  function Without<T>(xs: seq<T>, key: T -> string, id: string): (r: seq<T>)
    ensures |r| <= |xs|
    ensures forall k :: 0 <= k < |r| ==> key(r[k]) != id
  {
    if |xs| == 0 then []
    else (if key(xs[0]) == id then [] else [xs[0]]) + Without(xs[1..], key, id)
  }

  /** Exactly the elements with another id survive. */
  lemma {:induction false} WithoutMembers<T>(xs: seq<T>, key: T -> string, id: string, x: T)
    ensures x in Without(xs, key, id) <==> x in xs && key(x) != id
  {
    if |xs| > 0 {
      WithoutMembers(xs[1..], key, id, x);
      assert xs == [xs[0]] + xs[1..];
    }
  }

  /** Filtering commutes with concatenation, so the survivors keep their
      relative order. */
  lemma {:induction false} WithoutConcat<T>(a: seq<T>, b: seq<T>, key: T -> string, id: string)
    ensures Without(a + b, key, id) == Without(a, key, id) + Without(b, key, id)
  {
    if |a| == 0 {
      assert a + b == b;
    } else {
      var head := if key(a[0]) == id then [] else [a[0]];
      WithoutConcat(a[1..], b, key, id);
      assert (a + b)[0] == a[0];
      assert (a + b)[1..] == a[1..] + b;
      calc {
        Without(a + b, key, id);
        head + Without(a[1..] + b, key, id);
        head + (Without(a[1..], key, id) + Without(b, key, id));
        (head + Without(a[1..], key, id)) + Without(b, key, id);
      }
    }
  }

  /** A list with no element of that id is left as it is. */
  lemma {:induction false} WithoutAbsent<T>(xs: seq<T>, key: T -> string, id: string)
    requires forall k :: 0 <= k < |xs| ==> key(xs[k]) != id
    ensures Without(xs, key, id) == xs
  {
    if |xs| > 0 {
      WithoutAbsent(xs[1..], key, id);
      assert xs == [xs[0]] + xs[1..];
    }
  }

  /** Deleting twice is deleting once. */
  lemma WithoutIdempotent<T>(xs: seq<T>, key: T -> string, id: string)
    ensures Without(Without(xs, key, id), key, id) == Without(xs, key, id)
  {
    WithoutAbsent(Without(xs, key, id), key, id);
  }

  /** The removed elements and the survivors together make up the list. */
  lemma {:induction false} WithoutCount<T>(xs: seq<T>, key: T -> string, id: string)
    ensures |Without(xs, key, id)| + |Matching(xs, key, id)| == |xs|
  {
    if |xs| > 0 {
      WithoutCount(xs[1..], key, id);
    }
  }

  /** The elements that carry the id, in order. */
  function Matching<T>(xs: seq<T>, key: T -> string, id: string): (r: seq<T>)
    ensures forall k :: 0 <= k < |r| ==> key(r[k]) == id
  {
    if |xs| == 0 then []
    else (if key(xs[0]) == id then [xs[0]] else []) + Matching(xs[1..], key, id)
  }

  /** Updating elements and then deleting them is deleting them, as long as
      the update keeps the id. */
  lemma {:induction false} WithoutAfterMapWhere<T>(xs: seq<T>, key: T -> string, id: string, f: T -> T)
    requires forall x :: key(x) == id ==> key(f(x)) == id
    ensures Without(MapWhere(xs, key, id, f), key, id) == Without(xs, key, id)
  {
    if |xs| > 0 {
      WithoutAfterMapWhere(xs[1..], key, id, f);
      assert MapWhere(xs, key, id, f)[1..] == MapWhere(xs[1..], key, id, f);
    }
  }

  /** Updating twice with an idempotent update that keeps the id is
      updating once. */
  lemma {:induction false} MapWhereIdempotent<T>(xs: seq<T>, key: T -> string, id: string, f: T -> T)
    requires forall x :: key(x) == id ==> key(f(x)) == id && f(f(x)) == f(x)
    ensures MapWhere(MapWhere(xs, key, id, f), key, id, f) == MapWhere(xs, key, id, f)
  {
    if |xs| > 0 {
      MapWhereIdempotent(xs[1..], key, id, f);
      assert MapWhere(xs, key, id, f)[1..] == MapWhere(xs[1..], key, id, f);
    }
  }

  /** Deleting the id of an appended element whose id was new gives the
      original list back. */
  lemma WithoutAppended<T>(xs: seq<T>, x: T, key: T -> string)
    requires forall k :: 0 <= k < |xs| ==> key(xs[k]) != key(x)
    ensures Without(xs + [x], key, key(x)) == xs
  {
    WithoutConcat(xs, [x], key, key(x));
    WithoutAbsent(xs, key, key(x));
    assert Without([x], key, key(x)) == [];
  }
}
