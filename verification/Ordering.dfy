/**
  Strict total orders and the sequences sorted by them.  The source sorts with
  SQL `ORDER BY` and with Python's `sorted`; both are insertion into a sorted
  sequence here, and `SortedUnique` says a sorted listing of a set is unique.
 */
module Ordering {

  ghost predicate StrictTotalOrder<T(!new)>(lt: (T, T) -> bool) {
    && (forall x :: !lt(x, x))
    && (forall x, y, z :: lt(x, y) && lt(y, z) ==> lt(x, z))
    && (forall x, y :: x == y || lt(x, y) || lt(y, x))
  }

  ghost predicate StrictlySorted<T>(xs: seq<T>, lt: (T, T) -> bool) {
    forall i, j :: 0 <= i < j < |xs| ==> lt(xs[i], xs[j])
  }

  /** Insert `x` into a sorted listing; an element already present is left alone. */
  function Insert<T(!new, ==)>(x: T, xs: seq<T>, lt: (T, T) -> bool): (r: seq<T>)
    requires StrictTotalOrder(lt) && StrictlySorted(xs, lt)
    ensures StrictlySorted(r, lt)
    ensures forall y :: y in r <==> y == x || y in xs
  {
    if xs == [] then [x]
    else if x == xs[0] then xs
    else if lt(x, xs[0]) then
      [x] + xs
    else
      var tail := Insert(x, xs[1..], lt);
      assert forall y :: y in xs <==> y == xs[0] || y in xs[1..];
      assert forall i :: 0 <= i < |tail| ==> tail[i] in tail;
      [xs[0]] + tail
  }

  /** `sorted(set(xs))` for a sequence `xs`. */
  function Sort<T(!new, ==)>(xs: seq<T>, lt: (T, T) -> bool): (r: seq<T>)
    requires StrictTotalOrder(lt)
    ensures StrictlySorted(r, lt)
    ensures forall y :: y in r <==> y in xs
  {
    if xs == [] then [] else Insert(xs[0], Sort(xs[1..], lt), lt)
  }

  /** A set has only one strictly sorted listing. */
  lemma {:induction false} SortedUnique<T(!new)>(xs: seq<T>, ys: seq<T>, lt: (T, T) -> bool)
    requires StrictTotalOrder(lt)
    requires StrictlySorted(xs, lt) && StrictlySorted(ys, lt)
    requires forall x :: x in xs <==> x in ys
    ensures xs == ys
  {
    assert xs != [] ==> xs[0] in xs;
    assert ys != [] ==> ys[0] in ys;
    if xs != [] && ys != [] {
      assert xs[0] in ys && ys[0] in xs;
      assert xs[0] == ys[0];
      forall x ensures x in xs[1..] <==> x in ys[1..] {
        if x in xs[1..] { assert x in xs && x != xs[0]; assert x in ys; }
        if x in ys[1..] { assert x in ys && x != ys[0]; assert x in xs; }
      }
      SortedUnique(xs[1..], ys[1..], lt);
      assert xs == [xs[0]] + xs[1..] && ys == [ys[0]] + ys[1..];
    }
  }

  /** Code-point order on strings, as Python compares them and SQLite's BINARY collation sorts them. */
  predicate Before(a: string, b: string) {
    b != "" && (a == "" || a[0] < b[0] || (a[0] == b[0] && Before(a[1..], b[1..])))
  }

  lemma {:induction false} BeforeIrreflexive(a: string)
    ensures !Before(a, a)
  {
    if a != "" { BeforeIrreflexive(a[1..]); }
  }

  lemma {:induction false} BeforeTransitive(a: string, b: string, c: string)
    requires Before(a, b) && Before(b, c)
    ensures Before(a, c)
  {
    if a != "" && a[0] == b[0] && b[0] == c[0] { BeforeTransitive(a[1..], b[1..], c[1..]); }
  }

  lemma {:induction false} BeforeConnected(a: string, b: string)
    ensures a == b || Before(a, b) || Before(b, a)
  {
    if a != "" && b != "" && a[0] == b[0] {
      BeforeConnected(a[1..], b[1..]);
      assert a == [a[0]] + a[1..] && b == [b[0]] + b[1..];
    }
  }

  lemma BeforeIsOrder()
    ensures StrictTotalOrder(Before)
  {
    forall x ensures !Before(x, x) { BeforeIrreflexive(x); }
    forall x, y, z | Before(x, y) && Before(y, z) ensures Before(x, z) { BeforeTransitive(x, y, z); }
    forall x, y ensures x == y || Before(x, y) || Before(y, x) { BeforeConnected(x, y); }
  }

  /** `sorted(set(xs))` on strings. */
  function SortStrings(xs: seq<string>): (r: seq<string>)
    ensures StrictlySorted(r, Before)
    ensures forall y :: y in r <==> y in xs
  {
    BeforeIsOrder();
    Sort(xs, Before)
  }

  /** The listing `ORDER BY` yields for a set of keys. */
  ghost function Listing(keys: set<string>): (r: seq<string>)
    ensures StrictlySorted(r, Before)
    ensures forall y :: y in r <==> y in keys
  {
    BeforeIsOrder();
    if keys == {} then [] else
      var x :| x in keys;
      Insert(x, Listing(keys - {x}), Before)
  }

  /** Any sorted listing of `keys` is the `ORDER BY` listing. */
  lemma ListingUnique(keys: set<string>, xs: seq<string>)
    requires StrictlySorted(xs, Before)
    requires forall y :: y in xs <==> y in keys
    ensures xs == Listing(keys)
  {
    BeforeIsOrder();
    SortedUnique(xs, Listing(keys), Before);
  }
}
