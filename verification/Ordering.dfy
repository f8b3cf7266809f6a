// The order of texts, and a stable sort by any order.
module Ordering {
  // Lexicographic by scalar value, which is the order of the UTF-8 bytes.
  predicate Before(a: string, b: string) {
    b != "" && (a == "" || a[0] < b[0] || (a[0] == b[0] && Before(a[1..], b[1..])))
  }

  lemma {:induction false} BeforeIsTotal(a: string, b: string)
    ensures Before(a, b) || a == b || Before(b, a)
    ensures !(Before(a, b) && Before(b, a)) && !Before(a, a)
  {
    if a != "" && b != "" {
      BeforeIsTotal(a[1..], b[1..]);
      assert a == [a[0]] + a[1..] && b == [b[0]] + b[1..];
    }
    if a != "" {
      BeforeIsTotal(a[1..], a[1..]);
    }
  }

  lemma {:induction false} BeforeIsTransitive(a: string, b: string, c: string)
    requires Before(a, b) && Before(b, c)
    ensures Before(a, c)
  {
    if a != "" && a[0] == b[0] && b[0] == c[0] {
      BeforeIsTransitive(a[1..], b[1..], c[1..]);
    }
  }

  // ------------------------------------------------------------------- sorting

  // Irreflexive, and what is not before stays not before: enough for a sort.
  ghost predicate IsOrder<T(!new)>(less: (T, T) -> bool) {
    && (forall a, b :: less(a, b) ==> !less(b, a))
    && (forall a, b, c :: !less(b, a) && !less(c, b) ==> !less(c, a))
  }

  predicate Ordered<T>(less: (T, T) -> bool, xs: seq<T>) {
    forall i, j :: 0 <= i < j < |xs| ==> !less(xs[j], xs[i])
  }

  function InsertBy<T>(less: (T, T) -> bool, x: T, xs: seq<T>): (r: seq<T>)
    ensures |r| == |xs| + 1
  {
    if xs == [] || !less(xs[0], x) then [x] + xs else [xs[0]] + InsertBy(less, x, xs[1..])
  }

  function SortBy<T>(less: (T, T) -> bool, xs: seq<T>): (r: seq<T>)
    ensures |r| == |xs|
  {
    if xs == [] then [] else InsertBy(less, xs[0], SortBy(less, xs[1..]))
  }

  lemma {:induction false} InsertByIs<T(!new)>(less: (T, T) -> bool, x: T, xs: seq<T>)
    requires IsOrder(less) && Ordered(less, xs)
    ensures Ordered(less, InsertBy(less, x, xs))
    ensures multiset(InsertBy(less, x, xs)) == multiset(xs) + multiset{x}
    ensures forall i :: 0 <= i < |InsertBy(less, x, xs)| ==>
                          InsertBy(less, x, xs)[i] == x || InsertBy(less, x, xs)[i] in xs
    ensures x in InsertBy(less, x, xs) && forall i :: 0 <= i < |xs| ==> xs[i] in InsertBy(less, x, xs)
  {
    if xs != [] {
      assert xs == [xs[0]] + xs[1..];
      if less(xs[0], x) {
        InsertByIs(less, x, xs[1..]);
        var more := InsertBy(less, x, xs[1..]);
        forall j | 0 <= j < |more| ensures !less(more[j], xs[0]) {
          assert more[j] == x || more[j] in xs[1..];
        }
      } else {
        forall j | 0 <= j < |xs| ensures !less(xs[j], x) {
          if j > 0 {
            assert !less(xs[j], xs[0]) && !less(xs[0], x);
          }
        }
      }
    }
  }

  // The sorted list holds the same elements as often.
  lemma {:induction false} SortByIs<T(!new)>(less: (T, T) -> bool, xs: seq<T>)
    requires IsOrder(less)
    ensures Ordered(less, SortBy(less, xs)) && multiset(SortBy(less, xs)) == multiset(xs)
    ensures forall i :: 0 <= i < |SortBy(less, xs)| ==> SortBy(less, xs)[i] in xs
    ensures forall i :: 0 <= i < |xs| ==> xs[i] in SortBy(less, xs)
  {
    if xs != [] {
      SortByIs(less, xs[1..]);
      InsertByIs(less, xs[0], SortBy(less, xs[1..]));
      assert xs == [xs[0]] + xs[1..];
    }
  }

  lemma BeforeIsOrder()
    ensures IsOrder(Before)
  {
    forall a, b ensures Before(a, b) ==> !Before(b, a) { BeforeIsTotal(a, b); }
    forall a, b, c ensures !Before(b, a) && !Before(c, b) ==> !Before(c, a) {
      BeforeIsTotal(a, b);
      BeforeIsTotal(b, c);
      BeforeIsTotal(a, c);
      if Before(a, b) && Before(b, c) {
        BeforeIsTransitive(a, b, c);
      }
    }
  }

  // No two elements clash.
  predicate Apart<T>(clash: (T, T) -> bool, xs: seq<T>) {
    forall i, j :: 0 <= i < |xs| && 0 <= j < |xs| && i != j ==> !clash(xs[i], xs[j])
  }

  lemma {:induction false} InsertByApart<T(!new)>(less: (T, T) -> bool, clash: (T, T) -> bool, x: T, xs: seq<T>)
    requires IsOrder(less) && Ordered(less, xs) && Apart(clash, xs)
    requires forall i :: 0 <= i < |xs| ==> !clash(x, xs[i]) && !clash(xs[i], x)
    ensures Apart(clash, InsertBy(less, x, xs))
  {
    if xs != [] && less(xs[0], x) {
      InsertByApart(less, clash, x, xs[1..]);
      InsertByIs(less, x, xs[1..]);
      var more := InsertBy(less, x, xs[1..]);
      forall j | 0 <= j < |more| ensures !clash(more[j], xs[0]) && !clash(xs[0], more[j]) {
        assert more[j] == x || more[j] in xs[1..];
      }
    }
  }

  lemma {:induction false} SortByApart<T(!new)>(less: (T, T) -> bool, clash: (T, T) -> bool, xs: seq<T>)
    requires IsOrder(less) && Apart(clash, xs)
    ensures Apart(clash, SortBy(less, xs))
  {
    if xs != [] {
      SortByApart(less, clash, xs[1..]);
      SortByIs(less, xs[1..]);
      var more := SortBy(less, xs[1..]);
      forall j | 0 <= j < |more| ensures !clash(more[j], xs[0]) && !clash(xs[0], more[j]) {
        assert more[j] in xs[1..];
      }
      InsertByApart(less, clash, xs[0], more);
    }
  }
}
