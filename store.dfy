/**
 * frontend/src/stores/items.ts: the Pinia store behind the items table.
 * Its state (`items`, `loading`, `filters`) is the fields of a class; the
 * computed getters are functions of that state; the axios calls are
 * parameters carrying the server's answer.
 */
module ItemsStore {
  import opened Wrappers

  /** An item as the frontend receives it: every field a string. */
  datatype Item = Item(
    id: string,
    ticker: string,
    targetFrom: string,
    targetTo: string,
    company: string,
    action: string,
    brokerage: string,
    ratingFrom: string,
    ratingTo: string,
    time: string,
    createdAt: string)

  /** A filter value: `null`, a string, a list of strings, or a `Date`. */
  datatype FilterValue = Null | Text(text: string) | Texts(texts: seq<string>) | Date(epochMillis: int)

  datatype Filter = Filter(value: FilterValue, matchMode: string)

  datatype Filters = Filters(action: Filter, brokerage: Filter, ratingTo: Filter, company: Filter, time: Filter)

  /** A `Partial<Filters>`: None for a key the object does not have. */
  datatype FilterPatch = FilterPatch(
    action: Option<Filter>,
    brokerage: Option<Filter>,
    ratingTo: Option<Filter>,
    company: Option<Filter>,
    time: Option<Filter>)

  /** The filters the store starts with and `resetFilters` restores (items.ts:35-41, 82-90). */
  const DefaultFilters: Filters := Filters(
    Filter(Null, "in"),
    Filter(Null, "contains"),
    Filter(Null, "equals"),
    Filter(Null, "contains"),
    Filter(Null, "dateIs"))

  function Pick(patched: Option<Filter>, prev: Filter): Filter {
    match patched
    case Some(f) => f
    case None => prev
  }

  /** `{ ...filters, ...patch }`: a shallow merge in which the patch wins. */
  function Merge(f: Filters, p: FilterPatch): Filters {
    Filters(Pick(p.action, f.action), Pick(p.brokerage, f.brokerage), Pick(p.ratingTo, f.ratingTo),
            Pick(p.company, f.company), Pick(p.time, f.time))
  }

  /** The patch that has every key of `q` and the keys of `p` that `q` lacks. */
  function Combine(p: FilterPatch, q: FilterPatch): FilterPatch {
    FilterPatch(
      if q.action.Some? then q.action else p.action,
      if q.brokerage.Some? then q.brokerage else p.brokerage,
      if q.ratingTo.Some? then q.ratingTo else p.ratingTo,
      if q.company.Some? then q.company else p.company,
      if q.time.Some? then q.time else p.time)
  }

  const EmptyPatch: FilterPatch := FilterPatch(None, None, None, None, None)

  /**
   * A key the patch has takes the patch's value; a key it lacks keeps the
   * old value.
   */
  lemma MergeKeys(f: Filters, p: FilterPatch)
    ensures p.action.Some? ==> Merge(f, p).action == p.action.value
    ensures p.action.None? ==> Merge(f, p).action == f.action
    ensures p.brokerage.Some? ==> Merge(f, p).brokerage == p.brokerage.value
    ensures p.brokerage.None? ==> Merge(f, p).brokerage == f.brokerage
    ensures p.ratingTo.Some? ==> Merge(f, p).ratingTo == p.ratingTo.value
    ensures p.ratingTo.None? ==> Merge(f, p).ratingTo == f.ratingTo
    ensures p.company.Some? ==> Merge(f, p).company == p.company.value
    ensures p.company.None? ==> Merge(f, p).company == f.company
    ensures p.time.Some? ==> Merge(f, p).time == p.time.value
    ensures p.time.None? ==> Merge(f, p).time == f.time
  {
  }

  /** Merging an empty patch changes nothing, and merging the same patch twice is merging it once. */
  lemma MergeIdentityAndIdempotence(f: Filters, p: FilterPatch)
    ensures Merge(f, EmptyPatch) == f
    ensures Merge(Merge(f, p), p) == Merge(f, p)
  {
  }

  /** Two merges in a row are one merge of the combined patch, the later one winning. */
  lemma MergeTwice(f: Filters, p: FilterPatch, q: FilterPatch)
    ensures Merge(Merge(f, p), q) == Merge(f, Combine(p, q))
  {
  }

  // ---------------------------------------------------------------------
  // `[...new Set(xs)]`
  // ---------------------------------------------------------------------

  predicate NoDuplicates<T(==,!new)>(xs: seq<T>) {
    forall i, j :: 0 <= i < j < |xs| ==> xs[i] != xs[j]
  }

  /** The position of the first occurrence of `x` in `xs`. */
  function FirstIndex<T(==,!new)>(xs: seq<T>, x: T): (k: nat)
    requires x in xs
    ensures k < |xs| && xs[k] == x
    ensures forall i :: 0 <= i < k ==> xs[i] != x
  {
    if xs[0] == x then 0 else 1 + FirstIndex(xs[1..], x)
  }

  /** Every element of `r` is in `xs`, and `r` lists them by increasing first occurrence in `xs`. */
  predicate FirstOccurrenceOrder<T(==,!new)>(xs: seq<T>, r: seq<T>) {
    && (forall i :: 0 <= i < |r| ==> r[i] in xs)
    && (forall i, j :: 0 <= i < j < |r| ==> FirstIndex(xs, r[i]) < FirstIndex(xs, r[j]))
  }

  /**
   * `[...new Set(xs)]`: a `Set` keeps one copy of each value, in the order
   * the values were first added.
   */
  function Distinct<T(==,!new)>(xs: seq<T>): (r: seq<T>)
    ensures NoDuplicates(r)
    ensures forall x :: x in r <==> x in xs
    ensures |r| <= |xs|
  {
    if xs == [] then []
    else
      var d := Distinct(xs[..|xs| - 1]);
      var x := xs[|xs| - 1];
      assert forall y :: y in xs <==> y in xs[..|xs| - 1] || y == x by {
        assert xs == xs[..|xs| - 1] + [x];
      }
      if x in d then d else d + [x]
  }

  /** The first occurrence of a value in `xs` stays where it is when more values follow. */
  lemma {:induction false} FirstIndexPrefix<T(!new)>(xs: seq<T>, ys: seq<T>, x: T)
    requires x in xs
    ensures FirstIndex(xs + ys, x) == FirstIndex(xs, x)
  {
    if xs[0] != x {
      assert (xs + ys)[1..] == xs[1..] + ys;
      FirstIndexPrefix(xs[1..], ys, x);
    }
  }

  /** `Distinct` lists the values by first occurrence. */
  lemma {:induction false} DistinctOrder<T(!new)>(xs: seq<T>)
    ensures FirstOccurrenceOrder(xs, Distinct(xs))
  {
    if xs != [] {
      var p := xs[..|xs| - 1];
      var x := xs[|xs| - 1];
      var d := Distinct(p);
      DistinctOrder(p);
      assert xs == p + [x];
      forall y | y in p
        ensures FirstIndex(xs, y) == FirstIndex(p, y) && FirstIndex(p, y) < |p|
      {
        FirstIndexPrefix(p, [x], y);
      }
      if x !in d {
        assert x !in p;
        assert FirstIndex(xs, x) == |p|;
      }
    }
  }

  /** The head of a list in first-occurrence order occurs first in `xs`; its tail holds the other values. */
  lemma HeadOccursFirst<T(!new)>(xs: seq<T>, r: seq<T>, x: T)
    requires FirstOccurrenceOrder(xs, r) && x in r
    ensures FirstIndex(xs, r[0]) <= FirstIndex(xs, x)
    ensures x in r[1..] <==> x != r[0]
  {
    var i :| 0 <= i < |r| && r[i] == x;
    if i > 0 {
      assert r[1..][i - 1] == x;
    }
  }

  /** Two lists of values of `xs` in first-occurrence order with the same values are the same list. */
  lemma {:induction false} FirstOccurrenceOrderUnique<T(!new)>(xs: seq<T>, a: seq<T>, b: seq<T>)
    requires FirstOccurrenceOrder(xs, a) && FirstOccurrenceOrder(xs, b)
    requires forall x :: x in a <==> x in b
    ensures a == b
    decreases |a|
  {
    if b != [] {
      assert b[0] in a;
    }
    if a != [] {
      assert a[0] in b;
      assert b[0] in a;
      HeadOccursFirst(xs, a, b[0]);
      HeadOccursFirst(xs, b, a[0]);
      assert a[0] == xs[FirstIndex(xs, a[0])] == b[0];
      forall x
        ensures x in a[1..] <==> x in b[1..]
      {
        if x in a[1..] {
          assert x in a;
          HeadOccursFirst(xs, a, x);
          HeadOccursFirst(xs, b, x);
        }
        if x in b[1..] {
          assert x in b;
          HeadOccursFirst(xs, a, x);
          HeadOccursFirst(xs, b, x);
        }
      }
      FirstOccurrenceOrderUnique(xs, a[1..], b[1..]);
    }
  }

  /**
   * `Distinct` is the only list of the values of `xs` without repeats in
   * first-occurrence order.
   */
  lemma DistinctUnique<T(!new)>(xs: seq<T>, r: seq<T>)
    requires FirstOccurrenceOrder(xs, r)
    requires forall x :: x in r <==> x in xs
    ensures r == Distinct(xs)
  {
    DistinctOrder(xs);
    FirstOccurrenceOrderUnique(xs, r, Distinct(xs));
  }

  /** `items.map(item => item.action)`. */
  function Actions(items: seq<Item>): (r: seq<string>)
    ensures |r| == |items|
    ensures forall i :: 0 <= i < |items| ==> r[i] == items[i].action
  {
    if items == [] then [] else Actions(items[..|items| - 1]) + [items[|items| - 1].action]
  }

  /** `items.map(item => item.brokerage)`. */
  function Brokerages(items: seq<Item>): (r: seq<string>)
    ensures |r| == |items|
    ensures forall i :: 0 <= i < |items| ==> r[i] == items[i].brokerage
  {
    if items == [] then [] else Brokerages(items[..|items| - 1]) + [items[|items| - 1].brokerage]
  }

  /** `items.map(item => item.rating_to)`. */
  function Ratings(items: seq<Item>): (r: seq<string>)
    ensures |r| == |items|
    ensures forall i :: 0 <= i < |items| ==> r[i] == items[i].ratingTo
  {
    if items == [] then [] else Ratings(items[..|items| - 1]) + [items[|items| - 1].ratingTo]
  }

  // ---------------------------------------------------------------------
  // The store
  // ---------------------------------------------------------------------

  class Store {
    var items: seq<Item>
    var loading: bool
    var filters: Filters

    constructor ()
      ensures items == [] && !loading && filters == DefaultFilters
    {
      items := [];
      loading := false;
      filters := DefaultFilters;
    }

    /** `listAcciones`: each action once, in first-occurrence order. */
    function ListAcciones(): (r: seq<string>)
      reads this
      ensures NoDuplicates(r)
      ensures forall a :: a in r <==> exists i :: 0 <= i < |items| && items[i].action == a
      ensures FirstOccurrenceOrder(Actions(items), r)
    {
      var xs := Actions(items);
      DistinctOrder(xs);
      Distinct(xs)
    }

    /** `listBroker`: each brokerage once, in first-occurrence order. */
    function ListBroker(): (r: seq<string>)
      reads this
      ensures NoDuplicates(r)
      ensures forall b :: b in r <==> exists i :: 0 <= i < |items| && items[i].brokerage == b
      ensures FirstOccurrenceOrder(Brokerages(items), r)
    {
      var xs := Brokerages(items);
      DistinctOrder(xs);
      Distinct(xs)
    }

    /** `listRating`: each target rating once, in first-occurrence order. */
    function ListRating(): (r: seq<string>)
      reads this
      ensures NoDuplicates(r)
      ensures forall g :: g in r <==> exists i :: 0 <= i < |items| && items[i].ratingTo == g
      ensures FirstOccurrenceOrder(Ratings(items), r)
    {
      var xs := Ratings(items);
      DistinctOrder(xs);
      Distinct(xs)
    }

    /** `totalItems`: the number of items, which bounds every distinct-value list. */
    function TotalItems(): (n: nat)
      reads this
      ensures n == |items|
      ensures |ListAcciones()| <= n && |ListBroker()| <= n && |ListRating()| <= n
      ensures n == 0 <==> ListAcciones() == []
    {
      |items|
    }

    /** `updateFilters`: the shallow merge; nothing else changes. */
    method UpdateFilters(patch: FilterPatch)
      modifies this
      ensures filters == Merge(old(filters), patch)
      ensures items == old(items) && loading == old(loading)
    {
      filters := Merge(filters, patch);
    }

    /** `resetFilters`: back to the defaults, whatever came before; nothing else changes. */
    method ResetFilters()
      modifies this
      ensures filters == DefaultFilters
      ensures items == old(items) && loading == old(loading)
    {
      filters := Filters(
        Filter(Null, "in"),
        Filter(Null, "contains"),
        Filter(Null, "equals"),
        Filter(Null, "contains"),
        Filter(Null, "dateIs"));
    }

    /**
     * `fetchItems` given the answer of `GET /items`: the items are replaced
     * only on success; the error is rethrown; `loading` ends false.
     */
    method FetchItems(answer: Result<seq<Item>, string>) returns (thrown: Option<string>)
      modifies this
      ensures answer.Success? ==> items == answer.value && thrown == None
      ensures answer.Failure? ==> items == old(items) && thrown == Some(answer.error)
      ensures !loading && filters == old(filters)
    {
      loading := true;
      if answer.Success? {
        items := answer.value;
        thrown := None;
      } else {
        thrown := Some(answer.error);
      }
      loading := false;
    }

    /**
     * `syncItems` given the answers of `PUT /items/` and of the `GET /items`
     * that follows it: a failed PUT is rethrown without reloading; otherwise
     * it ends as `fetchItems` does. `loading` ends false either way.
     */
    method SyncItems(put: Result<(), string>, answer: Result<seq<Item>, string>) returns (thrown: Option<string>)
      modifies this
      ensures put.Failure? ==> items == old(items) && thrown == Some(put.error)
      ensures put.Success? && answer.Success? ==> items == answer.value && thrown == None
      ensures put.Success? && answer.Failure? ==> items == old(items) && thrown == Some(answer.error)
      ensures !loading && filters == old(filters)
    {
      loading := true;
      if put.Failure? {
        thrown := Some(put.error);
      } else {
        thrown := FetchItems(answer);
      }
      loading := false;
    }
  }
}
