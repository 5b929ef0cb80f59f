/**
 * `sortedEvents`: a copy of the page's events sorted by the comparator the
 * page passes to `Array.prototype.sort`. Titles and locations are compared
 * with `localeCompare`, dates by their instants; a descending order multiplies
 * the comparison by -1. The library sort is stable; it is modelled by a
 * stable insertion sort on a value copy, so the page's own list is never
 * reordered.
 */
module EventSort {
  import opened Api
  import opened SortOption

  /**
   * What the source needs of `localeCompare` for the sort to be well defined:
   * a comparison that is antisymmetric in sign and whose "not after" is
   * transitive, that is a total preorder on strings.
   */
  ghost predicate IsComparator(localeCompare: (string, string) -> int) {
    && (forall x, y :: localeCompare(x, y) < 0 <==> localeCompare(y, x) > 0)
    && (forall x, y, z :: localeCompare(x, y) <= 0 && localeCompare(y, z) <= 0 ==> localeCompare(x, z) <= 0)
  }

  /** The comparator given to `sort`, for the current `sortBy` and `sortOrder`. */
  function Compare(a: EventItem, b: EventItem, spec: SortSpec, localeCompare: (string, string) -> int): int {
    var modifier := if spec.order == Asc then 1 else -1;
    match spec.key
    case ByTitle => localeCompare(a.title, b.title) * modifier
    case ByLocation => localeCompare(a.location, b.location) * modifier
    case ByDate => (a.date - b.date) * modifier
  }

  /** The comparator a sort by `spec` is consistent for: dates always, strings when `localeCompare` is. */
  ghost predicate Consistent(spec: SortSpec, localeCompare: (string, string) -> int) {
    spec.key == ByDate || IsComparator(localeCompare)
  }

  /** Descending is exactly the negation of ascending, for every key. */
  lemma DescNegatesAsc(a: EventItem, b: EventItem, key: SortKey, localeCompare: (string, string) -> int)
    ensures Compare(a, b, SortSpec(key, Desc), localeCompare) == -Compare(a, b, SortSpec(key, Asc), localeCompare)
  {
  }

  lemma CompareTotal(a: EventItem, b: EventItem, spec: SortSpec, localeCompare: (string, string) -> int)
    requires Consistent(spec, localeCompare)
    ensures Compare(a, b, spec, localeCompare) <= 0 || Compare(b, a, spec, localeCompare) <= 0
  {
    match spec.key {
      case ByDate =>
      case ByTitle => assert localeCompare(a.title, b.title) < 0 <==> localeCompare(b.title, a.title) > 0;
      case ByLocation => assert localeCompare(a.location, b.location) < 0 <==> localeCompare(b.location, a.location) > 0;
    }
  }

  lemma CompareTransitive(a: EventItem, b: EventItem, c: EventItem, spec: SortSpec, localeCompare: (string, string) -> int)
    requires Consistent(spec, localeCompare)
    requires Compare(a, b, spec, localeCompare) <= 0 && Compare(b, c, spec, localeCompare) <= 0
    ensures Compare(a, c, spec, localeCompare) <= 0
  {
    var lc := localeCompare;
    match spec.key {
      case ByDate =>
      case ByTitle =>
        if spec.order == Desc {
          assert lc(a.title, b.title) < 0 <==> lc(b.title, a.title) > 0;
          assert lc(b.title, c.title) < 0 <==> lc(c.title, b.title) > 0;
          assert lc(a.title, c.title) < 0 <==> lc(c.title, a.title) > 0;
          assert lc(c.title, b.title) <= 0 && lc(b.title, a.title) <= 0 ==> lc(c.title, a.title) <= 0;
        } else {
          assert lc(a.title, b.title) <= 0 && lc(b.title, c.title) <= 0 ==> lc(a.title, c.title) <= 0;
        }
      case ByLocation =>
        if spec.order == Desc {
          assert lc(a.location, b.location) < 0 <==> lc(b.location, a.location) > 0;
          assert lc(b.location, c.location) < 0 <==> lc(c.location, b.location) > 0;
          assert lc(a.location, c.location) < 0 <==> lc(c.location, a.location) > 0;
          assert lc(c.location, b.location) <= 0 && lc(b.location, a.location) <= 0 ==> lc(c.location, a.location) <= 0;
        } else {
          assert lc(a.location, b.location) <= 0 && lc(b.location, c.location) <= 0 ==> lc(a.location, c.location) <= 0;
        }
    }
  }

  /** Every event is ordered no later than every event after it. */
  ghost predicate SortedBy(xs: seq<EventItem>, spec: SortSpec, localeCompare: (string, string) -> int) {
    forall i, j :: 0 <= i < j < |xs| ==> Compare(xs[i], xs[j], spec, localeCompare) <= 0
  }

  /** Inserts `x` before the first element it does not sort after, so it stays ahead of its equals. */
  function Insert(x: EventItem, ys: seq<EventItem>, spec: SortSpec, localeCompare: (string, string) -> int): (r: seq<EventItem>)
    ensures multiset(r) == multiset(ys) + multiset{x}
  {
    if ys == [] then [x]
    else if Compare(x, ys[0], spec, localeCompare) <= 0 then [x] + ys
    else
      assert ys == [ys[0]] + ys[1..];
      [ys[0]] + Insert(x, ys[1..], spec, localeCompare)
  }

  /** `[...events].sort(comparator)` */
  function SortEvents(xs: seq<EventItem>, spec: SortSpec, localeCompare: (string, string) -> int): (r: seq<EventItem>)
    ensures multiset(r) == multiset(xs)
  {
    if xs == [] then []
    else
      assert xs == [xs[0]] + xs[1..];
      Insert(xs[0], SortEvents(xs[1..], spec, localeCompare), spec, localeCompare)
  }

  /** `x` placed in front of a sorted list it does not sort after keeps the list sorted. */
  lemma InsertFrontSorted(x: EventItem, ys: seq<EventItem>, spec: SortSpec, localeCompare: (string, string) -> int)
    requires Consistent(spec, localeCompare)
    requires SortedBy(ys, spec, localeCompare)
    requires ys != [] && Compare(x, ys[0], spec, localeCompare) <= 0
    ensures SortedBy([x] + ys, spec, localeCompare)
  {
    var r := [x] + ys;
    forall i, j | 0 <= i < j < |r|
      ensures Compare(r[i], r[j], spec, localeCompare) <= 0
    {
      assert r[j] == ys[j - 1];
      if i > 0 {
        assert r[i] == ys[i - 1];
      } else if j > 1 {
        CompareTransitive(x, ys[0], ys[j - 1], spec, localeCompare);
      }
    }
  }

  /** A head that sorts before every element of a sorted list keeps it sorted. */
  lemma ConsSorted(y: EventItem, rest: seq<EventItem>, spec: SortSpec, localeCompare: (string, string) -> int)
    requires SortedBy(rest, spec, localeCompare)
    requires forall k :: 0 <= k < |rest| ==> Compare(y, rest[k], spec, localeCompare) <= 0
    ensures SortedBy([y] + rest, spec, localeCompare)
  {
    var r := [y] + rest;
    forall i, j | 0 <= i < j < |r|
      ensures Compare(r[i], r[j], spec, localeCompare) <= 0
    {
      assert r[j] == rest[j - 1];
      if i > 0 {
        assert r[i] == rest[i - 1];
      }
    }
  }

  lemma {:induction false} InsertSorted(x: EventItem, ys: seq<EventItem>, spec: SortSpec, localeCompare: (string, string) -> int)
    requires Consistent(spec, localeCompare)
    requires SortedBy(ys, spec, localeCompare)
    ensures SortedBy(Insert(x, ys, spec, localeCompare), spec, localeCompare)
  {
    if ys == [] {
    } else if Compare(x, ys[0], spec, localeCompare) <= 0 {
      InsertFrontSorted(x, ys, spec, localeCompare);
    } else {
      CompareTotal(x, ys[0], spec, localeCompare);
      var rest := Insert(x, ys[1..], spec, localeCompare);
      SortedTail(ys, spec, localeCompare);
      InsertSorted(x, ys[1..], spec, localeCompare);
      forall k | 0 <= k < |rest|
        ensures Compare(ys[0], rest[k], spec, localeCompare) <= 0
      {
        assert rest[k] in multiset(rest);
        if rest[k] != x {
          assert rest[k] in multiset(ys[1..]);
          var j :| 0 <= j < |ys[1..]| && ys[1..][j] == rest[k];
          assert ys[j + 1] == rest[k];
        }
      }
      ConsSorted(ys[0], rest, spec, localeCompare);
    }
  }

  /** With a consistent comparator the result is ordered by it. */
  lemma {:induction false} SortEventsSorted(xs: seq<EventItem>, spec: SortSpec, localeCompare: (string, string) -> int)
    requires Consistent(spec, localeCompare)
    ensures SortedBy(SortEvents(xs, spec, localeCompare), spec, localeCompare)
  {
    if xs != [] {
      SortEventsSorted(xs[1..], spec, localeCompare);
      InsertSorted(xs[0], SortEvents(xs[1..], spec, localeCompare), spec, localeCompare);
    }
  }

  lemma SortedTail(xs: seq<EventItem>, spec: SortSpec, localeCompare: (string, string) -> int)
    requires xs != [] && SortedBy(xs, spec, localeCompare)
    ensures SortedBy(xs[1..], spec, localeCompare)
  {
    forall i, j | 0 <= i < j < |xs[1..]|
      ensures Compare(xs[1..][i], xs[1..][j], spec, localeCompare) <= 0
    {
      assert xs[1..][i] == xs[i + 1] && xs[1..][j] == xs[j + 1];
    }
  }

  /** A list already in order is left exactly as it is. */
  lemma {:induction false} SortedIsFixpoint(xs: seq<EventItem>, spec: SortSpec, localeCompare: (string, string) -> int)
    requires SortedBy(xs, spec, localeCompare)
    ensures SortEvents(xs, spec, localeCompare) == xs
  {
    if xs != [] {
      SortedTail(xs, spec, localeCompare);
      SortedIsFixpoint(xs[1..], spec, localeCompare);
      if |xs| > 1 {
        assert Compare(xs[0], xs[1], spec, localeCompare) <= 0;
        assert Insert(xs[0], xs[1..], spec, localeCompare) == [xs[0]] + xs[1..];
      }
      assert [xs[0]] + xs[1..] == xs;
    }
  }

  /** Sorting twice by the same choice gives the same list as sorting once. */
  lemma SortIdempotent(xs: seq<EventItem>, spec: SortSpec, localeCompare: (string, string) -> int)
    requires Consistent(spec, localeCompare)
    ensures SortEvents(SortEvents(xs, spec, localeCompare), spec, localeCompare) == SortEvents(xs, spec, localeCompare)
  {
    SortEventsSorted(xs, spec, localeCompare);
    SortedIsFixpoint(SortEvents(xs, spec, localeCompare), spec, localeCompare);
  }

  /** By date, ascending is non-decreasing and descending non-increasing in the instant, whatever `localeCompare` is. */
  lemma DateOrder(xs: seq<EventItem>, order: SortOrder, localeCompare: (string, string) -> int)
    ensures var r := SortEvents(xs, SortSpec(ByDate, order), localeCompare);
            forall i, j :: 0 <= i < j < |r| ==> if order == Asc then r[i].date <= r[j].date else r[i].date >= r[j].date
  {
    var spec := SortSpec(ByDate, order);
    SortEventsSorted(xs, spec, localeCompare);
    var r := SortEvents(xs, spec, localeCompare);
    forall i, j | 0 <= i < j < |r|
      ensures if order == Asc then r[i].date <= r[j].date else r[i].date >= r[j].date
    {
      assert Compare(r[i], r[j], spec, localeCompare) <= 0;
    }
  }

  /** By title, the titles follow `localeCompare`: not after in ascending order, not before in descending. */
  lemma TitleOrder(xs: seq<EventItem>, order: SortOrder, localeCompare: (string, string) -> int)
    requires IsComparator(localeCompare)
    ensures var r := SortEvents(xs, SortSpec(ByTitle, order), localeCompare);
            forall i, j :: 0 <= i < j < |r| ==>
              if order == Asc then localeCompare(r[i].title, r[j].title) <= 0
              else localeCompare(r[i].title, r[j].title) >= 0
  {
    var spec := SortSpec(ByTitle, order);
    SortEventsSorted(xs, spec, localeCompare);
    var r := SortEvents(xs, spec, localeCompare);
    forall i, j | 0 <= i < j < |r|
      ensures if order == Asc then localeCompare(r[i].title, r[j].title) <= 0
              else localeCompare(r[i].title, r[j].title) >= 0
    {
      assert Compare(r[i], r[j], spec, localeCompare) <= 0;
    }
  }

  /** By location, the locations follow `localeCompare` in the same way. */
  lemma LocationOrder(xs: seq<EventItem>, order: SortOrder, localeCompare: (string, string) -> int)
    requires IsComparator(localeCompare)
    ensures var r := SortEvents(xs, SortSpec(ByLocation, order), localeCompare);
            forall i, j :: 0 <= i < j < |r| ==>
              if order == Asc then localeCompare(r[i].location, r[j].location) <= 0
              else localeCompare(r[i].location, r[j].location) >= 0
  {
    var spec := SortSpec(ByLocation, order);
    SortEventsSorted(xs, spec, localeCompare);
    var r := SortEvents(xs, spec, localeCompare);
    forall i, j | 0 <= i < j < |r|
      ensures if order == Asc then localeCompare(r[i].location, r[j].location) <= 0
              else localeCompare(r[i].location, r[j].location) >= 0
    {
      assert Compare(r[i], r[j], spec, localeCompare) <= 0;
    }
  }
}
