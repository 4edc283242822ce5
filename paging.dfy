/**
 * IPaginate / Paginate: one page of a list together with its position
 * (Index counted from From), the page Size, the total Count and the number of
 * Pages, and the Map / MapAsync helpers that convert a page's items.
 *
 * Index, Size and From are C# `int`s and the arithmetic on them is unchecked:
 * Index - From, Index - From + 1 and (Index - From) * Size wrap around at
 * 32 bits, written out here with Wrap.
 */
module Paging {
  import opened Wrappers
  import opened Int32s
  import opened Exceptions
  import Text

  datatype Page<+T> = Page(index: Int32, size: Int32, from: Int32, count: nat, pages: int, items: seq<T>)
  {
    predicate HasPrevious() { Wrap(index - from) > 0 }

    predicate HasNext() { Wrap(Wrap(index - from) + 1) < pages }
  }

  /** Skip's argument: (Index - From) * Size in unchecked int arithmetic. */
  function Offset(index: Int32, size: Int32, from: Int32): Int32
  {
    Wrap(Wrap(index - from) * size)
  }

  /** (int)Math.Ceiling(count / (double)size); the double quotient of two ints is exact enough here. */
  function PageCount(count: nat, size: int): (pages: int)
    requires size != 0
    ensures size > 0 ==> pages >= 0 && (pages == 0 <==> count == 0)
    ensures size > 0 ==> (pages - 1) * size < count <= pages * size || count == 0
    ensures size < 0 ==> pages <= 0
  {
    if size > 0 then (count + size - 1) / size else -(count / -size)
  }

  /** Enumerable.Skip(n): a negative count skips nothing. */
  function Skip<T>(s: seq<T>, n: int): (r: seq<T>)
    ensures r == s[if n <= 0 then 0 else if n >= |s| then |s| else n..]
  {
    if n <= 0 then s else if n >= |s| then [] else s[n..]
  }

  /** Enumerable.Take(n): a negative count takes nothing. */
  function Take<T>(s: seq<T>, n: int): (r: seq<T>)
    ensures r == s[..if n <= 0 then 0 else if n >= |s| then |s| else n]
  {
    if n <= 0 then [] else if n >= |s| then s else s[..n]
  }

  function IndexMessage(from: int, index: int): string
  {
    "From: " + Text.IntToString(from) + " > Index: " + Text.IntToString(index) + ", must From <= Index"
  }

  /** `new Paginate(source, converter, index, size, from)`. */
  function Create<S, R>(source: seq<S>, converter: seq<S> -> seq<R>, index: Int32, size: Int32, from: Int32): (r: Result<Page<R>, Thrown>)
    requires size != 0
    ensures r.Err? <==> from > index
    ensures r.Err? ==> r.error == Thrown(Argument, IndexMessage(from, index))
    ensures r.Ok? ==> r.value.count == |source| && r.value.index == index && r.value.from == from && r.value.size == size
    ensures r.Ok? ==> r.value.items == converter(Take(Skip(source, Offset(index, size, from)), size))
  {
    if from > index then Err(Thrown(Argument, IndexMessage(from, index)))
    else
      var count := |source|;
      Ok(Page(index, size, from, count, PageCount(count, size), converter(Take(Skip(source, Offset(index, size, from)), size))))
  }

  /**
   * The Items a page of a positive size holds: the slice [k*size, (k+1)*size)
   * of the source, k = Index - From, as long as k * Size stays within int.
   */
  lemma PageSlice<S>(source: seq<S>, index: Int32, size: Int32, from: Int32)
    requires size > 0 && from <= index && (index - from) * size <= MaxInt32
    ensures var lo := (index - from) * size;
      Create(source, (x: seq<S>) => x, index, size, from).value.items == source[Clamp(lo, |source|)..Clamp(lo + size, |source|)]
  {
    var k := index - from;
    if k > 0 { MulMono(1, size, k); }
    assert Offset(index, size, from) == k * size;
  }

  /** `n` cut to the range 0..bound. */
  function Clamp(n: int, bound: nat): (c: nat)
    ensures c <= bound && (0 <= n <= bound ==> c == n)
  {
    if n <= 0 then 0 else if n >= bound then bound else n
  }

  /** HasPrevious holds exactly when Index is past From, as long as Index - From stays within int. */
  lemma HasPreviousIffPast<S, R>(source: seq<S>, converter: seq<S> -> seq<R>, index: Int32, size: Int32, from: Int32)
    requires size != 0 && from <= index && index - from <= MaxInt32
    ensures Create(source, converter, index, size, from).value.HasPrevious() <==> from < index
  {
  }

  /** HasNext holds exactly when some source element lies after the current page, as long as Index - From + 1 stays within int. */
  lemma HasNextIffMore<S, R>(source: seq<S>, converter: seq<S> -> seq<R>, index: Int32, size: Int32, from: Int32)
    requires size > 0 && from <= index && index - from + 1 <= MaxInt32
    ensures var p := Create(source, converter, index, size, from).value;
      p.HasNext() <==> (index - from + 1) * size < |source|
  {
    var p := Create(source, converter, index, size, from).value;
    var k := index - from + 1;
    var c := |source|;
    assert p.pages == (c + size - 1) / size;
    assert Wrap(Wrap(index - from) + 1) == k;
    if k * size < c {
      KBelowCeil(k, c, size);
    } else {
      CeilAtMost(k, c, size);
    }
  }

  lemma KBelowCeil(k: int, c: nat, size: int)
    requires size > 0 && k * size < c
    ensures k < (c + size - 1) / size
  {
    var q := (c + size - 1) / size;
    assert (c + size - 1) == q * size + (c + size - 1) % size;
    if q <= k {
      assert q * size <= k * size by { MulMono(q, k, size); }
    }
  }

  lemma CeilAtMost(k: int, c: nat, size: int)
    requires size > 0 && k * size >= c
    ensures (c + size - 1) / size <= k
  {
    var q := (c + size - 1) / size;
    assert (c + size - 1) == q * size + (c + size - 1) % size;
    if q > k {
      assert (k + 1) * size <= q * size by { MulMono(k + 1, q, size); }
    }
  }

  /**
   * Past int's range the offset wraps: page 21474837 of size 100 starts at
   * 2147483700, which wraps to a negative skip, so that far page holds the
   * first items of a five-item source instead of none.
   */
  lemma FarPageWrapsToStart<S>(source: seq<S>)
    requires |source| == 5
    ensures Create(source, (x: seq<S>) => x, 21474837, 100, 0).value.items == source
  {
    assert Offset(21474837, 100, 0) == -2147483596;
  }

  /** With From = int.MinValue, Index - From wraps to a negative number and a page past From has no previous page. */
  lemma MinFromHasNoPrevious<S>(source: seq<S>)
    ensures var p := Create(source, (x: seq<S>) => x, 0, 10, MinInt32).value;
      p.index > p.from && !p.HasPrevious()
  {
    assert Wrap(0 - MinInt32) == MinInt32;
  }

  lemma MulMono(a: int, b: int, size: int)
    requires a <= b && size > 0
    ensures a * size <= b * size
  {
  }

  /**
   * Paginate.Empty(): a page built by a parameterless constructor, every
   * number at its default 0 and no items, so it has neither a previous nor
   * a next page.
   */
  function Empty<T>(): (r: Page<T>)
    ensures r.items == [] && r.count == 0 && r.pages == 0
    ensures r.index == r.from && r.size == 0
    ensures !r.HasPrevious() && !r.HasNext()
  {
    Page(0, 0, 0, 0, 0, [])
  }

  /** Paginate.From(source, converter): same position and counts, converted items. */
  function From<S, R>(source: Page<S>, converter: seq<S> -> seq<R>): (r: Page<R>)
    ensures r.index == source.index && r.size == source.size && r.from == source.from
    ensures r.count == source.count && r.pages == source.pages
    ensures r.items == converter(source.items)
  {
    Page(source.index, source.size, source.from, source.count, source.pages, converter(source.items))
  }

  function MapItems<S, R>(items: seq<S>, mapper: S -> R): (r: seq<R>)
    ensures |r| == |items|
    ensures forall i | 0 <= i < |items| :: r[i] == mapper(items[i])
  {
    seq(|items|, i requires 0 <= i < |items| => mapper(items[i]))
  }

  /** IPaginateExtensions.Map: items.Select(mapper) on the same page. */
  function Map<S, R>(source: Page<S>, mapper: S -> R): (r: Page<R>)
    ensures r.index == source.index && r.size == source.size && r.from == source.from
    ensures r.count == source.count && r.pages == source.pages
    ensures |r.items| == |source.items| && forall i | 0 <= i < |source.items| :: r.items[i] == mapper(source.items[i])
  {
    From(source, (items: seq<S>) => MapItems(items, mapper))
  }

  /** Mapping twice is mapping once with the composed function. */
  lemma MapCompose<S, M, R>(source: Page<S>, f: S -> M, g: M -> R)
    ensures Map(Map(source, f), g) == Map(source, (x: S) => g(f(x)))
  {
    var left := Map(Map(source, f), g);
    var right := Map(source, (x: S) => g(f(x)));
    assert left.items == right.items;
  }

  /** IPaginateExtensions.MapAsync: awaits the mapper item by item, in order; the mapper is modelled as a function. */
  method MapAsync<S, R>(source: Page<S>, mapper: S -> R) returns (r: Page<R>)
    ensures r == Map(source, mapper)
  {
    var mappedItems: seq<R> := [];
    var i := 0;
    while i < |source.items|
      invariant 0 <= i <= |source.items|
      invariant mappedItems == MapItems(source.items[..i], mapper)
    {
      var mapped := mapper(source.items[i]);
      mappedItems := mappedItems + [mapped];
      i := i + 1;
    }
    assert source.items[..i] == source.items;
    r := From(source, (_: seq<S>) => mappedItems);
  }
}
