/**
 * `paginate` (src/index.ts): an optional category filter, then a fixed-size
 * page chosen by a clamped 1-based page number.
 */
module Pagination {
  import opened Wrappers
  import opened Normalizer

  /** `perPage`, fixed. */
  const PerPage: int := 10

  datatype Meta = Meta(perPage: int, totalPages: int, currentPage: int, totalElements: int)

  /** The `{data, meta}` object `paginate` returns. */
  datatype Page = Page(data: seq<Product>, meta: Meta)

  function Min(a: int, b: int): int { if a <= b then a else b }

  function Max(a: int, b: int): int { if a <= b then b else a }

  /** `collection.filter(p => p.categoryId === categoryId)`, order kept. */
  function WithCategory(collection: seq<Product>, categoryId: int): (r: seq<Product>)
    ensures |r| <= |collection|
    ensures forall x :: x in r <==> x in collection && x.categoryId == categoryId
    decreases |collection|
  {
    if collection == [] then []
    else if collection[0].categoryId == categoryId then [collection[0]] + WithCategory(collection[1..], categoryId)
    else WithCategory(collection[1..], categoryId)
  }

  /** Filtering a concatenation filters each part: together with WithCategorySingle this fixes order and multiplicity. */
  lemma {:induction false} WithCategoryAppend(a: seq<Product>, b: seq<Product>, categoryId: int)
    ensures WithCategory(a + b, categoryId) == WithCategory(a, categoryId) + WithCategory(b, categoryId)
    decreases |a|
  {
    if a == [] {
      assert a + b == b;
    } else {
      assert (a + b)[0] == a[0];
      assert (a + b)[1..] == a[1..] + b;
      WithCategoryAppend(a[1..], b, categoryId);
    }
  }

  /** A single product is kept exactly when it carries the id. */
  lemma WithCategorySingle(x: Product, categoryId: int)
    ensures WithCategory([x], categoryId) == if x.categoryId == categoryId then [x] else []
  {
    assert [x][1..] == [];
  }

  /** JavaScript truthiness of `categoryId?: number`: absent and 0 are falsy. */
  predicate Truthy(categoryId: Option<int>)
  {
    categoryId.Some? && categoryId.value != 0
  }

  /** The collection `paginate` works on after its `if (categoryId)` filter. */
  function Filtered(collection: seq<Product>, categoryId: Option<int>): (r: seq<Product>)
    ensures !Truthy(categoryId) ==> r == collection
    ensures Truthy(categoryId) ==> r == WithCategory(collection, categoryId.value)
    ensures Truthy(categoryId) ==>
      forall x :: x in r <==> x in collection && x.categoryId == categoryId.value
  {
    if Truthy(categoryId) then WithCategory(collection, categoryId.value) else collection
  }

  /** `Math.ceil(length / perPage)`: the fewest pages that hold `length` items. */
  function PageCount(length: nat): (pages: nat)
    ensures PerPage * (pages - 1) < length <= PerPage * pages
  {
    (length + PerPage - 1) / PerPage
  }

  /** How `Array.prototype.slice` resolves an index: a negative one counts back from the end, then it is clamped to 0..length. */
  function SliceIndex(i: int, length: nat): (r: nat)
    ensures r <= length
    ensures 0 <= i <= length ==> r == i
    ensures i > length ==> r == length
    ensures i < 0 && 0 <= length + i ==> r == length + i
    ensures length + i < 0 ==> r == 0
  {
    if i < 0 then Max(length + i, 0) else Min(i, length)
  }

  /** `s.slice(start, end)`: empty when the resolved end is not past the resolved start. */
  function JsSlice<T>(s: seq<T>, start: int, end: int): (r: seq<T>)
    ensures 0 <= start <= end <= |s| ==> r == s[start..end]
    ensures end == 0 ==> r == []
    ensures forall x :: x in r ==> x in s
  {
    var from, to := SliceIndex(start, |s|), SliceIndex(end, |s|);
    if from < to then s[from..to] else []
  }

  /** What `paginate` does once `collection` is filtered: the totals, the clamped page number and the slice. */
  function PageOf(items: seq<Product>, page: int): (r: Page)
    // totals
    ensures r.meta.perPage == PerPage
    ensures r.meta.totalElements == |items|
    ensures PerPage * (r.meta.totalPages - 1) < r.meta.totalElements <= PerPage * r.meta.totalPages
    ensures r.meta.totalPages == 0 <==> r.meta.totalElements == 0
    // clamping of the page number
    ensures r.meta.totalPages > 0 ==> 1 <= r.meta.currentPage <= r.meta.totalPages
    ensures r.meta.totalPages > 0 && page <= 1 ==> r.meta.currentPage == 1
    ensures page >= r.meta.totalPages ==> r.meta.currentPage == r.meta.totalPages
    ensures 1 <= page <= r.meta.totalPages ==> r.meta.currentPage == page
    ensures r.meta.totalElements == 0 ==> r.meta.currentPage == 0 && r.data == []
    // the page itself
    ensures |r.data| <= PerPage
    ensures 1 <= r.meta.currentPage < r.meta.totalPages ==> |r.data| == PerPage
    ensures r.meta.currentPage >= 1 ==>
      r.data == items[(r.meta.currentPage - 1) * PerPage .. Min(r.meta.currentPage * PerPage, |items|)]
    ensures forall x :: x in r.data ==> x in items
  {
    var totalPages := PageCount(|items|);
    var currentPage := Min(Max(page, 1), totalPages);
    Page(JsSlice(items, (currentPage - 1) * PerPage, Min(currentPage * PerPage, |items|)),
         Meta(PerPage, totalPages, currentPage, |items|))
  }

  /** `paginate(collection, page, categoryId)`: PageOf applied to the filtered collection. */
  function Paginate(collection: seq<Product>, page: int, categoryId: Option<int>): (r: Page)
    ensures r.meta.totalElements == |Filtered(collection, categoryId)|
    ensures !Truthy(categoryId) ==> r.meta.totalElements == |collection|
    ensures forall x :: x in r.data ==> x in collection
    ensures Truthy(categoryId) ==> forall x :: x in r.data ==> x.categoryId == categoryId.value
  {
    PageOf(Filtered(collection, categoryId), page)
  }

  /** Pages 1..count of one listing, concatenated in order. */
  function PagesUpTo(collection: seq<Product>, categoryId: Option<int>, count: int): seq<Product>
    decreases count
  {
    if count <= 0 then []
    else PagesUpTo(collection, categoryId, count - 1) + Paginate(collection, count, categoryId).data
  }

  /** The first `count` pages are the filtered list's first `count * PerPage` items. */
  lemma {:induction false} PagesPrefix(collection: seq<Product>, categoryId: Option<int>, count: int)
    requires 0 <= count <= PageCount(|Filtered(collection, categoryId)|)
    ensures var items := Filtered(collection, categoryId);
      PagesUpTo(collection, categoryId, count) == items[..Min(count * PerPage, |items|)]
    decreases count
  {
    var items := Filtered(collection, categoryId);
    if count > 0 {
      PagesPrefix(collection, categoryId, count - 1);
      var r := PageOf(items, count);
      assert Paginate(collection, count, categoryId) == r;
      assert r.meta.currentPage == count;
      var lo, hi := (count - 1) * PerPage, Min(count * PerPage, |items|);
      assert r.data == items[lo..hi];
      assert Min((count - 1) * PerPage, |items|) == lo;
      assert items[..lo] + items[lo..hi] == items[..hi];
    }
  }

  /**
   * `totalPages` does not depend on the requested page, and concatenating
   * pages 1..totalPages, in order, gives back the filtered list exactly.
   */
  lemma PagesPartition(collection: seq<Product>, categoryId: Option<int>)
    ensures var items := Filtered(collection, categoryId);
      (forall page :: Paginate(collection, page, categoryId).meta.totalPages == PageCount(|items|)) &&
      PagesUpTo(collection, categoryId, PageCount(|items|)) == items
  {
    var items := Filtered(collection, categoryId);
    var total := PageCount(|items|);
    PagesPrefix(collection, categoryId, total);
    assert Min(total * PerPage, |items|) == |items|;
  }

  /** Filtering on an id no product carries leaves nothing. */
  lemma {:induction false} WithUnknownCategory(collection: seq<Product>, categoryId: int)
    requires forall x :: x in collection ==> x.categoryId != categoryId
    ensures WithCategory(collection, categoryId) == []
    decreases |collection|
  {
    if collection != [] {
      assert collection[0] in collection;
      assert forall x :: x in collection[1..] ==> x in collection;
      WithUnknownCategory(collection[1..], categoryId);
    }
  }

  /** A non-zero category id that no product carries lists nothing. */
  lemma UnknownCategoryIsEmpty(collection: seq<Product>, page: int, categoryId: int)
    requires categoryId != 0
    requires forall x :: x in collection ==> x.categoryId != categoryId
    ensures Paginate(collection, page, Some(categoryId)).meta.totalElements == 0
    ensures Paginate(collection, page, Some(categoryId)).data == []
  {
    WithUnknownCategory(collection, categoryId);
  }

  /** 25 unfiltered products: page 3 holds the last 5 and the meta is {10, 3, 3, 25}. */
  lemma ThirdOfTwentyFive(collection: seq<Product>)
    requires |collection| == 25
    ensures Paginate(collection, 3, None).meta == Meta(10, 3, 3, 25)
    ensures Paginate(collection, 3, None).data == collection[20..]
  {
  }
}
