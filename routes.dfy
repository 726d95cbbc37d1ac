/**
 * The products route (src/index.ts, `GET /api/v1/products`): the defaults it
 * applies to the query before calling `paginate` on the normalized catalog.
 */
module Routes {
  import opened Wrappers
  import opened Normalizer
  import opened Pagination

  /** The `categoryId` query value: missing, the empty string, or a parsed integer. */
  datatype CategoryParam = Absent | Empty | Given(value: int)

  /** `page === undefined ? 1 : parseInt(page)` on an already parsed `page`. */
  function PageArgument(page: Option<int>): int
  {
    if page.None? then 1 else page.value
  }

  /** `categoryId ? parseInt(categoryId) : undefined`: the empty string is falsy. */
  function CategoryArgument(categoryId: CategoryParam): Option<int>
  {
    if categoryId.Given? then Some(categoryId.value) else None
  }

  /** The products route: the page of `products` the query selects. */
  function ListProducts(products: seq<Product>, page: Option<int>, categoryId: CategoryParam): (r: Page)
    ensures !(categoryId.Given? && categoryId.value != 0) ==> r.meta.totalElements == |products|
    ensures categoryId.Given? && categoryId.value != 0 ==>
      forall x :: x in r.data ==> x in products && x.categoryId == categoryId.value
    ensures page.None? && r.meta.totalPages > 0 ==> r.meta.currentPage == 1
    ensures page.None? ==> r.data == Filtered(products, CategoryArgument(categoryId))[..Min(PerPage, |Filtered(products, CategoryArgument(categoryId))|)]
  {
    Paginate(products, PageArgument(page), CategoryArgument(categoryId))
  }

  /** A missing page is page 1; a missing, empty or zero category id all mean no filter. */
  lemma QueryDefaults(products: seq<Product>, page: Option<int>)
    ensures ListProducts(products, None, Absent) == Paginate(products, 1, None)
    ensures ListProducts(products, page, Empty) == ListProducts(products, page, Absent)
    ensures ListProducts(products, page, Given(0)) == ListProducts(products, page, Absent)
  {
  }

  /**
   * Listing the normalized catalog by the id of its `j`-th category yields
   * only products whose raw record named that category; the record is found
   * at position `id - 1`.
   */
  lemma CategoryListingMatchesInput(raw: seq<RawProduct>, page: Option<int>, j: int)
    requires 0 <= j < |Normalize(raw).categories|
    ensures var c := Normalize(raw);
      forall x :: x in ListProducts(c.products, page, Given(j + 1)).data ==>
        1 <= x.id <= |raw| && raw[x.id - 1].category == c.categories[j].name
  {
    var c := Normalize(raw);
    var r := ListProducts(c.products, page, Given(j + 1));
    forall x | x in r.data
      ensures 1 <= x.id <= |raw| && raw[x.id - 1].category == c.categories[j].name
    {
      assert x in c.products && x.categoryId == j + 1;
      ProductRecord(raw, x);
    }
  }
}
