# hono-shop-api core, modelled in Dafny

This project models the request-handling core of a small shop API written in
TypeScript with Hono. At startup the API turns a flat list of product
records into a catalog: numbered categories, plus products that refer to
their category by id. It serves that catalog as filtered pages of ten, and it
accepts order payloads that pass a schema and echoes them back.

Modules (one per component of `src/index.ts`):

- `Wrappers`: the `Option` type, used where the source has `T | undefined`.
- `Normalizer`: the startup `reduce`. `Normalize` is the reduce written as a
  left fold of `Step`. `NormalizeCatalog` is the same loop written as a
  method with a loop invariant, growing its two accumulators the way `push`
  does. It uses `FindCategoryId`, the linear search of `Array.prototype.find`.
  `Normalized` collects what the catalog guarantees, and `NormalizeCorrect`
  proves it for every input.
- `Pagination`: `paginate`. This covers the truthy `categoryId` filter,
  `Math.ceil`, the clamping of the page number, and
  `Array.prototype.slice`, including how it resolves a negative start.
  Lemmas show that the pages partition the filtered list.
- `Orders`: the zod schema of the order endpoint as a predicate
  (`ValidItem`, `ValidOrder`) over a small JSON datatype. An issue collector
  (`OrderIssues`) reports every failing field by path. `PostOrder` is the
  handler, which echoes the request's `data` back.
- `Routes`: the defaults the products route applies to its query before it
  calls `paginate`. A lemma joins that route to the normalized catalog.

Three behaviours of the source worth noting:

- A `page` query that does not parse gives `NaN` (see "Left out").
- The handler echoes the request body's own `data` (`c.req.json()`), not the
  value zod parsed. So item keys outside the schema come back too. Zod
  would strip them only from its parsed copy.
- `note: null` is rejected, because `.optional()` admits a missing note but
  not `null`.

## Model

| member | source | states |
|---|---|---|
| `Normalizer.ToResponse` | src/index.ts:15-25 | the response product has the given `id` and `categoryId`, and dropping them while putting back the category name gives the raw record back: no other field changes |
| `Normalizer.Step` | src/index.ts:14-27 | definition of one call of the reducer: look the name up, add a category with id `length + 1` if it is missing, append the rewritten product; its guarantees are the contract of `Normalizer.NormalizeCorrect` |
| `Normalizer.Normalize` | src/index.ts:13-32 | definition of the whole reduce as a left fold of `Step` from empty accumulators; its guarantees are the contract of `Normalizer.NormalizeCorrect`, and `Normalizer.NormalizeCatalog` is proved equal to it |
| `Normalizer.FindId` | src/index.ts:16-18 | `None` exactly when no category has the name; otherwise the id of the FIRST category with that name |
| `Normalizer.FindCategoryId` | src/index.ts:16-18 | the linear search returns exactly what `FindId` specifies |
| `Normalizer.NormalizeCatalog` | src/index.ts:13-32 | the loop with its two growing accumulators computes the left fold `Normalize` of the records, and so satisfies every guarantee in `Normalized` |
| `Normalizer.NormalizeCorrect` | src/index.ts:13-32 | for every input there is one product per record with `id = i + 1`. Category ids are exactly 1..k, and no name occurs twice. Every category comes from some record, and categories are listed in order of first appearance. Each product's `categoryId` lies in 1..k and names a category with the record's own category name. All other fields are unchanged |
| `Normalizer.ReferenceUnique` | src/index.ts:15-25 | a product's `categoryId` matches exactly one category, the one at position `categoryId - 1`, and that category carries the record's category name |
| `Normalizer.ProductRecord` | src/index.ts:15-25 | every normalized product leads back to its raw record at position `id - 1`; its category is that record's category, and its other fields are the record's |
| `Normalizer.CategoryCount` | src/index.ts:16-23 | the number of categories is the number of distinct category names in the input |
| `Pagination.WithCategory` | src/index.ts:135-137 | the filter keeps exactly the products with that `categoryId`, and never more items than it was given; its order and multiplicity are fixed by `WithCategoryAppend` and `WithCategorySingle` |
| `Pagination.WithCategoryAppend` | src/index.ts:135-137 | filtering a concatenation is the concatenation of the filtered parts; with `WithCategorySingle` this fixes the result, order and multiplicity included, as the order-preserving `filter` |
| `Pagination.WithCategorySingle` | src/index.ts:135-137 | a single product is kept exactly when its `categoryId` equals the id |
| `Pagination.Truthy` | src/index.ts:134 | definition of `if (categoryId)`: true exactly for a present, non-zero id; its guarantees are the contract of `Pagination.Filtered` |
| `Pagination.Filtered` | src/index.ts:134-138 | if `categoryId` is absent or 0 the collection is unchanged; otherwise it is `WithCategory` on that id: exactly the products with that id, in their order |
| `Pagination.PageCount` | src/index.ts:141-142 | `Math.ceil(n / 10)`: the fewest pages of ten that hold `n` items (0 for none) |
| `Pagination.SliceIndex` | src/index.ts:149-151 | how `slice` resolves an index: an index in 0..length is kept, one past the end becomes the length, a negative one counts back from the end (`length + i`), and one below `-length` becomes 0 |
| `Pagination.JsSlice` | src/index.ts:149-152 | `slice(start, end)` is the plain subsequence when `0 <= start <= end <= length`; it is empty when `end` is 0 (so also for the negative start of page 0); and it holds only elements of the input |
| `Pagination.PageOf` | src/index.ts:140-159 | on the filtered list: `perPage` is 10. `totalElements` is the list's length, and `totalPages` is its ceiling over 10 (0 exactly when the list is empty). If there are pages, `currentPage` lies in 1..`totalPages`: `page <= 1` gives 1, `page >= totalPages` gives `totalPages`, and any page in range is kept. An empty list gives page 0 and no data. `data` has at most 10 items, exactly 10 before the last page, and is the contiguous slice from `(currentPage - 1) * 10` |
| `Pagination.Paginate` | src/index.ts:132-160 | `totalElements` is the length of the filtered collection, and the whole collection when `categoryId` is absent or 0. Every listed product comes from the collection, and with a non-zero `categoryId` it carries that id |
| `Pagination.PagesPrefix` | src/index.ts:149-152 | pages 1..c concatenated are the first `min(10c, n)` filtered items |
| `Pagination.PagesPartition` | src/index.ts:140-152 | `totalPages` is the same for every requested page, and pages 1..`totalPages` concatenated, in order, are exactly the filtered list, so their lengths sum to `totalElements` |
| `Pagination.WithUnknownCategory` | src/index.ts:135-137 | filtering on an id no product carries yields nothing |
| `Pagination.UnknownCategoryIsEmpty` | src/index.ts:134-158 | a non-zero id that no product carries gives `totalElements = 0` and empty `data` |
| `Pagination.ThirdOfTwentyFive` | src/index.ts:140-158 | for 25 unfiltered products, page 3 is the last five and the meta is `{perPage: 10, totalPages: 3, currentPage: 3, totalElements: 25}` |
| `Orders.ValidItem` | src/index.ts:46-50 | definition of the item schema: an object with a numeric `productId`, a numeric `qty >= 1`, and a `note` that is absent or a string, other keys allowed; its guarantees are the contract of `Orders.ItemIssues` |
| `Orders.ValidOrder` | src/index.ts:44-52 | definition of the body schema: an object whose `data` is an array, possibly empty, of valid items; its guarantees are the contracts of `Orders.OrderIssues` and `Orders.PostOrder` |
| `Orders.ItemIssues` | src/index.ts:46-50 | an item has no issue exactly when it is an object with a numeric `productId`, a numeric `qty >= 1`, and a `note` that is absent or a string; every issue is reported under `data[index]` |
| `Orders.ItemsIssues` | src/index.ts:45-51 | an item list has no issue exactly when every item is valid |
| `Orders.OrderIssues` | src/index.ts:44-52 | a body has no issue exactly when it is an object whose `data` is an array (possibly empty) of valid items |
| `Orders.PostOrder` | src/index.ts:112-119 | accepted exactly when the schema holds; an accepted body is answered with `{data}` holding the request's `data` unchanged; a rejection always lists at least one issue |
| `Orders.ZeroQtyRejected` | src/index.ts:48 | `{data: [{productId: 1, qty: 0}]}` is rejected with a single too-small issue at `data[0].qty` |
| `Orders.NoteEchoed` | src/index.ts:44-52 | `{data: [{productId: 1, qty: 1, note: "x"}]}` is accepted and echoed with its note |
| `Routes.PageArgument` | src/index.ts:102 | definition of `page === undefined ? 1 : parseInt(page)` on a parsed page; its guarantees are the contracts of `Routes.ListProducts` and `Routes.QueryDefaults` |
| `Routes.CategoryArgument` | src/index.ts:103 | definition of `categoryId ? parseInt(categoryId) : undefined`: the empty string gives no id; its guarantees are the contracts of `Routes.ListProducts` and `Routes.QueryDefaults` |
| `Routes.ListProducts` | src/index.ts:96-110 | a missing, empty or zero `categoryId` lists the whole catalog. A non-zero one lists only catalog products with that id. A missing `page` gives the first page: the first ten filtered items |
| `Routes.QueryDefaults` | src/index.ts:97-103 | a missing page is page 1, and a missing, empty or zero `categoryId` all give the same listing as no filter |
| `Routes.CategoryListingMatchesInput` | src/index.ts:96-110 | listing the normalized catalog by the id of its j-th category yields only products whose raw record, at position `id - 1`, named that category |

## Left out

- Latency injection middleware (src/index.ts:60-78): it uses `Math.random` and timers, and it changes only when a response is delivered, not what it contains.
- CORS, logging, the 6-second timeout, static files, the listener and the `GET /` greeting (src/index.ts:56-58, 80-86, 122-128): library plumbing and I/O, with no logic of their own.
- The JSON data import (src/index.ts:9): the raw records are a parameter of `Normalize` and `NormalizeCatalog`.
- `GET /api/v1/categories` (src/index.ts:88-94): it returns `Normalize(raw).categories` as it is, so it has no member of its own. Its `console.log` calls are left out.
- `parseInt` (src/index.ts:102-103): query values come in already parsed as integers. A `page` that does not parse would give `NaN` in the source, which leads to an empty page and a `null` `currentPage`; this is not modelled. A `categoryId` that does not parse gives `NaN`, which is falsy and so means no filter, the same as `Empty`.
- Numbers are integers. JSON numbers and `productId`/`qty` are IEEE doubles in the source, so a fractional `qty` such as 1.5 passes `min(1)` there. Fractional `page` values do not arise, because `parseInt` truncates.
- The parsing of the request body and zod's error format: the body comes in as a parsed `Json` value with unique object keys. `Issue` records only a path and an expected type or a minimum, not zod's messages, and the HTTP status of a rejection is not modelled.
- That `paginate` leaves its input unchanged holds trivially, since every Dafny value here is immutable.
- Running the normalizer once per process, before any request: the model takes the catalog as a value passed to the routes.
- Fields outside the declared product type: `RawProduct` has exactly the fields of `Product` in src/index.ts:163-173. The spread at src/index.ts:25 would also carry any extra JSON field of a record into the response, and a raw `id` or `categoryId` field would override the computed one, since the spread comes last.
- Key order of JSON objects: `JObject` is a map, so the model does not capture that the echoed order body keeps the request's key order.
