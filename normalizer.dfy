/**
 * The catalog normalizer: one pass over the raw product records that
 * de-duplicates category names into numbered categories and rewrites every
 * product to refer to its category by id (src/index.ts, the `Data.reduce`).
 */
module Normalizer {
  import opened Wrappers

  /** A product record as it appears in the raw product list. */
  datatype RawProduct = RawProduct(
    name: string,
    description: string,
    price: string,      // a decimal kept as text
    currency: string,
    category: string,   // the category's name
    available: bool,
    minAmount: int,
    maxAmount: int,
    image: string)

  datatype Category = Category(id: int, name: string)

  /** The response form of a product: `category` replaced by `categoryId`, plus `id`. */
  datatype Product = Product(
    id: int,
    categoryId: int,
    name: string,
    description: string,
    price: string,
    currency: string,
    available: bool,
    minAmount: int,
    maxAmount: int,
    image: string)

  /** The reduce accumulator `{categories, products}`. */
  datatype Catalog = Catalog(categories: seq<Category>, products: seq<Product>)

  /** The raw record a response product came from, given the category name it dropped. */
  function FromResponse(p: Product, category: string): RawProduct
  {
    RawProduct(p.name, p.description, p.price, p.currency, category,
               p.available, p.minAmount, p.maxAmount, p.image)
  }

  /** `{ id, categoryId, ...restProductFields }`: every field but `category` is kept. */
  function ToResponse(raw: RawProduct, id: int, categoryId: int): (p: Product)
    ensures p.id == id && p.categoryId == categoryId
    ensures FromResponse(p, raw.category) == raw
  {
    Product(id, categoryId, raw.name, raw.description, raw.price, raw.currency,
            raw.available, raw.minAmount, raw.maxAmount, raw.image)
  }

  /** `categories.find(c => c.name === name)?.id`: the id of the FIRST category with that name. */
  function FindId(categories: seq<Category>, name: string): (r: Option<int>)
    ensures r.None? <==> forall j :: 0 <= j < |categories| ==> categories[j].name != name
    ensures r.Some? ==>
      exists j :: 0 <= j < |categories| && categories[j].name == name && r.value == categories[j].id &&
        forall k :: 0 <= k < j ==> categories[k].name != name
  {
    if categories == [] then None
    else if categories[0].name == name then Some(categories[0].id)
    else
      var r := FindId(categories[1..], name);
      assert forall j :: 1 <= j < |categories| ==> categories[j] == categories[1..][j - 1];
      r
  }

  /** One call of the reducer for the record `raw` at 0-based position `index`. */
  function Step(acc: Catalog, raw: RawProduct, index: int): Catalog
  {
    var found := FindId(acc.categories, raw.category);
    var categoryId := if found.Some? then found.value else |acc.categories| + 1;
    var categories := if found.Some? then acc.categories
                      else acc.categories + [Category(categoryId, raw.category)];
    Catalog(categories, acc.products + [ToResponse(raw, index + 1, categoryId)])
  }

  /** The whole reduce, a left fold of Step from the empty accumulator. */
  function Normalize(raw: seq<RawProduct>): Catalog
    decreases |raw|
  {
    if raw == [] then Catalog([], [])
    else Step(Normalize(raw[..|raw| - 1]), raw[|raw| - 1], |raw| - 1)
  }

  /** Some raw record carries the category name `name`. */
  predicate Mentions(raw: seq<RawProduct>, name: string)
  {
    exists i :: 0 <= i < |raw| && raw[i].category == name
  }

  /** The position of the first raw record whose category is `name`. */
  function FirstOccurrence(raw: seq<RawProduct>, name: string): (i: nat)
    requires Mentions(raw, name)
    ensures i < |raw| && raw[i].category == name
    ensures forall k :: 0 <= k < i ==> raw[k].category != name
    decreases |raw|
  {
    if raw[0].category == name then 0
    else
      assert Mentions(raw[1..], name) by {
        var i :| 0 <= i < |raw| && raw[i].category == name;
        assert raw[1..][i - 1] == raw[i];
      }
      var i := FirstOccurrence(raw[1..], name);
      assert forall k :: 1 <= k <= i ==> raw[k] == raw[1..][k - 1];
      i + 1
  }

  /** One product per record, numbered by 1-based position. */
  predicate ProductIdsArePositions(raw: seq<RawProduct>, prods: seq<Product>)
  {
    |prods| == |raw| && forall i :: 0 <= i < |raw| ==> prods[i].id == i + 1
  }

  /** Category ids are exactly 1..k, in list order. */
  predicate CategoryIdsDense(cats: seq<Category>)
  {
    forall j :: 0 <= j < |cats| ==> cats[j].id == j + 1
  }

  /** No category name occurs twice. */
  predicate CategoryNamesUnique(cats: seq<Category>)
  {
    forall j, k :: 0 <= j < k < |cats| ==> cats[j].name != cats[k].name
  }

  /** Every category is named by some record. */
  predicate CategoriesFromInput(raw: seq<RawProduct>, cats: seq<Category>)
  {
    forall j :: 0 <= j < |cats| ==> Mentions(raw, cats[j].name)
  }

  /** Categories are listed in the order their names first appear in the input. */
  predicate FirstSeenOrder(raw: seq<RawProduct>, cats: seq<Category>)
    requires CategoriesFromInput(raw, cats)
  {
    forall j, k :: 0 <= j < k < |cats| ==>
      FirstOccurrence(raw, cats[j].name) < FirstOccurrence(raw, cats[k].name)
  }

  /** Every product refers to the category of its record and keeps its other fields. */
  predicate ReferencesResolve(raw: seq<RawProduct>, c: Catalog)
    requires |c.products| == |raw|
  {
    forall i :: 0 <= i < |raw| ==>
      1 <= c.products[i].categoryId <= |c.categories| &&
      c.categories[c.products[i].categoryId - 1].name == raw[i].category &&
      FromResponse(c.products[i], raw[i].category) == raw[i]
  }

  /** Everything the normalizer promises about the catalog `c` built from `raw`. */
  predicate Normalized(raw: seq<RawProduct>, c: Catalog)
  {
    ProductIdsArePositions(raw, c.products) &&
    CategoryIdsDense(c.categories) &&
    CategoryNamesUnique(c.categories) &&
    CategoriesFromInput(raw, c.categories) &&
    FirstSeenOrder(raw, c.categories) &&
    ReferencesResolve(raw, c)
  }

  /** A record appended after `raw` does not move any earlier first occurrence. */
  lemma FirstOccurrenceAppend(raw: seq<RawProduct>, x: RawProduct, name: string)
    requires Mentions(raw, name)
    ensures Mentions(raw + [x], name)
    ensures FirstOccurrence(raw + [x], name) == FirstOccurrence(raw, name)
  {
    var a := FirstOccurrence(raw, name);
    assert (raw + [x])[a] == raw[a];
  }

  /** Appending a record keeps the input-derived facts about the old categories. */
  lemma AppendKeepsOrder(raw: seq<RawProduct>, x: RawProduct, cats: seq<Category>)
    requires CategoriesFromInput(raw, cats) && FirstSeenOrder(raw, cats)
    ensures CategoriesFromInput(raw + [x], cats) && FirstSeenOrder(raw + [x], cats)
    ensures forall j :: 0 <= j < |cats| ==> FirstOccurrence(raw + [x], cats[j].name) < |raw|
  {
    forall j | 0 <= j < |cats|
      ensures Mentions(raw + [x], cats[j].name)
      ensures FirstOccurrence(raw + [x], cats[j].name) == FirstOccurrence(raw, cats[j].name)
    {
      FirstOccurrenceAppend(raw, x, cats[j].name);
    }
  }

  /** What Step adds: one product at the end, and at most one category after the old ones, the one the product refers to. */
  lemma StepShape(c: Catalog, x: RawProduct, index: int)
    requires CategoryIdsDense(c.categories)
    ensures var c' := Step(c, x, index);
      |c'.products| == |c.products| + 1 &&
      c'.products[..|c.products|] == c.products &&
      c'.products[|c.products|] == ToResponse(x, index + 1, c'.products[|c.products|].categoryId) &&
      |c.categories| <= |c'.categories| && c'.categories[..|c.categories|] == c.categories &&
      1 <= c'.products[|c.products|].categoryId <= |c'.categories| &&
      c'.categories[c'.products[|c.products|].categoryId - 1].name == x.category
  {
  }

  /** The products appended by Step resolve, given that the old ones did. */
  lemma StepResolves(raw: seq<RawProduct>, x: RawProduct, c: Catalog)
    requires ProductIdsArePositions(raw, c.products) && CategoryIdsDense(c.categories)
    requires ReferencesResolve(raw, c)
    ensures ProductIdsArePositions(raw + [x], Step(c, x, |raw|).products)
    ensures ReferencesResolve(raw + [x], Step(c, x, |raw|))
  {
    var raw' := raw + [x];
    var c' := Step(c, x, |raw|);
    var n := |c.categories|;
    StepShape(c, x, |raw|);
    forall i | 0 <= i < |raw|
      ensures 1 <= c'.products[i].categoryId <= |c'.categories|
      ensures c'.categories[c'.products[i].categoryId - 1].name == raw'[i].category
      ensures FromResponse(c'.products[i], raw'[i].category) == raw'[i]
    {
      assert c'.products[i] == c.products[i] && raw'[i] == raw[i];
      var k := c.products[i].categoryId - 1;
      assert c'.categories[k] == c'.categories[..n][k];
    }
    assert raw'[|raw|] == x;
  }

  /** Step keeps Normalized when it already names the record's category. */
  lemma StepFound(raw: seq<RawProduct>, x: RawProduct, c: Catalog)
    requires Normalized(raw, c)
    requires FindId(c.categories, x.category).Some?
    ensures Normalized(raw + [x], Step(c, x, |raw|))
  {
    AppendKeepsOrder(raw, x, c.categories);
    StepResolves(raw, x, c);
  }

  /** A name no category carries is named by no record so far. */
  lemma UnknownNameIsNew(raw: seq<RawProduct>, c: Catalog, name: string)
    requires |c.products| == |raw| && ReferencesResolve(raw, c)
    requires FindId(c.categories, name).None?
    ensures !Mentions(raw, name)
  {
    forall i | 0 <= i < |raw| ensures raw[i].category != name {
      assert raw[i].category == c.categories[c.products[i].categoryId - 1].name;
    }
  }

  /** A category added for a new name keeps ids dense and names unique. */
  lemma AppendNewCategory(cats: seq<Category>, name: string)
    requires CategoryIdsDense(cats) && CategoryNamesUnique(cats)
    requires FindId(cats, name).None?
    ensures var cats' := cats + [Category(|cats| + 1, name)];
      CategoryIdsDense(cats') && CategoryNamesUnique(cats')
  {
  }

  /** A category added for a name no earlier record carries comes last in first-seen order. */
  lemma AppendNewOrder(raw: seq<RawProduct>, x: RawProduct, cats: seq<Category>)
    requires CategoriesFromInput(raw, cats) && FirstSeenOrder(raw, cats)
    requires !Mentions(raw, x.category)
    ensures var cats' := cats + [Category(|cats| + 1, x.category)];
      CategoriesFromInput(raw + [x], cats') && FirstSeenOrder(raw + [x], cats')
  {
    var raw' := raw + [x];
    var cats' := cats + [Category(|cats| + 1, x.category)];
    assert raw'[|raw|] == x;
    assert FirstOccurrence(raw', x.category) == |raw|;
    AppendKeepsOrder(raw, x, cats);
    forall j | 0 <= j < |cats'| ensures Mentions(raw', cats'[j].name) {
      if j < |cats| { assert cats'[j] == cats[j]; }
    }
    forall j, k | 0 <= j < k < |cats'|
      ensures FirstOccurrence(raw', cats'[j].name) < FirstOccurrence(raw', cats'[k].name)
    {
      assert cats'[j] == cats[j];
      if k < |cats| { assert cats'[k] == cats[k]; }
    }
  }

  /** Step keeps Normalized when it has to add a new category. */
  lemma StepNew(raw: seq<RawProduct>, x: RawProduct, c: Catalog)
    requires Normalized(raw, c)
    requires FindId(c.categories, x.category).None?
    ensures Normalized(raw + [x], Step(c, x, |raw|))
  {
    UnknownNameIsNew(raw, c, x.category);
    AppendNewCategory(c.categories, x.category);
    AppendNewOrder(raw, x, c.categories);
    StepResolves(raw, x, c);
  }

  /** The normalizer's guarantees hold of its result on every input. */
  lemma {:induction false} NormalizeCorrect(raw: seq<RawProduct>)
    ensures Normalized(raw, Normalize(raw))
    decreases |raw|
  {
    if raw != [] {
      var init, last := raw[..|raw| - 1], raw[|raw| - 1];
      assert raw == init + [last];
      NormalizeCorrect(init);
      if FindId(Normalize(init).categories, last.category).Some? {
        StepFound(init, last, Normalize(init));
      } else {
        StepNew(init, last, Normalize(init));
      }
    }
  }

  /** NormalizeCorrect without FirstSeenOrder: no new property, only a smaller context for the lemmas below. */
  lemma NormalizeResolves(raw: seq<RawProduct>)
    ensures var c := Normalize(raw);
      ProductIdsArePositions(raw, c.products) && CategoryIdsDense(c.categories) &&
      CategoryNamesUnique(c.categories) && CategoriesFromInput(raw, c.categories) &&
      ReferencesResolve(raw, c)
  {
    NormalizeCorrect(raw);
  }

  /**
   * A product's `categoryId` matches exactly one category, the one at
   * position `categoryId - 1`, and that category carries the record's name.
   */
  lemma ReferenceUnique(raw: seq<RawProduct>, i: int)
    requires 0 <= i < |raw|
    ensures var c := Normalize(raw);
      |c.products| == |raw| && 1 <= c.products[i].categoryId <= |c.categories| &&
      (forall j :: 0 <= j < |c.categories| ==>
         (c.categories[j].id == c.products[i].categoryId <==> j == c.products[i].categoryId - 1)) &&
      c.categories[c.products[i].categoryId - 1].name == raw[i].category
  {
    NormalizeResolves(raw);
  }

  /**
   * Any normalized product leads back to its raw record, at position
   * `id - 1`, whose category name is that of the category `categoryId` names.
   */
  lemma ProductRecord(raw: seq<RawProduct>, x: Product)
    requires x in Normalize(raw).products
    ensures var c := Normalize(raw);
      |c.products| == |raw| && 1 <= x.id <= |raw| && c.products[x.id - 1] == x &&
      1 <= x.categoryId <= |c.categories| &&
      c.categories[x.categoryId - 1].name == raw[x.id - 1].category &&
      FromResponse(x, raw[x.id - 1].category) == raw[x.id - 1]
  {
    NormalizeResolves(raw);
    RecordOf(raw, Normalize(raw), x);
  }

  /** ProductRecord for any catalog with resolving references. */
  lemma RecordOf(raw: seq<RawProduct>, c: Catalog, x: Product)
    requires ProductIdsArePositions(raw, c.products) && ReferencesResolve(raw, c)
    requires x in c.products
    ensures 1 <= x.id <= |raw| && c.products[x.id - 1] == x
    ensures 1 <= x.categoryId <= |c.categories| && c.categories[x.categoryId - 1].name == raw[x.id - 1].category
    ensures FromResponse(x, raw[x.id - 1].category) == raw[x.id - 1]
  {
    var i :| 0 <= i < |c.products| && c.products[i] == x;
    assert x.id == i + 1;
  }

  /** Distinct names in a category list: its length is the number of names. */
  lemma {:induction false} UniqueNamesCount(cats: seq<Category>)
    requires forall j, k :: 0 <= j < k < |cats| ==> cats[j].name != cats[k].name
    ensures |set j | 0 <= j < |cats| :: cats[j].name| == |cats|
  {
    if cats != [] {
      var init := cats[..|cats| - 1];
      UniqueNamesCount(init);
      var s := set j | 0 <= j < |init| :: init[j].name;
      var t := set j | 0 <= j < |cats| :: cats[j].name;
      assert t == s + {cats[|cats| - 1].name} by {
        forall y | y in t ensures y in s + {cats[|cats| - 1].name} {
          var j :| 0 <= j < |cats| && cats[j].name == y;
          if j < |init| { assert init[j] == cats[j]; }
        }
        forall y | y in s ensures y in t {
          var j :| 0 <= j < |init| && init[j].name == y;
          assert cats[j] == init[j];
        }
      }
      assert cats[|cats| - 1].name !in s by {
        forall j | 0 <= j < |init| ensures init[j].name != cats[|cats| - 1].name {
          assert init[j] == cats[j];
        }
      }
    }
  }

  /** The number of categories is the number of distinct category names in the input. */
  lemma CategoryCount(raw: seq<RawProduct>)
    ensures |Normalize(raw).categories| == |set i | 0 <= i < |raw| :: raw[i].category|
  {
    NormalizeResolves(raw);
    CountOf(raw, Normalize(raw));
  }

  /** CategoryCount for any catalog whose unique categories are exactly the names its records carry. */
  lemma CountOf(raw: seq<RawProduct>, c: Catalog)
    requires CategoryNamesUnique(c.categories) && CategoriesFromInput(raw, c.categories)
    requires |c.products| == |raw| && ReferencesResolve(raw, c)
    ensures |c.categories| == |set i | 0 <= i < |raw| :: raw[i].category|
  {
    var fromCats := set j | 0 <= j < |c.categories| :: c.categories[j].name;
    var fromRaw := set i | 0 <= i < |raw| :: raw[i].category;
    forall y | y in fromCats ensures y in fromRaw {
      var j :| 0 <= j < |c.categories| && c.categories[j].name == y;
      assert Mentions(raw, y);
    }
    forall y | y in fromRaw ensures y in fromCats {
      var i :| 0 <= i < |raw| && raw[i].category == y;
      assert c.categories[c.products[i].categoryId - 1].name == y;
    }
    assert fromCats == fromRaw;
    UniqueNamesCount(c.categories);
  }

  /** The linear search of `Array.prototype.find`, stopping at the first match. */
  method FindCategoryId(categories: seq<Category>, name: string) returns (r: Option<int>)
    ensures r == FindId(categories, name)
  {
    var j := 0;
    while j < |categories|
      invariant 0 <= j <= |categories|
      invariant FindId(categories[j..], name) == FindId(categories, name)
    {
      assert categories[j..][1..] == categories[j + 1..];
      if categories[j].name == name {
        return Some(categories[j].id);
      }
      j := j + 1;
    }
    return None;
  }

  /**
   * The reduce as the source runs it: both accumulator arrays grow by `push`
   * while the records are visited in order.
   */
  method NormalizeCatalog(raw: seq<RawProduct>) returns (categories: seq<Category>, products: seq<Product>)
    ensures Catalog(categories, products) == Normalize(raw)
    ensures Normalized(raw, Catalog(categories, products))
  {
    categories, products := [], [];
    var index := 0;
    while index < |raw|
      invariant 0 <= index <= |raw|
      invariant Catalog(categories, products) == Normalize(raw[..index])
    {
      var product := raw[index];
      var categoryId := FindCategoryId(categories, product.category);
      var id: int;
      if categoryId.None? {
        id := |categories| + 1;
        categories := categories + [Category(id, product.category)];
      } else {
        id := categoryId.value;
      }
      products := products + [ToResponse(product, index + 1, id)];
      assert raw[..index + 1][..index] == raw[..index];
      index := index + 1;
    }
    assert raw[..index] == raw;
    NormalizeCorrect(raw);
  }
}
