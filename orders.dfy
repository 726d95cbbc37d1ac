/**
 * The order endpoint (src/index.ts, `POST /api/v1/orders`): the request
 * schema as an explicit check over parsed JSON, and the handler that echoes
 * the request's `data` back.
 */
module Orders {
  import opened Wrappers

  /** A parsed JSON value; numbers are integers in this model. */
  datatype Json =
    | JNull
    | JBool(b: bool)
    | JNumber(n: int)
    | JString(s: string)
    | JArray(items: seq<Json>)
    | JObject(fields: map<string, Json>)

  /** One step of the path to a failing value. */
  datatype PathSegment = Key(key: string) | Index(index: nat)

  datatype JsonType = ObjectType | ArrayType | NumberType | StringType

  /** What is wrong at a path: the wrong type (or nothing at all), or a number below its minimum. */
  datatype IssueKind = InvalidType(expected: JsonType) | TooSmall(minimum: int)

  datatype Issue = Issue(path: seq<PathSegment>, kind: IssueKind)

  /** The smallest accepted `qty`. */
  const MinQty: int := 1

  /** The item schema `{productId: number, qty: number >= 1, note?: string}`; other keys are allowed. */
  predicate ValidItem(item: Json)
  {
    item.JObject? &&
    "productId" in item.fields && item.fields["productId"].JNumber? &&
    "qty" in item.fields && item.fields["qty"].JNumber? && item.fields["qty"].n >= MinQty &&
    ("note" in item.fields ==> item.fields["note"].JString?)
  }

  /** The body schema `{data: Item[]}`: an object whose `data` is an array, possibly empty, of valid items. */
  predicate ValidOrder(body: Json)
  {
    body.JObject? && "data" in body.fields && body.fields["data"].JArray? &&
    forall i :: 0 <= i < |body.fields["data"].items| ==> ValidItem(body.fields["data"].items[i])
  }

  /** The issues with the required numeric field `key` of an item object. */
  function NumberFieldIssues(fields: map<string, Json>, key: string, path: seq<PathSegment>, minimum: Option<int>): seq<Issue>
  {
    if key !in fields || !fields[key].JNumber? then [Issue(path + [Key(key)], InvalidType(NumberType))]
    else if minimum.Some? && fields[key].n < minimum.value then [Issue(path + [Key(key)], TooSmall(minimum.value))]
    else []
  }

  /** The issues with the item at `data[index]`, each reported at its path. */
  function ItemIssues(item: Json, index: nat): (r: seq<Issue>)
    ensures r == [] <==> ValidItem(item)
    ensures forall k :: 0 <= k < |r| ==> |r[k].path| >= 2 && r[k].path[..2] == [Key("data"), Index(index)]
  {
    var path := [Key("data"), Index(index)];
    if !item.JObject? then [Issue(path, InvalidType(ObjectType))]
    else
      var fields := item.fields;
      NumberFieldIssues(fields, "productId", path, None) +
      NumberFieldIssues(fields, "qty", path, Some(MinQty)) +
      (if "note" in fields && !fields["note"].JString? then [Issue(path + [Key("note")], InvalidType(StringType))] else [])
  }

  /** The issues with the items from position `from` of the `data` array on. */
  function ItemsIssues(items: seq<Json>, from: nat): (r: seq<Issue>)
    ensures r == [] <==> forall i :: 0 <= i < |items| ==> ValidItem(items[i])
    decreases |items|
  {
    if items == [] then []
    else ItemIssues(items[0], from) + ItemsIssues(items[1..], from + 1)
  }

  /** Every issue the schema finds in a request body. */
  function OrderIssues(body: Json): (r: seq<Issue>)
    ensures r == [] <==> ValidOrder(body)
  {
    if !body.JObject? then [Issue([], InvalidType(ObjectType))]
    else if "data" !in body.fields || !body.fields["data"].JArray? then [Issue([Key("data")], InvalidType(ArrayType))]
    else ItemsIssues(body.fields["data"].items, 0)
  }

  /** The endpoint's answer: the `{data}` response body, or a client error listing the issues. */
  datatype Response = Accepted(body: Json) | Rejected(issues: seq<Issue>)

  /** The handler behind the validator: it answers `{data}` with the request's own `data`. */
  function PostOrder(body: Json): (r: Response)
    ensures r.Accepted? <==> ValidOrder(body)
    ensures r.Accepted? ==> r.body == JObject(map["data" := body.fields["data"]])
    ensures r.Rejected? ==> r.issues != []
  {
    var issues := OrderIssues(body);
    if issues == [] then Accepted(JObject(map["data" := body.fields["data"]])) else Rejected(issues)
  }

  /** `{data: [{productId: 1, qty: 0}]}` is rejected, at `data[0].qty`. */
  lemma ZeroQtyRejected()
    ensures PostOrder(JObject(map["data" := JArray([JObject(map["productId" := JNumber(1), "qty" := JNumber(0)])])]))
         == Rejected([Issue([Key("data"), Index(0), Key("qty")], TooSmall(1))])
  {
    var fields := map["productId" := JNumber(1), "qty" := JNumber(0)];
    var path := [Key("data"), Index(0)];
    assert "note" !in fields;
    assert NumberFieldIssues(fields, "productId", path, None) == [];
    assert NumberFieldIssues(fields, "qty", path, Some(MinQty)) == [Issue(path + [Key("qty")], TooSmall(1))];
    assert path + [Key("qty")] == [Key("data"), Index(0), Key("qty")];
    assert ItemIssues(JObject(fields), 0) == [Issue([Key("data"), Index(0), Key("qty")], TooSmall(1))];
  }

  /** `{data: [{productId: 1, qty: 1, note: "x"}]}` is accepted and echoed with its note. */
  lemma NoteEchoed()
    ensures var item := JObject(map["productId" := JNumber(1), "qty" := JNumber(1), "note" := JString("x")]);
      PostOrder(JObject(map["data" := JArray([item])])) == Accepted(JObject(map["data" := JArray([item])]))
  {
  }
}
