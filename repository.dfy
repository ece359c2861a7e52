/** The product search of the repository
    (products-service/src/repository/product_repository.go): the hybrid
    query it sends to the vector database and the walk over the untyped
    `Get → Product → [objects]` response. The database is the oracle `run`. */
module Repository {
  import opened Wrappers
  import opened Dynamic

  datatype Operator = Equal

  datatype WhereFilter = WhereFilter(path: seq<string>, operator: Operator, valueText: string)

  datatype HybridArgs = HybridArgs(query: string, alpha: real)

  datatype SearchRequest = SearchRequest(
    className: string,
    fields: seq<string>,
    limit: nat,
    where: WhereFilter,
    hybrid: HybridArgs)

  /** The properties the search asks for, in request order. */
  const RequestedFields: seq<string> := [
    "attr_1_associateValue", "attr_1_associateValueName", "attr_1_attributeName", "attr_1_image",
    "attr_1_onClickUrl", "attr_1_price", "attr_1_skuId", "attr_1_value",
    "attr_2_associateValue", "attr_2_associateValueName", "attr_2_attributeName", "attr_2_image",
    "attr_2_onClickUrl", "attr_2_price", "attr_2_value",
    "brand", "description", "name", "priceCurrency"]

  const SearchLimit: nat := 5

  /** Weight of the vector score against the keyword score. */
  const HybridAlpha: real := 0.8

  /** The request for a query within one organisation. */
  function BuildSearchRequest(query: string, orgId: string): SearchRequest {
    SearchRequest("Product", RequestedFields, SearchLimit, WhereFilter(["orgId"], Equal, orgId), HybridArgs(query, HybridAlpha))
  }

  /** The outcome of running the query: a failure, or the response's
      `Data` object. */
  datatype QueryResult = QueryFailed(error: string) | Answered(data: map<string, Value>)

  /** The object-typed elements of a list, in order. */
  function ObjectsOf(items: seq<Value>): (objects: seq<map<string, Value>>)
    ensures |objects| <= |items|
    ensures forall m :: m in objects ==> Object(m) in items
    decreases |items|
  {
    if items == [] then []
    else ObjectsOf(items[..|items| - 1]) + (if items[|items| - 1].Object? then [items[|items| - 1].fields] else [])
  }

  /** No object is dropped. */
  lemma {:induction false} ObjectsOfComplete(items: seq<Value>, m: map<string, Value>)
    requires Object(m) in items
    ensures m in ObjectsOf(items)
    decreases |items|
  {
    if items[|items| - 1] != Object(m) {
      var init := items[..|items| - 1];
      assert Object(m) in init by {
        var i :| 0 <= i < |items| && items[i] == Object(m);
        assert init[i] == Object(m);
      }
      ObjectsOfComplete(init, m);
    }
  }

  /** Filtering keeps the relative order of the two halves of a list. */
  lemma {:induction false} ObjectsOfAppend(a: seq<Value>, b: seq<Value>)
    ensures ObjectsOf(a + b) == ObjectsOf(a) + ObjectsOf(b)
    decreases |b|
  {
    if b == [] {
      assert a + b == a;
    } else {
      var init := b[..|b| - 1];
      assert (a + b)[..|a + b| - 1] == a + init;
      ObjectsOfAppend(a, init);
    }
  }

  /** A list of objects only is returned whole; an empty list gives no
      products. */
  lemma {:induction false} ObjectsOfAllObjects(items: seq<Value>)
    requires forall i :: 0 <= i < |items| ==> items[i].Object?
    ensures |ObjectsOf(items)| == |items|
    ensures forall i :: 0 <= i < |items| ==> ObjectsOf(items)[i] == items[i].fields
    decreases |items|
  {
    if items != [] {
      var init, last := items[..|items| - 1], items[|items| - 1];
      assert forall i :: 0 <= i < |init| ==> init[i] == items[i];
      ObjectsOfAllObjects(init);
      var objects := ObjectsOf(items);
      assert objects == ObjectsOf(init) + [last.fields];
      forall i | 0 <= i < |items|
        ensures objects[i] == items[i].fields
      {
        if i < |init| {
          assert objects[i] == ObjectsOf(init)[i];
        }
      }
    }
  }

  const InvalidGetText: string := "invalid Get response format"
  const InvalidProductText: string := "invalid Product result format"

  /** `NearSearchProducts`: runs the hybrid search and decodes the result. */
  method NearSearchProducts(query: string, orgId: string, run: SearchRequest -> QueryResult)
    returns (products: seq<map<string, Value>>, err: Option<string>, sent: SearchRequest)
    ensures sent.className == "Product" && sent.limit == 5 && sent.fields == RequestedFields
    ensures sent.hybrid == HybridArgs(query, 0.8) && sent.where == WhereFilter(["orgId"], Equal, orgId)
    ensures run(sent).QueryFailed? ==> products == [] && err == Some("failed to get products " + run(sent).error)
    ensures run(sent).Answered? ==>
      var data := run(sent).data;
      if "Get" !in data || !data["Get"].Object? then products == [] && err == Some(InvalidGetText)
      else if "Product" !in data["Get"].fields || !data["Get"].fields["Product"].List? then products == [] && err == Some(InvalidProductText)
      else err == None && products == ObjectsOf(data["Get"].fields["Product"].items)
  {
    sent := BuildSearchRequest(query, orgId);
    var resp := run(sent);
    if resp.QueryFailed? {
      return [], Some("failed to get products " + resp.error), sent;
    }
    if "Get" !in resp.data || !resp.data["Get"].Object? {
      return [], Some(InvalidGetText), sent;
    }
    var getMap := resp.data["Get"].fields;
    if "Product" !in getMap || !getMap["Product"].List? {
      return [], Some(InvalidProductText), sent;
    }
    var rawProducts := getMap["Product"].items;
    products := [];
    for i := 0 to |rawProducts|
      invariant products == ObjectsOf(rawProducts[..i])
    {
      assert rawProducts[..i + 1][..i] == rawProducts[..i];
      if rawProducts[i].Object? {
        products := products + [rawProducts[i].fields];
      }
    }
    assert rawProducts[..|rawProducts|] == rawProducts;
    err := None;
  }
}
