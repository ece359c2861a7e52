/** The product record and its flattening into a `map[string]any` whose
    attribute keys are numbered `attr_{n}_field` (products_models.go). */
module ProductModel {
  import opened Text
  import opened Dynamic

  datatype ProdAttr = ProdAttr(
    skuId: string,
    attributeName: string,
    value: string,
    associateValueName: string,
    associateValue: string,
    image: string,
    price: string,
    onClickUrl: string)

  datatype Product = Product(
    orgId: string,
    id: string,
    name: string,
    brand: string,
    description: string,
    priceCurrency: string,
    attributes: seq<ProdAttr>)

  /** The eight per-attribute fields, in the order the flattening writes them. */
  datatype AttrField =
    | SkuId | AttributeName | AttrValue | AssociateValueName
    | AssociateValue | Image | Price | OnClickUrl

  /** The key suffix used for a field. */
  function FieldName(f: AttrField): string {
    match f
    case SkuId => "skuId"
    case AttributeName => "attributeName"
    case AttrValue => "value"
    case AssociateValueName => "associateValueName"
    case AssociateValue => "associateValue"
    case Image => "image"
    case Price => "price"
    case OnClickUrl => "onClickUrl"
  }

  function FieldOf(a: ProdAttr, f: AttrField): string {
    match f
    case SkuId => a.skuId
    case AttributeName => a.attributeName
    case AttrValue => a.value
    case AssociateValueName => a.associateValueName
    case AssociateValue => a.associateValue
    case Image => a.image
    case Price => a.price
    case OnClickUrl => a.onClickUrl
  }

  /** `fmt.Sprintf("attr_%d_", n)` */
  function AttrPrefix(n: nat): string {
    "attr_" + NatToString(n) + "_"
  }

  function AttrKey(n: nat, f: AttrField): string {
    AttrPrefix(n) + FieldName(f)
  }

  const BaseKeys: set<string> :=
    {"orgId", "productId", "name", "brand", "description", "priceCurrency"}

  /** The map literal the flattening starts from. */
  function BaseMap(p: Product): map<string, Value> {
    map[
      "orgId" := Str(p.orgId),
      "productId" := Str(p.id),
      "name" := Str(p.name),
      "brand" := Str(p.brand),
      "description" := Str(p.description),
      "priceCurrency" := Str(p.priceCurrency)]
  }

  /** The order in which the flattening writes an attribute's fields. */
  const Fields: seq<AttrField> :=
    [SkuId, AttributeName, AttrValue, AssociateValueName, AssociateValue, Image, Price, OnClickUrl]

  function FieldIndex(f: AttrField): (t: nat)
    ensures t < |Fields| && Fields[t] == f
  {
    match f
    case SkuId => 0
    case AttributeName => 1
    case AttrValue => 2
    case AssociateValueName => 3
    case AssociateValue => 4
    case Image => 5
    case Price => 6
    case OnClickUrl => 7
  }

  /** `m` after the first `j` field insertions for the attribute numbered `n`. */
  function InsertFields(m: map<string, Value>, n: nat, a: ProdAttr, j: nat): map<string, Value>
    requires j <= |Fields|
  {
    if j == 0 then m
    else InsertFields(m, n, a, j - 1)[AttrKey(n, Fields[j - 1]) := Str(FieldOf(a, Fields[j - 1]))]
  }

  /** The map after the first `k` attributes have been flattened. */
  function FlatPrefix(p: Product, k: nat): map<string, Value>
    requires k <= |p.attributes|
  {
    if k == 0 then BaseMap(p)
    else InsertFields(FlatPrefix(p, k - 1), k, p.attributes[k - 1], |Fields|)
  }

  /** The value `p.ToFlatMap()` returns. */
  function FlatMap(p: Product): map<string, Value> {
    FlatPrefix(p, |p.attributes|)
  }

  /** `Product.ToFlatMap`: the base literal, then eight insertions per
      attribute, numbered from 1 in list order. */
  method ToFlatMap(p: Product) returns (m: map<string, Value>)
    ensures m == FlatMap(p)
    ensures |m| == 6 + 8 * |p.attributes|
  {
    m := map[
      "orgId" := Str(p.orgId),
      "productId" := Str(p.id),
      "name" := Str(p.name),
      "brand" := Str(p.brand),
      "description" := Str(p.description),
      "priceCurrency" := Str(p.priceCurrency)];
    var i := 0;
    while i < |p.attributes|
      invariant 0 <= i <= |p.attributes|
      invariant m == FlatPrefix(p, i)
    {
      var a := p.attributes[i];
      var prefix := AttrPrefix(i + 1);
      m := m[prefix + "skuId" := Str(a.skuId)];
      m := m[prefix + "attributeName" := Str(a.attributeName)];
      m := m[prefix + "value" := Str(a.value)];
      m := m[prefix + "associateValueName" := Str(a.associateValueName)];
      m := m[prefix + "associateValue" := Str(a.associateValue)];
      m := m[prefix + "image" := Str(a.image)];
      m := m[prefix + "price" := Str(a.price)];
      m := m[prefix + "onClickUrl" := Str(a.onClickUrl)];
      InsertAllFields(FlatPrefix(p, i), i + 1, a);
      i := i + 1;
    }
    FlatMapSize(p);
  }

  // ---------------------------------------------------------------------
  // Keys never collide

  lemma FieldNameInjective(f: AttrField, g: AttrField)
    requires FieldName(f) == FieldName(g)
    ensures f == g
  {
    var s, t := FieldName(f), FieldName(g);
    assert |s| == |t| && s[0] == t[0] && s[|s| - 1] == t[|t| - 1];
  }

  /** The attribute number and field are recoverable from the key. */
  lemma AttrKeyInjective(n: nat, f: AttrField, n': nat, f': AttrField)
    requires AttrKey(n, f) == AttrKey(n', f')
    ensures n == n' && f == f'
  {
    NumberedKeyInjective("attr_", NatToString(n), FieldName(f), NatToString(n'), FieldName(f'));
    NatToStringInjective(n, n');
    FieldNameInjective(f, f');
  }

  lemma AttrKeyNotBase(n: nat, f: AttrField)
    ensures AttrKey(n, f) !in BaseKeys
  {
    assert AttrKey(n, f)[0] == 'a';
  }

  /** Inserting the first `j` fields adds exactly their keys, each holding
      its field, and leaves every other key as it was. */
  lemma {:induction false} InsertFieldsAt(m: map<string, Value>, n: nat, a: ProdAttr, j: nat, k: string)
    requires j <= |Fields|
    ensures k in InsertFields(m, n, a, j) <==>
      k in m || exists t :: 0 <= t < j && k == AttrKey(n, Fields[t])
    ensures (forall t :: 0 <= t < j ==> k != AttrKey(n, Fields[t])) && k in m ==>
      InsertFields(m, n, a, j)[k] == m[k]
  {
    if j > 0 {
      InsertFieldsAt(m, n, a, j - 1, k);
    }
  }

  lemma {:induction false} InsertFieldsValue(m: map<string, Value>, n: nat, a: ProdAttr, j: nat, f: AttrField)
    requires j <= |Fields|
    requires FieldIndex(f) < j
    ensures AttrKey(n, f) in InsertFields(m, n, a, j)
    ensures InsertFields(m, n, a, j)[AttrKey(n, f)] == Str(FieldOf(a, f))
  {
    if FieldIndex(f) < j - 1 {
      InsertFieldsValue(m, n, a, j - 1, f);
      if AttrKey(n, f) == AttrKey(n, Fields[j - 1]) {
        AttrKeyInjective(n, f, n, Fields[j - 1]);
      }
    }
  }

  lemma InsertFieldsFresh(m: map<string, Value>, n: nat, a: ProdAttr, j: nat)
    requires 0 < j <= |Fields|
    requires AttrKey(n, Fields[j - 1]) !in m
    ensures AttrKey(n, Fields[j - 1]) !in InsertFields(m, n, a, j - 1)
  {
    var key := AttrKey(n, Fields[j - 1]);
    InsertFieldsAt(m, n, a, j - 1, key);
    if key in InsertFields(m, n, a, j - 1) {
      var t :| 0 <= t < j - 1 && key == AttrKey(n, Fields[t]);
      AttrKeyInjective(n, Fields[j - 1], n, Fields[t]);
      FieldsDistinct(t, j - 1);
    }
  }

  lemma FieldsDistinct(t: nat, u: nat)
    requires t < u < |Fields|
    ensures Fields[t] != Fields[u]
  {
    assert FieldIndex(Fields[t]) == t && FieldIndex(Fields[u]) == u;
  }

  lemma {:induction false} InsertFieldsSize(m: map<string, Value>, n: nat, a: ProdAttr, j: nat)
    requires j <= |Fields|
    requires forall t :: 0 <= t < |Fields| ==> AttrKey(n, Fields[t]) !in m
    ensures |InsertFields(m, n, a, j)| == |m| + j
  {
    if j > 0 {
      InsertFieldsSize(m, n, a, j - 1);
      InsertFieldsFresh(m, n, a, j);
    }
  }

  /** The eight insertions written out in the order of the source. */
  lemma InsertAllFields(m: map<string, Value>, n: nat, a: ProdAttr)
    ensures InsertFields(m, n, a, |Fields|) ==
      m[AttrKey(n, SkuId) := Str(a.skuId)]
       [AttrKey(n, AttributeName) := Str(a.attributeName)]
       [AttrKey(n, AttrValue) := Str(a.value)]
       [AttrKey(n, AssociateValueName) := Str(a.associateValueName)]
       [AttrKey(n, AssociateValue) := Str(a.associateValue)]
       [AttrKey(n, Image) := Str(a.image)]
       [AttrKey(n, Price) := Str(a.price)]
       [AttrKey(n, OnClickUrl) := Str(a.onClickUrl)]
  {
    InsertFieldsHalf(m, n, a);
    var half := InsertFields(m, n, a, 4);
    assert InsertFields(m, n, a, 5) == half[AttrKey(n, AssociateValue) := Str(a.associateValue)];
    assert InsertFields(m, n, a, 6) == InsertFields(m, n, a, 5)[AttrKey(n, Image) := Str(a.image)];
    assert InsertFields(m, n, a, 7) == InsertFields(m, n, a, 6)[AttrKey(n, Price) := Str(a.price)];
  }

  lemma InsertFieldsHalf(m: map<string, Value>, n: nat, a: ProdAttr)
    ensures InsertFields(m, n, a, 4) ==
      m[AttrKey(n, SkuId) := Str(a.skuId)]
       [AttrKey(n, AttributeName) := Str(a.attributeName)]
       [AttrKey(n, AttrValue) := Str(a.value)]
       [AttrKey(n, AssociateValueName) := Str(a.associateValueName)]
  {
    assert InsertFields(m, n, a, 1) == m[AttrKey(n, SkuId) := Str(a.skuId)];
    assert InsertFields(m, n, a, 2) == InsertFields(m, n, a, 1)[AttrKey(n, AttributeName) := Str(a.attributeName)];
    assert InsertFields(m, n, a, 3) == InsertFields(m, n, a, 2)[AttrKey(n, AttrValue) := Str(a.value)];
  }

  /** An attribute key is present after `i` steps exactly when its number
      is between 1 and `i`, and it then holds that attribute's field. */
  lemma {:induction false} AttrKeyInPrefix(p: Product, i: nat, j: nat, f: AttrField)
    requires i <= |p.attributes|
    ensures AttrKey(j, f) in FlatPrefix(p, i) <==> 1 <= j <= i
    ensures 1 <= j <= i ==> FlatPrefix(p, i)[AttrKey(j, f)] == Str(FieldOf(p.attributes[j - 1], f))
  {
    if i == 0 {
      AttrKeyNotBase(j, f);
    } else {
      AttrKeyInPrefix(p, i - 1, j, f);
      var key := AttrKey(j, f);
      assert j == i ==> key == AttrKey(i, Fields[FieldIndex(f)]);
      InsertFieldsAt(FlatPrefix(p, i - 1), i, p.attributes[i - 1], |Fields|, key);
      if exists t :: 0 <= t < |Fields| && key == AttrKey(i, Fields[t]) {
        var t :| 0 <= t < |Fields| && key == AttrKey(i, Fields[t]);
        AttrKeyInjective(j, f, i, Fields[t]);
        InsertFieldsValue(FlatPrefix(p, i - 1), i, p.attributes[i - 1], |Fields|, f);
      }
    }
  }

  lemma BaseMapSize(p: Product)
    ensures |BaseMap(p)| == 6
    ensures BaseMap(p).Keys == BaseKeys
  {
  }

  lemma {:induction false} FlatPrefixSize(p: Product, i: nat)
    requires i <= |p.attributes|
    ensures |FlatPrefix(p, i)| == 6 + 8 * i
  {
    if i == 0 {
      BaseMapSize(p);
    } else {
      FlatPrefixSize(p, i - 1);
      forall t | 0 <= t < |Fields|
        ensures AttrKey(i, Fields[t]) !in FlatPrefix(p, i - 1)
      {
        AttrKeyInPrefix(p, i - 1, i, Fields[t]);
      }
      InsertFieldsSize(FlatPrefix(p, i - 1), i, p.attributes[i - 1], |Fields|);
    }
  }

  // ---------------------------------------------------------------------
  // Properties of the flat map

  /** The result has exactly 6 + 8·n keys, so no key overwrites another. */
  lemma FlatMapSize(p: Product)
    ensures |FlatMap(p)| == 6 + 8 * |p.attributes|
  {
    FlatPrefixSize(p, |p.attributes|);
  }

  /** The base keys hold the product's own fields. */
  lemma {:induction false} FlatMapBase(p: Product, i: nat)
    requires i <= |p.attributes|
    ensures FlatPrefix(p, i).Keys >= BaseKeys
    ensures FlatPrefix(p, i)["orgId"] == Str(p.orgId)
    ensures FlatPrefix(p, i)["productId"] == Str(p.id)
    ensures FlatPrefix(p, i)["name"] == Str(p.name)
    ensures FlatPrefix(p, i)["brand"] == Str(p.brand)
    ensures FlatPrefix(p, i)["description"] == Str(p.description)
    ensures FlatPrefix(p, i)["priceCurrency"] == Str(p.priceCurrency)
  {
    if i > 0 {
      FlatMapBase(p, i - 1);
      forall k | k in BaseKeys
        ensures k in FlatPrefix(p, i) && FlatPrefix(p, i)[k] == FlatPrefix(p, i - 1)[k]
      {
        InsertFieldsAt(FlatPrefix(p, i - 1), i, p.attributes[i - 1], |Fields|, k);
        forall t | 0 <= t < |Fields| ensures k != AttrKey(i, Fields[t]) {
          AttrKeyNotBase(i, Fields[t]);
        }
      }
    }
  }

  /** The attribute at 0-based index `i` is stored under the eight keys
      `attr_{i+1}_field`, and only attributes of the list are stored. */
  lemma FlatMapAttr(p: Product, n: nat, f: AttrField)
    ensures AttrKey(n, f) in FlatMap(p) <==> 1 <= n <= |p.attributes|
    ensures 1 <= n <= |p.attributes| ==>
      FlatMap(p)[AttrKey(n, f)] == Str(FieldOf(p.attributes[n - 1], f))
  {
    AttrKeyInPrefix(p, |p.attributes|, n, f);
  }

  /** No keys other than the base keys and the numbered attribute keys. */
  lemma {:induction false} FlatPrefixKeys(p: Product, i: nat, k: string)
    requires i <= |p.attributes|
    requires k in FlatPrefix(p, i)
    ensures k in BaseKeys || exists j: nat, f: AttrField :: 1 <= j <= i && k == AttrKey(j, f)
  {
    if i > 0 {
      InsertFieldsAt(FlatPrefix(p, i - 1), i, p.attributes[i - 1], |Fields|, k);
      if k in FlatPrefix(p, i - 1) {
        FlatPrefixKeys(p, i - 1, k);
      } else {
        var t :| 0 <= t < |Fields| && k == AttrKey(i, Fields[t]);
      }
    }
  }

  lemma FlatMapKeys(p: Product, k: string)
    ensures k in FlatMap(p) <==>
      k in BaseKeys || exists j: nat, f: AttrField :: 1 <= j <= |p.attributes| && k == AttrKey(j, f)
  {
    if k in FlatMap(p) {
      FlatPrefixKeys(p, |p.attributes|, k);
    } else if k in BaseKeys {
      FlatMapBase(p, |p.attributes|);
    } else if exists j: nat, f: AttrField :: 1 <= j <= |p.attributes| && k == AttrKey(j, f) {
      var j: nat, f: AttrField :| 1 <= j <= |p.attributes| && k == AttrKey(j, f);
      FlatMapAttr(p, j, f);
    }
  }

  /** Every value is a string taken verbatim from the product. */
  lemma {:induction false} FlatPrefixStrings(p: Product, i: nat)
    requires i <= |p.attributes|
    ensures forall k :: k in FlatPrefix(p, i) ==> FlatPrefix(p, i)[k].Str?
  {
    if i > 0 {
      FlatPrefixStrings(p, i - 1);
      InsertFieldsStrings(FlatPrefix(p, i - 1), i, p.attributes[i - 1], |Fields|);
    }
  }

  lemma {:induction false} InsertFieldsStrings(m: map<string, Value>, n: nat, a: ProdAttr, j: nat)
    requires j <= |Fields|
    requires forall k :: k in m ==> m[k].Str?
    ensures forall k :: k in InsertFields(m, n, a, j) ==> InsertFields(m, n, a, j)[k].Str?
  {
    if j > 0 {
      InsertFieldsStrings(m, n, a, j - 1);
    }
  }
}
