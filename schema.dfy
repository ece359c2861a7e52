/** The `Product` class of the vector database and the call that ensures it
    exists (products-service/src/schema/product_schema.go). */
module Schema {
  import opened Wrappers
  import opened Text
  import opened ProductModel
  import opened Repository

  datatype Property = Property(name: string, dataType: seq<string>, skip: bool)

  datatype ClassDef = ClassDef(
    className: string,
    vectorIndexType: string,
    vectorizer: string,
    vectorizeClassName: bool,
    properties: seq<Property>)

  /** A text property; `skip` excludes it from the vectoriser's input. */
  function TextProperty(name: string, skip: bool): Property {
    Property(name, ["text"], skip)
  }

  /** The properties, in declaration order. */
  const ProductProperties: seq<Property> := [
    TextProperty("search_text", false),
    TextProperty("name", true),
    TextProperty("brand", true),
    TextProperty("description", true),
    TextProperty("product_image_description", true),
    TextProperty("attr_1_associateValue", true),
    TextProperty("attr_1_associateValueName", true),
    TextProperty("attr_1_value", true),
    TextProperty("attr_1_attributeName", true),
    TextProperty("attr_1_image", true),
    TextProperty("attr_1_onClickUrl", true),
    TextProperty("attr_1_skuId", true),
    TextProperty("attr_2_associateValue", true),
    TextProperty("attr_2_associateValueName", true),
    TextProperty("attr_2_attributeName", true),
    TextProperty("attr_2_image", true),
    TextProperty("attr_2_onClickUrl", true),
    TextProperty("attr_2_price", true),
    TextProperty("attr_2_skuId", true),
    TextProperty("orgId", true),
    TextProperty("productId", true),
    TextProperty("priceCurrency", true),
    TextProperty("attr_1_price", true),
    TextProperty("attr_2_value", true)]

  const ProductClass: ClassDef :=
    ClassDef("Product", "hnsw", "text2vec-transformers", false, ProductProperties)

  // ---------------------------------------------------------------------
  // Where each property name comes from

  datatype BaseField = OrgId | ProductId | Name | Brand | Description | PriceCurrency
  datatype ExtraField = SearchText | ImageDescription

  /** The origin of a key: a base field of the flattened product, a numbered
      attribute field, or one of the two fields added by enrichment. */
  datatype Slot = Base(b: BaseField) | Attr(n: nat, f: AttrField) | Extra(e: ExtraField)

  function BaseName(b: BaseField): string {
    match b
    case OrgId => "orgId"
    case ProductId => "productId"
    case Name => "name"
    case Brand => "brand"
    case Description => "description"
    case PriceCurrency => "priceCurrency"
  }

  function ExtraName(e: ExtraField): string {
    match e
    case SearchText => "search_text"
    case ImageDescription => "product_image_description"
  }

  function SlotKey(s: Slot): string {
    match s
    case Base(b) => BaseName(b)
    case Attr(n, f) => AttrKey(n, f)
    case Extra(e) => ExtraName(e)
  }

  /** The origin of each property, in declaration order. */
  const PropertySlots: seq<Slot> := [
    Extra(SearchText), Base(Name), Base(Brand), Base(Description), Extra(ImageDescription),
    Attr(1, AssociateValue), Attr(1, AssociateValueName), Attr(1, AttrValue), Attr(1, AttributeName),
    Attr(1, Image), Attr(1, OnClickUrl), Attr(1, SkuId),
    Attr(2, AssociateValue), Attr(2, AssociateValueName), Attr(2, AttributeName), Attr(2, Image),
    Attr(2, OnClickUrl), Attr(2, Price), Attr(2, SkuId),
    Base(OrgId), Base(ProductId), Base(PriceCurrency), Attr(1, Price), Attr(2, AttrValue)]

  lemma BaseNameInjective(b: BaseField, c: BaseField)
    requires BaseName(b) == BaseName(c)
    ensures b == c
  {
    var s, t := BaseName(b), BaseName(c);
    assert |s| == |t| && s[0] == t[0];
  }

  lemma ExtraNameInjective(e: ExtraField, g: ExtraField)
    requires ExtraName(e) == ExtraName(g)
    ensures e == g
  {
    assert ExtraName(e)[0] == ExtraName(g)[0];
  }

  lemma AttrKeyStart(n: nat, f: AttrField)
    ensures |AttrKey(n, f)| > 0 && AttrKey(n, f)[0] == 'a'
  {
  }

  /** What tells the three kinds of key apart: only attribute keys start
      with `a`, and a base key never has the length and first letter of an
      enrichment field. */
  lemma SlotKeyShape(s: Slot)
    ensures |SlotKey(s)| > 0
    ensures s.Attr? <==> SlotKey(s)[0] == 'a'
    ensures s.Base? ==> |SlotKey(s)| < 25 && (|SlotKey(s)| == 11 ==> SlotKey(s)[0] == 'd')
    ensures s.Extra? ==> |SlotKey(s)| == 25 || (|SlotKey(s)| == 11 && SlotKey(s)[0] == 's')
  {
    if s.Attr? {
      AttrKeyStart(s.n, s.f);
    }
  }

  /** Different origins give different keys. */
  lemma SlotKeyInjective(s: Slot, t: Slot)
    requires SlotKey(s) == SlotKey(t)
    ensures s == t
  {
    SlotKeyShape(s);
    SlotKeyShape(t);
    if s.Base? && t.Base? {
      BaseNameInjective(s.b, t.b);
    } else if s.Attr? && t.Attr? {
      AttrKeyInjective(s.n, s.f, t.n, t.f);
    } else if s.Extra? && t.Extra? {
      ExtraNameInjective(s.e, t.e);
    }
  }

  lemma PrefixLiterals()
    ensures AttrPrefix(1) == "attr_1_" && AttrPrefix(2) == "attr_2_"
  {
  }

  lemma AttrKeyLiterals0()
    ensures AttrKey(1, SkuId) == "attr_1_skuId" && AttrKey(1, AttributeName) == "attr_1_attributeName"
  {
    PrefixLiterals();
  }

  lemma AttrKeyLiterals1()
    ensures AttrKey(1, AttrValue) == "attr_1_value" && AttrKey(1, AssociateValueName) == "attr_1_associateValueName"
  {
    PrefixLiterals();
  }

  lemma AttrKeyLiterals2()
    ensures AttrKey(1, AssociateValue) == "attr_1_associateValue" && AttrKey(1, Image) == "attr_1_image"
  {
    PrefixLiterals();
  }

  lemma AttrKeyLiterals3()
    ensures AttrKey(1, Price) == "attr_1_price" && AttrKey(1, OnClickUrl) == "attr_1_onClickUrl"
  {
    PrefixLiterals();
  }

  lemma AttrKeyLiterals4()
    ensures AttrKey(2, SkuId) == "attr_2_skuId" && AttrKey(2, AttributeName) == "attr_2_attributeName"
  {
    PrefixLiterals();
  }

  lemma AttrKeyLiterals5()
    ensures AttrKey(2, AttrValue) == "attr_2_value" && AttrKey(2, AssociateValueName) == "attr_2_associateValueName"
  {
    PrefixLiterals();
  }

  lemma AttrKeyLiterals6()
    ensures AttrKey(2, AssociateValue) == "attr_2_associateValue" && AttrKey(2, Image) == "attr_2_image"
  {
    PrefixLiterals();
  }

  lemma AttrKeyLiterals7()
    ensures AttrKey(2, Price) == "attr_2_price" && AttrKey(2, OnClickUrl) == "attr_2_onClickUrl"
  {
    PrefixLiterals();
  }

  lemma AttrKeyLiterals()
    ensures AttrKey(1, SkuId) == "attr_1_skuId" && AttrKey(1, AttributeName) == "attr_1_attributeName"
    ensures AttrKey(1, AttrValue) == "attr_1_value" && AttrKey(1, AssociateValueName) == "attr_1_associateValueName"
    ensures AttrKey(1, AssociateValue) == "attr_1_associateValue" && AttrKey(1, Image) == "attr_1_image"
    ensures AttrKey(1, Price) == "attr_1_price" && AttrKey(1, OnClickUrl) == "attr_1_onClickUrl"
    ensures AttrKey(2, SkuId) == "attr_2_skuId" && AttrKey(2, AttributeName) == "attr_2_attributeName"
    ensures AttrKey(2, AttrValue) == "attr_2_value" && AttrKey(2, AssociateValueName) == "attr_2_associateValueName"
    ensures AttrKey(2, AssociateValue) == "attr_2_associateValue" && AttrKey(2, Image) == "attr_2_image"
    ensures AttrKey(2, Price) == "attr_2_price" && AttrKey(2, OnClickUrl) == "attr_2_onClickUrl"
  {
    AttrKeyLiterals0();
    AttrKeyLiterals1();
    AttrKeyLiterals2();
    AttrKeyLiterals3();
    AttrKeyLiterals4();
    AttrKeyLiterals5();
    AttrKeyLiterals6();
    AttrKeyLiterals7();
  }

  lemma PropertiesNamedBySlotsLow()
    ensures forall i :: 0 <= i < 12 ==> ProductProperties[i].name == SlotKey(PropertySlots[i])
  {
    AttrKeyLiterals0();
    AttrKeyLiterals1();
    AttrKeyLiterals2();
    AttrKeyLiterals3();
  }

  lemma PropertiesNamedBySlotsHigh()
    ensures forall i :: 12 <= i < 24 ==> ProductProperties[i].name == SlotKey(PropertySlots[i])
  {
    AttrKeyLiterals();
  }

  /** Each property is named after its origin. */
  lemma PropertiesNamedBySlots()
    ensures |ProductProperties| == |PropertySlots| == 24
    ensures forall i :: 0 <= i < 24 ==> ProductProperties[i].name == SlotKey(PropertySlots[i])
  {
    PropertiesNamedBySlotsLow();
    PropertiesNamedBySlotsHigh();
  }

  /** The position of an origin in the declaration order. */
  function SlotIndex(s: Slot): (i: nat)
    requires TwoAttrSlot(s)
    ensures i < |PropertySlots| && PropertySlots[i] == s
  {
    match s
    case Extra(SearchText) => 0
    case Base(Name) => 1
    case Base(Brand) => 2
    case Base(Description) => 3
    case Extra(ImageDescription) => 4
    case Base(OrgId) => 19
    case Base(ProductId) => 20
    case Base(PriceCurrency) => 21
    case Attr(n, f) =>
      if n == 1 then
        match f
        case AssociateValue => 5
        case AssociateValueName => 6
        case AttrValue => 7
        case AttributeName => 8
        case Image => 9
        case OnClickUrl => 10
        case SkuId => 11
        case Price => 22
      else
        match f
        case AssociateValue => 12
        case AssociateValueName => 13
        case AttributeName => 14
        case Image => 15
        case OnClickUrl => 16
        case Price => 17
        case SkuId => 18
        case AttrValue => 23
  }

  /** Every origin appears once. */
  lemma SlotsDistinct(i: nat, j: nat)
    requires i < j < |PropertySlots|
    ensures PropertySlots[i] != PropertySlots[j]
  {
    var s := PropertySlots[i];
    assert TwoAttrSlot(s);
    assert SlotIndex(s) == i;
  }

  /** The 24 property names are pairwise distinct. */
  lemma NamesDistinct(i: nat, j: nat)
    requires i < j < |ProductProperties|
    ensures ProductProperties[i].name != ProductProperties[j].name
  {
    PropertiesNamedBySlots();
    SlotsDistinct(i, j);
    if ProductProperties[i].name == ProductProperties[j].name {
      SlotKeyInjective(PropertySlots[i], PropertySlots[j]);
    }
  }

  /** Every property is text. */
  lemma AllText()
    ensures forall i :: 0 <= i < |ProductProperties| ==> ProductProperties[i].dataType == ["text"]
  {
  }

  /** Only `search_text` feeds the vectoriser. */
  lemma OnlySearchTextVectorised(i: nat)
    requires i < |ProductProperties|
    ensures !ProductProperties[i].skip <==> ProductProperties[i].name == "search_text"
  {
    if i > 0 {
      NamesDistinct(0, i);
    }
  }

  function PropertyNames(): (names: set<string>)
    ensures forall k :: k in names <==> exists i :: 0 <= i < |ProductProperties| && ProductProperties[i].name == k
  {
    set i | 0 <= i < |ProductProperties| :: ProductProperties[i].name
  }

  /** The slots a two-attribute product and enrichment can produce. */
  predicate TwoAttrSlot(s: Slot) {
    s.Attr? ==> s.n == 1 || s.n == 2
  }

  lemma SlotNamed(s: Slot)
    requires TwoAttrSlot(s)
    ensures SlotKey(s) in PropertyNames()
  {
    PropertiesNamedBySlots();
    assert ProductProperties[SlotIndex(s)].name == SlotKey(s);
  }

  lemma SlotsOfTwoAttributes()
    ensures forall i :: 0 <= i < |PropertySlots| ==> TwoAttrSlot(PropertySlots[i])
  {
  }

  lemma NameHasSlot(k: string)
    requires k in PropertyNames()
    ensures exists s :: TwoAttrSlot(s) && SlotKey(s) == k
  {
    PropertiesNamedBySlots();
    SlotsOfTwoAttributes();
    var i :| 0 <= i < |ProductProperties| && ProductProperties[i].name == k;
    assert SlotKey(PropertySlots[i]) == k;
  }

  lemma BaseKeyNamed(k: string)
    requires k in BaseKeys
    ensures exists b :: BaseName(b) == k
  {
    if k == "orgId" { assert BaseName(OrgId) == k; }
    else if k == "productId" { assert BaseName(ProductId) == k; }
    else if k == "name" { assert BaseName(Name) == k; }
    else if k == "brand" { assert BaseName(Brand) == k; }
    else if k == "description" { assert BaseName(Description) == k; }
    else { assert BaseName(PriceCurrency) == k; }
  }

  /** A key is a property name exactly when it is a base key, an enrichment
      field, or a field key of attribute 1 or 2. */
  lemma NameOrigins(k: string)
    ensures k in PropertyNames() <==>
      k in BaseKeys || k == "search_text" || k == "product_image_description" ||
      exists j: nat, f: AttrField :: 1 <= j <= 2 && k == AttrKey(j, f)
  {
    if k in PropertyNames() {
      NameHasSlot(k);
      var s :| TwoAttrSlot(s) && SlotKey(s) == k;
      if s.Attr? {
        assert 1 <= s.n <= 2 && k == AttrKey(s.n, s.f);
      }
    } else if k in BaseKeys {
      BaseKeyNamed(k);
      var b :| BaseName(b) == k;
      SlotNamed(Base(b));
    } else if k == "search_text" {
      SlotNamed(Extra(SearchText));
    } else if k == "product_image_description" {
      SlotNamed(Extra(ImageDescription));
    } else if exists j: nat, f: AttrField :: 1 <= j <= 2 && k == AttrKey(j, f) {
      var j: nat, f: AttrField :| 1 <= j <= 2 && k == AttrKey(j, f);
      SlotNamed(Attr(j, f));
    }
  }

  /** The property names are the keys of a flattened two-attribute product
      together with the two enrichment fields. */
  lemma NamesAreFlatKeys(p: Product, k: string)
    requires |p.attributes| == 2
    ensures k in PropertyNames() <==> k in FlatMap(p) || k == "search_text" || k == "product_image_description"
  {
    NameOrigins(k);
    FlatMapKeys(p, k);
  }

  // ---------------------------------------------------------------------
  // The search asks only for declared properties

  const RequestedSlots: seq<Slot> := [
    Attr(1, AssociateValue), Attr(1, AssociateValueName), Attr(1, AttributeName), Attr(1, Image),
    Attr(1, OnClickUrl), Attr(1, Price), Attr(1, SkuId), Attr(1, AttrValue),
    Attr(2, AssociateValue), Attr(2, AssociateValueName), Attr(2, AttributeName), Attr(2, Image),
    Attr(2, OnClickUrl), Attr(2, Price), Attr(2, AttrValue),
    Base(Brand), Base(Description), Base(Name), Base(PriceCurrency)]

  lemma RequestedNamedBySlots()
    ensures |RequestedFields| == |RequestedSlots| == 19
    ensures forall i :: 0 <= i < 19 ==> RequestedFields[i] == SlotKey(RequestedSlots[i])
  {
    AttrKeyLiterals();
  }

  /** Every field the search requests is a declared property. */
  lemma RequestedFieldsDeclared(i: nat)
    requires i < |RequestedFields|
    ensures RequestedFields[i] in PropertyNames()
  {
    RequestedNamedBySlots();
    SlotNamed(RequestedSlots[i]);
  }

  predicate Unrequested(s: Slot) {
    s == Attr(2, SkuId) || s.Extra? || s == Base(OrgId) || s == Base(ProductId)
  }

  lemma RequestedSlotsRequested()
    ensures forall i :: 0 <= i < |RequestedSlots| ==> !Unrequested(RequestedSlots[i])
  {
  }

  lemma UnrequestedSlot(s: Slot)
    requires Unrequested(s)
    ensures SlotKey(s) !in RequestedFields
  {
    RequestedNamedBySlots();
    RequestedSlotsRequested();
    if i :| 0 <= i < |RequestedFields| && RequestedFields[i] == SlotKey(s) {
      SlotKeyInjective(s, RequestedSlots[i]);
    }
  }

  /** The second attribute's SKU, the two enrichment fields, the
      organisation and the product id are not requested. */
  lemma UnrequestedFields()
    ensures "attr_2_skuId" !in RequestedFields
    ensures "search_text" !in RequestedFields && "product_image_description" !in RequestedFields
    ensures "orgId" !in RequestedFields && "productId" !in RequestedFields
  {
    AttrKeyLiterals4();
    UnrequestedSlot(Attr(2, SkuId));
    UnrequestedSlot(Extra(SearchText));
    UnrequestedSlot(Extra(ImageDescription));
    UnrequestedSlot(Base(OrgId));
    UnrequestedSlot(Base(ProductId));
  }

  // ---------------------------------------------------------------------
  // Ensuring the class exists

  predicate HasProductClass(classes: seq<ClassDef>) {
    exists i :: 0 <= i < |classes| && classes[i].className == "Product"
  }

  /** The result of `CreateProductClass`: it returns an error value, or
      panics when the existing schema cannot be read. */
  datatype Outcome = Returned(err: Option<string>) | Panicked(cause: string)

  /** The classes the database holds. */
  class SchemaRegistry {
    var classes: seq<ClassDef>

    constructor (classes: seq<ClassDef>)
      ensures this.classes == classes
    {
      this.classes := classes;
    }
  }

  /** `CreateProductClass`: reads the schema, returns if a class named
      `Product` exists, and otherwise creates it. `readFault` and
      `createFault` stand for the two database calls failing. */
  method CreateProductClass(registry: SchemaRegistry, readFault: Option<string>, createFault: Option<string>)
    returns (outcome: Outcome)
    modifies registry
    ensures readFault.Some? ==> outcome == Panicked(readFault.value) && registry.classes == old(registry.classes)
    ensures readFault.None? && HasProductClass(old(registry.classes)) ==>
      outcome == Returned(None) && registry.classes == old(registry.classes)
    ensures readFault.None? && !HasProductClass(old(registry.classes)) && createFault.Some? ==>
      outcome == Returned(createFault) && registry.classes == old(registry.classes)
    ensures readFault.None? && !HasProductClass(old(registry.classes)) && createFault.None? ==>
      outcome == Returned(None) && registry.classes == old(registry.classes) + [ProductClass]
    ensures outcome == Returned(None) ==> HasProductClass(registry.classes)
  {
    if readFault.Some? {
      return Panicked(readFault.value);
    }
    var existing := registry.classes;
    for i := 0 to |existing|
      invariant forall j :: 0 <= j < i ==> existing[j].className != "Product"
    {
      if existing[i].className == "Product" {
        return Returned(None);
      }
    }
    if createFault.Some? {
      return Returned(createFault);
    }
    registry.classes := registry.classes + [ProductClass];
    assert registry.classes[|existing|].className == "Product";
    outcome := Returned(None);
  }

  /** A second call after a successful one changes nothing: the class is
      created at most once. */
  method CreateTwice(registry: SchemaRegistry, createFault: Option<string>)
    modifies registry
    ensures |registry.classes| <= |old(registry.classes)| + 1
  {
    var first := CreateProductClass(registry, None, createFault);
    ghost var afterFirst := registry.classes;
    var second := CreateProductClass(registry, None, createFault);
    assert first == Returned(None) ==> registry.classes == afterFirst;
  }
}
