/** Picking a product image URL out of a flattened product map, and fetching
    its bytes with every failure swallowed (utils/image_bytes.go). */
module ImageBytes {
  import opened Text
  import opened Dynamic
  import opened ProductModel

  /** The whole-key pattern `^attr_\d+_image$`; `\d` is an ASCII digit. */
  predicate IsImageKey(k: string) {
    && |k| >= 12
    && k[..5] == "attr_"
    && k[|k| - 6..] == "_image"
    && AllDigits(k[5..|k| - 6])
  }

  /** The keys whose values the extraction may return: matching keys that
      hold a non-empty string. */
  function Candidates(data: map<string, Value>): set<string> {
    set k | k in data && IsImageKey(k) && data[k].Str? && data[k].s != ""
  }

  /** What `ExtractImageUrlFromFlatMap(data)` may return. Go's map
      iteration order is unspecified, so any candidate's value is allowed. */
  ghost predicate MayChoose(data: map<string, Value>, url: string) {
    && (url == "" <==> Candidates(data) == {})
    && (url != "" ==> exists k :: k in Candidates(data) && data[k] == Str(url))
  }

  /** `ExtractImageUrlFromFlatMap`: collect every matching non-empty string
      while ranging over the map in an arbitrary order, then return the
      first one collected, or "" when there is none. */
  method ExtractImageUrl(data: map<string, Value>) returns (url: string)
    ensures MayChoose(data, url)
  {
    var imageUrls: seq<string> := [];
    ghost var found: seq<string> := [];
    var remaining := data.Keys;
    while remaining != {}
      invariant remaining <= data.Keys
      invariant |found| == |imageUrls|
      invariant forall i :: 0 <= i < |found| ==>
        found[i] in Candidates(data) && data[found[i]] == Str(imageUrls[i])
      invariant imageUrls == [] <==> Candidates(data) <= remaining
      decreases remaining
    {
      var key :| key in remaining;
      remaining := remaining - {key};
      var value := data[key];
      if IsImageKey(key) && value.Str? && value.s != "" {
        imageUrls := imageUrls + [value.s];
        found := found + [key];
      }
    }
    if |imageUrls| == 0 {
      return "";
    }
    url := imageUrls[0];
    assert found[0] in Candidates(data);
  }

  datatype FetchResult = Fetched(body: seq<byte>) | FetchFailed(error: string)

  /** The bytes `GetImageBytesFromFlatMap` keeps from a fetch: a failed
      request becomes an empty slice; the body read is kept as read. */
  function BodyOrEmpty(r: FetchResult): seq<byte> {
    match r
    case Fetched(body) => body
    case FetchFailed(_) => []
  }

  /** `GetImageBytesFromFlatMap`, with the HTTP GET as the oracle `fetch`. */
  method GetImageBytes(data: map<string, Value>, fetch: string -> FetchResult) returns (bytes: seq<byte>)
    ensures exists url :: MayChoose(data, url) && bytes == BodyOrEmpty(fetch(url))
  {
    var url := ExtractImageUrl(data);
    var r := fetch(url);
    if r.FetchFailed? {
      return [];
    }
    bytes := r.body;
  }

  // ---------------------------------------------------------------------
  // Extraction applied to a flattened product

  lemma AttrImageKeyMatches(n: nat)
    ensures IsImageKey(AttrKey(n, Image))
  {
    var d := NatToString(n);
    var k := AttrKey(n, Image);
    assert k == "attr_" + d + "_image";
    assert k[..5] == "attr_";
    assert k[|k| - 6..] == "_image";
    assert k[5..|k| - 6] == d;
  }

  /** Only the `image` field produces a matching key: its key is the only
      one whose second-to-last letter is `g`. */
  lemma ImageKeyField(n: nat, f: AttrField)
    requires IsImageKey(AttrKey(n, f))
    ensures f == Image
  {
    var k, s := AttrKey(n, f), FieldName(f);
    assert k[|k| - 2] == (k[|k| - 6..])[4] == 'g';
    assert k[|k| - 2] == s[|s| - 2];
  }

  lemma BaseKeyNotImage(k: string)
    requires k in BaseKeys
    ensures !IsImageKey(k)
  {
    if |k| >= 12 {
      assert k[..5] != "attr_" by { assert k[0] != 'a'; }
    }
  }

  /** On a flattened product the extraction returns "" exactly when every
      attribute has an empty image. */
  lemma ExtractOnFlatMap(p: Product)
    ensures Candidates(FlatMap(p)) == {} <==>
      forall i :: 0 <= i < |p.attributes| ==> p.attributes[i].image == ""
  {
    var m := FlatMap(p);
    if i :| 0 <= i < |p.attributes| && p.attributes[i].image != "" {
      FlatMapAttr(p, i + 1, Image);
      AttrImageKeyMatches(i + 1);
      assert AttrKey(i + 1, Image) in Candidates(m);
    }
    if k :| k in Candidates(m) {
      FlatMapKeys(p, k);
      if k in BaseKeys {
        BaseKeyNotImage(k);
      } else {
        var j: nat, f: AttrField :| 1 <= j <= |p.attributes| && k == AttrKey(j, f);
        ImageKeyField(j, f);
        FlatMapAttr(p, j, f);
        assert p.attributes[j - 1].image != "";
      }
    }
  }

  /** Keys that only resemble the pattern are ignored. */
  lemma NearMissKeys()
    ensures !IsImageKey("attr_image")
    ensures !IsImageKey("attr_1_images")
    ensures !IsImageKey("xattr_1_image")
    ensures !IsImageKey("attr__image")
    ensures IsImageKey("attr_12_image")
  {
    assert "xattr_1_image"[..5] != "attr_" by { assert "xattr_1_image"[0] == 'x'; }
    assert "attr_1_images"[7..] != "_image" by { assert "attr_1_images"[7] == 'i'; }
  }
}
