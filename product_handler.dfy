/** The product upload and delete endpoints
    (products-service/src/handlers/product_handler.go). Body parsing, JSON
    marshalling, the broker's `Publish` and the repository's delete are
    parameters: `marshal` encodes one product, and `publish(i, payload)` is
    the outcome of the i-th publish call. */
module ProductHandler {
  import opened Wrappers
  import opened Dynamic
  import opened ProductModel

  /** A reply built by the shared helpers: `Fail` with a status and
      message, or `Success` with a message. */
  datatype ProductReply = Fail(status: nat, message: string) | Success(message: string)

  /** One entry of the handler's error list. */
  datatype PublishFailure = PublishFailure(productId: string, error: string)

  /** A publish call: the payload and its content type. */
  datatype Publication = Publication(payload: seq<byte>, contentType: string)

  const UploadStartedText: string := "Product upload has been started successfully"

  /** The index of the first product that fails to marshal, or the number
      of products if none does. */
  function FirstMarshalFailure(products: seq<Product>, marshal: Product -> Result<seq<byte>, string>, from: nat): (k: nat)
    requires from <= |products|
    ensures from <= k <= |products|
    ensures forall i :: from <= i < k ==> marshal(products[i]).Ok?
    ensures k < |products| ==> marshal(products[k]).Err?
    decreases |products| - from
  {
    if from == |products| || marshal(products[from]).Err? then from
    else FirstMarshalFailure(products, marshal, from + 1)
  }

  /** The publish calls made for the first `n` products. */
  function Publications(products: seq<Product>, marshal: Product -> Result<seq<byte>, string>, n: nat): seq<Publication>
    requires n <= |products|
    requires forall i :: 0 <= i < n ==> marshal(products[i]).Ok?
  {
    seq(n, i requires 0 <= i < n => Publication(marshal(products[i]).value, "text"))
  }

  /** The error list after the first `n` products. */
  function Failures(products: seq<Product>, marshal: Product -> Result<seq<byte>, string>,
                    publish: (nat, seq<byte>) -> Option<string>, n: nat): seq<PublishFailure>
    requires n <= |products|
    requires forall i :: 0 <= i < n ==> marshal(products[i]).Ok?
  {
    if n == 0 then []
    else
      var outcome := publish(n - 1, marshal(products[n - 1]).value);
      Failures(products, marshal, publish, n - 1)
        + (if outcome.Some? then [PublishFailure(products[n - 1].id, outcome.value)] else [])
  }

  /** `UploadProducts`: publishes every product in order, collecting the
      failed publishes; a marshalling failure answers 400 at once. `render`
      stands for `%v` formatting of the error list. */
  method UploadProducts(body: Result<seq<Product>, string>, marshal: Product -> Result<seq<byte>, string>,
                        publish: (nat, seq<byte>) -> Option<string>, render: seq<PublishFailure> -> string)
    returns (reply: ProductReply, published: seq<Publication>)
    ensures body.Err? ==> reply == Fail(400, "failed to parse body: " + body.error) && published == []
    ensures body.Ok? ==>
      var products := body.value;
      var k := FirstMarshalFailure(products, marshal, 0);
      && published == Publications(products, marshal, k)
      && (k < |products| ==> reply == Fail(400, "failed to marshal body: " + marshal(products[k]).error))
      && (k == |products| ==>
            var failures := Failures(products, marshal, publish, k);
            reply == if failures != [] then Fail(207, "upload failed for following items " + render(failures))
                     else Success(UploadStartedText))
  {
    if body.Err? {
      return Fail(400, "failed to parse body: " + body.error), [];
    }
    var products := body.value;
    var errors: seq<PublishFailure> := [];
    published := [];
    for i := 0 to |products|
      invariant forall j :: 0 <= j < i ==> marshal(products[j]).Ok?
      invariant FirstMarshalFailure(products, marshal, 0) == FirstMarshalFailure(products, marshal, i)
      invariant published == Publications(products, marshal, i)
      invariant errors == Failures(products, marshal, publish, i)
    {
      var byt := marshal(products[i]);
      if byt.Err? {
        return Fail(400, "failed to marshal body: " + byt.error), published;
      }
      published := published + [Publication(byt.value, "text")];
      var err := publish(i, byt.value);
      if err.Some? {
        errors := errors + [PublishFailure(products[i].id, err.value)];
      }
    }
    if |errors| != 0 {
      return Fail(207, "upload failed for following items " + render(errors)), published;
    }
    reply := Success(UploadStartedText);
  }

  /** A product is in the error list exactly when its publish failed, with
      that publish's error. */
  lemma {:induction false} FailuresExact(products: seq<Product>, marshal: Product -> Result<seq<byte>, string>,
                                         publish: (nat, seq<byte>) -> Option<string>, n: nat)
    requires n <= |products|
    requires forall i :: 0 <= i < n ==> marshal(products[i]).Ok?
    ensures forall i :: 0 <= i < n && publish(i, marshal(products[i]).value).Some? ==>
      PublishFailure(products[i].id, publish(i, marshal(products[i]).value).value) in Failures(products, marshal, publish, n)
    ensures forall f :: f in Failures(products, marshal, publish, n) ==>
      exists i :: 0 <= i < n && publish(i, marshal(products[i]).value) == Some(f.error) && products[i].id == f.productId
    ensures |Failures(products, marshal, publish, n)| <= n
  {
    if n > 0 {
      FailuresExact(products, marshal, publish, n - 1);
    }
  }

  /** The upload answers 207 exactly when some publish failed. */
  lemma {:induction false} NoFailuresIffAllPublished(products: seq<Product>, marshal: Product -> Result<seq<byte>, string>,
                                                     publish: (nat, seq<byte>) -> Option<string>, n: nat)
    requires n <= |products|
    requires forall i :: 0 <= i < n ==> marshal(products[i]).Ok?
    ensures Failures(products, marshal, publish, n) == [] <==>
      forall i :: 0 <= i < n ==> publish(i, marshal(products[i]).value).None?
  {
    if n > 0 {
      NoFailuresIffAllPublished(products, marshal, publish, n - 1);
    }
  }

  /** `DeleteAllProducts`: a repository error answers 500. */
  function DeleteAllProducts(repoErr: Option<string>): (reply: ProductReply)
    ensures reply.Fail? <==> repoErr.Some?
    ensures reply.Fail? ==> reply == Fail(500, "unable to delete products." + repoErr.value)
    ensures reply.Success? ==> reply.message == "Successfully deleted products"
  {
    match repoErr
    case Some(e) => Fail(500, "unable to delete products." + e)
    case None => Success("Successfully deleted products")
  }
}
