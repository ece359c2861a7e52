/** The model client of the products service
    (products-service/src/llm/llm_utils.go): describing a product image,
    the two unimplemented helpers, and the enrichment of one product. The
    chat-completion endpoint is the oracle `complete`. */
module Llm {
  import opened Wrappers
  import opened Dynamic
  import opened ProductModel
  import opened ImageBytes
  import opened Base64

  datatype ChatMessage = UserMessage(content: string)

  datatype CompletionRequest = CompletionRequest(model: string, messages: seq<ChatMessage>, temperature: real)

  /** The endpoint's answer: a failed call, or the content of each returned
      choice in order. */
  datatype CompletionResult = CallFailed(error: string) | Completed(choices: seq<string>)

  const Gpt4o: string := "gpt-4o"

  const ImagePromptHead: string := "Here is a product image: [image: "

  const ImagePromptTail: string :=
    "]\n\nPlease provide a detailed ecommerce-style description of the product in the image: material, color, design, brand cues, use-case, features."

  /** The request sent for an image. */
  function DescribeRequest(image: seq<byte>): CompletionRequest {
    CompletionRequest(Gpt4o, [UserMessage(ImagePromptHead + DataUrl(image) + ImagePromptTail)], 0.7)
  }

  function CompletionErrorText(cause: string): string {
    "openai chat completion error: " + cause
  }

  const NoChoicesText: string := "no choices returned"

  /** `ImageByteToText`: sends the image as a base64 data URL and returns
      the first choice's content. */
  method ImageByteToText(image: seq<byte>, complete: CompletionRequest -> CompletionResult)
    returns (text: string, err: Option<string>, sent: CompletionRequest)
    ensures sent == DescribeRequest(image)
    ensures sent.model == Gpt4o && sent.temperature == 0.7 && |sent.messages| == 1
    ensures complete(sent).CallFailed? ==> text == "" && err == Some(CompletionErrorText(complete(sent).error))
    ensures complete(sent).Completed? && complete(sent).choices == [] ==> text == "" && err == Some(NoChoicesText)
    ensures complete(sent).Completed? && complete(sent).choices != [] ==> text == complete(sent).choices[0] && err == None
  {
    var url := DataUrl(image);
    sent := CompletionRequest(Gpt4o, [UserMessage(ImagePromptHead + url + ImagePromptTail)], 0.7);
    var resp := complete(sent);
    if resp.CallFailed? {
      return "", Some(CompletionErrorText(resp.error)), sent;
    }
    if |resp.choices| == 0 {
      return "", Some(NoChoicesText), sent;
    }
    text, err := resp.choices[0], None;
  }

  /** The image inside the prompt can be recovered exactly: the prompt holds
      the data URL, whose payload decodes to the image bytes. */
  lemma PromptCarriesImage(image: seq<byte>)
    ensures var content := DescribeRequest(image).messages[0].content;
      var start := |ImagePromptHead| + |JpegDataUrlPrefix|;
      var end := |content| - |ImagePromptTail|;
      start <= end && Decode(content[start..end]) == Some(image)
  {
    var content := DescribeRequest(image).messages[0].content;
    var start := |ImagePromptHead| + |JpegDataUrlPrefix|;
    assert content == ImagePromptHead + JpegDataUrlPrefix + Encode(image) + ImagePromptTail;
    assert content[start..|content| - |ImagePromptTail|] == Encode(image);
    DecodeEncode(image);
  }

  /** `SummerizePastQueris` is a stub: the empty string for every input. */
  function SummarizePastQueries(queries: seq<string>): string {
    ""
  }

  /** `GetSementicText` is a stub: the empty string for every input. */
  function GetSemanticText(product: map<string, Value>): string {
    ""
  }

  /** The error `ImageByteToText` reports for a completion result. */
  function DescribeError(r: CompletionResult): Option<string> {
    if r.CallFailed? then Some(CompletionErrorText(r.error))
    else if r.choices == [] then Some(NoChoicesText)
    else None
  }

  const DescriptionKey: string := "productImageDiscription"

  /** `ProcessProduct`: flattens the product, fetches one of its image URLs
      (which one is unspecified) and asks for a description. The describer's
      error is returned unchanged; on success the description is written to
      the flattened map, which is local and then dropped. */
  method ProcessProduct(prod: Product, fetch: string -> FetchResult, complete: CompletionRequest -> CompletionResult)
    returns (err: Option<string>)
    ensures exists url ::
      MayChoose(FlatMap(prod), url) && err == DescribeError(complete(DescribeRequest(BodyOrEmpty(fetch(url)))))
  {
    var prodMap := ToFlatMap(prod);
    var bytes := GetImageBytes(prodMap, fetch);
    ghost var url :| MayChoose(prodMap, url) && bytes == BodyOrEmpty(fetch(url));
    var text, describeErr, sent := ImageByteToText(bytes, complete);
    assert sent == DescribeRequest(bytes);
    assert describeErr == DescribeError(complete(sent));
    if describeErr.Some? {
      err := describeErr;
    } else {
      prodMap := prodMap[DescriptionKey := Str(text)];
      err := None;
    }
    assert MayChoose(FlatMap(prod), url) && err == DescribeError(complete(DescribeRequest(BodyOrEmpty(fetch(url)))));
  }

  /** A product with no image URL still goes to the model: the fetch of
      the empty URL decides what bytes are sent, and no error is raised for
      the missing image itself. */
  lemma NoImageStillDescribed(prod: Product)
    requires forall i :: 0 <= i < |prod.attributes| ==> prod.attributes[i].image == ""
    ensures MayChoose(FlatMap(prod), "")
    ensures forall url :: MayChoose(FlatMap(prod), url) ==> url == ""
  {
    ExtractOnFlatMap(prod);
  }
}
