# ecomm_ai core, modelled in Dafny

This project models the sequential logic of the products service in
`Adityadangi14/ecomm_ai` and proves properties of it. The service is a Go
e-commerce back end:

- It accepts product uploads and publishes them to RabbitMQ.
- A pool of consumer workers enriches each product with an image
  description from an OpenAI model and saves it to Weaviate.
- It answers shopper questions as a server-sent event stream.
- It keeps a short conversational memory per session in Redis.

Every external system is a parameter of the model:

- The broker, Redis, Weaviate, the HTTP fetch of an image and the language
  model each become an oracle function or a fault argument (`Option<string>`:
  `None` means the call succeeded).
- JSON encoding and decoding, `%v` and `%.2f` rendering, and the body parser's
  outcome are parameters too.

Modules, one per source file (plus shared helpers):

| module | source |
|---|---|
| `Wrappers`, `Text`, `Dynamic` | Option/Result, decimal rendering and key-splitting facts, Go's `any`/JSON values |
| `ProductModel` | `products-service/src/models/products_models.go` |
| `ImageBytes` | `utils/image_bytes.go` |
| `RedisStore` | the Redis commands the helpers use (`LRANGE`, `GET`, `LPUSH`, `EXPIRE`, `LTRIM`, `SET`) as a class over a key/value map with a TTL map and a command log |
| `Memory` | `products-service/src/helpers/redis_helpers.go` |
| `AiQuery` | `products-service/src/models/ai_query.go` (types only) |
| `QueryStream` | `products-service/src/handlers/query_handler.go` |
| `LegacyQueryStream` | `products-service/handlers/query_handler.go` |
| `Base64` | the standard padded base64 of RFC 4648, section 4 |
| `Llm` | `products-service/src/llm/llm_utils.go` |
| `Repository` | `products-service/src/repository/product_repository.go` |
| `Schema` | `products-service/src/schema/product_schema.go` |
| `ProductHandler` | `products-service/src/handlers/product_handler.go` |
| `Consumer` | `products-service/src/mq/consumer.go` |
| `Config` | `config/config.go` |

The files come from different stages of the repository and do not agree on
every interface. Each file is modelled against its own narrow interface:

- `ProcessProduct` in `llm_utils.go` returns only an error, while the worker
  in `consumer.go` expects an enriched map. The worker's enrichment is
  therefore an oracle of its own.
- The newer query handler also calls a producer and a chat summariser that
  `llm_utils.go` does not define. Both are parameters.

Where the design description and the code differ, the model follows the
code:

- No retry or back-off loop exists, so none is modelled.
- `ProcessProduct` has no "no image" error. A product without an image URL
  fetches the empty URL, and the model sends whatever that fetch returns
  (empty bytes on failure) to the describer. `Llm.NoImageStillDescribed`
  states this.

## Model

| member | source | states |
|---|---|---|
| Consumer.QosPrefetch | products-service/src/mq/consumer.go:30-32 | the fifth setup step sets QoS with prefetch count 24, prefetch size 0 and global off |
| Consumer.FirstFailure | products-service/src/mq/consumer.go:50-101 | the index it returns is the first step the broker fails: every earlier step succeeded and the step at the index failed, or it equals the step count when none fails |
| Consumer.FirstFailureIs | products-service/src/mq/consumer.go:50-101 | any index satisfying that description is the one `FirstFailure` returns (uniqueness) |
| Consumer.CreateChannel | products-service/src/mq/consumer.go:50-102 | channel, exchange, queue, bind and QoS run in that order; at the first failing step the steps up to it have run, no later step runs, and the error is that step's cause wrapped with its own message; with no failure all five ran and no error is returned |
| Consumer.Worker | products-service/src/mq/consumer.go:104-137 | the worker's loop over the jobs emits exactly the event trace `Trace(jobs)`: each delivery's events in receive order |
| Consumer.CountSettlementsAppend | products-service/src/mq/consumer.go:104-137 | settlements of a joined trace add up |
| Consumer.HandleSettlesOnce | products-service/src/mq/consumer.go:108-134 | one delivery's events start with taking it, end with exactly one Ack or Reject, and contain no other settlement |
| Consumer.NoSettlements | products-service/src/mq/consumer.go:104-137 | a trace with no Ack or Reject counts zero settlements |
| Consumer.HandleDecisions | products-service/src/mq/consumer.go:108-134 | Reject without requeue happens iff the body does not decode, and then enrichment and save are not attempted; Save happens iff enrichment succeeded; Ack happens iff enrichment and save both succeeded; Reject with requeue happens iff decoding succeeded but enrichment or save failed |
| Consumer.TraceAppend | products-service/src/mq/consumer.go:105 | the trace of two runs of deliveries is the first trace followed by the second |
| Consumer.TraceBlocks | products-service/src/mq/consumer.go:105 | the trace of delivery i lies between the traces of the earlier and the later deliveries |
| Consumer.OneSettlementPerDelivery | products-service/src/mq/consumer.go:104-137 | a worker's trace holds exactly as many settlements as deliveries |
| Consumer.TakenInOrder | products-service/src/mq/consumer.go:105 | delivery i is taken right after every event of deliveries 0..i-1, so it is settled before delivery i+1 is taken |
| ProductModel.FieldIndex | products-service/src/models/products_models.go:44-51 | each attribute field has a position among the eight inserted fields |
| ProductModel.ToFlatMap | products-service/src/models/products_models.go:30-54 | the method's loop builds `FlatMap(p)`, which has exactly 6 + 8·(number of attributes) keys |
| ProductModel.FieldNameInjective | products-service/src/models/products_models.go:44-51 | the eight field suffixes are distinct |
| ProductModel.AttrKeyInjective | products-service/src/models/products_models.go:42-51 | `attr_{n}_field` determines both n and the field |
| ProductModel.AttrKeyNotBase | products-service/src/models/products_models.go:31-51 | no attribute key is a base key |
| ProductModel.InsertFieldsAt | products-service/src/models/products_models.go:44-51 | inserting an attribute's first j fields adds exactly their keys and leaves every other key unchanged |
| ProductModel.InsertFieldsValue | products-service/src/models/products_models.go:44-51 | each inserted key holds that attribute's field |
| ProductModel.InsertFieldsFresh | products-service/src/models/products_models.go:44-51 | a field's key is not yet present when it is inserted |
| ProductModel.FieldsDistinct | products-service/src/models/products_models.go:44-51 | the eight insertions use eight different fields |
| ProductModel.InsertFieldsSize | products-service/src/models/products_models.go:44-51 | inserting j fresh fields grows the map by exactly j |
| ProductModel.InsertAllFields | products-service/src/models/products_models.go:44-51 | the eight insertions, in source order, are skuId, attributeName, value, associateValueName, associateValue, image, price and onClickUrl |
| ProductModel.AttrKeyInPrefix | products-service/src/models/products_models.go:41-51 | after i attributes, `attr_{j}_f` is present iff 1 ≤ j ≤ i, and then it holds field f of attribute j-1 (1-based, contiguous, list order) |
| ProductModel.BaseMapSize | products-service/src/models/products_models.go:31-38 | the literal has the six base keys |
| ProductModel.FlatPrefixSize | products-service/src/models/products_models.go:41-52 | after i attributes the map has 6 + 8·i keys, so no key is overwritten |
| ProductModel.FlatMapSize | products-service/src/models/products_models.go:30-54 | the result has 6 + 8·(number of attributes) keys |
| ProductModel.FlatMapBase | products-service/src/models/products_models.go:31-38 | orgId, productId, name, brand, description and priceCurrency hold the product's OrgID, ID, Name, Brand, Description and PriceCurrency, and keep them through the loop |
| ProductModel.FlatMapAttr | products-service/src/models/products_models.go:41-51 | `attr_{n}_f` is a key iff 1 ≤ n ≤ number of attributes, and it holds field f of attribute n-1 |
| ProductModel.FlatPrefixKeys | products-service/src/models/products_models.go:30-54 | every key after i attributes is a base key or an attribute key numbered 1..i |
| ProductModel.FlatMapKeys | products-service/src/models/products_models.go:30-54 | a key is present iff it is a base key or an attribute key of an existing attribute |
| ProductModel.FlatPrefixStrings | products-service/src/models/products_models.go:30-51 | every value is a string |
| ProductModel.InsertFieldsStrings | products-service/src/models/products_models.go:44-51 | inserting fields keeps every value a string |
| ImageBytes.ExtractImageUrl | utils/image_bytes.go:9-27 | the result is "" iff no key matching `^attr_\d+_image$` has a non-empty string value; otherwise it is the value under some such key (which one depends on map order) |
| ImageBytes.GetImageBytes | utils/image_bytes.go:28-38 | the bytes are the fetched body for some URL extraction may return, or empty bytes when the fetch fails |
| ImageBytes.AttrImageKeyMatches | utils/image_bytes.go:12 | every flattened image key `attr_{n}_image` matches the pattern |
| ImageBytes.ImageKeyField | utils/image_bytes.go:12 | an attribute key matches the pattern only when its field is image |
| ImageBytes.BaseKeyNotImage | utils/image_bytes.go:12 | no base key matches the pattern |
| ImageBytes.ExtractOnFlatMap | utils/image_bytes.go:12-24 | on a flattened product, no URL can be extracted iff every attribute's Image is empty |
| ImageBytes.NearMissKeys | utils/image_bytes.go:12 | `attr_image`, `attr_1_images`, `xattr_1_image` and `attr__image` are not matched, and `attr_12_image` is |
| RedisStore.Store.constructor | products-service/src/helpers/redis_helpers.go:14-73 | an empty store with no TTLs and no commands issued |
| RedisStore.Store.LPush | products-service/src/helpers/redis_helpers.go:53 | LPUSH prepends to the list (creating it); a string under the key gives WRONGTYPE; a fault leaves the data unchanged; the command is logged |
| RedisStore.Store.Expire | products-service/src/helpers/redis_helpers.go:54 | EXPIRE records the TTL only when the key exists and the call does not fail |
| RedisStore.Store.LTrim | products-service/src/helpers/redis_helpers.go:58 | LTRIM keeps the inclusive slice; an empty result deletes the key and its TTL |
| RedisStore.Store.Set | products-service/src/helpers/redis_helpers.go:67 | SET overwrites the value and the TTL unless the call fails |
| Memory.WeightIsReciprocal | products-service/src/helpers/redis_helpers.go:27-30 | the weight for rank i is exactly 1/2^i |
| Memory.WeightDecreasing | products-service/src/helpers/redis_helpers.go:27-30 | weights start at 1 and strictly decrease while staying positive |
| Memory.DecayedHistoryEmpty | products-service/src/helpers/redis_helpers.go:21-23 | the rendered history is empty iff there are no queries |
| Memory.DecayedHistoryPrefix | products-service/src/helpers/redis_helpers.go:29-32 | the lines are in stored order: the history of the first k queries is a prefix of the whole history |
| Memory.NewestLineFirst | products-service/src/helpers/redis_helpers.go:29-31 | the first line is the first stored query at weight 1 |
| Memory.GetQueriesWithDecay | products-service/src/helpers/redis_helpers.go:14-35 | a read error gives "" and that error; otherwise there is no error and the loop renders one `[w] q` line per stored query, in stored order (a missing key reads as an empty list) |
| Memory.GetUserChat | products-service/src/helpers/redis_helpers.go:37-51 | no error iff the read succeeds and the key is missing or holds a string; a missing key gives ""; a stored string is returned as is; on error the text is "" and the error is the one `GET` reported, never redis.Nil |
| Memory.SetUserChat | products-service/src/helpers/redis_helpers.go:66-73 | always reports success; issues SET with the 48-hour TTL, and the value is stored unless the write fails |
| Memory.SetUserQueries | products-service/src/helpers/redis_helpers.go:52-64 | LPUSH and EXPIRE are always issued; a failed push returns its error and neither trims nor changes the data; after a successful push, a failed trim panics with the untrimmed list stored; otherwise the list is the first 10 of [query] + old list; the 48-hour TTL is set whenever the key exists after the push |
| Memory.RememberedNewestFirst | products-service/src/helpers/redis_helpers.go:53-58 | after storing a run of queries the list holds min(n, 10) of them, newest first: it is the first min(n, 10) elements of the queries reversed (`Reversed`, an independent definition) |
| Memory.JustStoredFirst | products-service/src/helpers/redis_helpers.go:29-58 | after a successful push the query just stored is read back first and renders as the first history line |
| Memory.KeyFamiliesDisjoint | products-service/src/helpers/redis_helpers.go:75-81 | a queries key never equals a chat key, whatever the parameters |
| Memory.IdsSplit | products-service/src/helpers/redis_helpers.go:75-81 | with no `_` in the user and org ids, the joined suffix determines all three ids |
| Memory.KeysInjective | products-service/src/helpers/redis_helpers.go:75-81 | with no `_` in the user and org ids, equal keys of one family mean equal user, org and session ids |
| Memory.KeysCollideWithSeparatorInIds | products-service/src/helpers/redis_helpers.go:76 | two different sessions whose ids contain `_` share a key |
| QueryStream.Relay | products-service/src/handlers/query_handler.go:54-88 | the loop's frames, ending and accumulated response are exactly `Stream(msgs, flushFails, 0)` |
| QueryStream.StopAt | products-service/src/handlers/query_handler.go:55-85 | the message where the loop stops: every earlier message is a chunk whose flush succeeded, and the message there is an error or a chunk whose flush failed |
| QueryStream.StreamShape | products-service/src/handlers/query_handler.go:55-85 | chunk c is written as `data: c` plus a blank line, in receive order; closure adds one `data: [DONE]` frame and ends Done; an error message adds one error frame with the text unescaped and ends Errored; a chunk whose flush fails is written and the stream ends FlushFailed with no DONE; a Done stream's response is the texts of all chunks |
| QueryStream.StreamCompletes | products-service/src/handlers/query_handler.go:58-67 | the stream ends Done iff every message is a chunk and every flush succeeds |
| QueryStream.TwoChunksExample | products-service/src/handlers/query_handler.go:58-79 | chunks "Hel" and "lo" give two data frames, the DONE frame and the response "Hello" |
| QueryStream.ChunkFrameOneEvent | products-service/src/handlers/query_handler.go:76-77 | a chunk's frame is a single server-sent event whose one `data` field is the chunk if and only if the chunk has no CR or LF |
| QueryStream.ErrorFrameOneEvent | products-service/src/handlers/query_handler.go:69-70 | an error's frame is a single event whose data is `{"error": "<text>"}` if and only if the error text has no CR or LF |
| QueryStream.ChunkWithBlankLineSplits | products-service/src/handlers/query_handler.go:77 | the chunk "a\n\nb" is written as the frame of "a" followed by a separate block "b", so the text after the blank line does not reach the client as data |
| QueryStream.DoneChunkLooksLikeDone | products-service/src/handlers/query_handler.go:60-78 | a chunk whose text is `[DONE]` produces the same frame as closure |
| QueryStream.SummerizePastChats | products-service/src/handlers/query_handler.go:94-126 | a read error is returned with nothing written; otherwise one SET under the chat key stores the marshalled exchange when the prior summary is "", else the summary of prior and exchange, with the 48-hour TTL; a failed write changes neither value nor TTL and is never reported |
| QueryStream.GetAiResponse | products-service/src/handlers/query_handler.go:35-92 | an unparsable body gives 400 "failed to parse body: …" and starts no producer; otherwise the reply is a 200 stream of the relayed frames; a stream that does not end Done leaves the store untouched; a Done stream runs the summary update with the concatenation of all chunk texts: after a successful read, one SET of the marshalled exchange (or the summary of prior and exchange) under the chat key with the 48-hour TTL, after a failed read nothing |
| QueryStream.FirstExchangeStored | products-service/src/handlers/query_handler.go:62-79 | a stream that ends Done has accumulated every chunk's text |
| LegacyQueryStream.LegacyRelay | products-service/handlers/query_handler.go:45-74 | the earlier loop writes the same frames and ends the same way as the newer one |
| LegacyQueryStream.LegacyGetAiResponse | products-service/handlers/query_handler.go:28-78 | an unparsable body gives 400 and starts no producer; otherwise the reply is a 200 stream of the relayed frames |
| Base64.IndexOfChar | products-service/src/llm/llm_utils.go:33 | each alphabet character decodes to its own index |
| Base64.IndexBelow64 | products-service/src/llm/llm_utils.go:33 | decoded indices are below 64 |
| Base64.EncodeLength | products-service/src/llm/llm_utils.go:33 | the encoding has length 4·⌈n/3⌉ |
| Base64.EncodeCharacters | products-service/src/llm/llm_utils.go:33 | every character is in the 64-character alphabet or is `=`, and `=` appears only in the last two positions |
| Base64.DecodeEncodeBlock | products-service/src/llm/llm_utils.go:33 | a full three-byte block decodes back |
| Base64.DecodeEncodeOne | products-service/src/llm/llm_utils.go:33 | a one-byte tail with two `=` decodes back |
| Base64.DecodeEncodeTwo | products-service/src/llm/llm_utils.go:33 | a two-byte tail with one `=` decodes back |
| Base64.DecodeEncode | products-service/src/llm/llm_utils.go:33 | decoding an encoding gives back the original bytes |
| Base64.DataUrlRoundTrip | products-service/src/llm/llm_utils.go:33-34 | the data URL starts with `data:image/jpeg;base64,` and the rest decodes to the image bytes |
| Base64.EncodeTestVectors | products-service/src/llm/llm_utils.go:33 | "f", "fo" and "foo" encode to "Zg==", "Zm8=" and "Zm9v" (RFC 4648, section 10) |
| Llm.ImageByteToText | products-service/src/llm/llm_utils.go:31-61 | the request is GPT-4o at temperature 0.7 with one user message; a failed call gives "" and the wrapped error; no choices gives "" and "no choices returned"; otherwise the first choice and no error |
| Llm.PromptCarriesImage | products-service/src/llm/llm_utils.go:33-45 | the user message contains the data URL, and the span after the prefix decodes to the image bytes |
| Llm.ProcessProduct | products-service/src/llm/llm_utils.go:71-86 | flattens the product, fetches the image of some URL extraction may return, describes it, and returns the describer's error unchanged, or nil (the description goes into a discarded map) |
| Llm.NoImageStillDescribed | products-service/src/llm/llm_utils.go:71-76 | a product without image URLs extracts only the empty URL |
| Repository.ObjectsOf | products-service/src/repository/product_repository.go:88-92 | filtering returns no more elements than it was given, and only objects from the list |
| Repository.ObjectsOfComplete | products-service/src/repository/product_repository.go:88-92 | no object element is dropped |
| Repository.ObjectsOfAppend | products-service/src/repository/product_repository.go:88-92 | filtering keeps the original order |
| Repository.ObjectsOfAllObjects | products-service/src/repository/product_repository.go:75-94 | a list of objects is returned whole, and an empty list gives an empty result |
| Repository.NearSearchProducts | products-service/src/repository/product_repository.go:34-96 | the request targets Product with the 19 fields, limit 5, hybrid alpha 0.8 and filter orgId = orgID; a failed query gives "failed to get products …"; a missing or non-object Get gives "invalid Get response format"; a missing or non-list Product gives "invalid Product result format"; otherwise no error, and the loop returns the object elements |
| Schema.BaseNameInjective | products-service/src/schema/product_schema.go:37-255 | the base property names are distinct |
| Schema.ExtraNameInjective | products-service/src/schema/product_schema.go:37-255 | the two enrichment property names differ |
| Schema.SlotKeyInjective | products-service/src/schema/product_schema.go:37-255 | different property slots have different names |
| Schema.PropertiesNamedBySlots | products-service/src/schema/product_schema.go:37-255 | the 24 literal properties are named, in order, by their slots (base key, attribute 1 or 2 key, or enrichment field) |
| Schema.SlotIndex | products-service/src/schema/product_schema.go:37-255 | every slot of a two-attribute product has a position in the property list |
| Schema.SlotsDistinct | products-service/src/schema/product_schema.go:37-255 | no slot is listed twice |
| Schema.NamesDistinct | products-service/src/schema/product_schema.go:37-255 | the 24 property names are pairwise distinct |
| Schema.AllText | products-service/src/schema/product_schema.go:37-255 | every property has data type ["text"] |
| Schema.OnlySearchTextVectorised | products-service/src/schema/product_schema.go:38-254 | a property has skip=false iff it is search_text |
| Schema.PropertyNames | products-service/src/schema/product_schema.go:37-255 | the set holds exactly the listed property names |
| Schema.SlotNamed | products-service/src/schema/product_schema.go:37-255 | every slot of a two-attribute product names a property |
| Schema.NameHasSlot | products-service/src/schema/product_schema.go:37-255 | every property name is the name of a slot |
| Schema.NameOrigins | products-service/src/schema/product_schema.go:37-255 | a name is a property iff it is a base key, an attribute 1 or 2 key, search_text or product_image_description |
| Schema.NamesAreFlatKeys | products-service/src/schema/product_schema.go:37-255 | the property names are exactly the flattened keys of a two-attribute product plus search_text and product_image_description |
| Schema.RequestedNamedBySlots | products-service/src/repository/product_repository.go:45-65 | the 19 requested fields are named by their slots |
| Schema.RequestedFieldsDeclared | products-service/src/repository/product_repository.go:45-65 | every field the search requests is a declared property |
| Schema.UnrequestedSlot | products-service/src/repository/product_repository.go:45-65 | a slot the search leaves out is not among the requested names |
| Schema.UnrequestedFields | products-service/src/repository/product_repository.go:45-65 | attr_2_skuId, search_text, product_image_description, orgId and productId are not requested |
| Schema.SchemaRegistry.constructor | products-service/src/schema/product_schema.go:15 | the registry holds the given classes |
| Schema.CreateProductClass | products-service/src/schema/product_schema.go:11-259 | a failed schema read panics with nothing created; if a class named Product exists nothing is created and nil is returned; otherwise one class (Product, hnsw, text2vec-transformers, vectorizeClassName false, the 24 properties) is created unless creation fails, whose error is returned; success leaves a Product class present |
| Schema.CreateTwice | products-service/src/schema/product_schema.go:20-25 | a two-call scenario the source does not contain: because of the existing-class check, calling `CreateProductClass` twice adds at most one class |
| ProductHandler.FirstMarshalFailure | products-service/src/handlers/product_handler.go:60-66 | the first product that fails to marshal, or the count when none does |
| ProductHandler.UploadProducts | products-service/src/handlers/product_handler.go:47-89 | an unparsable body gives 400 with nothing published; products are published once each, in order, up to the first marshal failure, which gives 400; otherwise the failed publishes, by product ID and in order, give 207, and none gives the success message |
| ProductHandler.FailuresExact | products-service/src/handlers/product_handler.go:55-79 | the recorded failures are exactly the products whose publish failed, each with its ID and error |
| ProductHandler.NoFailuresIffAllPublished | products-service/src/handlers/product_handler.go:82-88 | there are no failures (so no 207) iff every publish succeeded |
| ProductHandler.DeleteAllProducts | products-service/src/handlers/product_handler.go:91-101 | a repository error gives 500 "unable to delete products." plus the error; otherwise "Successfully deleted products" |
| Config.GetConfigPath | config/config.go:159-166 | "docker" gives config/docker-config.yml and every other input gives config/config-local.yml |
| Config.NormalizePath | config/config.go:112-114 | the result ends in .yml or .yaml; such a path is unchanged; any other gets .yml appended |
| Config.NormalizeIdempotent | config/config.go:112-114 | normalising twice is normalising once |
| Config.ConfigPathsAreNormal | config/config.go:112-166 | both configuration paths are fixed points of normalisation |
| Config.LoadConfig | config/config.go:108-135 | reads the normalised path and succeeds with it iff the read succeeds; a `ConfigFileNotFoundError` would be reported as "config file not found: " plus that path; any other read error, a missing file among them, is returned unchanged |
| Config.LoadAppendsYml | config/config.go:112-130 | were viper to report `ConfigFileNotFoundError`, a suffix-less path would be named by its .yml form |

## Left out

- Concurrency is not modelled. This covers:
  - the worker pool, and the dispatcher goroutine that forwards deliveries and closes the jobs channel (`products-service/src/mq/consumer.go:139-179`, `StartConsumer`);
  - the jobs channel's buffer of twice the pool size (`products-service/src/mq/consumer.go:162`), which only bounds how far the dispatcher runs ahead of the workers;
  - the producer goroutine left blocked when the stream writer returns early.
  
  Channels are finite sequences, and one worker's run is modelled.
- Connection set-up and I/O are not modelled: RabbitMQ, Redis and Weaviate clients, the HTTP image fetch, and fiber/fasthttp plumbing and SSE headers. Each call result is an oracle or fault parameter.
- `products-service/src/mq/publisher.go` is not part of this model. Publishing is the `publish` oracle.
- OpenAI behaviour and the prompt texts of `static_prompts.go` are left out. The model's reply is an oracle, and only the request the code builds is modelled.
- Memory.GetQueriesWithDecay: weights are exact reals 1/2^i. `math.Pow` rounding and `%.2f` formatting are an uninterpreted `render` parameter.
- JSON is abstracted. `json.Unmarshal`, `json.Marshal` (key order, HTML escaping) and the body parser are parameters or a decoded `Result`. The `%v` rendering of the failure list in `UploadProducts` is a `render` parameter.
- TTLs are stored numbers. No clock-driven eviction is modelled.
- Consumer.CreateChannel binds the queue under the name the broker reports for it. That name is the oracle `reportedName`.
- Consumer.Worker: the consumer expects `ProcessProduct` to return an enriched map, which `llm_utils.go` does not provide. Enrichment is an oracle of its own there. `SaveProduct` is an oracle, and a failed Ack is only logged, so it is not modelled.
- Repository: `SaveProduct` and `DeleteAllProducts` of `product_repository.go` are single client calls. Their results are parameters of the worker and of `ProductHandler.DeleteAllProducts`.
- ImageBytes.ExtractImageUrl: Go's map iteration order is unspecified, so the result is stated by membership only. Which matching value comes first is not modelled.
- Llm.SummarizePastQueries and Llm.GetSemanticText: the two stubs are modelled by their definitions (the empty string for every input) and carry no contract of their own, since no other part of the model calls them.
- Llm.ProcessProduct writes the description into a local map that is discarded. The model states only the returned error.
- `utils.Fail` and `utils.Success` are reduced to a `ProductHandler.ProductReply` value carrying the status and message; the query handler's 400 reply or event stream is `QueryStream.QueryReply`.
- Schema.CreateProductClass: the module configuration of each property is modelled as its `skip` flag alone.
- Config.LoadConfig: `NotFound` models the `ConfigFileNotFoundError` branch of `config/config.go:128-130` as written. Viper does not reach that branch when the file is named with `SetConfigFile` (`config/config.go:117`), so in the running program a missing file arrives as `Unreadable` with the path error's message.
- Config: `ParseConfig`, `GetConfig` and the viper search paths are left out. The read is an oracle on the normalised path.
- Logging, the log service, bootstrap and routing files are not part of this model.
