/** The request and channel-message types shared by the query handlers
    (products-service/src/models/ai_query.go). */
module AiQuery {

  datatype AiQueryParams = AiQueryParams(
    query: string,
    sessionId: string,
    userId: string,
    orgId: string)

  /** One value received from the producer's channel: a text chunk, or an
      error (a `MessageChanStruct` whose `Err` is non-nil). Closing the
      channel is the end of the sequence that carries these messages. */
  datatype Message = Chunk(text: string) | Failure(error: string)
}
