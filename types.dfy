/** The records the polling loop and the Bot methods exchange with the Bot
    API server, with the fields they read. The server's JSON is already decoded here: a result is
    either absent, a list of updates, or some other JSON text kept opaque. */
module Types {

  /** One incoming event. Only its id matters to the polling loop; the rest of it
      (the message and who sent it) is carried along untouched. */
  datatype Update = Update(UpdateId: int, Payload: string)

  /** Options of a getUpdates polling session. */
  datatype UpdateConfig = UpdateConfig(Offset: int, Limit: int, Timeout: int)

  datatype RawResult = Null | UpdateList(updates: seq<Update>) | Other(json: string)

  /** The envelope every Bot API reply comes in. */
  datatype ApiResponse = ApiResponse(Ok: bool, Result: RawResult, Description: string)

  /** Go's zero value ApiResponse{}. */
  const ZeroResponse := ApiResponse(false, Null, "")
}
