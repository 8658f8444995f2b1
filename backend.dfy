/** The values exchanged with the hosted message table. */
module Backend {
  import opened Wrappers

  /** A row of the `messages` table. */
  datatype Message = Message(id: string, username: string, content: string, createdAt: string)

  /** The row handed to `insert`: everything but the id, which the backend assigns. */
  datatype InsertRequest = InsertRequest(username: string, content: string, createdAt: string)

  /** The `{ data, error }` pair a `select` resolves to; a present error is truthy. */
  datatype FetchResponse = FetchResponse(data: Option<seq<Message>>, error: Option<string>)
}
