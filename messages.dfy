/** The records exchanged with the member messages API. */
module Messages {
  import opened Wrappers

  /** One chat message as the API returns it; both fields are always present. */
  datatype Message = Message(userName: string, message: string)

  /** One answer of the API to a page request: the HTTP status and, for a
      JSON payload, the value of its `items` key (`None` when the key is
      missing or its value is null). */
  datatype Response = Response(status: int, items: Option<seq<Message>>)

  /** One `GET` of the messages endpoint with its `skip` and `limit` query parameters. */
  datatype Request = Request(skip: nat, limit: nat)

  /** The remote message API: the response it gives to a request for `(skip, limit)`. */
  type Source = (nat, nat) -> Response
}
