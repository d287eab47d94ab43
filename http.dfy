/** The parts of an HTTP answer the handlers set: a status code and a JSON
    body of one of four shapes. */
module Http {
  import opened ShoppingItems

  const OK: nat := 200
  const BadRequest: nat := 400
  const NotFound: nat := 404
  const ServerError: nat := 500

  datatype Payload =
    | ListBody(items: seq<Item>)   // `{ items: [...] }`
    | ItemBody(item: Item)         // one item
    | MessageBody(message: string) // `{ message: ... }`
    | ErrorBody(error: string)     // `{ error: ... }`

  datatype Response = Response(status: nat, payload: Payload)
}
