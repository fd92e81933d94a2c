/** The part of an Express response object that the handlers use: a status
    and a body, sent at most once. */
module Http {
  import opened Values

  datatype Body =
    | JsonBody(json: Json)
    /** `res.send(text)` */
    | Text(text: string)
    /** A JPEG image sent from its base64 text (the decoding itself is not modelled). */
    | Jpeg(base64: string)

  datatype Reply = Reply(status: nat, body: Body)

  /** `{ error: message }` */
  function ErrorJson(message: string): Json {
    JObj(map["error" := JStr(message)])
  }

  class Response {
    /** The reply sent so far; `headersSent` in Express terms is `reply.Some?`. */
    var reply: Option<Reply>

    constructor()
      ensures reply == None
    {
      reply := None;
    }

    predicate HeadersSent()
      reads this
    {
      reply.Some?
    }

    /** `res.status(s).json(b)` / `res.send(b)`. Express refuses a second
        reply on the same response, so callers must not have sent one. */
    method Send(r: Reply)
      requires reply == None
      modifies this
      ensures reply == Some(r)
    {
      reply := Some(r);
    }
  }
}
