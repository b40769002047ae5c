/**
 * The ledger service and the worksheet as the stores see them. The HTTP
 * call itself is not modelled: every action receives what its awaited
 * `fetch(...)` / `response.json()` produced, as a value.
 */
module Service {
  import opened Common

  /** The parsed JSON body every endpoint answers with. */
  datatype Response<+D> = Response(success: bool, message: string, error: Option<string>, data: Option<D>)

  /** What an awaited service call produced: a parsed body, or an exception (network failure, bad JSON). */
  datatype Reply<+D> = Received(body: Response<D>) | Threw

  /** A success body that carries its payload: the only case in which `data.data.<field>` does not throw. */
  predicate Delivered<D>(reply: Reply<D>) {
    reply.Received? && reply.body.success && reply.body.data.Some?
  }

  /** A success body, whatever its payload. */
  predicate Succeeded<D>(reply: Reply<D>) {
    reply.Received? && reply.body.success
  }

  /** `data.error || data.message`: a non-empty `error` field wins over the message. */
  function ErrorOrMessage<D>(r: Response<D>): (text: string)
    ensures r.error.Some? && r.error.value != "" ==> text == r.error.value
    ensures r.error.None? || r.error.value == "" ==> text == r.message
  {
    NameOr(r.error, r.message)
  }

  /** How the worksheet write (`Excel.run` and its `context.sync` calls) ended. */
  datatype SurfaceResult = Rendered | RenderFailed(message: string)
}
