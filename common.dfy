/** Vocabulary shared by the routing and delivery engine: the two upstream
    processors, optional values, and what an outbound HTTP call can do. */
module Common {

  datatype Option<+T> = None | Some(value: T)

  /** The two interchangeable upstream payment processors. */
  datatype Processor = Default | Fallback

  /** The processor that is not `p`: where a second attempt is sent. */
  function Other(p: Processor): (q: Processor)
    ensures q != p
    ensures p == Default <==> q == Fallback
  {
    if p == Default then Fallback else Default
  }

  /** A payment to deliver: the caller's correlation identifier and the
      amount, in integer cents. */
  datatype Payment = Payment(correlationId: string, amount: int)

  /** The base URLs of the two processors, read from the environment at start-up. */
  datatype Urls = Urls(defaultUrl: string, fallbackUrl: string)

  function UrlOf(urls: Urls, p: Processor): string
  {
    if p == Default then urls.defaultUrl else urls.fallbackUrl
  }

  /** The name JavaScript gives the error raised when an abort signal times out. */
  const TIMEOUT_ERROR: string := "TimeoutError"

  /** What one outbound `fetch` does, as seen by its caller: it resolves with a
      2xx response, resolves with any other status, or rejects with an error
      whose `name` is given. */
  datatype FetchOutcome = Ok | NotOk | Threw(errorName: string)
}
