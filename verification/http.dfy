/** The outbound HTTP exchange with the external notification service, reduced to
    what the dispatch pipeline observes: one outcome per POST, errors as values,
    and a trace of the POSTs made and the pauses taken between them. */
module Http {
  import opened Js

  /** A received HTTP response: its status code and decoded body. */
  datatype HttpResponse = HttpResponse(status: nat, data: Json)

  /** A JavaScript `Error` as the pipeline sees it: its `message` and, when the HTTP
      client raised it about a response it received, that `response`. */
  datatype HttpError = HttpError(message: string, response: Option<HttpResponse>)

  /** What one `axios.post` call does: resolve with a response, or reject with an error.
      Which statuses resolve and which reject is the client's business, so any
      combination is allowed here. */
  datatype Outcome = Resolved(response: HttpResponse) | Rejected(error: HttpError)

  /** The environment: the outcome of the n-th POST the process makes. */
  type Network = nat -> Outcome

  /** The JSON bodies the channel strategies send: `{email, message}` and `{telephone, message}`. */
  datatype Payload =
    | EmailPayload(email: string, message: string)
    | SmsPayload(telephone: string, message: string)

  /** What the sender does observably: a POST of a payload to a URL, or a pause of
      `ms` milliseconds before the next POST. */
  datatype Event = Post(url: string, payload: Payload) | Wait(ms: int)

  function CountPosts(t: seq<Event>): (n: nat)
    ensures n <= |t|
  {
    if |t| == 0 then 0 else (if t[0].Post? then 1 else 0) + CountPosts(t[1..])
  }

  function CountWaits(t: seq<Event>): (n: nat)
    ensures n <= |t|
  {
    if |t| == 0 then 0 else (if t[0].Wait? then 1 else 0) + CountWaits(t[1..])
  }

  lemma {:induction false} CountsAppend(a: seq<Event>, b: seq<Event>)
    ensures CountPosts(a + b) == CountPosts(a) + CountPosts(b)
    ensures CountWaits(a + b) == CountWaits(a) + CountWaits(b)
    decreases |a|
  {
    if |a| > 0 {
      assert (a + b)[1..] == a[1..] + b;
      CountsAppend(a[1..], b);
    } else {
      assert a + b == b;
    }
  }
}
