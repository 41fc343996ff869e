/** The retrying HTTP sender: POST a payload, return the body of a 200 response,
    retry 429 and 500 failures a bounded number of times with a fixed pause
    between attempts, and rethrow everything else at once. */
module Sender {
  import opened Js
  import opened Http

  /** `maxRetries` bounds the number of POSTs; `retryInterval` is the pause in milliseconds. */
  datatype RetryPolicy = RetryPolicy(maxRetries: int, retryInterval: int)

  /** How a call of the sender ends: it returns the response body, returns
      `undefined` (the loop never ran), or throws. */
  datatype SendResult = Delivered(data: Json) | Undefined | Thrown(error: HttpError)

  /** A run of the sender: its result, what it did, and the index of the next
      unused network outcome. */
  datatype SendRun = SendRun(result: SendResult, trace: seq<Event>, next: nat)

  /** Only a failure that carries a 429 or 500 response is worth retrying. */
  predicate IsRetryable(e: HttpError) {
    e.response.Some? && (e.response.value.status == 429 || e.response.value.status == 500)
  }

  predicate Retryable(o: Outcome) {
    o.Rejected? && IsRetryable(o.error)
  }

  /** The number of POSTs the policy allows; a non-positive `maxRetries` allows none. */
  function Budget(policy: RetryPolicy): nat {
    if policy.maxRetries <= 0 then 0 else policy.maxRetries
  }

  /** The error the sender raises itself for a resolved response other than 200;
      it carries no response, so it is never retried. */
  function StatusError(status: nat): (e: HttpError)
    ensures e.response.None? && !IsRetryable(e)
  {
    HttpError("Request failed with status code " + NatToString(status), None)
  }

  /** The error raised once the last allowed attempt failed retryably; it
      replaces the last failure and drops its response. */
  function ExhaustedError(last: HttpError, maxRetries: nat): (e: HttpError)
    ensures e.response.None?
  {
    HttpError(last.message + " (after " + NatToString(maxRetries) + " retries)", None)
  }

  /** How a non-retryable outcome ends the loop. */
  function Settle(o: Outcome): SendResult {
    match o
    case Resolved(resp) =>
      if resp.status == 200 then Delivered(resp.data) else Thrown(StatusError(resp.status))
    case Rejected(e) => Thrown(e)
  }

  /** `n` POSTs of the same request with one pause between each two of them. */
  function Schedule(post: Event, pause: Event, n: nat): seq<Event> {
    if n == 0 then []
    else if n == 1 then [post]
    else [post, pause] + Schedule(post, pause, n - 1)
  }

  /** The retry loop entered with `retries` attempts already made; the next POST
      reads `net(start)`. */
  function Attempts(url: string, payload: Payload, policy: RetryPolicy, net: Network,
                    start: nat, retries: nat): (r: SendRun)
    requires retries <= Budget(policy)
    ensures start <= r.next <= start + (Budget(policy) - retries)
    ensures r.trace == Schedule(Post(url, payload), Wait(policy.retryInterval), r.next - start)
    ensures r.result.Undefined? <==> retries == Budget(policy)
    ensures r.result.Undefined? <==> r.next == start
    ensures forall j :: start <= j < r.next - 1 ==> Retryable(net(j))
    ensures r.next > start && !Retryable(net(r.next - 1)) ==> r.result == Settle(net(r.next - 1))
    ensures r.next > start && Retryable(net(r.next - 1)) ==>
              && r.next - start == Budget(policy) - retries
              && r.result == Thrown(ExhaustedError(net(r.next - 1).error, Budget(policy)))
    decreases Budget(policy) - retries
  {
    if retries >= policy.maxRetries then SendRun(Undefined, [], start)
    else
      var o := net(start);
      if !Retryable(o) then SendRun(Settle(o), [Post(url, payload)], start + 1)
      else if retries + 1 == policy.maxRetries then
        SendRun(Thrown(ExhaustedError(o.error, retries + 1)), [Post(url, payload)], start + 1)
      else
        var rest := Attempts(url, payload, policy, net, start + 1, retries + 1);
        SendRun(rest.result, [Post(url, payload), Wait(policy.retryInterval)] + rest.trace, rest.next)
  }

  /** `sendNotification(url, data, retryConfig)` with its POSTs answered by `net`
      from index `start` on. */
  function SendNotification(url: string, payload: Payload, policy: RetryPolicy, net: Network,
                            start: nat): (r: SendRun)
    ensures start <= r.next <= start + Budget(policy)
    ensures r.trace == Schedule(Post(url, payload), Wait(policy.retryInterval), r.next - start)
    ensures r.result.Undefined? <==> policy.maxRetries <= 0
    ensures r.result.Undefined? <==> r.next == start
    ensures forall j :: start <= j < r.next - 1 ==> Retryable(net(j))
    ensures r.next > start && !Retryable(net(r.next - 1)) ==> r.result == Settle(net(r.next - 1))
    ensures r.next > start && Retryable(net(r.next - 1)) ==>
              && r.next - start == Budget(policy)
              && r.result == Thrown(ExhaustedError(net(r.next - 1).error, Budget(policy)))
  {
    Attempts(url, payload, policy, net, start, 0)
  }

  /** The shape of every trace: `n` POSTs, `n - 1` pauses of the configured length,
      and the last event a POST, never a pause. */
  lemma {:induction false} ScheduleShape(post: Event, pause: Event, n: nat)
    requires post.Post? && pause.Wait?
    ensures |Schedule(post, pause, n)| == if n == 0 then 0 else 2 * n - 1
    ensures CountPosts(Schedule(post, pause, n)) == n
    ensures CountWaits(Schedule(post, pause, n)) == if n == 0 then 0 else n - 1
    ensures forall e :: e in Schedule(post, pause, n) ==> e == post || e == pause
    ensures n > 0 ==> Schedule(post, pause, n)[2 * n - 2] == post
    decreases n
  {
    if n > 1 {
      ScheduleShape(post, pause, n - 1);
      CountsAppend([post, pause], Schedule(post, pause, n - 1));
      assert CountPosts([post, pause]) == 1 by {
        assert [post, pause][1..] == [pause];
      }
      assert CountWaits([post, pause]) == 1 by {
        assert [post, pause][1..] == [pause];
      }
    }
  }

  /** A 200 answer to the (k+1)-th POST, after k retryable failures, is returned
      at once: its body is the result and no further POST is made. */
  lemma DeliversFirst200(url: string, payload: Payload, policy: RetryPolicy, net: Network,
                         start: nat, k: nat, body: Json)
    requires k < Budget(policy)
    requires forall j :: start <= j < start + k ==> Retryable(net(j))
    requires net(start + k) == Resolved(HttpResponse(200, body))
    ensures SendNotification(url, payload, policy, net, start).result == Delivered(body)
    ensures SendNotification(url, payload, policy, net, start).next == start + k + 1
  {
    StopsAtFirstTerminal(url, payload, policy, net, start, k);
  }

  /** The first non-retryable outcome within the budget ends the loop: the
      number of POSTs is its position plus one and the result is what it settles to. */
  lemma StopsAtFirstTerminal(url: string, payload: Payload, policy: RetryPolicy, net: Network,
                             start: nat, k: nat)
    requires k < Budget(policy)
    requires forall j :: start <= j < start + k ==> Retryable(net(j))
    requires !Retryable(net(start + k))
    ensures SendNotification(url, payload, policy, net, start).next == start + k + 1
    ensures SendNotification(url, payload, policy, net, start).result == Settle(net(start + k))
  {
  }

  /** An error without a response, or with a status other than 429 and 500, is
      rethrown unchanged after the one POST that produced it, with no pause. */
  lemma NonRetryableRethrown(url: string, payload: Payload, policy: RetryPolicy, net: Network,
                             start: nat, e: HttpError)
    requires policy.maxRetries >= 1
    requires net(start) == Rejected(e)
    requires e.response.None? || (e.response.value.status != 429 && e.response.value.status != 500)
    ensures SendNotification(url, payload, policy, net, start).result == Thrown(e)
    ensures SendNotification(url, payload, policy, net, start).trace == [Post(url, payload)]
  {
    StopsAtFirstTerminal(url, payload, policy, net, start, 0);
  }

  /** A response that resolves with a status other than 200 (a 201, say) turns
      into an error without a response, so it is thrown at once and not retried. */
  lemma Non200ResolvedNotRetried(url: string, payload: Payload, policy: RetryPolicy, net: Network,
                                 start: nat, resp: HttpResponse)
    requires policy.maxRetries >= 1
    requires net(start) == Resolved(resp) && resp.status != 200
    ensures SendNotification(url, payload, policy, net, start).result == Thrown(StatusError(resp.status))
    ensures SendNotification(url, payload, policy, net, start).result.error.response.None?
    ensures SendNotification(url, payload, policy, net, start).trace == [Post(url, payload)]
  {
    StopsAtFirstTerminal(url, payload, policy, net, start, 0);
  }

  /** If every allowed attempt fails with 429 or 500, exactly `maxRetries` POSTs
      are made with `maxRetries - 1` pauses, and the error thrown carries the last
      failure's message followed by the retry count. */
  lemma ExhaustsBudget(url: string, payload: Payload, policy: RetryPolicy, net: Network, start: nat)
    requires policy.maxRetries >= 1
    requires forall j :: start <= j < start + policy.maxRetries ==> Retryable(net(j))
    ensures var r := SendNotification(url, payload, policy, net, start);
            && r.next == start + policy.maxRetries
            && CountPosts(r.trace) == policy.maxRetries
            && CountWaits(r.trace) == policy.maxRetries - 1
            && r.result == Thrown(HttpError(net(start + policy.maxRetries - 1).error.message
                                              + " (after " + NatToString(policy.maxRetries) + " retries)",
                                            None))
  {
    var r := SendNotification(url, payload, policy, net, start);
    assert r.next > start;
    assert Retryable(net(r.next - 1));
    ScheduleShape(Post(url, payload), Wait(policy.retryInterval), r.next - start);
  }

  /** With a non-positive `maxRetries` the loop body never runs: no POST, no
      pause, and the call returns `undefined` instead of throwing. */
  lemma NoBudgetNoPost(url: string, payload: Payload, policy: RetryPolicy, net: Network, start: nat)
    requires policy.maxRetries <= 0
    ensures SendNotification(url, payload, policy, net, start) == SendRun(Undefined, [], start)
  {
  }

  /** How many POSTs the sender makes depends only on which outcomes are
      retryable, not on what else they carry. */
  lemma SameRetryablePattern(url: string, payload: Payload, policy: RetryPolicy,
                             net1: Network, net2: Network, start: nat)
    requires forall j :: Retryable(net1(j)) <==> Retryable(net2(j))
    ensures SendNotification(url, payload, policy, net1, start).next
         == SendNotification(url, payload, policy, net2, start).next
  {
  }

  /** Three 500s in a row with `maxRetries` 3: exactly three POSTs, then the final error. */
  lemma ThreeServerErrors(url: string, payload: Payload)
    ensures var net: Network := _ => Rejected(HttpError("Request failed with status code 500",
                                                         Some(HttpResponse(500, JNull))));
            var r := SendNotification(url, payload, RetryPolicy(3, 10), net, 0);
            && CountPosts(r.trace) == 3
            && r.result.Thrown?
            && r.result.error.message == "Request failed with status code 500 (after 3 retries)"
  {
    var net: Network := _ => Rejected(HttpError("Request failed with status code 500",
                                                 Some(HttpResponse(500, JNull))));
    ExhaustsBudget(url, payload, RetryPolicy(3, 10), net, 0);
    assert NatToString(3) == "3";
  }

  /** Two 429s and then a 200: the body of the 200 is returned after two retries. */
  lemma TwoRateLimitsThenOk(url: string, payload: Payload, body: Json)
    ensures var net: Network := i => if i < 2 then Rejected(HttpError("Too Many Requests",
                                                                       Some(HttpResponse(429, JNull))))
                                     else Resolved(HttpResponse(200, body));
            var r := SendNotification(url, payload, RetryPolicy(3, 10), net, 0);
            && r.result == Delivered(body)
            && CountPosts(r.trace) == 3
            && CountWaits(r.trace) == 2
  {
    var net: Network := i => if i < 2 then Rejected(HttpError("Too Many Requests",
                                                               Some(HttpResponse(429, JNull))))
                             else Resolved(HttpResponse(200, body));
    DeliversFirst200(url, payload, RetryPolicy(3, 10), net, 0, 2, body);
    ScheduleShape(Post(url, payload), Wait(10), 3);
  }
}
