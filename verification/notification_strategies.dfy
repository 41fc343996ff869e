/** The channel strategies: email and SMS. Each builds its endpoint URL and JSON
    payload, hands them to the retrying sender with the configured retry policy,
    and on success reports a fixed "sent" record whatever the remote answered. */
module Strategies {
  import opened Http
  import opened Sender
  import opened Users

  datatype Endpoints = Endpoints(email: string, sms: string)

  /** The notification-service section of the configuration. */
  datatype ServiceConfig = ServiceConfig(host: string, endpoints: Endpoints, retry: RetryPolicy)

  /** The channels with a registered strategy. */
  datatype Channel = Email | Sms {
    function Name(): string {
      match this
      case Email => "email"
      case Sms => "sms"
    }
  }

  /** A strategy instance, built with the configuration it was constructed with. */
  datatype Strategy = EmailStrategy(config: ServiceConfig) | SmsStrategy(config: ServiceConfig) {
    function Channel(): Channel {
      match this
      case EmailStrategy(_) => Email
      case SmsStrategy(_) => Sms
    }
  }

  /** `{status: "sent", channel, to, message}`. */
  datatype SentRecord = SentRecord(status: string, channel: string, to: string, message: string)

  /** How `send` ends: it returns a record, or the sender's error escapes it. */
  datatype StrategyResult = Sent(record: SentRecord) | Failed(error: HttpError)

  datatype StrategyRun = StrategyRun(result: StrategyResult, trace: seq<Event>, next: nat)

  /** `${host}${endpoint}` for the strategy's channel. */
  function Url(s: Strategy): string {
    match s
    case EmailStrategy(c) => c.host + c.endpoints.email
    case SmsStrategy(c) => c.host + c.endpoints.sms
  }

  /** The request body: `{email, message}` or `{telephone, message}`. */
  function PayloadFor(s: Strategy, user: User, message: string): Payload {
    match s
    case EmailStrategy(_) => EmailPayload(user.email, message)
    case SmsStrategy(_) => SmsPayload(user.telephone, message)
  }

  /** The address the channel delivers to. */
  function Recipient(s: Strategy, user: User): string {
    match s
    case EmailStrategy(_) => user.email
    case SmsStrategy(_) => user.telephone
  }

  /** `strategy.send(user, message)` with the POSTs answered by `net` from `start` on. */
  function Send(s: Strategy, user: User, message: string, net: Network, start: nat): (r: StrategyRun)
    ensures var run := SendNotification(Url(s), PayloadFor(s, user, message), s.config.retry, net, start);
            && r.trace == run.trace
            && r.next == run.next
            && (r.result.Failed? <==> run.result.Thrown?)
            && (r.result.Failed? ==> r.result.error == run.result.error)
    ensures r.result.Sent? ==>
              r.result.record == SentRecord("sent", s.Channel().Name(), Recipient(s, user), message)
    ensures forall e :: e in r.trace && e.Post? ==> e.url == Url(s) && e.payload == PayloadFor(s, user, message)
  {
    var run := SendNotification(Url(s), PayloadFor(s, user, message), s.config.retry, net, start);
    ScheduleShape(Post(Url(s), PayloadFor(s, user, message)), Wait(s.config.retry.retryInterval), run.next - start);
    match run.result
    case Thrown(e) => StrategyRun(Failed(e), run.trace, run.next)
    case _ => StrategyRun(Sent(SentRecord("sent", s.Channel().Name(), Recipient(s, user), message)), run.trace, run.next)
  }

  /** The email strategy POSTs `{email: user.email, message}` to the host joined
      with the email path, and reports success to `user.email`. */
  lemma EmailRequestAndRecord(c: ServiceConfig, user: User, message: string, net: Network, start: nat)
    ensures var r := Send(EmailStrategy(c), user, message, net, start);
            && (forall e :: e in r.trace && e.Post? ==>
                  e == Post(c.host + c.endpoints.email, EmailPayload(user.email, message)))
            && (r.result.Sent? ==> r.result.record == SentRecord("sent", "email", user.email, message))
  {
  }

  /** The SMS strategy POSTs `{telephone: user.telephone, message}` to the host
      joined with the SMS path, and reports success to `user.telephone`. */
  lemma SmsRequestAndRecord(c: ServiceConfig, user: User, message: string, net: Network, start: nat)
    ensures var r := Send(SmsStrategy(c), user, message, net, start);
            && (forall e :: e in r.trace && e.Post? ==>
                  e == Post(c.host + c.endpoints.sms, SmsPayload(user.telephone, message)))
            && (r.result.Sent? ==> r.result.record == SentRecord("sent", "sms", user.telephone, message))
  {
  }

  /** What the remote service puts in its 200 body never changes the result:
      two networks that differ only in that body give the same run. */
  lemma ResponseBodyIgnored(s: Strategy, user: User, message: string, net1: Network, net2: Network,
                            start: nat)
    requires forall j :: (net1(j).Resolved? && net1(j).response.status == 200)
                     <==> (net2(j).Resolved? && net2(j).response.status == 200)
    requires forall j :: !(net1(j).Resolved? && net1(j).response.status == 200) ==> net1(j) == net2(j)
    ensures Send(s, user, message, net1, start) == Send(s, user, message, net2, start)
  {
    var url, payload, policy := Url(s), PayloadFor(s, user, message), s.config.retry;
    var r1 := SendNotification(url, payload, policy, net1, start);
    var r2 := SendNotification(url, payload, policy, net2, start);
    SameRetryablePattern(url, payload, policy, net1, net2, start);
  }

  /** With a non-positive `maxRetries` the sender returns `undefined` without a
      POST, and the strategy still reports the notification as sent. */
  lemma NoBudgetReportsSent(s: Strategy, user: User, message: string, net: Network, start: nat)
    requires s.config.retry.maxRetries <= 0
    ensures Send(s, user, message, net, start)
         == StrategyRun(Sent(SentRecord("sent", s.Channel().Name(), Recipient(s, user), message)), [], start)
  {
  }
}
