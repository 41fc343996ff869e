/** The notification orchestrator: look the user up, pick the enabled channels
    that have a strategy, send through the context once per channel while turning
    each channel's failure into an error record, and count the successes. */
module NotificationService {
  import opened Js
  import opened Http
  import opened Users
  import opened UserRepository
  import opened Strategies
  import opened NotificationContext
  import opened ResponseUtils

  /** The strategy registry `{email, sms}`, consulted by own key only. */
  function Registry(name: string): (c: Option<Channel>)
    ensures c.Some? <==> name == "email" || name == "sms"
    ensures c.Some? ==> c.value.Name() == name
  {
    if name == "email" then Some(Email) else if name == "sms" then Some(Sms) else None
  }

  /** `preferences[channel]` is truthy. */
  predicate Enabled(p: Prefs, name: string) {
    Lookup(p, name).Some? && Truthy(Lookup(p, name).value)
  }

  /** `getSupportedChannels(preferences)`: the keys whose value is truthy and that
      have a registered strategy. */
  function SupportedChannels(p: Prefs): (cs: seq<string>)
    ensures forall i :: 0 <= i < |cs| ==> cs[i] in Keys(p) && Registry(cs[i]).Some?
    ensures forall name :: name in cs <==> Enabled(p, name) && Registry(name).Some?
  {
    if |p| == 0 then []
    else
      var rest := SupportedChannels(p[1..]);
      KeysCons(p);
      assert forall name :: name != p[0].0 ==> Lookup(p, name) == Lookup(p[1..], name);
      if Truthy(p[0].1) && Registry(p[0].0).Some? then [p[0].0] + rest else rest
  }

  /** The supported channels come in the preferences' iteration order. */
  lemma {:induction false} SupportedChannelsInKeyOrder(p: Prefs)
    ensures InKeyOrder(p, SupportedChannels(p))
    decreases |p|
  {
    if |p| > 0 {
      var rest := SupportedChannels(p[1..]);
      SupportedChannelsInKeyOrder(p[1..]);
      TailOrderLifts(p, rest);
      if Truthy(p[0].1) && Registry(p[0].0).Some? {
        assert SupportedChannels(p) == [p[0].0] + rest;
      } else {
        assert SupportedChannels(p) == rest;
      }
    }
  }

  /** No channel is attempted twice: the list has no repeated names. */
  lemma SupportedChannelsDistinct(p: Prefs)
    ensures var cs := SupportedChannels(p);
            forall i, j :: 0 <= i < j < |cs| ==> cs[i] != cs[j]
  {
    SupportedChannelsInKeyOrder(p);
  }

  /** The strategy `sendToChannel` constructs for a registered channel. */
  function MakeStrategy(c: Channel, config: ServiceConfig): (s: Strategy)
    ensures s.Channel() == c && s.config == config
  {
    match c
    case Email => EmailStrategy(config)
    case Sms => SmsStrategy(config)
  }

  /** How `sendToChannel` ends: `null` for an unregistered channel, the
      strategy's record, or the strategy's error thrown on. */
  datatype ChannelReply = Null | Returned(record: SentRecord) | Threw(error: HttpError)

  datatype ChannelRun = ChannelRun(reply: ChannelReply, context: Context, trace: seq<Event>, next: nat)

  /** `sendToChannel(channel, user, message, context)`. */
  function SendToChannel(channel: string, user: User, message: string, ctx: Context, config: ServiceConfig,
                         net: Network, start: nat): (r: ChannelRun)
    ensures Registry(channel).None? ==> r == ChannelRun(Null, ctx, [], start)
    ensures Registry(channel).Some? ==>
              var s := MakeStrategy(Registry(channel).value, config);
              var run := Send(s, user, message, net, start);
              && r.context == Context(Some(s))
              && r.trace == run.trace && r.next == run.next
              && (run.result.Sent? ==> r.reply == Returned(run.result.record))
              && (run.result.Failed? ==> r.reply == Threw(run.result.error))
  {
    match Registry(channel)
    case None => ChannelRun(Null, ctx, [], start)
    case Some(c) =>
      var ctx' := SetStrategy(ctx, Some(MakeStrategy(c, config)));
      var run := NotificationContext.SendNotification(ctx', user, message, net, start);
      match run.result
      case Sent(record) => ChannelRun(Returned(record), ctx', run.trace, run.next)
      case Failed(e) => ChannelRun(Threw(e), ctx', run.trace, run.next)
  }

  /** One entry of `responses`: the strategy's record, or an error record. */
  datatype ChannelResponse = Success(record: SentRecord) | Failure(failure: ErrorRecord)

  /** `r.error` is truthy: only error records have it, and their text is never empty. */
  predicate HasError(r: ChannelResponse) {
    r.Failure? && r.failure.error != ""
  }

  /** The response is about `channel`: a record sent on it, or an error naming it. */
  predicate RespondsFor(r: ChannelResponse, channel: string) {
    match r
    case Success(record) => record.channel == channel
    case Failure(e) => channel + " error: " <= e.error
  }

  const NoResponseMessage: string := "No response from channel"

  datatype ProcessRun = ProcessRun(response: ChannelResponse, context: Context, trace: seq<Event>, next: nat)

  /** `processChannel(channel, user, message, context)`: it never throws. For a
      registered channel it does what that channel's strategy does, turning a
      thrown error into an error record; an unregistered channel gets the
      "No response from channel" record. */
  function ProcessChannel(channel: string, user: User, message: string, ctx: Context, config: ServiceConfig,
                          net: Network, start: nat): (r: ProcessRun)
    ensures Registry(channel).Some? ==>
              var run := Send(MakeStrategy(Registry(channel).value, config), user, message, net, start);
              && r.trace == run.trace && r.next == run.next
              && (run.result.Sent? ==> r.response == Success(run.result.record))
              && (run.result.Failed? ==> r.response == Failure(CreateErrorResponse(channel, run.result.error)))
    ensures RespondsFor(r.response, channel)
    ensures r.response.Failure? <==> HasError(r.response)
    ensures Registry(channel).None? ==>
              r.response == Failure(CreateErrorResponse(channel, HttpError(NoResponseMessage, None)))
              && r.trace == [] && r.next == start
    ensures r.response.Success? ==>
              && Registry(channel).Some?
              && r.response.record
                 == SentRecord("sent", channel,
                               Recipient(MakeStrategy(Registry(channel).value, config), user), message)
    ensures start <= r.next
  {
    var run := SendToChannel(channel, user, message, ctx, config, net, start);
    match run.reply
    case Returned(record) => ProcessRun(Success(record), run.context, run.trace, run.next)
    case Null => ProcessRun(Failure(CreateErrorResponse(channel, HttpError(NoResponseMessage, None))),
                            run.context, run.trace, run.next)
    case Threw(e) => ProcessRun(Failure(CreateErrorResponse(channel, e)), run.context, run.trace, run.next)
  }

  datatype BatchRun = BatchRun(responses: seq<ChannelResponse>, context: Context, trace: seq<Event>, next: nat)

  /** The `for (const channel of supportedChannels)` loop of `sendNotifications`. */
  function ProcessChannels(channels: seq<string>, user: User, message: string, ctx: Context,
                           config: ServiceConfig, net: Network, start: nat): (r: BatchRun)
    ensures |r.responses| == |channels|
    ensures start <= r.next
    decreases |channels|
  {
    if |channels| == 0 then BatchRun([], ctx, [], start)
    else
      var first := ProcessChannel(channels[0], user, message, ctx, config, net, start);
      var rest := ProcessChannels(channels[1..], user, message, first.context, config, net, first.next);
      BatchRun([first.response] + rest.responses, rest.context, first.trace + rest.trace, rest.next)
  }

  /** `responses[i]` answers for the i-th channel: every channel gets its own
      response, in order, whatever happened on the others. */
  lemma {:induction false} ResponsesFollowChannels(channels: seq<string>, user: User, message: string,
                                                   ctx: Context, config: ServiceConfig, net: Network, start: nat)
    ensures var r := ProcessChannels(channels, user, message, ctx, config, net, start);
            forall i :: 0 <= i < |channels| ==> RespondsFor(r.responses[i], channels[i])
    decreases |channels|
  {
    if |channels| > 0 {
      var head := ProcessChannel(channels[0], user, message, ctx, config, net, start);
      ResponsesFollowChannels(channels[1..], user, message, head.context, config, net, head.next);
    }
  }

  /** Processing a channel on its own, from a given POST number, in a fresh context. */
  function Alone(user: User, message: string, config: ServiceConfig, net: Network): (string, nat) -> ProcessRun {
    (channel: string, start: nat) => ProcessChannel(channel, user, message, NewContext(None), config, net, start)
  }

  /** What `processChannel` reports, POSTs and consumes does not depend on the
      context it is handed. */
  lemma ProcessChannelContextFree(channel: string, user: User, message: string, ctx: Context,
                                  config: ServiceConfig, net: Network, start: nat)
    ensures var r := ProcessChannel(channel, user, message, ctx, config, net, start);
            var c := Alone(user, message, config, net)(channel, start);
            r.response == c.response && r.trace == c.trace && r.next == c.next
  {
  }

  /** The index of the first POST of the i-th channel: where channel i-1 stopped. */
  function ChannelStart(channels: seq<string>, alone: (string, nat) -> ProcessRun, start: nat, i: nat): nat
    requires i <= |channels|
    decreases i
  {
    if i == 0 then start else alone(channels[i - 1], ChannelStart(channels, alone, start, i - 1)).next
  }

  /** The POSTs and pauses of each channel in turn. */
  function ChannelTraces(channels: seq<string>, alone: (string, nat) -> ProcessRun, start: nat): (ts: seq<seq<Event>>)
    ensures |ts| == |channels|
  {
    seq(|channels|, i requires 0 <= i < |channels| => alone(channels[i], ChannelStart(channels, alone, start, i)).trace)
  }

  function Flatten(ts: seq<seq<Event>>): seq<Event> {
    if |ts| == 0 then [] else ts[0] + Flatten(ts[1..])
  }

  /** Past the first channel, the start indices are those of the remaining
      channels begun where the first one stopped. */
  lemma {:induction false} ChannelStartTail(channels: seq<string>, alone: (string, nat) -> ProcessRun,
                                            start: nat, i: nat)
    requires i < |channels|
    ensures ChannelStart(channels, alone, start, i + 1)
         == ChannelStart(channels[1..], alone, alone(channels[0], start).next, i)
    decreases i
  {
    if i > 0 {
      ChannelStartTail(channels, alone, start, i - 1);
      assert channels[1..][i - 1] == channels[i];
    }
  }

  lemma ChannelTracesTail(channels: seq<string>, alone: (string, nat) -> ProcessRun, start: nat)
    requires |channels| > 0
    ensures ChannelTraces(channels, alone, start)
         == [alone(channels[0], start).trace] + ChannelTraces(channels[1..], alone, alone(channels[0], start).next)
  {
    var ts := ChannelTraces(channels, alone, start);
    var rest := ChannelTraces(channels[1..], alone, alone(channels[0], start).next);
    forall i | 1 <= i < |channels|
      ensures ts[i] == rest[i - 1]
    {
      ChannelStartTail(channels, alone, start, i - 1);
      assert channels[1..][i - 1] == channels[i];
    }
    assert ChannelStart(channels, alone, start, 0) == start;
    assert ts[0] == alone(channels[0], start).trace;
    assert ts == [ts[0]] + rest;
  }

  /** The loop processes the channels one after the other: the i-th response is
      what the i-th channel reports on its own when started where channel i-1
      stopped, the trace is the channels' traces in order, and the loop stops
      where the last channel stopped. No channel's outcome depends on anything
      but its own POSTs. */
  lemma {:induction false} ChannelsRunInTurn(channels: seq<string>, user: User, message: string, ctx: Context,
                                             config: ServiceConfig, net: Network, start: nat)
    ensures var r := ProcessChannels(channels, user, message, ctx, config, net, start);
            var alone := Alone(user, message, config, net);
            && (forall i :: 0 <= i < |channels| ==>
                  r.responses[i] == alone(channels[i], ChannelStart(channels, alone, start, i)).response)
            && r.trace == Flatten(ChannelTraces(channels, alone, start))
            && r.next == ChannelStart(channels, alone, start, |channels|)
    decreases |channels|
  {
    var r := ProcessChannels(channels, user, message, ctx, config, net, start);
    var alone := Alone(user, message, config, net);
    if |channels| > 0 {
      var first := ProcessChannel(channels[0], user, message, ctx, config, net, start);
      ProcessChannelContextFree(channels[0], user, message, ctx, config, net, start);
      var rest := ProcessChannels(channels[1..], user, message, first.context, config, net, first.next);
      ChannelsRunInTurn(channels[1..], user, message, first.context, config, net, first.next);
      BatchStep(channels, alone, start, r.responses, r.trace, r.next, first, rest.responses, rest.trace);
    }
  }

  /** One step of the loop, stated over an arbitrary per-channel step: if the
      first channel's run is followed by runs in turn of the others, all the
      channels run in turn. */
  lemma BatchStep(channels: seq<string>, alone: (string, nat) -> ProcessRun, start: nat,
                  responses: seq<ChannelResponse>, trace: seq<Event>, next: nat,
                  first: ProcessRun, restResponses: seq<ChannelResponse>, restTrace: seq<Event>)
    requires |channels| > 0
    requires first.response == alone(channels[0], start).response
    requires first.trace == alone(channels[0], start).trace
    requires first.next == alone(channels[0], start).next
    requires responses == [first.response] + restResponses && trace == first.trace + restTrace
    requires |restResponses| == |channels| - 1
    requires forall i :: 0 <= i < |channels| - 1 ==>
               restResponses[i] == alone(channels[1..][i], ChannelStart(channels[1..], alone, first.next, i)).response
    requires restTrace == Flatten(ChannelTraces(channels[1..], alone, first.next))
    requires next == ChannelStart(channels[1..], alone, first.next, |channels| - 1)
    ensures forall i :: 0 <= i < |channels| ==>
              responses[i] == alone(channels[i], ChannelStart(channels, alone, start, i)).response
    ensures trace == Flatten(ChannelTraces(channels, alone, start))
    ensures next == ChannelStart(channels, alone, start, |channels|)
  {
    forall i | 1 <= i < |channels|
      ensures responses[i] == alone(channels[i], ChannelStart(channels, alone, start, i)).response
    {
      ChannelStartTail(channels, alone, start, i - 1);
      assert channels[1..][i - 1] == channels[i];
    }
    ChannelTracesTail(channels, alone, start);
    var ts := ChannelTraces(channels, alone, start);
    assert ts[1..] == ChannelTraces(channels[1..], alone, first.next);
    ChannelStartTail(channels, alone, start, |channels| - 1);
  }

  /** `responses.filter(r => !r.error).length`. */
  function CountSuccesses(rs: seq<ChannelResponse>): (n: nat)
    ensures n <= |rs|
    ensures n == |rs| <==> forall i :: 0 <= i < |rs| ==> !HasError(rs[i])
    ensures n == 0 <==> forall i :: 0 <= i < |rs| ==> HasError(rs[i])
  {
    if |rs| == 0 then 0
    else
      var rest := CountSuccesses(rs[1..]);
      assert forall i :: 1 <= i < |rs| ==> rs[i] == rs[1..][i - 1];
      (if HasError(rs[0]) then 0 else 1) + rest
  }

  /** The positions of the responses that carry no error. */
  function SuccessIndices(rs: seq<ChannelResponse>): set<int> {
    set i | 0 <= i < |rs| && !HasError(rs[i])
  }

  lemma {:induction false} CountSuccessesSnoc(rs: seq<ChannelResponse>, r: ChannelResponse)
    ensures CountSuccesses(rs + [r]) == CountSuccesses(rs) + (if HasError(r) then 0 else 1)
    decreases |rs|
  {
    if |rs| == 0 {
      assert rs + [r] == [r];
    } else {
      assert (rs + [r])[1..] == rs[1..] + [r];
      CountSuccessesSnoc(rs[1..], r);
    }
  }

  /** The count is the number of positions whose response has no error. */
  lemma {:induction false} CountSuccessesCountsIndices(rs: seq<ChannelResponse>)
    ensures CountSuccesses(rs) == |SuccessIndices(rs)|
    decreases |rs|
  {
    if |rs| > 0 {
      var n := |rs| - 1;
      var front := rs[..n];
      assert rs == front + [rs[n]];
      CountSuccessesSnoc(front, rs[n]);
      CountSuccessesCountsIndices(front);
      var extra: set<int> := if HasError(rs[n]) then {} else {n};
      assert SuccessIndices(rs) == SuccessIndices(front) + extra by {
        forall i | i in SuccessIndices(rs)
          ensures i in SuccessIndices(front) + extra
        {
          if i < n {
            assert front[i] == rs[i];
          }
        }
        forall i | i in SuccessIndices(front)
          ensures i in SuccessIndices(rs)
        {
          assert front[i] == rs[i];
        }
      }
      assert n !in SuccessIndices(front);
    }
  }

  /** `{responses, successfulChannels, totalChannels}`. */
  datatype DispatchResult = DispatchResult(responses: seq<ChannelResponse>, successfulChannels: nat,
                                           totalChannels: nat)

  /** How `sendNotifications` ends: it throws "User not found", or returns its result. */
  datatype Dispatch =
    | UserNotFound
    | Dispatched(result: DispatchResult, trace: seq<Event>, next: nat)

  const UserNotFoundMessage: string := "User not found"

  /** `sendNotifications(userRepository, userId, message)`. */
  function SendNotifications(repo: Repository, userId: int, message: string, config: ServiceConfig,
                             net: Network, start: nat): (r: Dispatch)
    ensures r.UserNotFound? <==> GetUser(repo, userId).None?
    ensures r.Dispatched? ==>
              var channels := SupportedChannels(GetUser(repo, userId).value.preferences);
              && |r.result.responses| == r.result.totalChannels == |channels|
              && (forall i :: 0 <= i < |channels| ==> RespondsFor(r.result.responses[i], channels[i]))
              && r.result.successfulChannels == |SuccessIndices(r.result.responses)|
              && r.result.successfulChannels <= r.result.totalChannels
              && ((r.result.successfulChannels == r.result.totalChannels)
                  <==> (forall i :: 0 <= i < |channels| ==> !HasError(r.result.responses[i])))
              && ((r.result.successfulChannels == 0)
                  <==> (forall i :: 0 <= i < |channels| ==> HasError(r.result.responses[i])))
    ensures r.Dispatched? ==>
              var user := GetUser(repo, userId).value;
              var channels := SupportedChannels(user.preferences);
              var alone := Alone(user, message, config, net);
              && (forall i :: 0 <= i < |channels| ==>
                    r.result.responses[i] == alone(channels[i], ChannelStart(channels, alone, start, i)).response)
              && r.trace == Flatten(ChannelTraces(channels, alone, start))
              && r.next == ChannelStart(channels, alone, start, |channels|)
  {
    match GetUser(repo, userId)
    case None => UserNotFound
    case Some(user) =>
      var channels := SupportedChannels(user.preferences);
      var batch := ProcessChannels(channels, user, message, NewContext(None), config, net, start);
      ResponsesFollowChannels(channels, user, message, NewContext(None), config, net, start);
      ChannelsRunInTurn(channels, user, message, NewContext(None), config, net, start);
      CountSuccessesCountsIndices(batch.responses);
      Dispatched(DispatchResult(batch.responses, CountSuccesses(batch.responses), |channels|),
                 batch.trace, batch.next)
  }

  /** What processing one channel yields, whatever context it starts from:
      the context's previous strategy is replaced before it is used. */
  lemma ContextIrrelevant(channel: string, user: User, message: string, ctx1: Context, ctx2: Context,
                          config: ServiceConfig, net: Network, start: nat)
    requires Registry(channel).Some?
    ensures ProcessChannel(channel, user, message, ctx1, config, net, start)
         == ProcessChannel(channel, user, message, ctx2, config, net, start)
  {
  }

  /** The configuration's defaults. */
  function DefaultConfig(host: string): ServiceConfig {
    ServiceConfig(host, Endpoints("/send-email", "/send-sms"), Sender.RetryPolicy(5, 2000))
  }

  /** User 2 (email on, SMS off) with a service that answers 200: only email is
      attempted, it succeeds, and the request is reported as sent. */
  lemma LokiGetsEmailOnly(host: string)
    ensures var net: Network := _ => Resolved(HttpResponse(200, JObject));
            var r := SendNotifications(Initial(), 2, "Hello", DefaultConfig(host), net, 0);
            && r.Dispatched?
            && r.result == DispatchResult([Success(SentRecord("sent", "email", "loki@avengers.com", "Hello"))], 1, 1)
            && r.trace == [Post(host + "/send-email", EmailPayload("loki@avengers.com", "Hello"))]
            && DetermineResponseStatus(r.result.successfulChannels, r.result.totalChannels)
               == StatusReply(200, "Notifications sent")
  {
    var net: Network := _ => Resolved(HttpResponse(200, JObject));
    var config := DefaultConfig(host);
    var user := Initial().users[2];
    assert SupportedChannels(user.preferences) == ["email"] by {
      assert SupportedChannels(user.preferences[1..]) == [];
    }
    var post := Post(host + "/send-email", EmailPayload("loki@avengers.com", "Hello"));
    var email := ProcessChannel("email", user, "Hello", NewContext(None), config, net, 0);
    assert email.response == Success(SentRecord("sent", "email", "loki@avengers.com", "Hello"));
    assert email.trace == [post] && email.next == 1;
    var batch := ProcessChannels(["email"], user, "Hello", NewContext(None), config, net, 0);
    assert batch.responses == [email.response] && batch.trace == [post];
  }

  /** A network that rejects the first POST with `e` and answers 200 to every later one. */
  function FirstRejected(e: HttpError): Network {
    i => if i == 0 then Rejected(e) else Resolved(HttpResponse(200, JNull))
  }

  const Refused400: HttpError := HttpError("Request failed with status code 400", Some(HttpResponse(400, JNull)))

  /** The seeded user 1, with both channels on. */
  const Ironman: User := User(1, "ironman@avengers.com", "+123456789", BothChannels(true, true))

  lemma SeededIronman()
    ensures GetUser(Initial(), 1) == Some(Ironman)
  {
  }

  lemma IronmanEmailRefused(host: string)
    ensures ProcessChannel("email", Ironman, "Hi", NewContext(None), DefaultConfig(host),
                           FirstRejected(Refused400), 0).response
         == Failure(CreateErrorResponse("email", Refused400))
    ensures ProcessChannel("email", Ironman, "Hi", NewContext(None), DefaultConfig(host),
                           FirstRejected(Refused400), 0).next == 1
  {
    var config := DefaultConfig(host);
    var user := Ironman;
    var s := EmailStrategy(config);
    Sender.NonRetryableRethrown(Url(s), PayloadFor(s, user, "Hi"), config.retry, FirstRejected(Refused400), 0, Refused400);
    assert Send(s, user, "Hi", FirstRejected(Refused400), 0).result == Failed(Refused400);
  }

  lemma IronmanSmsSent(host: string, ctx: Context)
    ensures ProcessChannel("sms", Ironman, "Hi", ctx, DefaultConfig(host), FirstRejected(Refused400), 1).response
         == Success(SentRecord("sent", "sms", "+123456789", "Hi"))
  {
    var config := DefaultConfig(host);
    var user := Ironman;
    var s := SmsStrategy(config);
    Sender.DeliversFirst200(Url(s), PayloadFor(s, user, "Hi"), config.retry, FirstRejected(Refused400), 1, 0, JNull);
  }

  lemma BothChannelsOn()
    ensures SupportedChannels(UserRepository.BothChannels(true, true)) == ["email", "sms"]
  {
    var p := UserRepository.BothChannels(true, true);
    assert SupportedChannels(p[1..]) == ["sms"] by {
      assert SupportedChannels(p[1..][1..]) == [];
    }
  }

  /** The loop over user 1's two channels when the email POST is refused with a
      400 and the SMS POST succeeds: both are attempted, in order. */
  lemma IronmanBatch(host: string)
    ensures ProcessChannels(["email", "sms"], Ironman, "Hi", NewContext(None), DefaultConfig(host),
                            FirstRejected(Refused400), 0).responses
         == [Failure(CreateErrorResponse("email", Refused400)),
             Success(SentRecord("sent", "sms", "+123456789", "Hi"))]
  {
    var net := FirstRejected(Refused400);
    var config := DefaultConfig(host);
    var user := Ironman;
    var first := ProcessChannel("email", user, "Hi", NewContext(None), config, net, 0);
    IronmanEmailRefused(host);
    var second := ProcessChannel("sms", user, "Hi", first.context, config, net, 1);
    IronmanSmsSent(host, first.context);
    var rest := ProcessChannels(["sms"], user, "Hi", first.context, config, net, first.next);
    assert rest.responses == [second.response] by {
      assert ["sms"][1..] == [];
    }
    assert ["email", "sms"][1..] == ["sms"];
  }

  /** User 1 (both channels on) when the email POST is refused with a 400 and
      the SMS POST succeeds: the email failure is recorded next to the SMS
      record, and the request is reported as partially sent. */
  lemma IronmanPartialDelivery(host: string)
    ensures var r := SendNotifications(Initial(), 1, "Hi", DefaultConfig(host), FirstRejected(Refused400), 0);
            && r.Dispatched?
            && r.result.responses
               == [Failure(CreateErrorResponse("email", Refused400)),
                   Success(SentRecord("sent", "sms", "+123456789", "Hi"))]
            && r.result.successfulChannels == 1 && r.result.totalChannels == 2
            && DetermineResponseStatus(r.result.successfulChannels, r.result.totalChannels).status == 207
  {
    var config, net := DefaultConfig(host), FirstRejected(Refused400);
    var user := Ironman;
    SeededIronman();
    BothChannelsOn();
    IronmanBatch(host);
    var batch := ProcessChannels(["email", "sms"], user, "Hi", NewContext(None), config, net, 0);
    DispatchesFoundUser(Initial(), 1, user, "Hi", config, net, 0);
    OneOfTwoSucceeds(batch.responses[0], batch.responses[1]);
    assert batch.responses == [batch.responses[0], batch.responses[1]];
  }

  /** A found user's dispatch is the channel loop over its supported channels. */
  lemma DispatchesFoundUser(repo: Repository, userId: int, user: User, message: string, config: ServiceConfig,
                            net: Network, start: nat)
    requires GetUser(repo, userId) == Some(user)
    ensures var channels := SupportedChannels(user.preferences);
            var batch := ProcessChannels(channels, user, message, NewContext(None), config, net, start);
            SendNotifications(repo, userId, message, config, net, start)
            == Dispatched(DispatchResult(batch.responses, CountSuccesses(batch.responses), |channels|),
                          batch.trace, batch.next)
  {
  }

  lemma OneOfTwoSucceeds(failed: ChannelResponse, sent: ChannelResponse)
    requires HasError(failed) && !HasError(sent)
    ensures CountSuccesses([failed, sent]) == 1
  {
    assert [failed, sent][1..] == [sent];
  }

  /** A user that does not exist is reported before any channel is touched. */
  lemma UnknownUserNotFound(repo: Repository, userId: int, message: string, config: ServiceConfig,
                            net: Network, start: nat)
    requires userId !in repo.users
    ensures SendNotifications(repo, userId, message, config, net, start) == UserNotFound
  {
  }

  /** The names a plain JavaScript object answers truthily without having them as
      own keys: the members it inherits from `Object.prototype`. */
  const ObjectPrototypeMembers: set<string> :=
    {"constructor", "hasOwnProperty", "isPrototypeOf", "propertyIsEnumerable", "toLocaleString",
     "toString", "valueOf", "__proto__", "__defineGetter__", "__defineSetter__", "__lookupGetter__",
     "__lookupSetter__"}

  /** `strategies[channel]` as the source evaluates it on the `strategies` object
      literal: own keys and inherited members alike. */
  predicate RegistryHasAsWritten(name: string) {
    Registry(name).Some? || name in ObjectPrototypeMembers
  }

  /** `getSupportedChannels` as written, with the inherited-member lookup. */
  function SupportedChannelsAsWritten(p: Prefs): (cs: seq<string>)
    ensures forall i :: 0 <= i < |cs| ==> cs[i] in Keys(p)
    ensures forall name :: name in cs <==> Enabled(p, name) && RegistryHasAsWritten(name)
  {
    if |p| == 0 then []
    else
      var rest := SupportedChannelsAsWritten(p[1..]);
      assert Keys(p) == [p[0].0] + Keys(p[1..]);
      assert forall name :: name != p[0].0 ==> Lookup(p, name) == Lookup(p[1..], name);
      if Truthy(p[0].1) && RegistryHasAsWritten(p[0].0) then [p[0].0] + rest else rest
  }

  /** A preference `{"constructor": true}` is taken for a supported channel as
      written, although no strategy is registered for it; the own-key lookup
      leaves it out. */
  lemma PrototypeKeyCountedAsWritten()
    ensures SupportedChannelsAsWritten([("constructor", JBool(true))]) == ["constructor"]
    ensures Registry("constructor").None?
    ensures SupportedChannels([("constructor", JBool(true))]) == []
  {
    assert "constructor" in SupportedChannelsAsWritten([("constructor", JBool(true))]);
  }
}
