# Notification dispatch: a Dafny model

This project models the core of a small Node.js notification service. A client
asks for a message to go to a user. The service looks the user up in an in-memory
repository and picks the channels that the user's preferences enable and that
have a registered strategy (`email`, `sms`). It then sends through a strategy
context once per channel, and each strategy POSTs to an external notification
service through a retrying HTTP sender. A failure on one channel becomes an error
record for that channel and does not stop the others. Finally the service counts
the successes, and a classifier turns the counts into an HTTP status and a
summary message.

Everything is modelled as pure functions over immutable datatypes:

- `Js` covers JSON values, JavaScript truthiness and the decimal rendering of
  integers in template literals.
- `Http` covers the outcome of one `axios.post`, the request payloads, and a
  trace of POSTs and pauses.
- `Sender` is the retry loop. It is a recursive function over a network
  `nat -> Outcome`, where the n-th POST the process makes reads `net(n)`. Every
  operation that may POST takes the index of its first POST and returns the
  index after its last one.
- `Strategies` holds the email and SMS strategies: URL, payload and the fixed
  "sent" record.
- `NotificationContext` is the one-slot strategy holder.
- `ResponseUtils` holds `createErrorResponse` and `determineResponseStatus`.
- `Users` holds user records. Their preferences are an ordered list of distinct
  keys, which models a JavaScript object's own keys in iteration order. The
  spread merge `{...a, ...b}` is modelled exactly: the keys of `a` keep their
  places and keys new in `b` are appended in `b`'s order.
- `UserRepository` is the seeded map plus the `nextId` counter.
- `NotificationService` is the orchestrator.

With `maxRetries <= 0` the sender's loop `while (retries < maxRetries)` never
runs. No POST is made, the sender returns `undefined`, and the strategy still
reports the notification as sent (`Sender.NoBudgetNoPost`,
`Strategies.NoBudgetReportsSent`).

## Model

| member | source | states |
|---|---|---|
| Sender.Attempts | src/utils/notificationSender.js:12-46 | From any retry count within the budget: the POSTs made never exceed the attempts left; the trace is that many POSTs with one pause between each two, recording the delay requested of `setTimeout` (`retryInterval`); every outcome but the last was a 429/500 failure; the loop ends on the first non-retryable outcome with what it settles to, or after the last allowed attempt with the exhaustion error; it returns `undefined` exactly when no attempt was left |
| Sender.SendNotification | src/utils/notificationSender.js:11-47 | At most `maxRetries` POSTs; the trace shape; `undefined` exactly when `maxRetries <= 0`, and exactly when nothing was POSTed; a 200 body, a rethrown non-retryable error, or the exhaustion error after exactly `maxRetries` attempts |
| Sender.StatusError | src/utils/notificationSender.js:25 | The error raised for a resolved non-200 response carries no response, so it is never retryable |
| Sender.ExhaustedError | src/utils/notificationSender.js:40 | The final error replaces the last failure and has no response |
| Sender.ScheduleShape | src/utils/notificationSender.js:39-44 | A trace of n attempts has n POSTs and n-1 pauses, holds only the one request and the one pause, and ends with a POST, never with a pause |
| Sender.DeliversFirst200 | src/utils/notificationSender.js:17-21 | A 200 after k retryable failures is returned at once with its body, after exactly k+1 POSTs |
| Sender.StopsAtFirstTerminal | src/utils/notificationSender.js:30-33 | The first non-retryable outcome within the budget ends the loop, after exactly its own POST |
| Sender.NonRetryableRethrown | src/utils/notificationSender.js:30-33 | An error with no response, or with a status other than 429/500, is rethrown unchanged after one POST and no pause |
| Sender.Non200ResolvedNotRetried | src/utils/notificationSender.js:20-33 | A resolved non-200 response (a 201, say) becomes an error without a response, and it is thrown after one POST |
| Sender.ExhaustsBudget | src/utils/notificationSender.js:36-44 | If every allowed attempt fails with 429/500, there are exactly `maxRetries` POSTs and `maxRetries - 1` pauses, and the error message is the last failure's message followed by " (after N retries)" |
| Sender.NoBudgetNoPost | src/utils/notificationSender.js:12-14 | With `maxRetries <= 0` nothing is POSTed, nothing waits, and the result is `undefined` |
| Sender.SameRetryablePattern | src/utils/notificationSender.js:30-33 | How many POSTs are made depends only on which outcomes are retryable |
| Sender.ThreeServerErrors | src/utils/notificationSender.js:36-41 | With `maxRetries` 3 and a 500 on every call: three POSTs, then "... (after 3 retries)" |
| Sender.TwoRateLimitsThenOk | src/utils/notificationSender.js:17-44 | Two 429s then a 200: the 200 body is returned after three POSTs and two pauses |
| Js.ParseNatToString | src/utils/notificationSender.js:40 | The retry count rendered into the message reads back as the same number |
| Js.NatToStringInjective | src/utils/notificationSender.js:40 | Different retry counts give different messages |
| Strategies.Send | src/notificationStrategies/emailNotificationStrategy.js:16-29 | A strategy's run is the sender's run on its URL, payload and retry policy; it fails exactly when the sender throws, with the same error, and otherwise reports the fixed "sent" record; every POST goes to the strategy's URL with its payload |
| Strategies.EmailRequestAndRecord | src/notificationStrategies/emailNotificationStrategy.js:18-29 | Email POSTs `{email, message}` to host + email path and reports `{sent, email, user.email, message}` |
| Strategies.SmsRequestAndRecord | src/notificationStrategies/smsNotificationStrategy.js:18-29 | SMS POSTs `{telephone, message}` to host + SMS path and reports `{sent, sms, user.telephone, message}` |
| Strategies.ResponseBodyIgnored | src/notificationStrategies/emailNotificationStrategy.js:21-29 | Two networks that differ only in the body of their 200 answers give the same strategy run |
| Strategies.NoBudgetReportsSent | src/notificationStrategies/smsNotificationStrategy.js:21-29 | With `maxRetries <= 0` a strategy reports "sent" without any POST |
| NotificationContext.NewContext | src/notificationContext.js:5-7 | The constructor stores the given strategy, which may be absent |
| NotificationContext.SetStrategy | src/notificationContext.js:11-13 | The context afterwards holds exactly the new strategy |
| NotificationContext.SendNotification | src/notificationContext.js:19-21 | The result is exactly the held strategy's `send`; without a strategy it fails before any POST |
| NotificationContext.LastStrategyWins | src/notificationContext.js:11-21 | After setting s1 and then s2, sending delegates to s2 |
| NotificationContext.EmptyContextFails | src/notificationContext.js:5-21 | A context built without a strategy fails, and sends through a strategy once one is set |
| ResponseUtils.CreateErrorResponse | src/utils/responseUtils.js:7-15 | The error text is the channel, then " error: ", then the error's message; the response is present exactly when the error carried one, with its status and data |
| ResponseUtils.ErrorRecordDeterminesCause | src/utils/responseUtils.js:9 | On one channel, equal error texts come from equal error messages |
| ResponseUtils.DetermineResponseStatus | src/utils/responseUtils.js:23-34 | The status is always 200, 207 or 500: 200 exactly when there is nothing to send or everything succeeded, 207 exactly for a partial success; plus the message belonging to each |
| ResponseUtils.ClassifiesDispatchCounts | src/utils/responseUtils.js:23-34 | For counts with `0 <= successful <= total`: 200 iff nothing failed, 207 iff some but not all succeeded, 500 iff channels were attempted and none succeeded |
| Users.Merge | src/userRepository/inMemoryUserRepository.js:64 | Every key of the update takes its new value and every other key keeps its old value; the old keys keep their places; after them come exactly the keys new in the update, in the update's own order |
| Users.MergeIntoEmpty | src/userRepository/inMemoryUserRepository.js:64 | Spreading an update over no preferences gives the update itself, keys in its order |
| UserRepository.Initial | src/userRepository/inMemoryUserRepository.js:9-35 | The store holds users 1 to 4, each under its own id, and `nextId` is 5 |
| UserRepository.GetUser | src/userRepository/inMemoryUserRepository.js:41-43 | The stored user for a present key, `null` otherwise |
| UserRepository.CreateUser | src/userRepository/inMemoryUserRepository.js:50-55 | Returns the old `nextId`, which was not in use; `nextId` grows by one; the new id now yields the given record; every other id is unchanged; the invariant is kept |
| UserRepository.UpdateUser | src/userRepository/inMemoryUserRepository.js:61-67 | `false` and no change for an absent id; otherwise `true`, the new preferences are exactly the spread merge of the old ones with the update (values and key order), the id, email and telephone kept, and `nextId` and the other users unchanged |
| UserRepository.ValidAfterAnyOps | src/userRepository/inMemoryUserRepository.js:50-66 | After any sequence of creates and updates: every key is below `nextId` and equals its user's id, no user has vanished, and `nextId` has grown once per create |
| UserRepository.PartialUpdateKeepsOtherChannels | src/userRepository/inMemoryUserRepository.js:64 | Turning on SMS for user 2 keeps its email setting |
| NotificationService.Registry | src/services/notificationService.js:8-11 | Exactly `email` and `sms` have a strategy, each for the channel of that name |
| NotificationService.SupportedChannels | src/services/notificationService.js:34-46 | A name is returned exactly when its preference is truthy and it has a registered strategy; every name returned is a preference key |
| NotificationService.SupportedChannelsInKeyOrder | src/services/notificationService.js:36-39 | The channels come in the preferences' iteration order |
| NotificationService.SupportedChannelsDistinct | src/services/notificationService.js:34-46 | No channel appears twice |
| NotificationService.SendToChannel | src/services/notificationService.js:19-29 | `null`, with no POST and the context untouched, for an unregistered channel; otherwise the context holds that channel's strategy and the reply is the strategy's record or its error |
| NotificationService.ProcessChannel | src/services/notificationService.js:54-65 | Never throws. For a registered channel its POSTs are that channel's strategy's POSTs; the response is the strategy's record when it sends, and the error record `createErrorResponse(channel, error)` of the strategy's error when it throws. An unregistered channel gives "No response from channel" without a POST. The response names its channel, and it is an error record exactly when it has a truthy `error` |
| NotificationService.ResponsesFollowChannels | src/services/notificationService.js:83-86 | There is one response per channel, and the i-th response is about the i-th channel: its record or its error text names that channel |
| NotificationService.ChannelsRunInTurn | src/services/notificationService.js:83-86 | The loop runs the channels one after the other. The i-th response is what the i-th channel yields on its own, started where channel i-1 stopped, so one channel's failure changes nothing in another's response. The trace is the channels' traces concatenated in order, and the loop stops where the last channel stopped |
| NotificationService.CountSuccesses | src/services/notificationService.js:89 | The count is at most the number of responses; it equals it iff no response has an error, and it is 0 iff all do |
| NotificationService.CountSuccessesCountsIndices | src/services/notificationService.js:89 | The count is the number of positions whose response has no error |
| NotificationService.SendNotifications | src/services/notificationService.js:73-93 | "User not found" exactly when the lookup fails. Otherwise responses, `totalChannels` and the supported channels have one length; the i-th response is what the i-th supported channel's strategy yields on its own, started where channel i-1 stopped; the trace is the channels' traces in order; `successfulChannels` is the number of error-free responses |
| NotificationService.UnknownUserNotFound | src/services/notificationService.js:74-75 | An unknown user is reported before any channel is touched |
| NotificationService.ContextIrrelevant | src/services/notificationService.js:25-26 | Processing a registered channel does not depend on the strategy the context held before |
| NotificationService.LokiGetsEmailOnly | src/services/notificationService.js:73-93 | User 2 (email on, SMS off): one POST to the email endpoint, one success, status 200 "Notifications sent" |
| NotificationService.IronmanPartialDelivery | src/services/notificationService.js:73-93 | User 1 with the email POST refused with a 400: an email error record, then the SMS record; 1 of 2 succeeded, status 207 |
| NotificationService.SupportedChannelsAsWritten | src/services/notificationService.js:36-43 | As written, a name is returned exactly when its preference is truthy and the `strategies` object answers it, own key or inherited member |
| NotificationService.PrototypeKeyCountedAsWritten | src/services/notificationService.js:38 | As written, the preference `{"constructor": true}` yields the channel list `["constructor"]`; the own-key registry yields `[]` |

## Left out

- `src/app.js` is not part of this model. It covers Express routing, the global error handler and `listen`. It maps a status of 400 or more to an `error` key and "User not found" to 404; both mappings are trivial.
- `src/middleware/index.js` is not part of this model. It holds the auth-header check and the request validators, which depend on JavaScript's dynamic types.
- `src/config.js` is not part of this model. The configuration is a parameter (`ServiceConfig`, with `DefaultConfig` for the defaults). Because of `parseInt(...) || 5` (src/config.js:23), an unset, non-numeric or zero `MAX_RETRIES` becomes 5. A negative value such as `-1` is truthy and is kept, so it reaches the path where nothing is POSTed.
- Logging (`src/logger.js` and every `logger.*` call) has no effect on behaviour and is left out.
- `databaseUserRepository.js` holds only stubs, and the two abstract base classes only throw. All three are left out.
- `axios`, `setTimeout`, `async`/`await` and concurrency between requests are left out. They are replaced by the network function `net`, the index of the next POST, and the recorded `Wait` events. Which statuses `axios` rejects is not fixed: any outcome is allowed for any POST.
- Sender.Attempts: `maxRetries` is an integer. For a fractional `maxRetries` the source's `retries === maxRetries` test never fires, and that case is not modelled.
- Sender.Attempts: the retry counter is an unbounded integer. In the source it is a double, so `retries++` stops growing at 2^53. For a `maxRetries` above 2^53 (reachable through `parseInt` in src/config.js:23) and only 429/500 outcomes, the source keeps POSTing and never ends. That case is not modelled.
- Sender.SendNotification: "at most `maxRetries` POSTs" and the ending of the loop hold only for `maxRetries` up to 2^53. Above that, the source's counter stops growing and the loop no longer ends.
- Sender.ExhaustsBudget: "exactly `maxRetries` POSTs" holds only for `maxRetries` up to 2^53. Above that, the source's counter stops growing and the loop no longer ends.
- Sender.Attempts: a `Wait(ms)` event records the delay requested of `setTimeout`, not the time waited. Node waits 1 ms for a delay below 1 or above 2^31-1, and a negative `RETRY_INTERVAL` is reachable (src/config.js:25).
- Users.Merge: JavaScript iterates integer-like keys first, in numeric order. The model keeps insertion order for every key. This does not change which channels are found, because `email` and `sms` are not integer-like.
- UserRepository.GetUser: ids are integers. The source's `Map` compares keys by SameValueZero, under which a string never equals a number, so a string id never matches.
- UserRepository.CreateUser: `nextId` is unbounded. Integer precision past 2^53 is not modelled.
- NotificationContext.SendNotification: the error message for a missing strategy is V8's wording. In the orchestrator this path is unreachable, because a strategy is always set first.
- NotificationService.ProcessChannels: its own contract states only the length of the responses. What each response is, and how the channels' POSTs follow one another, is stated by `NotificationService.ChannelsRunInTurn`.
- NotificationService.SendToChannel: looks a channel up among the registry's own keys (`email`, `sms`), the corrected behaviour of the finding below. For the preference `{"constructor": true}` the source dispatches to an inherited member and answers status 500 with one error record ("constructor error: …"), 1 channel in total and 0 successful; the model finds no channel and answers 200 "No notifications to send".
- NotificationService.ProcessChannel: follows the own-key registry as `SendToChannel` does, so an inherited member such as `constructor` is treated as unregistered and never reaches a strategy.
- NotificationService.SendNotifications: dispatches over the own-key channel list, so for `{"constructor": true}` it gives no responses and status 200 where the source gives one error record and status 500.
- Payloads hold only the fields the strategies send. The response bodies returned by the sender are kept as opaque JSON, and the strategies discard them.
- `Json` arrays and objects are opaque. Only their truthiness matters to the service.

## Findings

| source | as written | input that shows it | evidently intended | confidence | as-written member | corrected member |
|---|---|---|---|---|---|---|
| src/services/notificationService.js:38 | `strategies[channel]` looks the name up on a plain object literal, so inherited `Object.prototype` members such as `constructor` and `toString` count as registered strategies | preferences `{"constructor": true}`, accepted by `createUser`/`updateUser` | Only the own keys `email` and `sms` are registered channels. With the code as written, `constructor` is counted in `totalChannels` and processed. `sendToChannel` then builds `new Object(config)`, and its `send` call fails, so the user sees a failed "constructor" channel and at best a 207 | not executed | NotificationService.SupportedChannelsAsWritten | NotificationService.SupportedChannels |
