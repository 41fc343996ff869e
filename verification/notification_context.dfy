/** The notification context: a one-slot holder for the current strategy that
    forwards `sendNotification` to it. */
module NotificationContext {
  import opened Js
  import opened Http
  import opened Users
  import opened Strategies

  /** The held strategy; `None` when the context was built without one. */
  datatype Context = Context(strategy: Option<Strategy>)

  /** Calling `send` on a missing strategy is a `TypeError`. */
  const NoStrategyMessage: string := "Cannot read properties of undefined (reading 'send')"

  /** `new NotificationContext(strategy)`. */
  function NewContext(strategy: Option<Strategy>): (c: Context)
    ensures c.strategy == strategy
  {
    Context(strategy)
  }

  /** `setStrategy(strategy)`: the context now holds `strategy` and nothing else. */
  function SetStrategy(c: Context, strategy: Option<Strategy>): (c': Context)
    ensures c'.strategy == strategy
    ensures c' == NewContext(strategy)
  {
    Context(strategy)
  }

  /** `sendNotification(user, message)`: exactly what the held strategy's `send`
      does; without a strategy the call fails before any POST. */
  function SendNotification(c: Context, user: User, message: string, net: Network, start: nat): (r: StrategyRun)
    ensures c.strategy.Some? ==> r == Send(c.strategy.value, user, message, net, start)
    ensures c.strategy.None? ==> r.result.Failed? && r.trace == [] && r.next == start
  {
    match c.strategy
    case Some(s) => Send(s, user, message, net, start)
    case None => StrategyRun(Failed(HttpError(NoStrategyMessage, None)), [], start)
  }

  /** Of two strategies set one after the other, only the second one is used. */
  lemma LastStrategyWins(c: Context, s1: Strategy, s2: Strategy, user: User, message: string,
                         net: Network, start: nat)
    ensures SendNotification(SetStrategy(SetStrategy(c, Some(s1)), Some(s2)), user, message, net, start)
         == Send(s2, user, message, net, start)
  {
  }

  /** A context built without a strategy cannot send, until one is set. */
  lemma EmptyContextFails(user: User, message: string, net: Network, start: nat, s: Strategy)
    ensures SendNotification(NewContext(None), user, message, net, start).result.Failed?
    ensures SendNotification(SetStrategy(NewContext(None), Some(s)), user, message, net, start)
         == Send(s, user, message, net, start)
  {
  }
}
