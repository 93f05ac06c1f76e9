/**
 * The subscription state machine of `asObservable`, written as pure functions over values.
 *
 * A `Machine` holds the closure record that one observable shares between all its
 * subscriptions (`unsubscribed`, `ref`, `firstCall`) together with what the outside world
 * sees of it: how many subscriptions were made, which resolution chains are still in flight,
 * the calls issued on backend references, and the values handed to subscriber callbacks.
 * Each externally triggered event (subscribe, a resolution chain settling, a backend
 * notification, unsubscribe) is one step function.
 */
module SubscriptionMachine {
  import opened Wrappers

  /** The event kind `unsubscribe` passes to `off`, whatever kind was registered. */
  const ValueKind: string := "value"

  /**
   * What `asObservable` closes over. `database(client, path)` stands for
   * `client.database().ref(path)`, a lookup inside the backend library.
   */
  datatype Config<!Client, !Ref, !Raw, Val> = Config(
    database: (Client, string) -> Ref,
    path: string,
    kind: string,
    mapRef: Ref -> Ref,
    mapValue: Raw -> Val)

  /** The default for `mapRef` and `mapValue`. */
  function Identity<T>(t: T): (r: T)
    ensures r == t
  {
    t
  }

  /** The closure record `state`, created once per observable. */
  datatype Shared<Ref> = Shared(unsubscribed: bool, ref: Option<Ref>, firstCall: bool)

  /** A call issued on a backend reference: `ref.on(kind, handler)` on behalf of subscription `sub`, or `ref.off(kind)`. */
  datatype Call<Ref> = On(ref: Ref, kind: string, sub: nat) | Off(ref: Ref, kind: string)

  /** One invocation `fn(value, isFirst)` of the callback of subscription `sub`. */
  datatype Delivery<Val> = Delivery(sub: nat, value: Val, isFirst: bool)

  datatype Machine<Ref, Val> = Machine(
    state: Shared<Ref>,
    subscribed: nat,             // subscriptions made so far; the next one gets this number
    pending: set<nat>,           // subscriptions whose resolution chain has not settled yet
    calls: seq<Call<Ref>>,       // calls on backend references, in order
    delivered: seq<Delivery<Val>>)  // callback invocations, in order

  /** Events the environment triggers. `Notified(at, raw)` fires the handler registered by `calls[at]` with a snapshot whose `val()` is `raw`. */
  datatype Event<Client, Raw> =
    | Subscribe
    | Resolved(sub: nat, client: Client)
    | Notified(at: nat, raw: Raw)
    | Unsubscribe

  /** The state right after `asObservable` returns. */
  function Init<Ref, Val>(): (m: Machine<Ref, Val>)
    // the record starts not unsubscribed, with no reference and the first-call flag up
    ensures !m.state.unsubscribed && m.state.ref.None? && m.state.firstCall
    // and nothing has been subscribed, registered or delivered
    ensures m.subscribed == 0 && m.pending == {} && m.calls == [] && m.delivered == []
  {
    Machine(Shared(false, None, true), 0, {}, [], [])
  }

  /** The reference a settled chain hands to its continuation: the one at `path`, passed through `mapRef`. */
  function ResolvedRef<Client, Ref, Raw, Val>(cfg: Config<Client, Ref, Raw, Val>, client: Client): (r: Ref)
    // the lookup is at the configured path and its result goes through `mapRef`
    ensures r == cfg.mapRef(cfg.database(client, cfg.path))
    // with the default `mapRef`, the reference is the one at `path` itself
    ensures cfg.mapRef == Identity<Ref> ==> r == cfg.database(client, cfg.path)
  {
    cfg.mapRef(cfg.database(client, cfg.path))
  }

  /** `subscribe(fn)`: starts a resolution chain and returns the handle at once. */
  function SubscribeStep<Ref, Val>(m: Machine<Ref, Val>): (r: Machine<Ref, Val>)
    // nothing is registered, delivered or changed in the shared record synchronously
    ensures r.state == m.state && r.calls == m.calls && r.delivered == m.delivered
    // the new subscription is fresh and its chain is in flight
    ensures r.pending == m.pending + {m.subscribed} && r.subscribed == m.subscribed + 1
  {
    m.(subscribed := m.subscribed + 1, pending := m.pending + {m.subscribed})
  }

  /** The continuation run when the chain of subscription `sub` settles with the client `client`. */
  function ResolveStep<Client, Ref, Raw, Val>(cfg: Config<Client, Ref, Raw, Val>, m: Machine<Ref, Val>, sub: nat, client: Client): (r: Machine<Ref, Val>)
    requires sub in m.pending
    // the mapped reference is stored whether or not the observable was unsubscribed
    ensures r.state.ref == Some(cfg.mapRef(cfg.database(client, cfg.path)))
    ensures r.state.unsubscribed == m.state.unsubscribed && r.state.firstCall == m.state.firstCall
    ensures r.pending == m.pending - {sub} && r.subscribed == m.subscribed && r.delivered == m.delivered
    // unsubscribed: no backend call at all
    ensures m.state.unsubscribed ==> r.calls == m.calls
    // otherwise exactly one registration, for the configured kind, on the stored reference
    ensures !m.state.unsubscribed ==> r.calls == m.calls + [On(r.state.ref.value, cfg.kind, sub)]
  {
    var ref := ResolvedRef(cfg, client);
    var settled := m.(state := m.state.(ref := Some(ref)), pending := m.pending - {sub});
    if m.state.unsubscribed then settled
    else settled.(calls := m.calls + [On(ref, cfg.kind, sub)])
  }

  /** The backend only fires handlers that were registered. */
  predicate Registered<Ref, Val>(m: Machine<Ref, Val>, at: nat)
  {
    at < |m.calls| && m.calls[at].On?
  }

  /** The handler registered by `calls[at]` receives a snapshot whose raw value is `raw`. */
  function NotifyStep<Client, Ref, Raw, Val>(cfg: Config<Client, Ref, Raw, Val>, m: Machine<Ref, Val>, at: nat, raw: Raw): (r: Machine<Ref, Val>)
    requires Registered(m, at)
    // the handler's subscriber gets the mapped value and the current first-call flag
    ensures r.delivered == m.delivered + [Delivery(m.calls[at].sub, cfg.mapValue(raw), m.state.firstCall)]
    // after which the flag is down
    ensures !r.state.firstCall
    ensures r.state.unsubscribed == m.state.unsubscribed && r.state.ref == m.state.ref
    ensures r.calls == m.calls && r.pending == m.pending && r.subscribed == m.subscribed
  {
    var delivery := Delivery(m.calls[at].sub, cfg.mapValue(raw), m.state.firstCall);
    m.(delivered := m.delivered + [delivery], state := m.state.(firstCall := false))
  }

  /** `unsubscribe()` on any handle of the observable. */
  function UnsubscribeStep<Ref, Val>(m: Machine<Ref, Val>): (r: Machine<Ref, Val>)
    ensures r.state.unsubscribed
    ensures r.state.ref == m.state.ref && r.state.firstCall == m.state.firstCall
    // `off("value")` on the stored reference if there is one, and no backend call otherwise
    ensures m.state.ref.Some? ==> r.calls == m.calls + [Off(m.state.ref.value, ValueKind)]
    ensures m.state.ref.None? ==> r.calls == m.calls
    ensures r.pending == m.pending && r.subscribed == m.subscribed && r.delivered == m.delivered
  {
    var off := if m.state.ref.Some? then [Off(m.state.ref.value, ValueKind)] else [];
    m.(state := m.state.(unsubscribed := true), calls := m.calls + off)
  }

  /** When the environment can trigger `e`: a chain settles once, only registered handlers fire, and a handle exists only after `subscribe`. */
  predicate Enabled<Client, Ref, Raw, Val>(m: Machine<Ref, Val>, e: Event<Client, Raw>)
  {
    match e
    case Subscribe => true
    case Resolved(sub, _) => sub in m.pending
    case Notified(at, _) => Registered(m, at)
    case Unsubscribe => m.subscribed > 0
  }

  function Step<Client, Ref, Raw, Val>(cfg: Config<Client, Ref, Raw, Val>, m: Machine<Ref, Val>, e: Event<Client, Raw>): (r: Machine<Ref, Val>)
    requires Enabled(m, e)
    // the unsubscribed flag is never reset and the first-call flag never raised again
    ensures m.state.unsubscribed ==> r.state.unsubscribed
    ensures !m.state.firstCall ==> !r.state.firstCall
    // a stored reference is never cleared
    ensures m.state.ref.Some? ==> r.state.ref.Some?
    // the logs only grow
    ensures m.calls <= r.calls && m.delivered <= r.delivered
  {
    match e
    case Subscribe => SubscribeStep(m)
    case Resolved(sub, client) => ResolveStep(cfg, m, sub, client)
    case Notified(at, raw) => NotifyStep(cfg, m, at, raw)
    case Unsubscribe => UnsubscribeStep(m)
  }

  /** Every event of `es` is enabled when it happens. */
  ghost predicate Admissible<Client, Ref, Raw, Val>(cfg: Config<Client, Ref, Raw, Val>, m: Machine<Ref, Val>, es: seq<Event<Client, Raw>>)
    decreases |es|
  {
    es == [] || (Enabled(m, es[0]) && Admissible(cfg, Step(cfg, m, es[0]), es[1..]))
  }

  function Run<Client, Ref, Raw, Val>(cfg: Config<Client, Ref, Raw, Val>, m: Machine<Ref, Val>, es: seq<Event<Client, Raw>>): Machine<Ref, Val>
    requires Admissible(cfg, m, es)
    decreases |es|
  {
    if es == [] then m else Run(cfg, Step(cfg, m, es[0]), es[1..])
  }

  /** The raw values of the notifications in `es`, in order. */
  function Raws<Client, Raw>(es: seq<Event<Client, Raw>>): seq<Raw>
  {
    if es == [] then []
    else if es[0].Notified? then [es[0].raw] + Raws(es[1..])
    else Raws(es[1..])
  }
}
