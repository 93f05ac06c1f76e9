# ladda-observable-firebase: the subscription state machine

`asObservable(getFirebase, path, kind, mapRef, mapValue)` turns a Firebase realtime-database
reference into a ladda observable. `subscribe(fn)` starts an asynchronous chain: obtain the
client, look up the reference at `path`, pass it through `mapRef`. When the chain settles, the
continuation stores the reference in a closure record and, unless the observable was
unsubscribed meanwhile, registers a handler with `ref.on(kind, handler)`. Each time the backend
fires, the handler calls `fn(mapValue(snapshot.val()), firstCall)` and then clears `firstCall`.
The handle returned by `subscribe` has an `unsubscribe` that sets `unsubscribed` and, if a
reference is stored, calls `ref.off('value')`. `asObservableValue` is `asObservable` with the
kind fixed to `'value'`.

The model has two layers.

- `SubscriptionMachine` (machine.dfy) gives the state machine as pure functions. A `Machine`
  holds the closure record (`Shared`: `unsubscribed`, `ref`, `firstCall`) and what the outside
  world sees. That is the number of subscriptions made, the chains still in flight, the log of
  `on`/`off` calls on backend references, and the log of callback invocations. There is one
  step function per externally triggered event: `SubscribeStep`, `ResolveStep`, `NotifyStep`
  and `UnsubscribeStep`. `Step`, `Admissible` and `Run` run event sequences.
- `LaddaObservableFirebase.Observable` (observable.dfy) is the object itself. Its fields are the
  closure record and the observed logs. Its methods are `Subscribe`, `OnResolved` (the
  continuation, called by the environment before or after `Unsubscribe`), `OnNotified` (the
  handler) and `Unsubscribe`. Each method is proved against the matching step function and keeps
  the invariant `SubscriptionProperties.Inv`.

`SubscriptionProperties` (properties.dfy) proves the invariant and the properties of whole
runs. `Scenarios` (scenarios.dfy) replays the unit tests of `src/index.spec.js` that exercise
a settled chain (src/index.spec.js:54-172), and runs that show how the code behaves.

The model follows the code as written, including three behaviours a reader may not expect:

- The closure record is created once per observable (src/index.js:6), not once per
  `subscribe` call. So all subscriptions of one observable share `unsubscribed`, `ref` and
  `firstCall`. Unsubscribing any handle switches off every later registration. Only the first
  delivery across all subscriptions is marked first. Each settling chain overwrites the stored
  reference (`SharedFirstCallScenario`, `SharedUnsubscribeScenario`, `LastReferenceOnlyScenario`).
- `unsubscribe` always passes `'value'` to `off` (src/index.js:33), whatever kind was
  registered (`OtherKindNotDeregisteredScenario`).
- The reference is stored before the unsubscribed check (src/index.js:18-19). A later
  `unsubscribe` then calls `off('value')` on a reference that was never registered
  (`EarlyUnsubscribeScenario`).

## Model

| member | source | states |
|---|---|---|
| `SubscriptionMachine.Identity` | src/index.js:1 | The default transform returns its argument unchanged. |
| `SubscriptionMachine.Init` | src/index.js:6-10 | The record starts with `unsubscribed` false, no reference and `firstCall` true, with no subscription, chain in flight, backend call or delivery. |
| `SubscriptionMachine.ResolvedRef` | src/index.js:14-16 | The reference a settled chain yields is the one looked up at the configured path, passed through `mapRef`; with the default `mapRef` it is the looked-up reference itself. |
| `LaddaObservableFirebase.Observable.constructor` | src/index.js:5-10 | The observable keeps its five arguments and starts with `unsubscribed` false, no stored reference, `firstCall` true, and no subscription, chain, backend call or delivery; the invariant holds. |
| `LaddaObservableFirebase.Observable.AsObservableValue` | src/index.js:41-42 | Yields a fresh observable whose configuration is exactly that of `asObservable` with the kind `"value"` and the same other arguments, in the initial state. |
| `LaddaObservableFirebase.Observable.Subscribe` | src/index.js:13-29 | Returns a new subscription number whose chain is now in flight; no backend call, no delivery and no change to the shared record happen synchronously; the invariant is kept. |
| `LaddaObservableFirebase.Observable.OnResolved` | src/index.js:14-27 | The settled chain stores `mapRef(database(client, path))` in every case; if not unsubscribed it issues exactly one `on` with the configured kind on that same reference, otherwise no backend call; the chain leaves the in-flight set. |
| `LaddaObservableFirebase.Observable.OnNotified` | src/index.js:23-26 | The handler hands its subscriber `mapValue(raw)` with the current `firstCall`, which is true exactly when nothing was delivered before; afterwards `firstCall` is false and nothing else changes. |
| `LaddaObservableFirebase.Observable.Unsubscribe` | src/index.js:30-35 | Leaves `unsubscribed` true; issues `off("value")` on the stored reference when one is stored and no backend call otherwise. |
| `SubscriptionMachine.SubscribeStep` | src/index.js:13-29 | Subscribing adds the new subscription to the chains in flight and leaves the shared record, the backend calls and the deliveries unchanged. |
| `SubscriptionMachine.ResolveStep` | src/index.js:14-27 | The stored reference becomes the mapped reference at `path` whether or not unsubscribed; exactly one `On` for the configured kind and this subscription is appended when not unsubscribed, none otherwise. |
| `SubscriptionMachine.NotifyStep` | src/index.js:23-26 | One delivery to the handler's subscriber with `mapValue(raw)` and the old `firstCall`; `firstCall` is false afterwards; backend calls unchanged. |
| `SubscriptionMachine.UnsubscribeStep` | src/index.js:30-35 | `unsubscribed` becomes true; `Off(ref, "value")` is appended exactly when a reference is stored; nothing else changes. |
| `SubscriptionMachine.Step` | src/index.js:12-38 | No event resets `unsubscribed`, raises `firstCall` again or clears a stored reference; the call and delivery logs only grow. |
| `SubscriptionProperties.InitInv` | src/index.js:6-10 | The initial record satisfies the invariant. |
| `SubscriptionProperties.StepInv` | src/index.js:13-35 | Every enabled event keeps the invariant: registrations use the configured kind, happen only after the subscription's chain settled and at most once per subscription; every `off` passes `"value"`; `firstCall` is up exactly until the first delivery, and only that delivery is marked first. |
| `SubscriptionProperties.RunInv` | src/index.js:13-35 | Every admissible event sequence keeps the invariant. |
| `SubscriptionProperties.FirstDeliveryOnlyIsFirst` | src/index.js:24-25 | From a fresh observable, the first callback invocation gets `true` and every later one `false`, and `firstCall` is up exactly while nothing has been delivered. |
| `SubscriptionProperties.RegistrationsUseConfiguredKind` | src/index.js:23-33 | From a fresh observable, every `on` passes the kind given to `asObservable`, every `off` passes `"value"`, and no subscription registers twice. |
| `SubscriptionProperties.UnsubscribedIsPermanent` | src/index.js:19-31 | Once `unsubscribed` is set, it stays set under any events, and every later backend call is an `off("value")`, never an `on`. |
| `SubscriptionProperties.EarlyUnsubscribeNeverRegisters` | src/index.js:17-21 | A subscription whose chain is in flight when the observable is unsubscribed never has an `on` call, whatever happens afterwards. |
| `SubscriptionProperties.FirstCallNeverReturns` | src/index.js:24-25 | Once `firstCall` is false it stays false, and no later delivery is marked first. |
| `SubscriptionProperties.DeliveriesFollowNotifications` | src/index.js:23-26 | Over any run, the callback is invoked once per notification, in order, each time with `mapValue` of that notification's raw value; without notifications nothing is delivered. |
| `SubscriptionProperties.DefaultMapValueDeliversRawValues` | src/index.js:1-5 | With the default identity `mapValue`, each callback receives exactly the raw value of its notification. |
| `Scenarios.TwoNotificationsScenario` | src/index.spec.js:109-128 | Subscribe, settle, fire twice: one `on` with the kind on the mapped reference, then deliveries `(mapValue(v), true)` and `(mapValue(v), false)`. |
| `Scenarios.EarlyUnsubscribeScenario` | src/index.js:17-35 | Subscribe, unsubscribe, settle: no backend call, yet the mapped reference is stored; a second unsubscribe then issues `off("value")` on that never-registered reference. |
| `Scenarios.OtherKindNotDeregisteredScenario` | src/index.js:23-33 | For a kind other than `"value"`, subscribe, settle, unsubscribe yields `on(kind)` then `off("value")`, and no `off` for the registered kind. |
| `Scenarios.SharedFirstCallScenario` | src/index.js:6-26 | Two subscriptions of one observable, both registered: the first handler to fire gets `true`, and the other subscription's first value arrives with `false`. |
| `Scenarios.SharedUnsubscribeScenario` | src/index.js:6-21 | After unsubscribing the first handle, a subscription made later never registers, though its chain stores its reference. |
| `Scenarios.LookupAtPathScenario` | src/index.spec.js:54-88 | With the default `mapRef`, subscribe and settle issue exactly one `on` with the configured kind on the reference looked up at `path`. |
| `Scenarios.MapRefScenario` | src/index.spec.js:131-148 | Subscribe and settle: the stored reference and the reference `on` is called on are both `mapRef` of the reference at `path`. |
| `Scenarios.MapValueScenario` | src/index.spec.js:151-172 | After subscribe and settle nothing is delivered; the first notification then delivers `(mapValue(v), true)`. |
| `Scenarios.LastReferenceOnlyScenario` | src/index.js:18-33 | Two chains settling, then unsubscribe: both references get `on`, but `off("value")` goes only to the reference stored last. |

## Left out

- Promises and scheduling (src/index.js:14-17): each settled chain is the environment's call to `OnResolved(sub, client)` (the event `Resolved`). Rejected chains are never settled, so the subscription stays inert. Error propagation from a rejected `getFirebase`, a throwing lookup, `mapRef`, `mapValue` or subscriber callback `fn` is not modelled; the code has no handling for it.
- How the client is obtained (`getFirebase.then` in the code, a thunk in the tests): the client is a parameter of `OnResolved`, so both forms are covered.
- The Firebase library: `firebase.database().ref(path)` is the function parameter `database(client, path)`. `snapshot.val()` is the raw value the notification carries. `ref.on`/`ref.off` are entries in the call log. What the backend does with `off`, including whether a handler still fires afterwards, is the backend's business. The model lets the environment fire any registered handler.
- JavaScript truthiness of `state.ref` (src/index.js:32): the stored reference is an `Option`, so a `mapRef` that returns a falsy value such as `null` is not modelled.
- The callback `fn` and the handle objects: a callback invocation is a `Delivery` entry naming the subscription. Every handle's `unsubscribe` does the same thing, because the state is shared, so the model has one `Unsubscribe`.
- That `mapValue` runs only inside the handler shows up as deliveries happening only on notifications (`DeliveriesFollowNotifications`). Function application has no side effect in the model, so the number of `mapValue` calls is not counted separately.
- SubscriptionMachine.NotifyStep: the handler is one atomic step, so the model assumes the subscriber callback `fn` returns normally and does not re-enter the handler. In the code `fn` runs before `state.firstCall = false` (src/index.js:24-25). A callback that throws leaves `firstCall` true, so the next notification is again marked first. A callback that synchronously fires the same handler again also sees `firstCall` still true. `SubscriptionProperties.FirstDeliveryOnlyIsFirst` and `SubscriptionProperties.FirstCallNeverReturns` hold only under this assumption.
- LaddaObservableFirebase.Observable.OnNotified: the same assumption as `SubscriptionMachine.NotifyStep`. The callback is recorded as a delivery and cannot throw or re-enter the handler.
- Default parameters: a caller passes `SubscriptionMachine.Identity` for `mapRef` or `mapValue`.
