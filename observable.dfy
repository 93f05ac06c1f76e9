/**
 * `asObservable` and `asObservableValue` as an object with state.
 *
 * The observable closes over the closure record `state` (`unsubscribed`, `ref`, `firstCall`),
 * which every subscription of the observable reads and updates. The asynchronous parts become
 * methods the environment calls: `OnResolved` is the continuation run when the resolution
 * chain of one subscription settles, `OnNotified` is the handler the backend fires, and
 * `Unsubscribe` is the `unsubscribe` of any handle. What the outside world sees of the object
 * is kept in fields too: how many subscriptions were made, which chains are still in flight,
 * the calls issued on backend references, and the callback invocations.
 */
module LaddaObservableFirebase {
  import opened Wrappers
  import opened SubscriptionMachine
  import opened SubscriptionProperties

  class Observable<Client, Ref, Raw, Val> {
    // the arguments of `asObservable`
    const database: (Client, string) -> Ref
    const path: string
    const kind: string
    const mapRef: Ref -> Ref
    const mapValue: Raw -> Val

    // the closure record `state`
    var unsubscribed: bool
    var ref: Option<Ref>
    var firstCall: bool

    // what the environment sees
    var subscribed: nat
    var pending: set<nat>
    var calls: seq<Call<Ref>>
    var delivered: seq<Delivery<Val>>

    function Config(): Config<Client, Ref, Raw, Val>
    {
      SubscriptionMachine.Config(database, path, kind, mapRef, mapValue)
    }

    ghost function Model(): Machine<Ref, Val>
      reads this
    {
      Machine(Shared(unsubscribed, ref, firstCall), subscribed, pending, calls, delivered)
    }

    ghost predicate Valid()
      reads this
    {
      Inv(Config(), Model())
    }

    /** `asObservable(getFirebase, path, kind, mapRef, mapValue)`. */
    constructor (database: (Client, string) -> Ref, path: string, kind: string, mapRef: Ref -> Ref, mapValue: Raw -> Val)
      ensures this.database == database && this.path == path && this.kind == kind
      ensures this.mapRef == mapRef && this.mapValue == mapValue
      ensures !unsubscribed && ref == None && firstCall
      ensures subscribed == 0 && pending == {} && calls == [] && delivered == []
      ensures Model() == Init() && Valid()
    {
      this.database, this.path, this.kind := database, path, kind;
      this.mapRef, this.mapValue := mapRef, mapValue;
      unsubscribed, ref, firstCall := false, None, true;
      subscribed, pending, calls, delivered := 0, {}, [], [];
      new;
      InitInv(Config());
    }

    /** `asObservableValue(getFirebase, path, mapRef, mapValue)`: the same observable with the kind fixed to "value". */
    static method AsObservableValue(database: (Client, string) -> Ref, path: string, mapRef: Ref -> Ref, mapValue: Raw -> Val)
      returns (o: Observable<Client, Ref, Raw, Val>)
      ensures fresh(o)
      ensures o.Config() == SubscriptionMachine.Config(database, path, ValueKind, mapRef, mapValue)
      ensures o.Model() == Init() && o.Valid()
    {
      o := new Observable(database, path, ValueKind, mapRef, mapValue);
    }

    /** `subscribe(fn)`: starts the resolution chain of subscription `sub` and returns its handle at once. */
    method Subscribe() returns (sub: nat)
      requires Valid()
      modifies this
      ensures Valid() && Model() == SubscribeStep(old(Model()))
      ensures sub == old(subscribed) && sub in pending && sub !in old(pending)
      // nothing is registered or delivered synchronously
      ensures calls == old(calls) && delivered == old(delivered)
      ensures unsubscribed == old(unsubscribed) && ref == old(ref) && firstCall == old(firstCall)
    {
      StepInv(Config(), Model(), Event.Subscribe);
      sub := subscribed;
      subscribed := subscribed + 1;
      pending := pending + {sub};
    }

    /** The continuation run when the chain of subscription `sub` settles with the client `client`. */
    method OnResolved(sub: nat, client: Client)
      requires Valid() && sub in pending
      modifies this
      ensures Valid() && Model() == ResolveStep(Config(), old(Model()), sub, client)
      ensures ref == Some(mapRef(database(client, path)))
      ensures unsubscribed == old(unsubscribed) && firstCall == old(firstCall)
      ensures pending == old(pending) - {sub} && subscribed == old(subscribed) && delivered == old(delivered)
      ensures old(unsubscribed) ==> calls == old(calls)
      ensures !old(unsubscribed) ==> calls == old(calls) + [On(mapRef(database(client, path)), kind, sub)]
    {
      StepInv(Config(), Model(), Resolved(sub, client));
      var r := mapRef(database(client, path));
      ref := Some(r);
      pending := pending - {sub};
      if unsubscribed {
        return;
      }
      calls := calls + [On(r, kind, sub)];
    }

    /** The handler registered by `calls[at]`, fired with a snapshot whose raw value is `raw`; it calls its subscriber's `fn(value, isFirst)`. */
    method OnNotified(at: nat, raw: Raw) returns (sub: nat, value: Val, isFirst: bool)
      requires Valid() && Registered(Model(), at)
      modifies this
      ensures Valid() && Model() == NotifyStep(Config(), old(Model()), at, raw)
      ensures sub == calls[at].sub && value == mapValue(raw) && isFirst == old(firstCall)
      ensures isFirst <==> old(delivered) == []
      ensures delivered == old(delivered) + [Delivery(sub, value, isFirst)] && !firstCall
      ensures unsubscribed == old(unsubscribed) && ref == old(ref)
      ensures calls == old(calls) && pending == old(pending) && subscribed == old(subscribed)
    {
      StepInv(Config(), Model(), Notified(at, raw));
      sub, value, isFirst := calls[at].sub, mapValue(raw), firstCall;
      delivered := delivered + [Delivery(sub, value, isFirst)];
      firstCall := false;
    }

    /** `unsubscribe()` on the handle of any subscription of this observable. */
    method Unsubscribe()
      requires Valid() && subscribed > 0
      modifies this
      ensures Valid() && Model() == UnsubscribeStep(old(Model()))
      ensures unsubscribed && ref == old(ref) && firstCall == old(firstCall)
      ensures old(ref).Some? ==> calls == old(calls) + [Off(old(ref).value, ValueKind)]
      ensures old(ref).None? ==> calls == old(calls)
      ensures pending == old(pending) && subscribed == old(subscribed) && delivered == old(delivered)
    {
      StepInv(Config(), Model(), Event.Unsubscribe);
      unsubscribed := true;
      if ref.Some? {
        calls := calls + [Off(ref.value, ValueKind)];
      }
    }
  }
}
