/**
 * Concrete event sequences, from a fresh observable, that show how the code behaves: the
 * unit tests of `src/index.spec.js` that exercise a settled chain, and the consequences of the state record being
 * shared by all subscriptions of one observable and of `unsubscribe` always passing "value".
 */
module Scenarios {
  import opened Wrappers
  import opened SubscriptionMachine

  /** Running `[e] + es` is taking the step `e` and then running `es`. */
  lemma RunCons<Client, Ref, Raw, Val>(cfg: Config<Client, Ref, Raw, Val>, m: Machine<Ref, Val>, e: Event<Client, Raw>, es: seq<Event<Client, Raw>>)
    requires Enabled(m, e) && Admissible(cfg, Step(cfg, m, e), es)
    ensures Admissible(cfg, m, [e] + es) && Run(cfg, m, [e] + es) == Run(cfg, Step(cfg, m, e), es)
  {
  }

  /** Subscribe, let the chain settle, fire the handler twice: `(v, true)` then `(v, false)`. */
  lemma TwoNotificationsScenario<Client, Ref, Raw, Val>(cfg: Config<Client, Ref, Raw, Val>, c: Client, v: Raw)
    ensures var es := [Subscribe, Resolved(0, c), Notified(0, v), Notified(0, v)];
      Admissible(cfg, Init(), es)
      && Run(cfg, Init(), es).calls == [On(ResolvedRef(cfg, c), cfg.kind, 0)]
      && Run(cfg, Init(), es).delivered == [Delivery(0, cfg.mapValue(v), true), Delivery(0, cfg.mapValue(v), false)]
  {
    var m0: Machine<Ref, Val> := Init();
    var m1 := Step(cfg, m0, Subscribe);
    var m2 := Step(cfg, m1, Resolved(0, c));
    var m3 := Step(cfg, m2, Notified(0, v));
    var m4 := Step(cfg, m3, Notified(0, v));
    RunCons(cfg, m3, Notified(0, v), []);
    RunCons(cfg, m2, Notified(0, v), [Notified(0, v)]);
    RunCons(cfg, m1, Resolved(0, c), [Notified(0, v), Notified(0, v)]);
    RunCons(cfg, m0, Subscribe, [Resolved(0, c), Notified(0, v), Notified(0, v)]);
  }

  /**
   * Unsubscribing before the chain settles: the continuation still stores the mapped
   * reference but registers nothing; a second `unsubscribe` then issues `off("value")` on
   * that never-registered reference.
   */
  lemma EarlyUnsubscribeScenario<Client, Ref, Raw, Val>(cfg: Config<Client, Ref, Raw, Val>, c: Client)
    ensures var es: seq<Event<Client, Raw>> := [Subscribe, Unsubscribe, Resolved(0, c)];
      Admissible(cfg, Init(), es)
      && Run(cfg, Init(), es).calls == []
      && Run(cfg, Init(), es).state.ref == Some(ResolvedRef(cfg, c))
    ensures var es: seq<Event<Client, Raw>> := [Subscribe, Unsubscribe, Resolved(0, c), Unsubscribe];
      Admissible(cfg, Init(), es)
      && Run(cfg, Init(), es).calls == [Off(ResolvedRef(cfg, c), ValueKind)]
  {
    var m0: Machine<Ref, Val> := Init();
    var m1 := Step(cfg, m0, Subscribe);
    var m2 := Step(cfg, m1, Unsubscribe);
    var m3 := Step(cfg, m2, Resolved(0, c));
    var m4 := Step(cfg, m3, Unsubscribe);
    RunCons(cfg, m3, Unsubscribe, []);
    RunCons(cfg, m2, Resolved(0, c), [Unsubscribe]);
    RunCons(cfg, m1, Unsubscribe, [Resolved(0, c), Unsubscribe]);
    RunCons(cfg, m0, Subscribe, [Unsubscribe, Resolved(0, c), Unsubscribe]);
    RunCons(cfg, m2, Resolved(0, c), []);
    RunCons(cfg, m1, Unsubscribe, [Resolved(0, c)]);
    RunCons(cfg, m0, Subscribe, [Unsubscribe, Resolved(0, c)]);
  }

  /**
   * For a kind other than "value", unsubscribing after registration issues `off("value")`,
   * so the call log holds no deregistration for the kind that was registered.
   */
  lemma OtherKindNotDeregisteredScenario<Client, Ref, Raw, Val>(cfg: Config<Client, Ref, Raw, Val>, c: Client)
    requires cfg.kind != ValueKind
    ensures var es: seq<Event<Client, Raw>> := [Subscribe, Resolved(0, c), Unsubscribe];
      Admissible(cfg, Init(), es)
      && var r := Run(cfg, Init(), es);
      r.calls == [On(ResolvedRef(cfg, c), cfg.kind, 0), Off(ResolvedRef(cfg, c), ValueKind)]
      && Off(ResolvedRef(cfg, c), cfg.kind) !in r.calls
  {
    var m0: Machine<Ref, Val> := Init();
    var m1 := Step(cfg, m0, Subscribe);
    var m2 := Step(cfg, m1, Resolved(0, c));
    var m3 := Step(cfg, m2, Unsubscribe);
    RunCons(cfg, m2, Unsubscribe, []);
    RunCons(cfg, m1, Resolved(0, c), [Unsubscribe]);
    RunCons(cfg, m0, Subscribe, [Resolved(0, c), Unsubscribe]);
  }

  /**
   * Two subscriptions of one observable share the first-call flag: whichever handler fires
   * first takes the `true`, and the other subscription's first value arrives with `false`.
   */
  lemma SharedFirstCallScenario<Client, Ref, Raw, Val>(cfg: Config<Client, Ref, Raw, Val>, c: Client, x: Raw, y: Raw)
    ensures var es := [Subscribe, Subscribe, Resolved(0, c), Resolved(1, c), Notified(0, x), Notified(1, y)];
      Admissible(cfg, Init(), es)
      && Run(cfg, Init(), es).delivered == [Delivery(0, cfg.mapValue(x), true), Delivery(1, cfg.mapValue(y), false)]
  {
    var m0: Machine<Ref, Val> := Init();
    var m1 := Step(cfg, m0, Subscribe);
    var m2 := Step(cfg, m1, Subscribe);
    var m3 := Step(cfg, m2, Resolved(0, c));
    var m4 := Step(cfg, m3, Resolved(1, c));
    var m5 := Step(cfg, m4, Notified(0, x));
    var m6 := Step(cfg, m5, Notified(1, y));
    RunCons(cfg, m5, Notified(1, y), []);
    RunCons(cfg, m4, Notified(0, x), [Notified(1, y)]);
    RunCons(cfg, m3, Resolved(1, c), [Notified(0, x), Notified(1, y)]);
    RunCons(cfg, m2, Resolved(0, c), [Resolved(1, c), Notified(0, x), Notified(1, y)]);
    RunCons(cfg, m1, Subscribe, [Resolved(0, c), Resolved(1, c), Notified(0, x), Notified(1, y)]);
    RunCons(cfg, m0, Subscribe, [Subscribe, Resolved(0, c), Resolved(1, c), Notified(0, x), Notified(1, y)]);
  }

  /**
   * Unsubscribing any handle switches off the whole observable: a subscription made
   * afterwards never registers, although its chain still stores its reference.
   */
  lemma SharedUnsubscribeScenario<Client, Ref, Raw, Val>(cfg: Config<Client, Ref, Raw, Val>, c: Client)
    ensures var es: seq<Event<Client, Raw>> := [Subscribe, Unsubscribe, Subscribe, Resolved(1, c)];
      Admissible(cfg, Init(), es)
      && Run(cfg, Init(), es).calls == []
      && Run(cfg, Init(), es).state.ref == Some(ResolvedRef(cfg, c))
  {
    var m0: Machine<Ref, Val> := Init();
    var m1 := Step(cfg, m0, Subscribe);
    var m2 := Step(cfg, m1, Unsubscribe);
    var m3 := Step(cfg, m2, Subscribe);
    var m4 := Step(cfg, m3, Resolved(1, c));
    RunCons(cfg, m3, Resolved(1, c), []);
    RunCons(cfg, m2, Subscribe, [Resolved(1, c)]);
    RunCons(cfg, m1, Unsubscribe, [Subscribe, Resolved(1, c)]);
    RunCons(cfg, m0, Subscribe, [Unsubscribe, Subscribe, Resolved(1, c)]);
  }

  /**
   * Each settling chain overwrites the stored reference, so `unsubscribe` deregisters only on
   * the reference of the chain that settled last.
   */
  lemma LastReferenceOnlyScenario<Client, Ref, Raw, Val>(cfg: Config<Client, Ref, Raw, Val>, c0: Client, c1: Client)
    ensures var es: seq<Event<Client, Raw>> := [Subscribe, Subscribe, Resolved(0, c0), Resolved(1, c1), Unsubscribe];
      Admissible(cfg, Init(), es)
      && Run(cfg, Init(), es).calls ==
         [On(ResolvedRef(cfg, c0), cfg.kind, 0), On(ResolvedRef(cfg, c1), cfg.kind, 1), Off(ResolvedRef(cfg, c1), ValueKind)]
  {
    var m0: Machine<Ref, Val> := Init();
    var m1 := Step(cfg, m0, Subscribe);
    var m2 := Step(cfg, m1, Subscribe);
    var m3 := Step(cfg, m2, Resolved(0, c0));
    var m4 := Step(cfg, m3, Resolved(1, c1));
    var m5 := Step(cfg, m4, Unsubscribe);
    RunCons(cfg, m4, Unsubscribe, []);
    RunCons(cfg, m3, Resolved(1, c1), [Unsubscribe]);
    RunCons(cfg, m2, Resolved(0, c0), [Resolved(1, c1), Unsubscribe]);
    RunCons(cfg, m1, Subscribe, [Resolved(0, c0), Resolved(1, c1), Unsubscribe]);
    RunCons(cfg, m0, Subscribe, [Subscribe, Resolved(0, c0), Resolved(1, c1), Unsubscribe]);
  }

  /**
   * With the default `mapRef`, a settled chain registers a handler for the configured kind
   * on the reference looked up at `path`.
   */
  lemma LookupAtPathScenario<Client, Ref, Raw, Val>(cfg: Config<Client, Ref, Raw, Val>, c: Client)
    requires cfg.mapRef == Identity<Ref>
    ensures var es: seq<Event<Client, Raw>> := [Subscribe, Resolved(0, c)];
      Admissible(cfg, Init(), es)
      && Run(cfg, Init(), es).calls == [On(cfg.database(c, cfg.path), cfg.kind, 0)]
  {
    var m0: Machine<Ref, Val> := Init();
    var m1 := Step(cfg, m0, Subscribe);
    var m2 := Step(cfg, m1, Resolved(0, c));
    RunCons(cfg, m1, Resolved(0, c), []);
    RunCons(cfg, m0, Subscribe, [Resolved(0, c)]);
  }

  /**
   * `mapRef` is applied to the reference at `path`, and the mapped reference is both the one
   * stored and the one the handler is registered on.
   */
  lemma MapRefScenario<Client, Ref, Raw, Val>(cfg: Config<Client, Ref, Raw, Val>, c: Client)
    ensures var es: seq<Event<Client, Raw>> := [Subscribe, Resolved(0, c)];
      Admissible(cfg, Init(), es)
      && Run(cfg, Init(), es).state.ref == Some(cfg.mapRef(cfg.database(c, cfg.path)))
      && Run(cfg, Init(), es).calls == [On(cfg.mapRef(cfg.database(c, cfg.path)), cfg.kind, 0)]
  {
    var m0: Machine<Ref, Val> := Init();
    var m1 := Step(cfg, m0, Subscribe);
    var m2 := Step(cfg, m1, Resolved(0, c));
    RunCons(cfg, m1, Resolved(0, c), []);
    RunCons(cfg, m0, Subscribe, [Resolved(0, c)]);
  }

  /**
   * Nothing is delivered once the handler is registered and before the backend fires; the
   * first notification then delivers `mapValue` of its raw value.
   */
  lemma MapValueScenario<Client, Ref, Raw, Val>(cfg: Config<Client, Ref, Raw, Val>, c: Client, v: Raw)
    ensures var es: seq<Event<Client, Raw>> := [Subscribe, Resolved(0, c)];
      Admissible(cfg, Init(), es) && Run(cfg, Init(), es).delivered == []
    ensures var es: seq<Event<Client, Raw>> := [Subscribe, Resolved(0, c), Notified(0, v)];
      Admissible(cfg, Init(), es)
      && Run(cfg, Init(), es).delivered == [Delivery(0, cfg.mapValue(v), true)]
  {
    var m0: Machine<Ref, Val> := Init();
    var m1 := Step(cfg, m0, Subscribe);
    var m2 := Step(cfg, m1, Resolved(0, c));
    var m3 := Step(cfg, m2, Notified(0, v));
    RunCons(cfg, m2, Notified(0, v), []);
    RunCons(cfg, m1, Resolved(0, c), [Notified(0, v)]);
    RunCons(cfg, m0, Subscribe, [Resolved(0, c), Notified(0, v)]);
    RunCons(cfg, m1, Resolved(0, c), []);
    RunCons(cfg, m0, Subscribe, [Resolved(0, c)]);
  }
}
