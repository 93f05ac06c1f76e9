/**
 * What holds of every run of the subscription state machine: the invariant kept by each
 * step, and properties of whole event sequences (the unsubscribed flag is permanent, the
 * first-call flag is raised only for the first delivery, delivered values follow the
 * notifications).
 */
module SubscriptionProperties {
  import opened Wrappers
  import opened SubscriptionMachine

  /** The invariant of a reachable machine. */
  ghost predicate Inv<Client, Ref, Raw, Val>(cfg: Config<Client, Ref, Raw, Val>, m: Machine<Ref, Val>)
  {
    // chains in flight belong to subscriptions already made
    (forall s :: s in m.pending ==> s < m.subscribed)
    // until some chain has settled, no backend call is made and nothing is delivered
    && (m.state.ref.None? ==> m.calls == [] && m.delivered == [])
    // every registration is for the configured kind, by a subscription whose chain has settled
    && (forall i :: 0 <= i < |m.calls| && m.calls[i].On? ==>
          m.calls[i].kind == cfg.kind && m.calls[i].sub < m.subscribed && m.calls[i].sub !in m.pending)
    // and happens at most once per subscription
    && (forall i, j :: 0 <= i < j < |m.calls| && m.calls[i].On? && m.calls[j].On? ==> m.calls[i].sub != m.calls[j].sub)
    // every deregistration passes "value"
    && (forall i :: 0 <= i < |m.calls| && m.calls[i].Off? ==> m.calls[i].kind == ValueKind)
    // the first-call flag is up exactly until the first delivery, and only that delivery is marked first
    && (m.state.firstCall <==> m.delivered == [])
    && (forall i :: 0 <= i < |m.delivered| ==> (m.delivered[i].isFirst <==> i == 0))
    // deliveries go to subscriptions already made
    && (forall i :: 0 <= i < |m.delivered| ==> m.delivered[i].sub < m.subscribed)
  }

  /** A fresh observable satisfies the invariant. */
  lemma InitInv<Client, Ref, Raw, Val>(cfg: Config<Client, Ref, Raw, Val>)
    ensures Inv(cfg, Init<Ref, Val>())
  {
  }

  /** Every enabled event keeps the invariant. */
  lemma StepInv<Client, Ref, Raw, Val>(cfg: Config<Client, Ref, Raw, Val>, m: Machine<Ref, Val>, e: Event<Client, Raw>)
    requires Inv(cfg, m) && Enabled(m, e)
    ensures Inv(cfg, Step(cfg, m, e))
  {
    if e.Resolved? && !m.state.unsubscribed {
      // the new registration's subscription was in flight, so no earlier registration is for it
      var r := Step(cfg, m, e);
      assert r.calls[|m.calls|].sub == e.sub;
      forall i, j | 0 <= i < j < |r.calls| && r.calls[i].On? && r.calls[j].On?
        ensures r.calls[i].sub != r.calls[j].sub
      {
        if j == |m.calls| {
          assert m.calls[i].sub !in m.pending;
        }
      }
    }
  }

  /** Every admissible run keeps the invariant. */
  lemma {:induction false} RunInv<Client, Ref, Raw, Val>(cfg: Config<Client, Ref, Raw, Val>, m: Machine<Ref, Val>, es: seq<Event<Client, Raw>>)
    requires Inv(cfg, m) && Admissible(cfg, m, es)
    ensures Inv(cfg, Run(cfg, m, es))
    decreases |es|
  {
    if es != [] {
      StepInv(cfg, m, es[0]);
      RunInv(cfg, Step(cfg, m, es[0]), es[1..]);
    }
  }

  /** From the start, the first callback invocation is told it is the first and every later one is told it is not. */
  lemma FirstDeliveryOnlyIsFirst<Client, Ref, Raw, Val>(cfg: Config<Client, Ref, Raw, Val>, es: seq<Event<Client, Raw>>)
    requires Admissible(cfg, Init(), es)
    ensures var r := Run(cfg, Init(), es);
      (forall i :: 0 <= i < |r.delivered| ==> (r.delivered[i].isFirst <==> i == 0))
      && (r.state.firstCall <==> r.delivered == [])
  {
    InitInv(cfg);
    RunInv(cfg, Init(), es);
  }

  /** From the start, every registration names the kind given to `asObservable`, and no subscription registers twice. */
  lemma RegistrationsUseConfiguredKind<Client, Ref, Raw, Val>(cfg: Config<Client, Ref, Raw, Val>, es: seq<Event<Client, Raw>>)
    requires Admissible(cfg, Init(), es)
    ensures var r := Run(cfg, Init(), es);
      (forall i :: 0 <= i < |r.calls| && r.calls[i].On? ==> r.calls[i].kind == cfg.kind)
      && (forall i :: 0 <= i < |r.calls| && r.calls[i].Off? ==> r.calls[i].kind == ValueKind)
      && (forall i, j :: 0 <= i < j < |r.calls| && r.calls[i].On? && r.calls[j].On? ==> r.calls[i].sub != r.calls[j].sub)
  {
    InitInv(cfg);
    RunInv(cfg, Init(), es);
  }

  /**
   * Once unsubscribed, always unsubscribed: no later event resets the flag, and every
   * backend call issued afterwards is an `off("value")`, never a registration.
   */
  lemma {:induction false} UnsubscribedIsPermanent<Client, Ref, Raw, Val>(cfg: Config<Client, Ref, Raw, Val>, m: Machine<Ref, Val>, es: seq<Event<Client, Raw>>)
    requires m.state.unsubscribed && Admissible(cfg, m, es)
    ensures var r := Run(cfg, m, es);
      r.state.unsubscribed && m.calls <= r.calls
      && (forall i :: |m.calls| <= i < |r.calls| ==> r.calls[i] == Off(r.calls[i].ref, ValueKind))
    decreases |es|
  {
    if es != [] {
      var m' := Step(cfg, m, es[0]);
      UnsubscribedIsPermanent(cfg, m', es[1..]);
    }
  }

  /** A subscription whose chain is still in flight when the observable is unsubscribed never registers, whatever happens next. */
  lemma EarlyUnsubscribeNeverRegisters<Client, Ref, Raw, Val>(cfg: Config<Client, Ref, Raw, Val>, m: Machine<Ref, Val>, sub: nat, es: seq<Event<Client, Raw>>)
    requires Inv(cfg, m) && m.state.unsubscribed && sub in m.pending && Admissible(cfg, m, es)
    ensures var r := Run(cfg, m, es);
      forall i :: 0 <= i < |r.calls| && r.calls[i].On? ==> r.calls[i].sub != sub
  {
    UnsubscribedIsPermanent(cfg, m, es);
  }

  /** Once a value has been delivered, the first-call flag stays down and no later delivery is marked first. */
  lemma {:induction false} FirstCallNeverReturns<Client, Ref, Raw, Val>(cfg: Config<Client, Ref, Raw, Val>, m: Machine<Ref, Val>, es: seq<Event<Client, Raw>>)
    requires !m.state.firstCall && Admissible(cfg, m, es)
    ensures var r := Run(cfg, m, es);
      !r.state.firstCall && m.delivered <= r.delivered
      && (forall i :: |m.delivered| <= i < |r.delivered| ==> !r.delivered[i].isFirst)
    decreases |es|
  {
    if es != [] {
      var m' := Step(cfg, m, es[0]);
      FirstCallNeverReturns(cfg, m', es[1..]);
    }
  }

  /**
   * Callbacks are invoked once per notification, in order, each with `mapValue` of the
   * notification's raw value; without a notification nothing is delivered.
   */
  lemma {:induction false} DeliveriesFollowNotifications<Client, Ref, Raw, Val>(cfg: Config<Client, Ref, Raw, Val>, m: Machine<Ref, Val>, es: seq<Event<Client, Raw>>)
    requires Admissible(cfg, m, es)
    ensures var r := Run(cfg, m, es);
      |r.delivered| == |m.delivered| + |Raws(es)| && m.delivered <= r.delivered
      && (forall i :: 0 <= i < |Raws(es)| ==> r.delivered[|m.delivered| + i].value == cfg.mapValue(Raws(es)[i]))
    decreases |es|
  {
    if es != [] {
      var m' := Step(cfg, m, es[0]);
      DeliveriesFollowNotifications(cfg, m', es[1..]);
      var r := Run(cfg, m', es[1..]);
      assert Run(cfg, m, es) == r;
      if es[0].Notified? {
        assert Raws(es) == [es[0].raw] + Raws(es[1..]);
        assert |m'.delivered| == |m.delivered| + 1;
        forall i | 0 <= i < |Raws(es)|
          ensures r.delivered[|m.delivered| + i].value == cfg.mapValue(Raws(es)[i])
        {
          if i == 0 {
            assert r.delivered[|m.delivered|] == m'.delivered[|m.delivered|];
          } else {
            assert Raws(es)[i] == Raws(es[1..])[i - 1];
          }
        }
      } else {
        assert Raws(es) == Raws(es[1..]);
      }
    }
  }

  /** With the default `mapValue`, each callback receives exactly the raw value of its notification. */
  lemma DefaultMapValueDeliversRawValues<Client, Ref, Raw>(cfg: Config<Client, Ref, Raw, Raw>, m: Machine<Ref, Raw>, es: seq<Event<Client, Raw>>)
    requires cfg.mapValue == Identity<Raw> && Admissible(cfg, m, es)
    ensures var r := Run(cfg, m, es);
      |r.delivered| == |m.delivered| + |Raws(es)|
      && (forall i :: 0 <= i < |Raws(es)| ==> r.delivered[|m.delivered| + i].value == Raws(es)[i])
  {
    DeliveriesFollowNotifications(cfg, m, es);
  }
}
