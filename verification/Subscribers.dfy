/** The event broadcaster: bounded queues, pruning of full or disconnected subscribers, and the
    loop that re-announces the number of sessions until it is stable. */
module Subscribers {
  import opened Domain
  import opened World

  const QUEUE_CAPACITY: nat := 64
  const U32_MAX: nat := 0xFFFF_FFFF
  const U64_MAX: nat := 0xFFFF_FFFF_FFFF_FFFF

  datatype Snapshot = Snapshot(
    desired: DesiredInternet,
    observed: InternetState,
    shutdown: ShutdownState,
    actions: seq<Action>,
    health: Health)

  /** `stream` holds every event ever put into the queue of this subscription. `since` counts
      the broadcasts made before it was registered. */
  datatype Subscriber = Subscriber(snapshot: Snapshot, stream: seq<Event>, since: nat)

  datatype Hub = Hub(
    health: Health,
    persistenceError: Option<string>,
    gateError: Option<string>,
    powerError: Option<string>,
    retryPolicyError: Option<string>,
    subs: map<nat, Subscriber>,
    nextSub: Option<nat>)

  // ---- sending ----------------------------------------------------------------------------

  /** `try_send` succeeds: the receiver exists and its queue has room. */
  predicate HasRoom(m: Moment, id: nat, s: Subscriber) {
    var r := m.receiver(id);
    var taken := if r.taken <= |s.stream| then r.taken else |s.stream|;
    r.alive && |s.stream| - taken < QUEUE_CAPACITY
  }

  predicate Addressed(id: nat, excluded: Option<nat>) {
    excluded != Some(id)
  }

  function FailedSends(m: Moment, subs: map<nat, Subscriber>, excluded: Option<nat>): set<nat> {
    set id | id in subs && Addressed(id, excluded) && !HasRoom(m, id, subs[id])
  }

  /** The registry after one send to everyone addressed, without those whose send failed. */
  function Deliver(m: Moment, subs: map<nat, Subscriber>, e: Event, excluded: Option<nat>): map<nat, Subscriber> {
    map id | id in subs && (Addressed(id, excluded) ==> HasRoom(m, id, subs[id]))
      :: if Addressed(id, excluded) then subs[id].(stream := subs[id].stream + [e]) else subs[id]
  }

  lemma DeliverKeys(m: Moment, subs: map<nat, Subscriber>, e: Event, excluded: Option<nat>)
    ensures Deliver(m, subs, e, excluded).Keys == subs.Keys - FailedSends(m, subs, excluded)
    ensures FailedSends(m, subs, excluded) <= subs.Keys
    ensures |Deliver(m, subs, e, excluded)| == |subs| - |FailedSends(m, subs, excluded)|
    ensures forall id <- Deliver(m, subs, e, excluded) ::
      Deliver(m, subs, e, excluded)[id] == subs[id].(stream := Deliver(m, subs, e, excluded)[id].stream)
  {
    var after, failed := Deliver(m, subs, e, excluded), FailedSends(m, subs, excluded);
    assert after.Keys == subs.Keys - failed;
    assert failed <= subs.Keys;
    assert |subs.Keys - failed| == |subs.Keys| - |failed|;
    assert |after.Keys| == |after|;
  }

  /** Result of a broadcasting step: the registry, the world, and whether the session count
      still fits its 32-bit field. */
  datatype Sent = Sent(hub: Hub, world: World, ok: bool)

  /** `reconcile_subscriber_registry`. */
  function Reconcile(env: Environment, hub: Hub, w: World, excluded: Option<nat>): (r: Sent)
    ensures r.hub == hub.(health := hub.health.(sessions := r.hub.health.sessions), subs := r.hub.subs)
    ensures r.world == w.(trace := r.world.trace, instant := r.world.instant) && w.instant <= r.world.instant
    decreases |hub.subs|
  {
    if |hub.subs| > U32_MAX then Sent(hub, w, false)
    else if hub.health.sessions == |hub.subs| then Sent(hub, w, true)
    else
      var counted := hub.health.(sessions := |hub.subs|);
      var m := env(w.instant);
      var w1 := w.Did(Broadcast(HealthUpdated(counted)));
      var hub1 := hub.(health := counted, subs := Deliver(m, hub.subs, HealthUpdated(counted), excluded));
      DeliverKeys(m, hub.subs, HealthUpdated(counted), excluded);
      if FailedSends(m, hub.subs, excluded) == {} then Sent(hub1, w1, true)
      else Reconcile(env, hub1, w1, excluded)
  }

  /** `emit_event`. */
  function Emit(env: Environment, hub: Hub, w: World, e: Event): (r: Sent)
    ensures r.hub == hub.(health := hub.health.(sessions := r.hub.health.sessions), subs := r.hub.subs)
    ensures r.world == w.(trace := r.world.trace, instant := r.world.instant) && w.instant <= r.world.instant
    ensures hub.subs == map[] ==> r.hub == hub
  {
    var m := env(w.instant);
    var w1 := w.Did(Broadcast(e));
    var hub1 := hub.(subs := Deliver(m, hub.subs, e, None));
    if FailedSends(m, hub.subs, None) == {} then Sent(hub1, w1, true)
    else Reconcile(env, hub1, w1, None)
  }

  // ---- health -----------------------------------------------------------------------------

  /** `recompute_health_status`. */
  function Recompute(hub: Hub): (r: Hub)
    ensures r == hub.(health := hub.health.(status := r.health.status, lastError := r.health.lastError))
  {
    var status :=
      if !hub.health.persistenceHealthy then Critical
      else if !hub.health.gateHealthy || !hub.health.telegramConnected || hub.powerError.Some? || hub.retryPolicyError.Some?
      then Degraded else Healthy;
    var lastError :=
      if hub.persistenceError.Some? then hub.persistenceError
      else if hub.retryPolicyError.Some? then hub.retryPolicyError
      else if hub.powerError.Some? then hub.powerError
      else hub.gateError;
    hub.(health := hub.health.(status := status, lastError := lastError))
  }

  /** `mutate_health_and_maybe_emit`: `before` is the health before the mutation, `mutated` the hub after it. */
  function Announce(env: Environment, before: Health, mutated: Hub, w: World): Sent {
    var after := Recompute(mutated);
    if before == after.health then Sent(after, w, true)
    else Emit(env, after, w, HealthUpdated(after.health))
  }

  // ---- what reaches a subscriber ----------------------------------------------------------

  /** The events broadcast since the last boot, oldest first. */
  function Broadcasts(t: Trace): seq<Event> {
    match t
    case Start(_) => []
    case Then(_, Booted) => []
    case Then(past, Broadcast(e)) => Broadcasts(past) + [e]
    case Then(past, _) => Broadcasts(past)
  }

  /** Gap-free delivery: everyone (but the one being registered) has received exactly the
      broadcasts made since the registration, in order. */
  ghost predicate GapFree(subs: map<nat, Subscriber>, t: Trace, excluded: Option<nat>) {
    forall id <- subs :: Addressed(id, excluded) ==>
      && subs[id].since <= |Broadcasts(t)|
      && subs[id].stream == Broadcasts(t)[subs[id].since..]
  }

  /** Invariant of the registry between two steps of the coordinator. */
  ghost predicate RegistryOk(hub: Hub) {
    && hub.health.sessions == |hub.subs| <= U32_MAX
    && (forall id <- hub.subs :: hub.nextSub.Some? ==> id < hub.nextSub.value)
    && (hub.nextSub.Some? ==> hub.nextSub.value <= U64_MAX)
  }

  lemma DeliverGapFree(m: Moment, subs: map<nat, Subscriber>, t: Trace, e: Event, excluded: Option<nat>)
    requires GapFree(subs, t, excluded)
    ensures GapFree(Deliver(m, subs, e, excluded), Then(t, Broadcast(e)), excluded)
  {
    var after := Deliver(m, subs, e, excluded);
    var b := Broadcasts(t);
    assert Broadcasts(Then(t, Broadcast(e))) == b + [e];
    forall id | id in after && Addressed(id, excluded)
      ensures after[id].since <= |b + [e]| && after[id].stream == (b + [e])[after[id].since..]
    {
      assert (b + [e])[subs[id].since..] == b[subs[id].since..] + [e];
    }
  }

  /** The loop ends (its registry shrinks at every turn), with the announced count equal to the
      size of the registry; the survivors are among the old ones and have missed nothing. */
  lemma {:induction false} ReconcileStabilises(env: Environment, hub: Hub, w: World, excluded: Option<nat>)
    requires |hub.subs| <= U32_MAX
    requires GapFree(hub.subs, w.trace, excluded)
    ensures var r := Reconcile(env, hub, w, excluded);
      && r.ok
      && r.hub.health.sessions == |r.hub.subs| <= |hub.subs|
      && r.hub.subs.Keys <= hub.subs.Keys
      && GapFree(r.hub.subs, r.world.trace, excluded)
      && (forall id <- r.hub.subs ::
            && r.hub.subs[id] == hub.subs[id].(stream := r.hub.subs[id].stream)
            && (!Addressed(id, excluded) ==> r.hub.subs[id] == hub.subs[id]))
      && (forall id <- hub.subs :: !Addressed(id, excluded) ==> id in r.hub.subs)
    decreases |hub.subs|
  {
    if hub.health.sessions != |hub.subs| {
      var counted := hub.health.(sessions := |hub.subs|);
      var m := env(w.instant);
      var e := HealthUpdated(counted);
      DeliverKeys(m, hub.subs, e, excluded);
      DeliverGapFree(m, hub.subs, w.trace, e, excluded);
      if FailedSends(m, hub.subs, excluded) != {} {
        var hub1 := hub.(health := counted, subs := Deliver(m, hub.subs, e, excluded));
        ReconcileStabilises(env, hub1, w.Did(Broadcast(e)), excluded);
      }
    }
  }

  /** One broadcast keeps the registry invariant and the gap-free delivery, and drops from the
      registry at once exactly those whose queue was full or whose receiver was gone. */
  lemma EmitKeepsRegistry(env: Environment, hub: Hub, w: World, e: Event)
    requires RegistryOk(hub) && GapFree(hub.subs, w.trace, None)
    ensures var r := Emit(env, hub, w, e);
      && RegistryOk(r.hub) && GapFree(r.hub.subs, r.world.trace, None)
      && r.hub.subs.Keys <= hub.subs.Keys - FailedSends(env(w.instant), hub.subs, None)
      && (FailedSends(env(w.instant), hub.subs, None) == {} ==> r.hub.subs.Keys == hub.subs.Keys)
      && (forall id <- r.hub.subs :: r.hub.subs[id] == hub.subs[id].(stream := r.hub.subs[id].stream))
  {
    hide Deliver, FailedSends, HasRoom, GapFree;
    var m := env(w.instant);
    DeliverKeys(m, hub.subs, e, None);
    DeliverGapFree(m, hub.subs, w.trace, e, None);
    if FailedSends(m, hub.subs, None) != {} {
      var hub1 := hub.(subs := Deliver(m, hub.subs, e, None));
      ReconcileStabilises(env, hub1, w.Did(Broadcast(e)), None);
    }
  }

  // ---- who is pruned ---------------------------------------------------------------------------

  /** The events broadcast between two points of the history. */
  ghost function Since(earlier: Trace, later: Trace): seq<Event>
    requires Broadcasts(earlier) <= Broadcasts(later)
  {
    Broadcasts(later)[|Broadcasts(earlier)|..]
  }

  /** Each of these events finds room when it is sent, one send per instant from `at` on. */
  ghost predicate AllSendsFit(env: Environment, at: nat, id: nat, s: Subscriber, events: seq<Event>)
    decreases |events|
  {
    events == [] ||
    (HasRoom(env(at), id, s) && AllSendsFit(env, at + 1, id, s.(stream := s.stream + [events[0]]), events[1..]))
  }

  lemma BroadcastAppends(t: Trace, e: Event)
    ensures Broadcasts(t) <= Broadcasts(Then(t, Broadcast(e)))
  {
  }

  lemma {:induction false} ReconcileShrinks(env: Environment, hub: Hub, w: World, excluded: Option<nat>)
    ensures var r := Reconcile(env, hub, w, excluded);
      r.hub.subs.Keys <= hub.subs.Keys && Broadcasts(w.trace) <= Broadcasts(r.world.trace)
    decreases |hub.subs|
  {
    hide HasRoom, Deliver, FailedSends, Broadcasts;
    if |hub.subs| <= U32_MAX && hub.health.sessions != |hub.subs| {
      var e := HealthUpdated(hub.health.(sessions := |hub.subs|));
      var m := env(w.instant);
      DeliverKeys(m, hub.subs, e, excluded);
      BroadcastAppends(w.trace, e);
      if FailedSends(m, hub.subs, excluded) != {} {
        ReconcileShrinks(env, hub.(health := e.health, subs := Deliver(m, hub.subs, e, excluded)), w.Did(Broadcast(e)), excluded);
      }
    }
  }

  lemma DeliverOne(m: Moment, subs: map<nat, Subscriber>, e: Event, excluded: Option<nat>, id: nat)
    requires id in subs && Addressed(id, excluded)
    ensures id in Deliver(m, subs, e, excluded) <==> HasRoom(m, id, subs[id])
    ensures id in FailedSends(m, subs, excluded) <==> !HasRoom(m, id, subs[id])
    ensures HasRoom(m, id, subs[id]) ==> Deliver(m, subs, e, excluded)[id] == subs[id].(stream := subs[id].stream + [e])
  {
    hide HasRoom;
  }

  /** One event more at the front of what was sent. */
  lemma OneSendMore(env: Environment, at: nat, id: nat, s: Subscriber, t: Trace, e: Event, later: Trace)
    requires Broadcasts(Then(t, Broadcast(e))) <= Broadcasts(later)
    ensures Broadcasts(t) <= Broadcasts(later)
    ensures AllSendsFit(env, at, id, s, Since(t, later)) <==>
      HasRoom(env(at), id, s) && AllSendsFit(env, at + 1, id, s.(stream := s.stream + [e]), Since(Then(t, Broadcast(e)), later))
  {
    hide HasRoom;
    assert Broadcasts(Then(t, Broadcast(e))) == Broadcasts(t) + [e];
    assert Since(t, later)[0] == e && Since(t, later)[1..] == Since(Then(t, Broadcast(e)), later);
  }

  /** The loop keeps exactly those to whom every one of its announcements could be sent. */
  lemma {:induction false} ReconcilePrunesExactly(env: Environment, hub: Hub, w: World, excluded: Option<nat>, id: nat)
    requires |hub.subs| <= U32_MAX && id in hub.subs && Addressed(id, excluded)
    ensures var r := Reconcile(env, hub, w, excluded);
      && Broadcasts(w.trace) <= Broadcasts(r.world.trace)
      && (id in r.hub.subs <==> AllSendsFit(env, w.instant, id, hub.subs[id], Since(w.trace, r.world.trace)))
    decreases |hub.subs|
  {
    hide HasRoom, Deliver, FailedSends, AllSendsFit, Broadcasts, Since;
    var r := Reconcile(env, hub, w, excluded);
    if hub.health.sessions == |hub.subs| {
      NothingSent(env, w.instant, id, hub.subs[id], w.trace);
    } else {
      var e := HealthUpdated(hub.health.(sessions := |hub.subs|));
      var m, w1 := env(w.instant), w.Did(Broadcast(e));
      var hub1 := hub.(health := e.health, subs := Deliver(m, hub.subs, e, excluded));
      DeliverKeys(m, hub.subs, e, excluded);
      DeliverOne(m, hub.subs, e, excluded, id);
      if FailedSends(m, hub.subs, excluded) != {} {
        ReconcileShrinks(env, hub1, w1, excluded);
        if HasRoom(m, id, hub.subs[id]) { ReconcilePrunesExactly(env, hub1, w1, excluded, id); }
      } else {
        NothingSent(env, w1.instant, id, hub1.subs[id], w1.trace);
      }
      OneSendMore(env, w.instant, id, hub.subs[id], w.trace, e, r.world.trace);
    }
  }

  lemma NothingSent(env: Environment, at: nat, id: nat, s: Subscriber, t: Trace)
    ensures Broadcasts(t) <= Broadcasts(t) && AllSendsFit(env, at, id, s, Since(t, t))
  {
  }

  /** A broadcast, with all that follows from it, prunes a subscriber if and only if one of the sends
      finds its queue full or its receiver gone. */
  lemma EmitPrunesExactly(env: Environment, hub: Hub, w: World, e: Event, id: nat)
    requires RegistryOk(hub) && id in hub.subs
    ensures var r := Emit(env, hub, w, e);
      && Broadcasts(w.trace) <= Broadcasts(r.world.trace)
      && (id in r.hub.subs <==> AllSendsFit(env, w.instant, id, hub.subs[id], Since(w.trace, r.world.trace)))
  {
    hide HasRoom, Deliver, FailedSends, AllSendsFit, Broadcasts, Since;
    var m, w1 := env(w.instant), w.Did(Broadcast(e));
    var hub1 := hub.(subs := Deliver(m, hub.subs, e, None));
    DeliverKeys(m, hub.subs, e, None);
    DeliverOne(m, hub.subs, e, None, id);
    if FailedSends(m, hub.subs, None) != {} {
      ReconcileShrinks(env, hub1, w1, None);
      if HasRoom(m, id, hub.subs[id]) { ReconcilePrunesExactly(env, hub1, w1, None, id); }
    } else {
      NothingSent(env, w1.instant, id, hub1.subs[id], w1.trace);
    }
    OneSendMore(env, w.instant, id, hub.subs[id], w.trace, e, Emit(env, hub, w, e).world.trace);
  }
}
