/** The coordinator itself: one object whose methods update its fields in place, in the order the
    service does it (crates/service/src/runtime.rs). Every method is proved to do what the
    specification in Runtime.dfy and Recovery.dfy says. */
module Coordinating {
  import opened Domain
  import opened World
  import opened Subscribers
  import opened Runtime
  import opened Recovery
  import opened Edits
  import opened Wake
  import opened CoreRules
  import opened Loops
  import opened Safety
  import opened Durability
  import opened Booting
  import opened Outcomes
  import opened Settling
  import opened Reporting
  import opened Invariants
  import opened Startup
  import opened Announcements
  import opened Warnings
  import opened Ticking
  import opened Dispatch

  class Coordinator {
    /** The ports. `world` tells how often they have been called so far. */
    const env: Environment
    var world: World
    const bootId: nat

    var state: PersistentState
    var pendingCandidate: Option<PersistentState>
    var observed: InternetState
    var shutdownState: ShutdownState
    var timers: map<TimerId, Anchor>
    var nextRetryAt: Option<nat>
    var stopping: bool
    var health: Health
    var persistenceError: Option<string>
    var gateError: Option<string>
    var powerError: Option<string>
    var retryPolicyError: Option<string>
    var subscribers: map<nat, Subscriber>
    var nextSubscriptionId: Option<nat>

    ghost function Registry(): Hub
      reads this
    {
      Hub(health, persistenceError, gateError, powerError, retryPolicyError, subscribers, nextSubscriptionId)
    }

    /** The value of the object in the specification. */
    ghost function View(): Coord
      reads this
    {
      Coord(state, pendingCandidate, observed, shutdownState, timers, nextRetryAt, stopping, Registry(), world, bootId)
    }

    /** What every step keeps: memory, disk, history, anchors, policy, health and subscribers agree. */
    ghost predicate Valid()
      reads this
    {
      Good(View())
    }

    constructor (env: Environment, w: World)
      ensures this.env == env && View() == Blank(w.Did(Booted).(stopSeen := false))
    {
      this.env := env;
      world := w.Did(Booted).(stopSeen := false);
      bootId := w.nextId;
      state := w.disk;
      pendingCandidate := None;
      observed := Unknown;
      shutdownState := Idle;
      timers := map[];
      nextRetryAt := None;
      stopping := false;
      health := Health(Degraded, true, true, false, 0, None);
      persistenceError := None;
      gateError := None;
      powerError := None;
      retryPolicyError := None;
      subscribers := map[];
      nextSubscriptionId := Some(1);
    }

    // ---- ports -------------------------------------------------------------------------------

    method MonotonicNow() returns (now: nat)
      modifies this`world
      ensures now == Mono(env, old(View())) && View() == Looked(old(View()))
    {
      now := env(world.instant).mono;
      world := world.Read();
    }

    method UtcNow() returns (now: int)
      modifies this`world
      ensures now == Utc(env, old(View())) && View() == Looked(old(View()))
    {
      now := env(world.instant).utc;
      world := world.Read();
    }

    method IsStopRequested() returns (requested: bool)
      modifies this`world
      ensures View() == LookForStop(env, old(View())) && requested == world.stopSeen
    {
      world := world.Read().(stopSeen := world.stopSeen || env(world.instant).stopRequested);
      requested := world.stopSeen;
    }

    method NextId() returns (id: nat)
      modifies this`world
      ensures id == old(world.nextId) && world == old(world).Draw(1)
    {
      id := world.nextId;
      world := world.Draw(1);
    }

    method Save(candidate: PersistentState) returns (ok: bool)
      modifies this`world
      ensures ok == SaveOk(env, old(View()))
      ensures world == old(world).Did(if ok then Saved(candidate) else SaveFailed(candidate))
    {
      ok := env(world.instant).saveOk;
      world := world.Did(if ok then Saved(candidate) else SaveFailed(candidate));
    }

    /** One call of the gate, and the reading after it. */
    method CallGate(target: DesiredInternet) returns (answer: GateAnswer)
      modifies this`world, this`observed
      ensures answer == env(old(world.instant)).gate && View() == ApplyGate(env, old(View()), target)
    {
      answer := env(world.instant).gate;
      world := world.Did(GateCall(target));
      observed := match answer.reading case Seen(seen) => seen case Unreadable(_) => Unknown;
    }

    method InitiateShutdown(id: TimerId) returns (outcome: Outcome)
      modifies this`world
      ensures outcome == env(old(world.instant)).power && world == old(world).Did(PowerCall(id, outcome))
    {
      outcome := env(world.instant).power;
      world := world.Did(PowerCall(id, outcome));
    }

    // ---- subscribers -------------------------------------------------------------------------

    method TrySendToSubscribers(event: Event, excluded: Option<nat>) returns (failed: set<nat>)
      modifies this`subscribers, this`world
      ensures world == old(world).Did(Broadcast(event))
      ensures failed == FailedSends(env(old(world.instant)), old(subscribers), excluded)
      ensures subscribers.Keys == old(subscribers).Keys
      ensures subscribers - failed == Deliver(env(old(world.instant)), old(subscribers), event, excluded)
    {
      hide HasRoom, Served, FailedSends, Deliver;
      var m := env(world.instant);
      world := world.Did(Broadcast(event));
      failed := {};
      var rest := subscribers.Keys;
      ghost var before := subscribers;
      ServeStartAndEnd(m, before, event, excluded);
      while rest != {}
        invariant world == old(world).Did(Broadcast(event)) && rest <= before.Keys
        invariant subscribers == Served(m, before, event, excluded, rest) && subscribers.Keys == before.Keys
        invariant failed == FailedSends(m, before - rest, excluded)
        decreases |rest|
      {
        var id :| id in rest;
        ServeOne(m, before, event, excluded, rest, id);
        rest := rest - {id};
        if Addressed(id, excluded) {
          if HasRoom(m, id, subscribers[id]) {
            subscribers := subscribers[id := subscribers[id].(stream := subscribers[id].stream + [event])];
          } else {
            failed := failed + {id};
          }
        }
        assert subscribers == Served(m, before, event, excluded, rest);
      }
    }

    method Prune(failed: set<nat>)
      modifies this`subscribers
      ensures subscribers == old(subscribers) - failed
    {
      var rest := failed;
      while rest != {}
        invariant rest <= failed
        invariant subscribers == old(subscribers) - (failed - rest)
        decreases |rest|
      {
        var id :| id in rest;
        rest := rest - {id};
        subscribers := subscribers - {id};
      }
    }

    method ReconcileSubscriberRegistry(excluded: Option<nat>) returns (ok: bool)
      modifies this`subscribers, this`world, this`health
      ensures var r := Reconcile(env, old(Registry()), old(world), excluded);
        ok == r.ok && View() == old(View()).(hub := r.hub, world := r.world)
    {
      hide Reconcile, Deliver, FailedSends, HasRoom, World.Did;
      while true
        invariant Reconcile(env, Registry(), world, excluded) == Reconcile(env, old(Registry()), old(world), excluded)
        decreases |subscribers|
      {
        if |subscribers| > U32_MAX || health.sessions == |subscribers| {
          ReconcileDone(env, Registry(), world, excluded);
          return |subscribers| <= U32_MAX;
        }
        ReconcileStep(env, Registry(), world, excluded);
        health := health.(sessions := |subscribers|);
        var failed := TrySendToSubscribers(HealthUpdated(health), excluded);
        if failed == {} {
          assert subscribers - {} == subscribers;
          return true;
        }
        Prune(failed);
      }
    }

    method EmitEvent(event: Event) returns (ok: bool)
      modifies this`subscribers, this`world, this`health
      ensures View() == Tell(env, old(View()), event)
      ensures ok == Emit(env, old(Registry()), old(world), event).ok
    {
      ok := true;
      var failed := TrySendToSubscribers(event, None);
      if failed != {} {
        Prune(failed);
        ok := ReconcileSubscriberRegistry(None);
      } else {
        assert subscribers - {} == subscribers;
      }
    }

    // ---- health ------------------------------------------------------------------------------

    /** Afterwards the status is critical exactly if the persistence is unhealthy, healthy exactly if
        nothing is wrong, and the error is the one of highest priority on record. */
    method RecomputeHealthStatus()
      modifies this`health
      ensures health == old(health).(status := health.status, lastError := health.lastError)
      ensures health.status.Critical? <==> !health.persistenceHealthy
      ensures health.status.Healthy? <==>
        health.persistenceHealthy && health.gateHealthy && health.telegramConnected && powerError.None? && retryPolicyError.None?
      ensures IsFirstError(health.lastError, [persistenceError, retryPolicyError, powerError, gateError])
      ensures Registry() == Recompute(old(Registry()))
    {
      RecomputeIsCurrent(Registry());
      if !health.persistenceHealthy {
        health := health.(status := Critical);
      } else if !health.gateHealthy || !health.telegramConnected || powerError.Some? || retryPolicyError.Some? {
        health := health.(status := Degraded);
      } else {
        health := health.(status := Healthy);
      }
      if persistenceError.Some? {
        health := health.(lastError := persistenceError);
      } else if retryPolicyError.Some? {
        health := health.(lastError := retryPolicyError);
      } else if powerError.Some? {
        health := health.(lastError := powerError);
      } else {
        health := health.(lastError := gateError);
      }
    }

    /** The part after the mutation; `before` is the health before it. The health is brought up to date,
        and announced if and only if that makes it differ from `before`. */
    method MaybeEmitHealth(before: Health)
      modifies this`subscribers, this`world, this`health
      ensures Current(Registry())
      ensures var announced := health.(sessions := old(health.sessions));
        && (before == announced ==> world == old(world) && subscribers == old(subscribers) && health == announced)
        && (before != announced ==> Broadcasts(old(world.trace)) + [HealthUpdated(announced)] <= Broadcasts(world.trace))
      ensures var r := Announce(env, before, old(Registry()), old(world));
        View() == old(View()).(hub := r.hub, world := r.world)
    {
      AnnouncedExactly(env, before, Registry(), world);
      SessionsAreAside(env, before, Registry(), world);
      RecomputeHealthStatus();
      if before != health {
        var _ := EmitEvent(HealthUpdated(health));
      }
    }

    method MarkPersistenceOutcome(ok: bool)
      modifies this`health, this`persistenceError, this`subscribers, this`world
      ensures View() == MarkPersistence(env, old(View()), ok)
    {
      var before := health;
      health := health.(persistenceHealthy := ok);
      persistenceError := if ok then None else Some(SAVE_ERROR);
      MaybeEmitHealth(before);
    }

    method MarkGateOutcome(error: Option<string>)
      modifies this`health, this`gateError, this`subscribers, this`world
      ensures View() == MarkGate(env, old(View()), error)
    {
      var before := health;
      health := health.(gateHealthy := error.None?);
      gateError := error;
      MaybeEmitHealth(before);
    }

    method MarkPowerOutcome(error: Option<string>)
      modifies this`health, this`powerError, this`subscribers, this`world
      ensures View() == MarkPower(env, old(View()), error)
    {
      var before := health;
      powerError := error;
      MaybeEmitHealth(before);
    }

    method MarkRetryPolicyOutcome(error: Option<string>)
      modifies this`health, this`retryPolicyError, this`subscribers, this`world
      ensures View() == MarkRetryPolicy(env, old(View()), error)
    {
      var before := health;
      retryPolicyError := error;
      MaybeEmitHealth(before);
    }

    // ---- derived state -----------------------------------------------------------------------

    method MaybeEmitShutdownStateChanged(previous: ShutdownState, current: ShutdownState)
      modifies this`health, this`subscribers, this`world
      ensures View() == TellShutdown(env, old(View()), previous, current)
    {
      if previous != current {
        var _ := EmitEvent(ShutdownStateChanged(previous, current));
      }
    }

    method SyncShutdownState()
      modifies this`shutdownState, this`health, this`subscribers, this`world
      ensures View() == SyncShutdown(env, old(View()))
    {
      var previous := shutdownState;
      shutdownState := DeriveShutdown(shutdownState, state.actions);
      MaybeEmitShutdownStateChanged(previous, shutdownState);
    }

    method MaybeEmitInternetPolicyChanged(desired: DesiredInternet, observation: InternetState, reason: ChangeReason)
      modifies this`health, this`subscribers, this`world
      ensures View() == TellPolicy(env, old(View()), desired, observation, reason)
    {
      if (desired, observation) != (state.desired, observed) {
        var _ := EmitEvent(InternetPolicyChanged(state.desired, observed, reason));
      }
    }

    // ---- saving ------------------------------------------------------------------------------

    method CommitAuthoritativeState(candidate: PersistentState) returns (ok: bool)
      modifies this
      ensures ok == SaveOk(env, old(View())) && View() == Commit(env, old(View()), candidate)
      ensures ok ==> state == world.disk == candidate && pendingCandidate.None?
      ensures !ok ==> state == old(state) && world.disk == old(world.disk) && pendingCandidate == old(pendingCandidate)
      ensures health.persistenceHealthy == ok
    {
      ok := Save(candidate);
      if ok {
        state := candidate;
        pendingCandidate := None;
      }
      assert View() == AfterSave(old(View()), candidate, ok, false);
      MarkPersistenceOutcome(ok);
    }

    method CommitPostSideEffectCandidate(candidate: PersistentState) returns (ok: bool)
      modifies this
      ensures ok == SaveOk(env, old(View())) && View() == CommitPost(env, old(View()), candidate)
      ensures state == candidate && health.persistenceHealthy == ok
      ensures if ok then world.disk == candidate && pendingCandidate.None?
        else world.disk == old(world.disk) && pendingCandidate == Some(candidate)
    {
      state := candidate;
      ok := Save(candidate);
      pendingCandidate := if ok then None else Some(candidate);
      assert View() == AfterSave(old(View()), candidate, ok, true);
      MarkPersistenceOutcome(ok);
    }

    method FlushPendingDurableCandidate() returns (ok: bool)
      modifies this
      ensures View() == Flush(env, old(View()))
      ensures ok == (old(pendingCandidate).None? || SaveOk(env, old(View())))
    {
      if pendingCandidate.None? { return true; }
      var pending := pendingCandidate.value;
      ok := Save(pending);
      if ok {
        state := pending;
        pendingCandidate := None;
      }
      assert View() == AfterSave(old(View()), pending, ok, false);
      MarkPersistenceOutcome(ok);
    }

    // ---- timers ------------------------------------------------------------------------------

    /** One notice per threshold, each with an identifier of its own. */
    method BuildNotices(n: nat, text: string) returns (notices: seq<OutboxEntry>)
      modifies this`world
      ensures notices == Notices(old(world.nextId), n, text) && world == old(world).Draw(n)
    {
      notices := [];
      for i := 0 to n
        invariant notices == Notices(old(world.nextId), i, text) && world == old(world).Draw(i)
      {
        var id := NextId();
        notices := notices + [Notice(id, text)];
      }
    }

    method EmitWarnings(a: Action, due: seq<Threshold>, utc: int)
      modifies this`health, this`subscribers, this`world
      ensures View() == TellWarnings(env, old(View()), a, due, utc)
    {
      hide Tell;
      for i := 0 to |due|
        invariant View() == TellWarnings(env, old(View()), a, due[..i], utc)
      {
        assert due[..i + 1][..i] == due[..i];
        var _ := EmitEvent(WarningReached(a.id, a.kind, due[i], a.deadline, utc));
      }
      assert due[..|due|] == due;
    }

    method HandleScheduleAction(kind: ActionKind, duration: nat, who: Initiator) returns (reply: Reply)
      requires Valid()
      modifies this
      ensures reply.ScheduledAs? ==> reply.id == old(world.nextId) && reply.id !in Known(old(world.trace))
      ensures reply.ScheduledAs? ==> Outcomes.Scheduled(env, old(View()), View(), kind, duration, who)
      ensures !reply.ScheduledAs? ==> reply == PersistenceError && SameCore(old(View()), View())
      ensures var r := Schedule(env, old(View()), kind, duration, who); View() == r.coord && reply == r.reply
    {
      hide Commit, Arm, Recompute, CreationDue, NewAction, Notices, Outcomes.Scheduled, Good, Durable;
      GoodFacts(View());
      ScheduleOutcome(env, View(), kind, duration, who);
      var a, mono, due, notices := BuildAction(kind, duration, who);
      var ok := CommitAuthoritativeState(ScheduleEdit(state, a, notices));
      if !ok { return PersistenceError; }
      StartTimer(a, Anchor(kind, a.deadline, mono + duration * NANOS_PER_SECOND, duration, mono, duration), due);
      reply := ScheduledAs(a.id);
    }

    method BuildAction(kind: ActionKind, duration: nat, who: Initiator)
      returns (a: Action, mono: nat, due: seq<Threshold>, notices: seq<OutboxEntry>)
      modifies this`world
      ensures var c := old(View());
        && a == NewAction(c.world.nextId, kind, duration, who, Utc(env, c)) && mono == Mono(env, Looked(c))
        && due == CreationDue(duration) && notices == Notices(c.world.nextId + 1, |due|, WARNING_TEXT)
        && View() == Looked(Looked(c)).(world := Looked(Looked(c)).world.Draw(1 + |due|))
        && a.id == c.world.nextId
    {
      hide Notices, InitialThresholds, CreationPassed, CreationDue;
      var utc := UtcNow();
      mono := MonotonicNow();
      var id := NextId();
      var passed := CreationPassedThresholds(duration);
      due := CreationDueThresholds(duration);
      var emitted := passed + set t <- due;
      InitialIsPassedOrDue(duration, emitted, passed, due);
      notices := BuildNotices(|due|, WARNING_TEXT);
      a := Action(id, kind, utc + duration * 1000, utc, who, emitted, Pending);
    }

    method StartTimer(a: Action, anchor: Anchor, due: seq<Threshold>)
      modifies this
      ensures View() == Arm(env, old(View()), a, anchor, due)
    {
      hide TellWarnings, Tell, SyncShutdown;
      timers := timers[a.id := anchor];
      var _ := EmitEvent(TimerScheduled(a));
      EmitWarnings(a, due, a.createdAt);
      if a.kind.ShutdownComputer? { SyncShutdownState(); }
    }

    method HandleCancelExactTimer(id: TimerId, kind: ActionKind) returns (reply: Reply)
      requires Valid()
      modifies this
      ensures reply in {Cancelled, PersistenceError} <==> MayCancel(env, old(View()), id, kind)
      ensures reply == Cancelled ==>
        var k := FindAction(old(state).actions, id);
        && state == world.disk == old(state).(actions := old(state).actions[..k] + old(state).actions[k + 1..])
        && timers == old(timers) - {id}
      ensures reply != Cancelled ==> SameCore(old(View()), View())
      ensures var r := Cancel(env, old(View()), id, kind); View() == r.coord && reply == r.reply
    {
      hide Commit, Disarm, RemoveAction, Recompute, Good, Durable, MayCancel;
      GoodFacts(View());
      CancelOutcome(env, View(), id, kind);
      var k := FindAction(state.actions, id);
      if k == |state.actions| { return AlreadyAbsent; }
      if state.actions[k].kind != kind { return KindMismatch; }
      if !state.actions[k].exec.Pending? { return CancellationForbidden; }
      if kind.ShutdownComputer? {
        if id !in timers || timers[id].kind != kind { return CancellationForbidden; }
        var now := MonotonicNow();
        if now >= timers[id].target { return CancellationForbidden; }
      }
      var rest := RemoveAction(state.actions, id);
      if |rest| + 1 != |state.actions| { return CancellationForbidden; }
      var ok := CommitAuthoritativeState(state.(actions := rest));
      if !ok { return PersistenceError; }
      StopTimer(id, kind);
      reply := Cancelled;
    }

    method StopTimer(id: TimerId, kind: ActionKind)
      modifies this
      ensures View() == Disarm(env, old(View()), id, kind)
    {
      hide Tell, SyncShutdown;
      timers := timers - {id};
      var _ := EmitEvent(TimerCancelled(id, kind));
      if kind.ShutdownComputer? { SyncShutdownState(); }
    }

    // ---- the Internet gate -------------------------------------------------------------------

    method ScheduleNextInternetRetry()
      modifies this
      ensures View() == ScheduleRetry(env, old(View()))
      ensures state.retry.Some? ==> ArmedAt(env, old(world.instant), world.instant - 1, state.retry.value.attempts, View())
    {
      hide MarkRetryPolicy, ArmedAt;
      if state.retry.Some? { ScheduleRetryArms(env, View()); }
      var delay := env(world.instant).delay(Attempts(state.retry));
      world := world.Read();
      if delay == 0 {
        MarkRetryPolicyOutcome(Some(ZERO_DELAY));
        nextRetryAt := None;
      } else {
        MarkRetryPolicyOutcome(None);
        var now := MonotonicNow();
        nextRetryAt := Some(now + delay);
      }
    }

    /** `handle_immediate_block` and `handle_restore_internet`. */
    method HandleSetPolicy(target: DesiredInternet, reason: ChangeReason) returns (reply: Reply)
      modifies this
      ensures if SaveOk(env, old(View())) then state.desired == world.disk.desired == target && state.actions == old(state).actions
        else reply == PersistenceError && SameCore(old(View()), View())
      ensures reply == Done ==> world.disk == state == old(state).(desired := target, retry := None) && observed == ShownAs(target)
      ensures reply.PlatformError? ==> world.disk == state && RefusalRecorded(env, old(View()), View(), reply.reason)
      ensures reply == StoppingError ==> state == old(state).(desired := target) && observed == old(observed)
      ensures PolicyServed(env, old(View()), View(), reply, target, reason)
      ensures var r := SetPolicy(env, old(View()), target, reason); View() == r.coord && reply == r.reply
    {
      hide Commit, PolicyOutcome, TellPolicy, Recompute, RefusalRecorded, Told;
      PolicyIsServed(env, View(), target, reason);
      var previousDesired, previousObserved := state.desired, observed;
      var ok := CommitAuthoritativeState(state.(desired := target));
      if !ok { return PersistenceError; }
      var requested := IsStopRequested();
      if requested { return StoppingError; }
      var answer := CallGate(target);
      MaybeEmitInternetPolicyChanged(previousDesired, previousObserved, reason);
      reply := FinishSetPolicy(GateError(target, answer));
    }

    method FinishSetPolicy(error: Option<string>) returns (reply: Reply)
      modifies this
      ensures var r := PolicyOutcome(env, old(View()), error); View() == r.coord && reply == r.reply
    {
      hide CommitPost, MarkGate, ScheduleRetry, Recompute;
      MarkGateOutcome(error);
      if error.None? {
        if state.retry.None? { return Done; }
        var ok := CommitPostSideEffectCandidate(state.(retry := None));
        reply := if ok then Done else PersistenceError;
      } else {
        var id := NextId();
        var ok := CommitPostSideEffectCandidate(RetryEdit(state, error.value, id));
        ScheduleNextInternetRetry();
        reply := if ok then PlatformError(error.value) else PersistenceError;
      }
    }

    method ProcessInternetReconciliationRetry()
      modifies this
      ensures View() == Retry(env, old(View()))
    {
      hide RetryOutcome, TellPolicy, Recompute;
      var previousDesired, previousObserved := state.desired, observed;
      var requested := IsStopRequested();
      if requested { return; }
      var answer := CallGate(state.desired);
      MaybeEmitInternetPolicyChanged(previousDesired, previousObserved, PlatformSync);
      FinishRetry(GateError(state.desired, answer));
    }

    method FinishRetry(error: Option<string>)
      modifies this
      ensures View() == RetryOutcome(env, old(View()), error)
    {
      hide CommitPost, MarkGate, ScheduleRetry, Recompute, ResolveBlocks;
      MarkGateOutcome(error);
      if error.None? {
        var _ := CommitPostSideEffectCandidate(RetryDoneEdit(state));
      } else {
        var id := NextId();
        var _ := CommitPostSideEffectCandidate(RetryEdit(state, error.value, id));
        ScheduleNextInternetRetry();
      }
    }

    // ---- messages ----------------------------------------------------------------------------

    method HandleAckTelegram(id: EntryId) returns (reply: Reply)
      requires Valid()
      modifies this
      ensures AckServed(old(View()), View(), reply, id)
      ensures var r := Ack(env, old(View()), id); View() == r.coord && reply == r.reply
    {
      hide Commit, Recompute, Good, Durable, AckServed;
      GoodFacts(View());
      AckIsServed(env, View(), id);
      world := world.Did(AckReceived(id));
      var k := FindEntry(state.outbox, id);
      if k == |state.outbox| { return Acked(false); }
      var ok := CommitAuthoritativeState(state.(outbox := state.outbox[..k] + state.outbox[k + 1..]));
      reply := if ok then Acked(true) else PersistenceError;
    }

    method HandleSendChildMessage(text: string) returns (reply: Reply)
      modifies this
      ensures reply == InvalidInput <==> !IsMessage(text)
      ensures reply.MessageAccepted? ==>
        && reply.id == old(world.nextId) && state == world.disk
        && state == old(state).(outbox := old(state).outbox
             + [OutboxEntry(reply.id, Chat(ChatMessage(reply.id, Child, text, Utc(env, old(View())), AcceptedByService)), 0, None)])
      ensures !reply.MessageAccepted? ==> reply in {InvalidInput, PersistenceError} && SameCore(old(View()), View())
      ensures var r := ChildMessage(env, old(View()), text); View() == r.coord && reply == r.reply
    {
      hide Commit, Recompute, ValidChat, IsMessage, Told;
      ChildMessageIsServed(env, View(), text);
      if !ValidChat(text) { return InvalidInput; }
      var id := NextId();
      var utc := UtcNow();
      var entry := OutboxEntry(id, Chat(ChatMessage(id, Child, text, utc, AcceptedByService)), 0, None);
      var ok := CommitAuthoritativeState(state.(outbox := state.outbox + [entry]));
      reply := if ok then MessageAccepted(id) else PersistenceError;
    }

    /** Only messages of the parent are broadcast; the store, the timers and the policy stay as they are. */
    method HandlePublishParentMessage(message: ChatMessage) returns (reply: Reply)
      modifies this`health, this`subscribers, this`world
      ensures reply == (if message.sender.Parent? then Done else InvalidInput)
      ensures reply == Done ==> Broadcasts(old(world.trace)) + [ChatReceived(message)] <= Broadcasts(world.trace)
      ensures reply == Done ==> subscribers.Keys <= old(subscribers).Keys
      ensures reply == InvalidInput ==> View() == old(View())
      ensures SameCore(old(View()), View())
      ensures var r := ParentMessage(env, old(View()), message); View() == r.coord && reply == r.reply
    {
      hide Tell, Broadcasts;
      ParentMessageOutcome(env, View(), message);
      if !message.sender.Parent? { return InvalidInput; }
      var _ := EmitEvent(ChatReceived(message));
      reply := Done;
    }

    // ---- subscriptions -----------------------------------------------------------------------

    function BuildStatusSnapshot(): (s: Snapshot)
      reads this
      ensures s == StatusOf(View())
    {
      Snapshot(state.desired, observed, shutdownState, state.actions, health)
    }

    method RemoveSubscription(id: nat)
      modifies this`subscribers, this`world, this`health
      ensures View() == Drop(env, old(View()), id)
    {
      hide Reconcile;
      subscribers := subscribers - {id};
      var _ := ReconcileSubscriberRegistry(None);
    }

    method HandleSubscribeEvents() returns (reply: Reply)
      modifies this`subscribers, this`world, this`health, this`nextSubscriptionId
      ensures old(Valid()) && reply.Subscribed? ==>
        && reply.sub in subscribers && reply.snapshot == StatusOf(View())
        && subscribers[reply.sub] == Subscriber(reply.snapshot, [], |Broadcasts(world.trace)|)
      ensures old(Valid()) ==> (reply == CapacityExhausted <==> old(nextSubscriptionId).Some? && |old(subscribers)| == U32_MAX)
      ensures old(Valid()) ==> SameCore(old(View()), View())
      ensures var r := Subscribe(env, old(View())); View() == r.coord && reply == r.reply
    {
      hide Reconcile, Drop, Greet, StatusOf, Good, Durable, RegistryOk, GapFree, Broadcasts;
      if Good(View()) {
        GoodFacts(View());
        SubscribeOutcome(env, View());
      }
      if nextSubscriptionId.None? { return SubscriptionIdExhausted; }
      var id := nextSubscriptionId.value;
      if id in subscribers { return SubscriptionIdExhausted; }
      if |subscribers| + 1 > U32_MAX { return CapacityExhausted; }
      subscribers := subscribers[id := Subscriber(BuildStatusSnapshot(), [], 0)];
      nextSubscriptionId := if id + 1 <= U64_MAX then Some(id + 1) else None;
      assert View() == Enlist(old(View()), id);
      var ok := ReconcileSubscriberRegistry(Some(id));
      if ok {
        reply := GreetSubscriber(id);
      } else {
        RemoveSubscription(id);
        reply := CapacityExhausted;
      }
    }

    method GreetSubscriber(id: nat) returns (reply: Reply)
      modifies this`subscribers, this`world, this`health
      ensures var r := Greet(env, old(View()), id); View() == r.coord && reply == r.reply
    {
      hide Drop, StatusOf, Broadcasts;
      var snapshot := BuildStatusSnapshot();
      subscribers := subscribers[id := Subscriber(snapshot, [], |Broadcasts(world.trace)|)];
      var taken := env(world.instant).replyTaken;
      world := world.Read();
      if taken { return Subscribed(id, snapshot); }
      RemoveSubscription(id);
      reply := Done;
    }

    method HandleUnsubscribeEvents(id: nat) returns (reply: Reply)
      requires Valid()
      modifies this`subscribers, this`world, this`health
      ensures reply == Unsubscribed(id in old(subscribers)) && id !in subscribers && SameCore(old(View()), View())
      ensures var r := Unsubscribe(env, old(View()), id); View() == r.coord && reply == r.reply
    {
      hide Reconcile, Good, Durable, RegistryOk, GapFree;
      GoodFacts(View());
      UnsubscribeOutcome(env, View(), id);
      if id !in subscribers { return Unsubscribed(false); }
      subscribers := subscribers - {id};
      var ok := ReconcileSubscriberRegistry(None);
      reply := if ok then Unsubscribed(true) else CapacityExhausted;
    }

    /** Success means that nothing is in memory only. */
    method HandleStop() returns (reply: Reply)
      requires Valid()
      modifies this
      ensures stopping && state == old(state) && timers == old(timers)
      ensures reply == Stopped <==> old(pendingCandidate).None? || SaveOk(env, old(View()))
      ensures reply == Stopped ==> state == world.disk && pendingCandidate.None?
      ensures reply != Stopped ==> pendingCandidate == old(pendingCandidate) && world.disk == old(world.disk)
      ensures !old(stopping) ==> subscribers == map[]
      ensures var r := Stop(env, old(View())); View() == r.coord && reply == r.reply
    {
      hide Flush, Good, Durable;
      GoodFacts(View());
      StopOutcome(env, View());
      if !stopping {
        stopping := true;
        subscribers := map[];
        health := health.(sessions := 0);
      }
      var ok := FlushPendingDurableCandidate();
      reply := if ok then Stopped else PersistenceError;
    }

    method HandleCommand(cmd: Command) returns (reply: Reply)
      requires Valid()
      modifies this
      ensures Valid()
      ensures CommandServed(env, old(View()), cmd, View(), reply)
      ensures var r := Handle(env, old(View()), cmd); View() == r.coord && reply == r.reply
    {
      hide Schedule, Cancel, SetPolicy, Ack, ChildMessage, ParentMessage, Subscribe, Unsubscribe, Stop, Good, CommandServed;
      HandleKeepsGood(env, View(), cmd);
      CommandIsServed(env, View(), cmd);
      if stopping && !cmd.QueryStatus? && !cmd.StopRuntime? { return StoppingError; }
      match cmd {
        case ScheduleAction(kind, duration, who) => reply := HandleScheduleAction(kind, duration, who);
        case CancelExactTimer(id, kind) => reply := HandleCancelExactTimer(id, kind);
        case ImmediateInternetBlock(who) => reply := HandleSetPolicy(Blocked, ImmediateCommand(who));
        case RestoreInternet(who) => reply := HandleSetPolicy(Unrestricted, ManualRestore(who));
        case AckTelegram(id) => reply := HandleAckTelegram(id);
        case SendChildMessage(text) => reply := HandleSendChildMessage(text);
        case PublishParentMessage(message) => reply := HandlePublishParentMessage(message);
        case QueryStatus => reply := Status(BuildStatusSnapshot());
        case SubscribeEvents => reply := HandleSubscribeEvents();
        case UnsubscribeEvents(id) => reply := HandleUnsubscribeEvents(id);
        case StopRuntime => reply := HandleStop();
      }
    }

    // ---- deadlines ---------------------------------------------------------------------------

    method ExecuteScheduledInternetDeadline(id: TimerId)
      modifies this
      ensures View() == FireBlock(env, old(View()), id)
      ensures var c := old(View());
        var k := FindAction(c.mem.actions, id);
        UniqueActions(c.mem.actions) && Starts(env, c, k) ==>
          if BlockAsked(env, c, k).world.stopSeen then LeftExecuting(c, View(), k)
          else BlockSettled(env, c, View(), k, env(BlockAsked(env, c, k).world.instant).gate)
    {
      hide Commit, FiredBlock, Recompute, BlockAsked, BlockSettled, UniqueActions, Starts;
      if UniqueActions(state.actions) && Starts(env, View(), FindAction(state.actions, id)) {
        StartHasId(env, View(), id);
        BlockDeadlineOutcome(env, View(), FindAction(state.actions, id));
      }
      var requested := IsStopRequested();
      if requested { return; }
      ghost var before := old(View());
      var previousDesired, previousObserved := state.desired, observed;
      var k := FindAction(state.actions, id);
      if k == |state.actions| { return; }
      var next := RuntimeDeadlineTransition(state.actions[k].exec, 0);
      if next.None? { return; }
      var ok := CommitAuthoritativeState(state.(actions := SetExec(state.actions, k, next.value), desired := Blocked));
      if ok { EnforceScheduledBlock(id, previousDesired, previousObserved, before); }
    }

    method EnforceScheduledBlock(id: TimerId, previousDesired: DesiredInternet, previousObserved: InternetState, ghost before: Coord)
      requires previousDesired == before.mem.desired && previousObserved == before.observed
      modifies this
      ensures View() == FiredBlock(env, before, old(View()), id)
    {
      hide Tell, TellPolicy, BlockOutcome;
      timers := timers - {id};
      var _ := EmitEvent(TimerExpired(id, BlockInternet));
      var requested := IsStopRequested();
      if requested { return; }
      var answer := CallGate(Blocked);
      MaybeEmitInternetPolicyChanged(previousDesired, previousObserved, TimerFired(id));
      FinishScheduledBlock(id, GateError(Blocked, answer));
    }

    method FinishScheduledBlock(id: TimerId, error: Option<string>)
      modifies this
      ensures View() == BlockOutcome(env, old(View()), id, error)
    {
      hide CommitPost, MarkGate, ScheduleRetry, Recompute, CompleteEdit, FailEdit;
      MarkGateOutcome(error);
      if error.None? {
        var _ := CommitPostSideEffectCandidate(CompleteEdit(state, id).(retry := None));
      } else {
        var entry := NextId();
        var _ := CommitPostSideEffectCandidate(RetryEdit(FailEdit(state, id, error.value), error.value, entry));
        ScheduleNextInternetRetry();
      }
    }

    method ExecuteScheduledShutdownDeadline(id: TimerId)
      modifies this
      ensures View() == FireShutdown(env, old(View()), id)
      ensures var c := old(View());
        var k := FindAction(c.mem.actions, id);
        UniqueActions(c.mem.actions) && Starts(env, c, k) ==>
          if PowerAsked(env, c, k).world.stopSeen then LeftExecuting(c, View(), k)
          else ShutdownSettled(c, View(), k, env(PowerAsked(env, c, k).world.instant).power)
    {
      hide Commit, FiredShutdown, Recompute, PowerAsked, ShutdownSettled, UniqueActions, Starts;
      if UniqueActions(state.actions) && Starts(env, View(), FindAction(state.actions, id)) {
        StartHasId(env, View(), id);
        ShutdownDeadlineOutcome(env, View(), FindAction(state.actions, id));
      }
      var requested := IsStopRequested();
      if requested { return; }
      var k := FindAction(state.actions, id);
      if k == |state.actions| { return; }
      var next := RuntimeDeadlineTransition(state.actions[k].exec, 0);
      if next.None? { return; }
      var ok := CommitAuthoritativeState(state.(actions := SetExec(state.actions, k, next.value)));
      if ok { EnforceScheduledShutdown(id); }
    }

    method EnforceScheduledShutdown(id: TimerId)
      modifies this
      ensures View() == FiredShutdown(env, old(View()), id)
    {
      hide Tell, PowerOutcome;
      timers := timers - {id};
      var _ := EmitEvent(TimerExpired(id, ShutdownComputer));
      var requested := IsStopRequested();
      if requested { return; }
      var outcome := InitiateShutdown(id);
      FinishScheduledShutdown(id, outcome);
    }

    method FinishScheduledShutdown(id: TimerId, outcome: Outcome)
      modifies this
      ensures View() == PowerOutcome(env, old(View()), id, outcome)
    {
      hide CommitPost, MarkPower, TellShutdown, Recompute, CompleteEdit, FailEdit, DeriveShutdown, FindAction;
      if FindAction(state.actions, id) == |state.actions| { return; }
      match outcome {
        case Success =>
          MarkPowerOutcome(None);
          var previous := shutdownState;
          shutdownState := InProgress;
          MaybeEmitShutdownStateChanged(previous, InProgress);
          var _ := CommitPostSideEffectCandidate(CompleteEdit(state, id));
        case Failure(reason) =>
          MarkPowerOutcome(Some(reason));
          var failed := FailEdit(state, id, reason);
          var entry := NextId();
          var edited := failed.(outbox := failed.outbox + [Notice(entry, reason)]);
          var previous := shutdownState;
          shutdownState := DeriveShutdown(shutdownState, edited.actions);
          var current := shutdownState;
          var ok := CommitPostSideEffectCandidate(edited);
          if ok { MaybeEmitShutdownStateChanged(previous, current); }
      }
    }

    // ---- the clock tick ----------------------------------------------------------------------

    /** Warnings of one timer that has not expired. */
    method EvaluateWarnings(id: TimerId, now: nat)
      requires id in timers && now < timers[id].target
      modifies this
      ensures View() == Warn(env, old(View()), id, now)
      ensures if HasWarning(old(View()), id, now) && SaveOk(env, old(View()))
        then MarkedWithNotices(old(View()), View(), FindAction(old(state).actions, id))
        else state == old(state) && world.disk == old(world.disk) && Told(old(View()), View(), [])
      ensures OnlyCursorsMoved(old(timers), timers)
    {
      hide WarnCrossed, SecondsLeft, Crossed, Recompute, HasWarning, MarkedWithNotices, Told;
      WarnOutcome(env, View(), id, now);
      var previous, current := timers[id].cursor, SecondsLeft(timers[id], now);
      if previous <= current { return; }
      var crossed: seq<Threshold> := [];
      var k := FindAction(state.actions, id);
      if k < |state.actions| {
        crossed := CrossedWarningThresholds(previous, current, state.actions[k].emitted);
      }
      if crossed == [] {
        timers := timers[id := timers[id].(cursor := current)];
      } else {
        RecordWarnings(id, current, crossed);
      }
    }

    method RecordWarnings(id: TimerId, current: nat, crossed: seq<Threshold>)
      requires id in timers && FindAction(state.actions, id) < |state.actions|
      modifies this
      ensures View() == WarnCrossed(env, old(View()), id, current, crossed)
      ensures !SaveOk(env, old(View())) ==> state == old(state) && world.disk == old(world.disk)
      ensures var k := FindAction(old(state).actions, id);
        SaveOk(env, old(View())) && |MarksOf(crossed)| == |crossed| && MarksOf(crossed) !! old(state).actions[k].emitted ==>
          MarkedWithNotices(old(View()), View(), k) && NewMarks(old(state).actions, state.actions, k) == MarksOf(crossed)
      ensures OnlyCursorsMoved(old(timers), timers)
    {
      hide Commit, WarningsSaved, Notices, Recompute, MarkedWithNotices, NewMarks, MarksOf;
      if |MarksOf(crossed)| == |crossed| && MarksOf(crossed) !! state.actions[FindAction(state.actions, id)].emitted {
        WarnCrossedMarks(env, View(), id, current, crossed);
      }
      var k := FindAction(state.actions, id);
      var a := state.actions[k];
      var notices := BuildNotices(|crossed|, WARNING_TEXT);
      var described := a.(kind := timers[id].kind, deadline := timers[id].deadline);
      var ok := CommitAuthoritativeState(
        state.(actions := state.actions[k := a.(emitted := a.emitted + set t <- crossed)], outbox := state.outbox + notices));
      if ok { PublishWarnings(described, current, crossed); }
    }

    method PublishWarnings(described: Action, current: nat, crossed: seq<Threshold>)
      requires described.id in timers
      modifies this`timers, this`world, this`health, this`subscribers
      ensures View() == WarningsSaved(env, old(View()), described, current, crossed)
      ensures OnlyCursorsMoved(old(timers), timers)
    {
      hide TellWarnings;
      timers := timers[described.id := timers[described.id].(cursor := current)];
      var utc := UtcNow();
      EmitWarnings(described, crossed, utc);
    }

    /** One pass over all timers; `order` is the order in which the table lists them. */
    method CollectExpired(order: seq<TimerId>, now: nat) returns (expired: seq<(TimerId, ActionKind)>)
      modifies this
      ensures View() == WarnAll(env, old(View()), order, now)
      ensures Durable(old(View())) ==> NoticePerMark(old(View()), View())
      ensures Lists(expired, Expired(old(timers), order, now), old(timers))
    {
      hide Warn, Durable, NoticePerMark;
      if Durable(View()) { WarnAllOutcome(env, View(), order, now); }
      expired := [];
      for i := 0 to |order|
        invariant View() == WarnAll(env, old(View()), order[..i], now)
        invariant OnlyCursorsMoved(old(timers), timers)
        invariant Lists(expired, Expired(old(timers), order[..i], now), old(timers))
      {
        assert order[..i + 1][..i] == order[..i];
        var id := order[i];
        WarnSkips(env, View(), id, now);
        if id in timers {
          if now >= timers[id].target {
            expired := expired + [(id, timers[id].kind)];
          } else {
            EvaluateWarnings(id, now);
          }
        }
      }
      assert order[..|order|] == order;
    }

    /** Deadlines one after the other, until the stop flag is seen. */
    method ExecuteExpired(expired: seq<(TimerId, ActionKind)>, ghost due: seq<TimerId>, ghost table: map<TimerId, Anchor>)
      returns (aborted: bool)
      requires Lists(expired, due, table)
      modifies this
      ensures FireAll(env, old(View()), table, due) == Firing(View(), aborted)
    {
      hide FireBlock, FireShutdown;
      for i := 0 to |expired|
        invariant FireAll(env, old(View()), table, due[..i]) == Firing(View(), false)
      {
        assert due[..i + 1][..i] == due[..i];
        var requested := IsStopRequested();
        if requested {
          FireAllStays(env, old(View()), table, due, i + 1);
          return true;
        }
        match expired[i].1 {
          case BlockInternet => ExecuteScheduledInternetDeadline(expired[i].0);
          case ShutdownComputer => ExecuteScheduledShutdownDeadline(expired[i].0);
        }
      }
      assert due[..|due|] == due;
      aborted := false;
    }

    method ProcessClockAndEvents(order: seq<TimerId>)
      requires Valid()
      modifies this
      ensures Valid()
      ensures world.stopSeen || TickServed(env, old(View()), order, View())
      ensures View() == Tick(env, old(View()), order)
    {
      hide WarnAll, FireAll, Retry, Expired, Good, TickServed;
      TickKeepsGood(env, View(), order);
      TickIsServed(env, View(), order);
      var requested := IsStopRequested();
      if requested { return; }
      var now := MonotonicNow();
      ghost var table := timers;
      var expired := CollectExpired(order, now);
      var aborted := ExecuteExpired(expired, Expired(table, order, now), table);
      if aborted { return; }
      if nextRetryAt.Some? && now >= nextRetryAt.value && health.persistenceHealthy {
        nextRetryAt := None;
        ProcessInternetReconciliationRetry();
      }
    }

    /** The earliest instant that concerns this timer: its target or its next warning. */
    method EarliestOfTimer(id: TimerId) returns (earliest: nat)
      requires id in timers
      ensures TimerInstant(View(), id, earliest)
      ensures forall at: nat :: TimerInstant(View(), id, at) ==> earliest <= at
    {
      var anchor := timers[id];
      earliest := anchor.target;
      var k := FindAction(state.actions, id);
      AllThresholdsListed();
      if k < |state.actions| {
        for i := 0 to |ALL_THRESHOLDS|
          invariant TimerInstant(View(), id, earliest) && earliest <= anchor.target
          invariant forall t <- ALL_THRESHOLDS[..i] ::
            (t.Seconds() < anchor.original && t !in state.actions[k].emitted) ==> earliest <= ThresholdInstant(anchor, t)
        {
          var t := ALL_THRESHOLDS[i];
          if anchor.original > t.Seconds() && t !in state.actions[k].emitted {
            var at := ThresholdInstant(anchor, t);
            assert WarningInstant(state.actions, id, anchor, at);
            if at < earliest { earliest := at; }
          }
        }
        assert ALL_THRESHOLDS[..|ALL_THRESHOLDS|] == ALL_THRESHOLDS;
      }
    }

    /** How long the worker may sleep; `now` is what the clock answers. */
    method NextWakeTimeout(now: nat) returns (timeout: Option<nat>)
      ensures timeout.None? <==> !health.persistenceHealthy || forall at: nat :: !WakeInstant(View(), at)
      ensures timeout.Some? ==> exists at: nat :: IsEarliestWake(View(), at) && timeout.value == (if at <= now then 0 else at - now)
    {
      if !health.persistenceHealthy { return None; }
      var earliest: Option<nat> := None;
      var rest := timers.Keys;
      while rest != {}
        invariant rest <= timers.Keys
        invariant earliest.None? <==> rest == timers.Keys
        invariant earliest.Some? ==> exists id <- timers.Keys - rest :: TimerInstant(View(), id, earliest.value)
        invariant forall id, at: nat :: id in timers.Keys - rest && TimerInstant(View(), id, at) ==> earliest.Some? && earliest.value <= at
        decreases |rest|
      {
        var id :| id in rest;
        var e := EarliestOfTimer(id);
        rest := rest - {id};
        assert id in timers.Keys - rest;
        earliest := if earliest.Some? && earliest.value <= e then earliest else Some(e);
      }
      WakeInstantSplits(View());
      if nextRetryAt.Some? {
        earliest := if earliest.Some? && earliest.value <= nextRetryAt.value then earliest else nextRetryAt;
      }
      if earliest.None? { return None; }
      assert IsEarliestWake(View(), earliest.value);
      timeout := Some(if earliest.value <= now then 0 else earliest.value - now);
    }

    // ---- startup recovery ----------------------------------------------------------------------

    /** The loop over the stored actions. The candidate is edited in place; missed shutdowns are
        taken out at the end. */
    method RecoverCandidate(utc: int, mono: nat)
      returns (candidate: PersistentState, needsCommit: bool, overdue: set<TimerId>, missed: seq<Action>)
      requires UniqueActions(state.actions) && timers == map[]
      modifies this`timers, this`world
      ensures candidate == RecoverState(state, utc, old(world.nextId))
      ensures needsCommit <==> candidate != state
      ensures overdue == OverdueBlocks(state.actions, utc) && missed == MissedActions(state.actions, utc)
      ensures timers == RecoverTimers(state.actions, utc, mono) && world == old(world).Draw(|missed|)
      ensures TimersRestored(state.actions, timers, utc, mono)
    {
      hide TimersRestored;
      hide RecoverOne, IsMissed, IsOverdueBlock, OverdueBlocks, MissedActions, RecoverTimers, Progress;
      hide RemainingSeconds, UniqueActions, ActionIds, ChangedBefore, RecoverActions;
      var actions, outbox, desired := state.actions, state.outbox, state.desired;
      var toRemove: set<TimerId> := {};
      needsCommit, overdue, missed := false, {}, [];
      ProgressStarts(state, utc, mono);
      NoIds();
      assert outbox + Notices(world.nextId, 0, MISSED_TEXT) == outbox;
      for i := 0 to |state.actions|
        invariant Progress(state, i, utc, actions, missed, overdue, desired, needsCommit) && toRemove == ActionIds(missed)
        invariant outbox == state.outbox + Notices(old(world.nextId), |missed|, MISSED_TEXT)
        invariant timers == RecoverTimers(state.actions[..i], utc, mono) && world == old(world).Draw(|missed|)
      {
        Untouched(state, i, utc, actions, missed, overdue, desired, needsCommit);
        var a := actions[i];
        RecoverTimersStep(state.actions, i, utc, mono);
        ProgressStep(state, i, utc, actions, missed, overdue, desired, needsCommit);
        MarkCases(a, utc);
        ghost var actions0, missed0, overdue0, desired0, needs0 := actions, missed, overdue, desired, needsCommit;
        if RemainingSeconds(a.deadline - utc) <= 0 {
          match a.kind {
            case BlockInternet =>
              match a.exec {
                case Pending =>
                  actions := actions[i := a.(exec := Executing)];
                  desired := Blocked;
                  needsCommit := true;
                  overdue := overdue + {a.id};
                case Executing =>
                  if desired != Blocked {
                    desired := Blocked;
                    needsCommit := true;
                  }
                  overdue := overdue + {a.id};
                case _ =>
              }
            case ShutdownComputer =>
              var next := RecoveryOverdueTransition(a.kind, a.exec, RemainingSeconds(a.deadline - utc));
              if next == Some(Missed) {
                actions := actions[i := a.(exec := Missed)];
                toRemove := toRemove + {a.id};
                IdsGrow(missed, a.(exec := Missed));
                missed := missed + [a.(exec := Missed)];
                var entry := NextId();
                outbox := outbox + [Notice(entry, MISSED_TEXT)];
                needsCommit := true;
              }
          }
        } else {
          var left := RemainingSeconds(a.deadline - utc);
          var passed := RecoveryPassedThresholds(left, a.emitted);
          if passed != [] {
            actions := actions[i := a.(emitted := a.emitted + set t <- passed)];
            needsCommit := true;
          }
          timers := timers[a.id := Anchor(a.kind, a.deadline, mono + (a.deadline - utc) * NANOS_PER_MILLI, left, mono, left)];
        }
        assert actions == actions0[i := MarkOne(a, utc)];
        assert missed == missed0 + if IsMissed(a, utc) then [a.(exec := Missed)] else [];
        assert overdue == overdue0 + if IsOverdueBlock(a, utc) then {a.id} else {};
        assert desired == if IsOverdueBlock(a, utc) then Blocked else desired0;
        assert needsCommit ==
          (needs0 || IsMissed(a, utc) || (IsOverdueBlock(a, utc) && desired0 != Blocked) || RecoverOne(a, utc) != a);
      }
      assert state.actions[..|state.actions|] == state.actions;
      ProgressEnds(state, utc, actions, missed, overdue, desired, needsCommit);
      RetainRecovers(state.actions, actions, utc);
      RecoveryChanges(state, utc, old(world.nextId));
      candidate := PersistentState(desired, Retain(actions, toRemove), state.retry, outbox);
      RecoverTimersExact(state.actions, utc, mono);
    }

    /** First call of the gate. It fails only when a save fails. */
    method ReconcileAtStartup(overdue: set<TimerId>) returns (ok: bool)
      requires UniqueActions(state.actions) && forall a <- state.actions :: a.id in overdue ==> a.exec.Executing?
      modifies this
      ensures Restore(env, old(View()), overdue) == if ok then Up(View()) else Down(world)
    {
      hide TellPolicy, MarkGate, FinishRestore, DegradeRestore, Recompute;
      var previousDesired, previousObserved := state.desired, observed;
      var answer := CallGate(state.desired);
      MaybeEmitInternetPolicyChanged(previousDesired, previousObserved, StartupRestoration);
      var error := GateError(state.desired, answer);
      MarkGateOutcome(error);
      if error.None? {
        ok := CompleteStartup(overdue);
      } else {
        ok := DegradeStartup(overdue, error.value);
      }
    }

    method CompleteStartup(overdue: set<TimerId>) returns (ok: bool)
      requires UniqueActions(state.actions)
      modifies this
      ensures FinishRestore(env, old(View()), overdue) == if ok then Up(View()) else Down(world)
    {
      hide CommitPost, Recompute, CompleteBlocks;
      var update, saveNeeded := state, false;
      if update.retry.Some? {
        update := update.(retry := None);
        saveNeeded := true;
      }
      var completed: set<TimerId> := {};
      for i := 0 to |state.actions|
        invariant completed == Completable(state.actions[..i], overdue)
      {
        var a := state.actions[i];
        assert state.actions[..i + 1] == state.actions[..i] + [a];
        if a.id in overdue && ExecutionSuccessTransition(a.exec) == Some(Completed) {
          completed := completed + {a.id};
        }
      }
      assert state.actions[..|state.actions|] == state.actions;
      RetainCompletes(state.actions, overdue);
      if completed != {} {
        update := update.(actions := Retain(update.actions, completed));
        saveNeeded := true;
      }
      assert update == ReconciledState(state, overdue) && (saveNeeded <==> update != state);
      ok := true;
      if saveNeeded {
        ok := CommitPostSideEffectCandidate(update);
      }
    }

    method DegradeStartup(overdue: set<TimerId>, reason: string) returns (ok: bool)
      requires UniqueActions(state.actions) && forall a <- state.actions :: a.id in overdue ==> a.exec.Executing?
      modifies this
      ensures DegradeRestore(env, old(View()), overdue, reason) == if ok then Up(View()) else Down(world)
      ensures ok ==>
        && state.retry == Some(InternetRetry((if old(state).retry.Some? then old(state).retry.value.attempts else 0) + 1, Some(reason)))
        && Armed(env, old(world.instant), world.instant, View())
    {
      hide CommitPost, ScheduleRetry, Recompute, FailBlocks, Armed;
      if DegradeRestore(env, View(), overdue, reason).Up? { DegradeArms(env, View(), overdue, reason); }
      var actions := state.actions;
      for i := 0 to |state.actions|
        invariant |actions| == |state.actions|
        invariant forall j :: 0 <= j < |actions| ==>
          actions[j] == if j < i then FailOne(state.actions[j], overdue, reason) else state.actions[j]
      {
        if actions[i].id in overdue {
          var next := ExecutionFailureTransition(actions[i].exec, reason);
          assert next.Some? by { assert state.actions[i] in state.actions; }
          actions := actions[i := actions[i].(exec := next.value)];
        }
      }
      FailDescends(state.actions, overdue, reason);
      assert actions == FailBlocks(state.actions, overdue, reason);
      var id := NextId();
      ok := CommitPostSideEffectCandidate(RetryEdit(state.(actions := actions), reason, id));
      if ok { ScheduleNextInternetRetry(); }
    }

    method EmitMissed(missed: seq<Action>)
      modifies this`world, this`health, this`subscribers
      ensures View() == TellMissed(env, old(View()), missed)
    {
      hide Tell;
      for i := 0 to |missed|
        invariant View() == TellMissed(env, old(View()), missed[..i])
      {
        assert missed[..i + 1][..i] == missed[..i];
        var _ := EmitEvent(MissedDeadline(missed[i]));
      }
      assert missed[..|missed|] == missed;
    }

    /** The first half: everything before the gate is touched. */
    method RecoverDurably(ghost w: World) returns (ok: bool, overdue: set<TimerId>)
      requires View() == Blank(w.Did(Booted).(stopSeen := false)) && UniqueActions(w.disk.actions)
      modifies this
      ensures Recover(env, w) == if ok then Up(View()) else Down(world)
      ensures overdue == OverdueBlocks(w.disk.actions, BootUtc(env, w))
    {
      hide Commit, TellMissed, SyncShutdown, RecoverState, RecoverTimers, MissedActions, OverdueBlocks, Recompute;
      var utc := UtcNow();
      var mono := MonotonicNow();
      var candidate, needsCommit, blocks, missed := RecoverCandidate(utc, mono);
      overdue := blocks;
      if needsCommit {
        var saved := CommitAuthoritativeState(candidate);
        if !saved { return false, overdue; }
      }
      EmitMissed(missed);
      SyncShutdownState();
      ok := true;
    }

    /** `perform_startup_recovery`; `w` is the world the process was started in. */
    method PerformStartupRecovery(ghost w: World) returns (ok: bool)
      requires View() == Blank(w.Did(Booted).(stopSeen := false)) && UniqueActions(w.disk.actions)
      modifies this
      ensures Boot(env, w) == if ok then Up(View()) else Down(world)
      ensures WorldOk(w) ==> if ok then Valid() else WorldOk(world)
      ensures Encodable(w.disk) && ok ==>
        BootRestored(env, w.disk, View(), BootUtc(env, w), BootMono(env, w), env(GateInstant(env, w)).gate, w.instant)
    {
      hide Recover, Restore, OverdueBlocks, Recompute, Good, WorldOk, BootRestored, GateInstant;
      if Encodable(w.disk) && Boot(env, w).Up? { BootOutcome(env, w); }
      if WorldOk(w) { BootIsGood(env, w); }
      var recovered, overdue := RecoverDurably(w);
      if !recovered { return false; }
      RecoverUp(env, w, View());
      var reconciled := ReconcileAtStartup(overdue);
      ok := reconciled && !health.status.Critical?;
    }
  }
}
