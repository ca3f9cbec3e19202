/** What is told: every operation broadcasts exactly the events that describe what it did, in order, and
    besides them only updates of the health. */
module Announcements {
  import opened Domain
  import opened World
  import opened Subscribers
  import opened Runtime
  import opened Recovery
  import opened Safety
  import opened Durability
  import opened Wake
  import opened Outcomes
  import opened Settling

  /** All events broadcast so far but the updates of the health, oldest first. */
  ghost function News(t: Trace): seq<Event> {
    match t
    case Start(_) => []
    case Then(past, Broadcast(e)) => if e.HealthUpdated? then News(past) else News(past) + [e]
    case Then(past, _) => News(past)
  }

  /** From `c` to `d` exactly these events were told. */
  ghost predicate Told(c: Coord, d: Coord, events: seq<Event>) {
    News(d.world.trace) == News(c.world.trace) + events
  }

  lemma ToldOn(b: Coord, c: Coord, d: Coord, first: seq<Event>, second: seq<Event>)
    requires Told(b, c, first) && Told(c, d, second)
    ensures Told(b, d, first + second)
  {
  }

  // ---- the events of a change ----------------------------------------------------------------------------

  function ShutdownNews(c: Coord, d: Coord): seq<Event> {
    if c.shutdown == d.shutdown then [] else [ShutdownStateChanged(c.shutdown, d.shutdown)]
  }

  function PolicyNews(c: Coord, d: Coord, reason: ChangeReason): seq<Event> {
    if (c.mem.desired, c.observed) == (d.mem.desired, d.observed) then []
    else [InternetPolicyChanged(d.mem.desired, d.observed, reason)]
  }

  function WarningNews(id: TimerId, kind: ActionKind, deadline: int, due: seq<Threshold>, utc: int): seq<Event> {
    if due == [] then []
    else WarningNews(id, kind, deadline, due[..|due| - 1], utc) + [WarningReached(id, kind, due[|due| - 1], deadline, utc)]
  }

  // ---- telling and saving ----------------------------------------------------------------------------------

  lemma {:induction false} ReconcileTells(env: Environment, hub: Hub, w: World, excluded: Option<nat>)
    ensures News(Reconcile(env, hub, w, excluded).world.trace) == News(w.trace)
    decreases |hub.subs|
  {
    hide Deliver, FailedSends, HasRoom, News;
    if |hub.subs| <= U32_MAX && hub.health.sessions != |hub.subs| {
      var e := HealthUpdated(hub.health.(sessions := |hub.subs|));
      var m := env(w.instant);
      DeliverKeys(m, hub.subs, e, excluded);
      HealthIsNoNews(w, e);
      if FailedSends(m, hub.subs, excluded) != {} {
        ReconcileTells(env, hub.(health := e.health, subs := Deliver(m, hub.subs, e, excluded)), w.Did(Broadcast(e)), excluded);
      }
    }
  }

  lemma HealthIsNoNews(w: World, e: Event)
    requires e.HealthUpdated?
    ensures News(w.Did(Broadcast(e)).trace) == News(w.trace)
  {
  }

  lemma EmitTells(env: Environment, hub: Hub, w: World, e: Event)
    ensures News(Emit(env, hub, w, e).world.trace) == News(w.trace) + if e.HealthUpdated? then [] else [e]
  {
    hide Deliver, FailedSends, Reconcile;
    ReconcileTells(env, hub.(subs := Deliver(env(w.instant), hub.subs, e, None)), w.Did(Broadcast(e)), None);
  }

  lemma TellTells(env: Environment, c: Coord, e: Event)
    requires !e.HealthUpdated?
    ensures Told(c, Tell(env, c, e), [e])
  {
    hide Emit;
    EmitTells(env, c.hub, c.world, e);
  }

  lemma WithHubTells(env: Environment, c: Coord, mutated: Hub)
    ensures Told(c, WithHub(env, c, mutated), [])
  {
    hide Emit, Recompute;
    var after := Recompute(mutated);
    EmitTells(env, after, c.world, HealthUpdated(after.health));
  }

  lemma MarksTell(env: Environment, c: Coord, ok: bool, error: Option<string>)
    ensures Told(c, MarkPersistence(env, c, ok), []) && Told(c, MarkGate(env, c, error), [])
    ensures Told(c, MarkPower(env, c, error), []) && Told(c, MarkRetryPolicy(env, c, error), [])
  {
    hide WithHub, Told;
    WithHubTells(env, c, PersistenceMark(c.hub, ok));
    WithHubTells(env, c, GateMark(c.hub, error));
    WithHubTells(env, c, c.hub.(powerError := error));
    WithHubTells(env, c, c.hub.(retryPolicyError := error));
  }

  lemma SavingTells(env: Environment, c: Coord, after: PersistentState)
    ensures Told(c, Commit(env, c, after), []) && Told(c, CommitPost(env, c, after), [])
  {
    hide MarkPersistence;
    var ok := SaveOk(env, c);
    MarksTell(env, AfterSave(c, after, ok, false), ok, None);
    MarksTell(env, AfterSave(c, after, ok, true), ok, None);
  }

  lemma RecordTells(env: Environment, c: Coord, edited: PersistentState)
    ensures Told(c, RecordGateFailure(env, c, edited), [])
  {
    hide CommitPost, MarkRetryPolicy, Recompute;
    SavingTells(env, c, edited);
    var c1 := Looked(CommitPost(env, c, edited));
    MarksTell(env, c1, true, Some(ZERO_DELAY));
    MarksTell(env, c1, true, None);
  }

  lemma {:induction false} TellWarningsTells(env: Environment, c: Coord, a: Action, due: seq<Threshold>, utc: int)
    ensures Told(c, TellWarnings(env, c, a, due, utc), WarningNews(a.id, a.kind, a.deadline, due, utc))
    decreases |due|
  {
    hide Tell;
    if due != [] {
      var before := TellWarnings(env, c, a, due[..|due| - 1], utc);
      TellWarningsTells(env, c, a, due[..|due| - 1], utc);
      TellTells(env, before, WarningReached(a.id, a.kind, due[|due| - 1], a.deadline, utc));
    }
  }

  lemma TellShutdownTells(env: Environment, c: Coord, previous: ShutdownState, current: ShutdownState)
    ensures Told(c, TellShutdown(env, c, previous, current), if previous == current then [] else [ShutdownStateChanged(previous, current)])
  {
    hide Tell;
    if previous != current { TellTells(env, c, ShutdownStateChanged(previous, current)); }
  }

  lemma SyncTells(env: Environment, c: Coord)
    ensures Told(c, SyncShutdown(env, c), ShutdownNews(c, SyncShutdown(env, c)))
  {
    hide TellShutdown, DeriveShutdown;
    var current := DeriveShutdown(c.shutdown, c.mem.actions);
    TellShutdownTells(env, c.(shutdown := current), c.shutdown, current);
  }

  lemma TellPolicyTells(env: Environment, c: Coord, desired: DesiredInternet, observed: InternetState, reason: ChangeReason)
    ensures Told(c, TellPolicy(env, c, desired, observed, reason),
      if (desired, observed) == (c.mem.desired, c.observed) then [] else [InternetPolicyChanged(c.mem.desired, c.observed, reason)])
  {
    hide Tell;
    if (desired, observed) != (c.mem.desired, c.observed) { TellTells(env, c, InternetPolicyChanged(c.mem.desired, c.observed, reason)); }
  }

  // ---- commands --------------------------------------------------------------------------------------------

  /** A timer that is scheduled is told as it is stored, then what is due at once, then the shutdown state. */
  lemma ScheduleTells(env: Environment, c: Coord, kind: ActionKind, duration: nat, who: Initiator)
    ensures var r := Schedule(env, c, kind, duration, who);
      if !r.reply.ScheduledAs? then Told(c, r.coord, [])
      else
        && |r.coord.mem.actions| > 0
        && var a := r.coord.mem.actions[|r.coord.mem.actions| - 1];
          Told(c, r.coord, [TimerScheduled(a)] + WarningNews(a.id, a.kind, a.deadline, CreationDue(duration), Utc(env, c)) + ShutdownNews(c, r.coord))
  {
    hide Schedule, Told, CreationDue, WarningNews, ShutdownNews, NewAction;
    NewTimerTells(env, c, kind, duration, who);
    NewTimerIsLast(env, c, kind, duration, who);
    CreatedNow(env, c, kind, duration, who);
  }

  lemma NewTimerTells(env: Environment, c: Coord, kind: ActionKind, duration: nat, who: Initiator)
    ensures var r, a := Schedule(env, c, kind, duration, who), NewAction(c.world.nextId, kind, duration, who, Utc(env, c));
      Told(c, r.coord, if !r.reply.ScheduledAs? then []
        else [TimerScheduled(a)] + WarningNews(a.id, a.kind, a.deadline, CreationDue(duration), a.createdAt) + ShutdownNews(c, r.coord))
  {
    hide Schedule, Saving, Arm, CreationDue, ShutdownNews, WarningNews, Told, NewAction;
    var due, a := CreationDue(duration), NewAction(c.world.nextId, kind, duration, who, Utc(env, c));
    ScheduleSplits(env, c, kind, duration, who);
    SavedTells(env, c, a, due);
    if Schedule(env, c, kind, duration, who).reply.ScheduledAs? {
      var anchor: Anchor :| Schedule(env, c, kind, duration, who).coord == Arm(env, Saving(env, c, a, due), a, anchor, due);
      ArmTells(env, c, Saving(env, c, a, due), a, anchor, due);
    }
  }

  /** The state after the save, whether it has succeeded or not. */
  ghost function Saving(env: Environment, c: Coord, a: Action, due: seq<Threshold>): Coord {
    var c2 := Looked(Looked(c));
    Commit(env, c2.(world := c2.world.Draw(1 + |due|)), ScheduleEdit(c.mem, a, Notices(c.world.nextId + 1, |due|, WARNING_TEXT)))
  }

  lemma ScheduleSplits(env: Environment, c: Coord, kind: ActionKind, duration: nat, who: Initiator)
    ensures var r, due := Schedule(env, c, kind, duration, who), CreationDue(duration);
      var a := NewAction(c.world.nextId, kind, duration, who, Utc(env, c));
      if r.reply.ScheduledAs? then exists anchor: Anchor :: r.coord == Arm(env, Saving(env, c, a, due), a, anchor, due)
      else r.coord == Saving(env, c, a, due)
  {
    hide Commit, Arm, Notices, CreationDue, Recompute, NewAction, ScheduleEdit;
    var a := NewAction(c.world.nextId, kind, duration, who, Utc(env, c));
    var mono := Mono(env, Looked(c));
    var anchor := Anchor(kind, a.deadline, mono + duration * NANOS_PER_SECOND, duration, mono, duration);
    assert Schedule(env, c, kind, duration, who).reply.ScheduledAs? ==>
      Schedule(env, c, kind, duration, who).coord == Arm(env, Saving(env, c, a, CreationDue(duration)), a, anchor, CreationDue(duration));
  }

  lemma SavedTells(env: Environment, c: Coord, a: Action, due: seq<Threshold>)
    ensures Told(c, Saving(env, c, a, due), []) && Saving(env, c, a, due).shutdown == c.shutdown
  {
    hide Commit, Notices, Recompute, Told, ScheduleEdit;
    var c2 := Looked(Looked(c));
    var c3 := c2.(world := c2.world.Draw(1 + |due|));
    var after := ScheduleEdit(c.mem, a, Notices(c.world.nextId + 1, |due|, WARNING_TEXT));
    SavingTells(env, c3, after);
    ToldAlike(c, c3, Commit(env, c3, after), []);
    CommitFrame(env, c3, after);
  }

  lemma NewTimerIsLast(env: Environment, c: Coord, kind: ActionKind, duration: nat, who: Initiator)
    ensures var r := Schedule(env, c, kind, duration, who);
      r.reply.ScheduledAs? ==> r.coord.mem.actions == c.mem.actions + [NewAction(c.world.nextId, kind, duration, who, Utc(env, c))]
  {
    hide Commit, Arm, Notices, CreationDue, Recompute, NewAction;
    var c2 := Looked(Looked(c));
    var due, a := CreationDue(duration), NewAction(c.world.nextId, kind, duration, who, Utc(env, c));
    var mono := Mono(env, Looked(c));
    ArmFrame(env, Commit(env, c2.(world := c2.world.Draw(1 + |due|)), ScheduleEdit(c.mem, a, Notices(c.world.nextId + 1, |due|, WARNING_TEXT))),
      a, Anchor(kind, a.deadline, mono + duration * NANOS_PER_SECOND, duration, mono, duration), due);
  }

  lemma CreatedNow(env: Environment, c: Coord, kind: ActionKind, duration: nat, who: Initiator)
    ensures NewAction(c.world.nextId, kind, duration, who, Utc(env, c)).createdAt == Utc(env, c)
  {
  }

  lemma ToldAlike(c: Coord, c1: Coord, d: Coord, events: seq<Event>)
    requires c1.world.trace == c.world.trace && Told(c1, d, events)
    ensures Told(c, d, events)
  {
  }

  lemma CommitFrame(env: Environment, c: Coord, after: PersistentState)
    ensures var d := Commit(env, c, after); d.mem == (if SaveOk(env, c) then after else c.mem) && d.shutdown == c.shutdown
  {
  }

  lemma ArmTells(env: Environment, before: Coord, c: Coord, a: Action, anchor: Anchor, due: seq<Threshold>)
    requires Told(before, c, []) && c.shutdown == before.shutdown
    ensures var d := Arm(env, c, a, anchor, due);
      Told(before, d, [TimerScheduled(a)] + WarningNews(a.id, a.kind, a.deadline, due, a.createdAt) + ShutdownNews(before, d)) && d.mem == c.mem
  {
    hide Tell, TellWarnings, SyncShutdown, WarningNews;
    var c1 := c.(timers := c.timers[a.id := anchor]);
    TellTells(env, c1, TimerScheduled(a));
    var c2 := Tell(env, c1, TimerScheduled(a));
    TellWarningsTells(env, c2, a, due, a.createdAt);
    SyncTells(env, TellWarnings(env, c2, a, due, a.createdAt));
  }

  lemma CancelTells(env: Environment, c: Coord, id: TimerId, kind: ActionKind)
    ensures var r := Cancel(env, c, id, kind);
      Told(c, r.coord, if r.reply.Cancelled? then [TimerCancelled(id, kind)] + ShutdownNews(c, r.coord) else [])
  {
    hide Commit, Disarm, RemoveAction, FindAction, CancelBlocked, Recompute, News;
    var c1 := Consulted(c, id, kind);
    var after := c.mem.(actions := RemoveAction(c.mem.actions, id));
    SavingTells(env, c1, after);
    DisarmTells(env, Commit(env, c1, after), id, kind);
  }

  lemma DisarmTells(env: Environment, c: Coord, id: TimerId, kind: ActionKind)
    ensures var d := Disarm(env, c, id, kind); Told(c, d, [TimerCancelled(id, kind)] + ShutdownNews(c, d))
  {
    hide Tell, SyncShutdown;
    var c1 := c.(timers := c.timers - {id});
    TellTells(env, c1, TimerCancelled(id, kind));
    SyncTells(env, Tell(env, c1, TimerCancelled(id, kind)));
  }

  /** A policy command tells the new policy with its reason if it or the observation has changed. */
  lemma SetPolicyTells(env: Environment, c: Coord, target: DesiredInternet, reason: ChangeReason)
    ensures var r := SetPolicy(env, c, target, reason);
      Told(c, r.coord, if !SaveOk(env, c) || r.reply == StoppingError then [] else PolicyNews(c, r.coord, reason))
  {
    hide Commit, PolicyOutcome, TellPolicy, GateError, Recompute;
    SavingTells(env, c, c.mem.(desired := target));
    var c2 := GateAsked(env, c, target);
    if SaveOk(env, c) && !c2.world.stopSeen {
      var c3 := ApplyGate(env, c2, target);
      TellPolicyTells(env, c3, c.mem.desired, c.observed, reason);
      PolicyOutcomeTells(env, TellPolicy(env, c3, c.mem.desired, c.observed, reason), GateError(target, env(c2.world.instant).gate));
    }
  }

  lemma PolicyOutcomeTells(env: Environment, c: Coord, error: Option<string>)
    ensures Told(c, PolicyOutcome(env, c, error).coord, []) && !PolicyOutcome(env, c, error).reply.StoppingError?
  {
    hide CommitPost, MarkGate, RecordGateFailure, Recompute;
    MarksTell(env, c, true, error);
    var c1 := MarkGate(env, c, error);
    SavingTells(env, c1, c1.mem.(retry := None));
    if error.Some? { RecordTells(env, c1.(world := c1.world.Draw(1)), RetryEdit(c1.mem, error.value, c1.world.nextId)); }
  }

  lemma MessagesTell(env: Environment, c: Coord, id: EntryId, text: string, message: ChatMessage)
    ensures Told(c, Ack(env, c, id).coord, []) && Told(c, ChildMessage(env, c, text).coord, [])
    ensures Told(c, ParentMessage(env, c, message).coord, if message.sender.Parent? then [ChatReceived(message)] else [])
  {
    hide Commit, ValidChat, FindEntry, Tell, Recompute;
    var c1 := c.(world := c.world.Did(AckReceived(id)));
    var k := FindEntry(c.mem.outbox, id);
    if k < |c.mem.outbox| { SavingTells(env, c1, c.mem.(outbox := c.mem.outbox[..k] + c.mem.outbox[k + 1..])); }
    var entry := OutboxEntry(c.world.nextId, Chat(ChatMessage(c.world.nextId, Child, text, Utc(env, c), AcceptedByService)), 0, None);
    SavingTells(env, Looked(c.(world := c.world.Draw(1))), c.mem.(outbox := c.mem.outbox + [entry]));
    TellTells(env, c, ChatReceived(message));
  }

  lemma SubscriptionsTell(env: Environment, c: Coord, id: nat)
    ensures Told(c, Subscribe(env, c).coord, []) && Told(c, Unsubscribe(env, c, id).coord, [])
  {
    hide Reconcile, News, StatusOf;
    UnsubscribeTells(env, c, id);
    if c.hub.nextSub.Some? {
      var x := c.hub.nextSub.value;
      var c1 := Enlist(c, x);
      ReconcileTells(env, c1.hub, c1.world, Some(x));
      var c2 := Reconciled(env, c1, Some(x));
      DropTells(env, c2, x);
      DropTells(env, Looked(Register(c2, x)), x);
    }
  }

  lemma DropTells(env: Environment, c: Coord, id: nat)
    ensures Told(c, Drop(env, c, id), [])
  {
    hide Reconcile;
    ReconcileTells(env, c.hub.(subs := c.hub.subs - {id}), c.world, None);
  }

  lemma UnsubscribeTells(env: Environment, c: Coord, id: nat)
    ensures Told(c, Unsubscribe(env, c, id).coord, [])
  {
    hide Reconcile;
    ReconcileTells(env, c.hub.(subs := c.hub.subs - {id}), c.world, None);
  }

  lemma StopTells(env: Environment, c: Coord)
    ensures Told(c, Stop(env, c).coord, [])
  {
    hide MarkPersistence, Recompute;
    var c1 := if c.stopping then c
              else c.(stopping := true, hub := c.hub.(subs := map[], health := c.hub.health.(sessions := 0)));
    if c1.pending.Some? { MarksTell(env, AfterSave(c1, c1.pending.value, SaveOk(env, c1), false), SaveOk(env, c1), None); }
  }

  // ---- deadlines and the retry -----------------------------------------------------------------------------

  lemma BlockOutcomeTells(env: Environment, c: Coord, id: TimerId, error: Option<string>)
    ensures Told(c, BlockOutcome(env, c, id, error), [])
    ensures BlockOutcome(env, c, id, error).mem.desired == c.mem.desired && BlockOutcome(env, c, id, error).observed == c.observed
  {
    hide CommitPost, MarkGate, RecordGateFailure, CompleteEdit, FailEdit, Recompute;
    SettledFrame(c.mem, id, if error.Some? then error.value else "");
    MarksTell(env, c, true, error);
    var c1 := MarkGate(env, c, error);
    SavingTells(env, c1, CompleteEdit(c.mem, id).(retry := None));
    if error.Some? {
      RecordTells(env, c1.(world := c1.world.Draw(1)), RetryEdit(FailEdit(c.mem, id, error.value), error.value, c1.world.nextId));
    }
  }

  lemma SettledFrame(s: PersistentState, id: TimerId, reason: string)
    ensures CompleteEdit(s, id).desired == FailEdit(s, id, reason).desired == s.desired
  {
  }

  /** A block that starts tells its expiry, and then the policy if it or the observation has changed. */
  lemma FireBlockTells(env: Environment, c: Coord, k: nat)
    requires UniqueActions(c.mem.actions) && Starts(env, c, k)
    ensures var id := c.mem.actions[k].id;
      var d := FireBlock(env, c, id);
      Told(c, d, [TimerExpired(id, BlockInternet)] + if BlockAsked(env, c, k).world.stopSeen then [] else PolicyNews(c, d, TimerFired(id)))
  {
    hide Commit, FiredBlock, Tell, Recompute, News, PolicyNews;
    var id := c.mem.actions[k].id;
    FoundAt(c.mem.actions, k);
    var started := c.mem.(actions := SetExec(c.mem.actions, k, Executing), desired := Blocked);
    var c0 := LookForStop(env, c);
    SavingTells(env, c0, started);
    FiredBlockTells(env, c, Commit(env, c0, started), id);
  }

  lemma FiredBlockTells(env: Environment, before: Coord, c: Coord, id: TimerId)
    ensures var d := FiredBlock(env, before, c, id);
      var asked := LookForStop(env, Tell(env, c.(timers := c.timers - {id}), TimerExpired(id, BlockInternet)));
      Told(c, d, [TimerExpired(id, BlockInternet)] + if asked.world.stopSeen then [] else PolicyNews(before, d, TimerFired(id)))
  {
    hide Tell, TellPolicy, BlockOutcome, GateError;
    var c2 := c.(timers := c.timers - {id});
    TellTells(env, c2, TimerExpired(id, BlockInternet));
    var asked := LookForStop(env, Tell(env, c2, TimerExpired(id, BlockInternet)));
    var c4 := ApplyGate(env, asked, Blocked);
    TellPolicyTells(env, c4, before.mem.desired, before.observed, TimerFired(id));
    BlockOutcomeTells(env, TellPolicy(env, c4, before.mem.desired, before.observed, TimerFired(id)), id, GateError(Blocked, env(asked.world.instant).gate));
  }

  /** A shutdown that starts tells its expiry, and then the shutdown state if it has changed; after a refusal
      only if the failure could be saved. */
  lemma FireShutdownTells(env: Environment, c: Coord, k: nat)
    requires UniqueActions(c.mem.actions) && Starts(env, c, k)
    ensures var id := c.mem.actions[k].id;
      var d, asked := FireShutdown(env, c, id), PowerAsked(env, c, k);
      Told(c, d, [TimerExpired(id, ShutdownComputer)] +
        if asked.world.stopSeen || (env(asked.world.instant).power.Failure? && d.pending.Some?) then [] else ShutdownNews(c, d))
  {
    hide Commit, FiredShutdown, Tell, Recompute, News, UniqueActions, Dropped, FailedFor;
    var id := c.mem.actions[k].id;
    FoundAt(c.mem.actions, k);
    StartedUnique(c.mem.actions, k);
    FoundAt(SetExec(c.mem.actions, k, Executing), k);
    var started := c.mem.(actions := SetExec(c.mem.actions, k, Executing));
    var c0 := LookForStop(env, c);
    SavingTells(env, c0, started);
    FiredShutdownTells(env, Commit(env, c0, started), id);
  }

  lemma FiredShutdownTells(env: Environment, c: Coord, id: TimerId)
    requires FindAction(c.mem.actions, id) < |c.mem.actions|
    ensures var d := FiredShutdown(env, c, id);
      var asked := LookForStop(env, Tell(env, c.(timers := c.timers - {id}), TimerExpired(id, ShutdownComputer)));
      Told(c, d, [TimerExpired(id, ShutdownComputer)] +
        if asked.world.stopSeen || (env(asked.world.instant).power.Failure? && d.pending.Some?) then [] else ShutdownNews(c, d))
  {
    hide Tell, PowerOutcome, FindAction;
    TellTells(env, c.(timers := c.timers - {id}), TimerExpired(id, ShutdownComputer));
    var asked := LookForStop(env, Tell(env, c.(timers := c.timers - {id}), TimerExpired(id, ShutdownComputer)));
    var outcome := env(asked.world.instant).power;
    PowerOutcomeTells(env, asked.(world := asked.world.Did(PowerCall(id, outcome))), id, outcome);
  }

  lemma PowerOutcomeTells(env: Environment, c: Coord, id: TimerId, outcome: Outcome)
    requires FindAction(c.mem.actions, id) < |c.mem.actions|
    ensures var d := PowerOutcome(env, c, id, outcome);
      Told(c, d, if outcome.Failure? && d.pending.Some? then [] else ShutdownNews(c, d))
  {
    hide MarkPower, PowerAccepted, PowerRefused, Recompute, ShutdownNews, News, OnlyTold, FindAction, SameFlags;
    MarksTell(env, c, true, match outcome case Success => None case Failure(reason) => Some(reason));
    match outcome
    case Success => PowerAcceptedTells(env, c, MarkPower(env, c, None), id);
    case Failure(reason) => PowerRefusedTells(env, c, MarkPower(env, c, Some(reason)), id, reason);
  }

  lemma PowerAcceptedTells(env: Environment, c: Coord, c1: Coord, id: TimerId)
    ensures var d := PowerAccepted(env, c, c1, id); Told(c1, d, ShutdownNews(c, d))
  {
    hide CommitPost, TellShutdown, CompleteEdit, Recompute;
    var b := c1.(shutdown := InProgress);
    TellShutdownTells(env, b, c.shutdown, InProgress);
    SavingTells(env, TellShutdown(env, b, c.shutdown, InProgress), CompleteEdit(c.mem, id));
  }

  lemma PowerRefusedTells(env: Environment, c: Coord, c1: Coord, id: TimerId, reason: string)
    ensures var d := PowerRefused(env, c, c1, id, reason); Told(c1, d, if d.pending.Some? then [] else ShutdownNews(c, d))
  {
    hide CommitPost, TellShutdown, FailEdit, DeriveShutdown, Recompute;
    var failed := FailEdit(c.mem, id, reason);
    var edited := failed.(outbox := failed.outbox + [Notice(c1.world.nextId, reason)]);
    var current := DeriveShutdown(c.shutdown, edited.actions);
    var c2 := c1.(world := c1.world.Draw(1), shutdown := current);
    SavingTells(env, c2, edited);
    TellShutdownTells(env, CommitPost(env, c2, edited), c.shutdown, current);
  }

  /** A retry tells the policy if the observation has changed. */
  lemma RetryTells(env: Environment, c: Coord)
    ensures var d := Retry(env, c); Told(c, d, if d.world.stopSeen then [] else PolicyNews(c, d, PlatformSync))
  {
    hide TellPolicy, RetryOutcome, GateError;
    var c1 := LookForStop(env, c);
    if !c1.world.stopSeen {
      var c2 := ApplyGate(env, c1, c.mem.desired);
      TellPolicyTells(env, c2, c.mem.desired, c.observed, PlatformSync);
      RetryOutcomeTells(env, TellPolicy(env, c2, c.mem.desired, c.observed, PlatformSync), GateError(c.mem.desired, env(c1.world.instant).gate));
    }
  }

  lemma RetryOutcomeTells(env: Environment, c: Coord, error: Option<string>)
    ensures var d := RetryOutcome(env, c, error);
      Told(c, d, []) && d.mem.desired == c.mem.desired && d.observed == c.observed && d.world.stopSeen == c.world.stopSeen
  {
    hide CommitPost, MarkGate, RecordGateFailure, ResolveBlocks, Recompute;
    MarksTell(env, c, true, error);
    var c1 := MarkGate(env, c, error);
    SavingTells(env, c1, RetryDoneEdit(c.mem));
    if error.Some? { RecordTells(env, c1.(world := c1.world.Draw(1)), RetryEdit(c.mem, error.value, c1.world.nextId)); }
  }

  // ---- the boot --------------------------------------------------------------------------------------------

  function MissedNews(missed: seq<Action>): seq<Event> {
    if missed == [] then [] else MissedNews(missed[..|missed| - 1]) + [MissedDeadline(missed[|missed| - 1])]
  }

  lemma {:induction false} TellMissedTells(env: Environment, c: Coord, missed: seq<Action>)
    ensures Told(c, TellMissed(env, c, missed), MissedNews(missed))
    decreases |missed|
  {
    hide Tell;
    if missed != [] {
      TellMissedTells(env, c, missed[..|missed| - 1]);
      TellTells(env, TellMissed(env, c, missed[..|missed| - 1]), MissedDeadline(missed[|missed| - 1]));
    }
  }

  /** A boot tells the missed shutdowns, then the shutdown state unless it is Idle, then the policy if it is
      not what a service that has seen nothing takes for granted. */
  lemma BootTells(env: Environment, w: World)
    requires Boot(env, w).Up?
    ensures var d := Boot(env, w).coord;
      && Recover(env, w).Up?
      && News(d.world.trace) == News(w.trace) + MissedNews(MissedActions(w.disk.actions, BootUtc(env, w)))
        + (if d.shutdown == Idle then [] else [ShutdownStateChanged(Idle, d.shutdown)])
        + (if d.observed == Unknown then [] else [InternetPolicyChanged(d.mem.desired, d.observed, StartupRestoration)])
  {
    hide Recover, Restore, OverdueBlocks, MissedActions, MissedNews;
    RecoverTells(env, w);
    var c := Recover(env, w).coord;
    RestoreTells(env, c, OverdueBlocks(w.disk.actions, BootUtc(env, w)));
  }

  lemma RecoverTells(env: Environment, w: World)
    ensures match Recover(env, w)
      case Up(c) =>
        && c.observed == Unknown
        && News(c.world.trace) == News(w.trace) + MissedNews(MissedActions(w.disk.actions, BootUtc(env, w)))
          + (if c.shutdown == Idle then [] else [ShutdownStateChanged(Idle, c.shutdown)])
      case Down(_) => true
  {
    hide Commit, TellMissed, SyncShutdown, RecoverState, RecoverTimers, MissedActions, MissedNews, Recompute;
    var c0 := Blank(w.Did(Booted).(stopSeen := false));
    var utc, c2 := Utc(env, c0), Looked(Looked(c0));
    var missed := MissedActions(w.disk.actions, utc);
    var candidate := RecoverState(w.disk, utc, c2.world.nextId);
    var c3 := c2.(timers := RecoverTimers(w.disk.actions, utc, Mono(env, Looked(c0))), world := c2.world.Draw(|missed|));
    SavingTells(env, c3, candidate);
    var c4 := if candidate != w.disk then Commit(env, c3, candidate) else c3;
    TellMissedTells(env, c4, missed);
    SyncTells(env, TellMissed(env, c4, missed));
  }

  lemma RestoreTells(env: Environment, c: Coord, ids: set<TimerId>)
    requires Restore(env, c, ids).Up?
    ensures var d := Restore(env, c, ids).coord;
      Told(c, d, PolicyNews(c, d, StartupRestoration)) && d.shutdown == c.shutdown && d.mem.desired == c.mem.desired
  {
    hide FinishRestore, DegradeRestore, MarkGate, TellPolicy, Recompute, GateError, News;
    var c1 := ApplyGate(env, c, c.mem.desired);
    TellPolicyTells(env, c1, c.mem.desired, c.observed, StartupRestoration);
    var c2 := TellPolicy(env, c1, c.mem.desired, c.observed, StartupRestoration);
    var error := GateError(c.mem.desired, env(c.world.instant).gate);
    MarksTell(env, c2, true, error);
    var c3 := MarkGate(env, c2, error);
    ApplyGateTells(env, c, c.mem.desired);
    if error.None? { FinishTells(env, c3, ids); } else { DegradeTells(env, c3, ids, error.value); }
  }

  lemma ApplyGateTells(env: Environment, c: Coord, target: DesiredInternet)
    ensures Told(c, ApplyGate(env, c, target), [])
  {
  }

  lemma FinishTells(env: Environment, c: Coord, ids: set<TimerId>)
    requires FinishRestore(env, c, ids).Up?
    ensures var d := FinishRestore(env, c, ids).coord;
      Told(c, d, []) && d.shutdown == c.shutdown && d.observed == c.observed && d.mem.desired == c.mem.desired
  {
    hide CommitPost, CompleteBlocks, Recompute;
    SavingTells(env, c, ReconciledState(c.mem, ids));
  }

  lemma DegradeTells(env: Environment, c: Coord, ids: set<TimerId>, reason: string)
    requires DegradeRestore(env, c, ids, reason).Up?
    ensures var d := DegradeRestore(env, c, ids, reason).coord;
      Told(c, d, []) && d.shutdown == c.shutdown && d.observed == c.observed && d.mem.desired == c.mem.desired
  {
    hide RecordGateFailure, CommitPost, ScheduleRetry, FailBlocks, Recompute;
    var c1 := c.(world := c.world.Draw(1));
    var update := DegradedState(c.mem, ids, reason, c.world.nextId);
    RecordTells(env, c1, update);
    RecordIs(env, c1, update);
  }

  lemma RecordIs(env: Environment, c: Coord, edited: PersistentState)
    ensures RecordGateFailure(env, c, edited) == ScheduleRetry(env, CommitPost(env, c, edited))
  {
  }
}
