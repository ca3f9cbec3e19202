/** The health tells the truth: its status and its error are those of the errors on record, at any
    time, in every run. */
module Reporting {
  import opened Domain
  import opened World
  import opened Subscribers
  import opened Runtime
  import opened Recovery
  import opened Durability
  import opened Healing
  import opened Booting
  import opened Theorems

  // ---- one recomputation, one announcement -----------------------------------------------------

  /** The errors on record, highest priority first. */
  function Errors(hub: Hub): seq<Option<string>> {
    [hub.persistenceError, hub.retryPolicyError, hub.powerError, hub.gateError]
  }

  /** `e` is the error of highest priority, or None if nothing is on record. */
  ghost predicate IsFirstError(e: Option<string>, errors: seq<Option<string>>) {
    if e.None? then forall x <- errors :: x.None?
    else exists i :: 0 <= i < |errors| && errors[i] == e && forall j :: 0 <= j < i ==> errors[j].None?
  }

  /** Status and error fit the marks and the errors on record. */
  ghost predicate Current(hub: Hub) {
    var h := hub.health;
    && (h.status.Critical? <==> !h.persistenceHealthy)
    && (h.status.Healthy? <==>
          h.persistenceHealthy && h.gateHealthy && h.telegramConnected && hub.powerError.None? && hub.retryPolicyError.None?)
    && IsFirstError(h.lastError, Errors(hub))
  }

  lemma RecomputeIsCurrent(hub: Hub)
    ensures Current(Recompute(hub))
    ensures Current(hub) ==> Recompute(hub) == hub
  {
    var r := Recompute(hub);
    var errors := Errors(r);
    assert errors[0] == hub.persistenceError && errors[1] == hub.retryPolicyError;
    assert errors[2] == hub.powerError && errors[3] == hub.gateError;
    if Current(hub) { assert Errors(hub) == errors; }
  }

  /** The health is announced if and only if it has changed, and then as it is now, before anything else. */
  lemma AnnouncedExactly(env: Environment, before: Health, mutated: Hub, w: World)
    ensures var r := Announce(env, before, mutated, w);
      var health := Recompute(mutated).health;
      && r.hub == mutated.(health := r.hub.health, subs := r.hub.subs)
      && r.hub.health == health.(sessions := r.hub.health.sessions)
      && (before == health ==> r.world == w && r.hub.subs == mutated.subs && r.hub.health == health)
      && (before != health ==> Broadcasts(w.trace) + [HealthUpdated(health)] <= Broadcasts(r.world.trace))
  {
    hide Deliver, FailedSends, Recompute, Reconcile;
    var after := Recompute(mutated);
    var m, w1 := env(w.instant), w.Did(Broadcast(HealthUpdated(after.health)));
    ReconcileShrinks(env, after.(subs := Deliver(m, after.subs, HealthUpdated(after.health), None)), w1, None);
  }

  /** The announcement may change the number of sessions, and nothing the report is about. */
  lemma SessionsAreAside(env: Environment, before: Health, mutated: Hub, w: World)
    ensures Current(Announce(env, before, mutated, w).hub)
    ensures Announce(env, before, mutated, w).hub.health.(sessions := mutated.health.sessions) == Recompute(mutated).health
  {
    hide Emit;
    RecomputeIsCurrent(mutated);
    assert Errors(Announce(env, before, mutated, w).hub) == Errors(Recompute(mutated));
  }

  // ---- kept by every operation -----------------------------------------------------------------

  /** A mark is down exactly while its error is on record. Nothing ever connects Telegram. */
  ghost predicate Marked(hub: Hub) {
    && (hub.health.persistenceHealthy <==> hub.persistenceError.None?)
    && (hub.health.gateHealthy <==> hub.gateError.None?)
    && !hub.health.telegramConnected
  }

  ghost predicate Reports(hub: Hub) { Current(hub) && Marked(hub) }

  /** Telling something, and marking something. */
  lemma ReportingFacts()
    ensures forall c: Coord, d: Coord :: OnlyTold(c, d) && Reports(c.hub) ==> Reports(d.hub)
    ensures forall hub: Hub :: Marked(hub) ==> Reports(Recompute(hub))
  {
    hide Recompute;
    forall c: Coord, d: Coord | OnlyTold(c, d) && Reports(c.hub) ensures Reports(d.hub) {
      assert Errors(d.hub) == Errors(c.hub);
    }
    forall hub: Hub | Marked(hub) ensures Reports(Recompute(hub)) {
      RecomputeIsCurrent(hub);
    }
  }

  lemma ReconcileReports(env: Environment, hub: Hub, w: World, excluded: Option<nat>)
    ensures Reports(hub) ==> Reports(Reconcile(env, hub, w, excluded).hub)
  {
    hide Reconcile;
    assert Errors(Reconcile(env, hub, w, excluded).hub) == Errors(hub);
  }

  lemma ScheduleReports(env: Environment, c: Coord, kind: ActionKind, duration: nat, who: Initiator)
    requires Reports(c.hub)
    ensures Reports(Schedule(env, c, kind, duration, who).coord.hub)
  {
    hide Commit, Tell, TellWarnings, SyncShutdown, CreationDue, Current, Recompute;
    ReportingFacts();
  }

  lemma CancelReports(env: Environment, c: Coord, id: TimerId, kind: ActionKind)
    requires Reports(c.hub)
    ensures Reports(Cancel(env, c, id, kind).coord.hub)
  {
    hide Commit, Disarm, RemoveAction, FindAction, CancelBlocked, Current, Recompute;
    ReportingFacts();
    DisarmReports(env, Commit(env, Consulted(c, id, kind), c.mem.(actions := RemoveAction(c.mem.actions, id))), id, kind);
  }

  lemma DisarmReports(env: Environment, c: Coord, id: TimerId, kind: ActionKind)
    ensures Reports(c.hub) ==> Reports(Disarm(env, c, id, kind).hub)
  {
    hide Tell, SyncShutdown, Current;
    ReportingFacts();
  }

  lemma SetPolicyReports(env: Environment, c: Coord, target: DesiredInternet, reason: ChangeReason)
    requires Reports(c.hub)
    ensures Reports(SetPolicy(env, c, target, reason).coord.hub)
  {
    hide Commit, PolicyOutcome, TellPolicy, Current, Recompute;
    ReportingFacts();
    var c2 := LookForStop(env, Commit(env, c, c.mem.(desired := target)));
    var c4 := TellPolicy(env, ApplyGate(env, c2, target), c.mem.desired, c.observed, reason);
    PolicyOutcomeReports(env, c4, GateError(target, env(c2.world.instant).gate));
  }

  lemma PolicyOutcomeReports(env: Environment, c: Coord, error: Option<string>)
    requires Reports(c.hub)
    ensures Reports(PolicyOutcome(env, c, error).coord.hub)
  {
    hide CommitPost, MarkGate, RecordGateFailure, Current, Recompute;
    ReportingFacts();
    var c1 := MarkGate(env, c, error);
    if error.Some? { GateFailureReports(env, c1.(world := c1.world.Draw(1)), RetryEdit(c1.mem, error.value, c1.world.nextId)); }
  }

  lemma GateFailureReports(env: Environment, c: Coord, edited: PersistentState)
    requires Reports(c.hub)
    ensures Reports(RecordGateFailure(env, c, edited).hub)
  {
    hide CommitPost, ScheduleRetry, Current, Recompute;
    ReportingFacts();
    RetryTimeReports(env, CommitPost(env, c, edited));
  }

  lemma RetryTimeReports(env: Environment, c: Coord)
    ensures Reports(c.hub) ==> Reports(ScheduleRetry(env, c).hub)
  {
    hide MarkRetryPolicy, Current, Recompute;
    ReportingFacts();
  }

  lemma MessagesReport(env: Environment, c: Coord, id: EntryId, text: string, message: ChatMessage)
    requires Reports(c.hub)
    ensures Reports(Ack(env, c, id).coord.hub) && Reports(ChildMessage(env, c, text).coord.hub)
    ensures Reports(ParentMessage(env, c, message).coord.hub)
  {
    hide Commit, ValidChat, FindEntry, Tell, Current, Recompute;
    ReportingFacts();
  }

  lemma DropReports(env: Environment, c: Coord, id: nat)
    requires Reports(c.hub)
    ensures Reports(Drop(env, c, id).hub)
  {
    hide Reconcile, Current;
    var hub := c.hub.(subs := c.hub.subs - {id});
    SameReport(c.hub, hub);
    ReconcileReports(env, hub, c.world, None);
  }

  lemma SameReport(hub: Hub, other: Hub)
    requires Reports(hub) && other == hub.(health := other.health, subs := other.subs, nextSub := other.nextSub)
    requires other.health == hub.health.(sessions := other.health.sessions)
    ensures Reports(other)
  {
    assert Errors(other) == Errors(hub);
  }

  lemma SubscribeReports(env: Environment, c: Coord)
    requires Reports(c.hub)
    ensures Reports(Subscribe(env, c).coord.hub)
  {
    hide Reconcile, Drop, Current, StatusOf;
    if c.hub.nextSub.Some? {
      var id := c.hub.nextSub.value;
      var c1 := Enlist(c, id);
      SameReport(c.hub, c1.hub);
      ReconcileReports(env, c1.hub, c1.world, Some(id));
      var c2 := Reconciled(env, c1, Some(id));
      DropReports(env, c2, id);
      SameReport(c2.hub, Register(c2, id).hub);
      DropReports(env, Looked(Register(c2, id)), id);
    }
  }

  lemma UnsubscribeReports(env: Environment, c: Coord, id: nat)
    requires Reports(c.hub)
    ensures Reports(Unsubscribe(env, c, id).coord.hub)
  {
    hide Reconcile, Current;
    DropReports(env, c, id);
  }

  lemma StopReports(env: Environment, c: Coord)
    requires Reports(c.hub)
    ensures Reports(Stop(env, c).coord.hub)
  {
    hide MarkPersistence, Current, Recompute;
    ReportingFacts();
    SameReport(c.hub, c.hub.(subs := map[], health := c.hub.health.(sessions := 0)));
  }

  lemma HandleReports(env: Environment, c: Coord, cmd: Command)
    requires Reports(c.hub)
    ensures Reports(Handle(env, c, cmd).coord.hub)
  {
    hide Reports, Schedule, Cancel, SetPolicy, Ack, ChildMessage, ParentMessage, Subscribe, Unsubscribe, Stop;
    match cmd
    case ScheduleAction(kind, duration, who) => ScheduleReports(env, c, kind, duration, who);
    case CancelExactTimer(id, kind) => CancelReports(env, c, id, kind);
    case ImmediateInternetBlock(who) => SetPolicyReports(env, c, Blocked, ImmediateCommand(who));
    case RestoreInternet(who) => SetPolicyReports(env, c, Unrestricted, ManualRestore(who));
    case AckTelegram(id) => MessagesReport(env, c, id, "", ChatMessage(0, Child, "", 0, Queued));
    case SendChildMessage(text) => MessagesReport(env, c, 0, text, ChatMessage(0, Child, "", 0, Queued));
    case PublishParentMessage(message) => MessagesReport(env, c, 0, "", message);
    case QueryStatus =>
    case SubscribeEvents => SubscribeReports(env, c);
    case UnsubscribeEvents(id) => UnsubscribeReports(env, c, id);
    case StopRuntime => StopReports(env, c);
  }

  // ---- kept by the clock ------------------------------------------------------------------------

  lemma FireBlockReports(env: Environment, c: Coord, id: TimerId)
    requires Reports(c.hub)
    ensures Reports(FireBlock(env, c, id).hub)
  {
    hide Commit, FiredBlock, FindAction, Current, Recompute;
    ReportingFacts();
    var k := FindAction(c.mem.actions, id);
    if k < |c.mem.actions| {
      FiredBlockReports(env, c, Commit(env, LookForStop(env, c),
        c.mem.(actions := SetExec(c.mem.actions, k, Executing), desired := Blocked)), id);
    }
  }

  lemma FiredBlockReports(env: Environment, before: Coord, c: Coord, id: TimerId)
    requires Reports(c.hub)
    ensures Reports(FiredBlock(env, before, c, id).hub)
  {
    hide Tell, TellPolicy, BlockOutcome, GateError, Current;
    ReportingFacts();
    var c3 := LookForStop(env, Tell(env, c.(timers := c.timers - {id}), TimerExpired(id, BlockInternet)));
    var c5 := TellPolicy(env, ApplyGate(env, c3, Blocked), before.mem.desired, before.observed, TimerFired(id));
    BlockOutcomeReports(env, c5, id, GateError(Blocked, env(c3.world.instant).gate));
  }

  lemma BlockOutcomeReports(env: Environment, c: Coord, id: TimerId, error: Option<string>)
    requires Reports(c.hub)
    ensures Reports(BlockOutcome(env, c, id, error).hub)
  {
    hide CommitPost, MarkGate, RecordGateFailure, CompleteEdit, FailEdit, Current, Recompute;
    ReportingFacts();
    var c1 := MarkGate(env, c, error);
    if error.Some? {
      GateFailureReports(env, c1.(world := c1.world.Draw(1)), RetryEdit(FailEdit(c.mem, id, error.value), error.value, c1.world.nextId));
    }
  }

  lemma FireShutdownReports(env: Environment, c: Coord, id: TimerId)
    requires Reports(c.hub)
    ensures Reports(FireShutdown(env, c, id).hub)
  {
    hide Commit, FiredShutdown, FindAction, Current, Recompute;
    ReportingFacts();
    var k := FindAction(c.mem.actions, id);
    if k < |c.mem.actions| {
      FiredShutdownReports(env, Commit(env, LookForStop(env, c), c.mem.(actions := SetExec(c.mem.actions, k, Executing))), id);
    }
  }

  lemma FiredShutdownReports(env: Environment, c: Coord, id: TimerId)
    requires Reports(c.hub)
    ensures Reports(FiredShutdown(env, c, id).hub)
  {
    hide Tell, PowerOutcome, Current;
    ReportingFacts();
    var c3 := LookForStop(env, Tell(env, c.(timers := c.timers - {id}), TimerExpired(id, ShutdownComputer)));
    var outcome := env(c3.world.instant).power;
    PowerOutcomeReports(env, c3.(world := c3.world.Did(PowerCall(id, outcome))), id, outcome);
  }

  lemma PowerOutcomeReports(env: Environment, c: Coord, id: TimerId, outcome: Outcome)
    requires Reports(c.hub)
    ensures Reports(PowerOutcome(env, c, id, outcome).hub)
  {
    hide PowerAccepted, PowerRefused, MarkPower, FindAction, Current, Recompute;
    ReportingFacts();
    match outcome
    case Success => PowerAcceptedReports(env, c, MarkPower(env, c, None), id);
    case Failure(reason) => PowerRefusedReports(env, c, MarkPower(env, c, Some(reason)), id, reason);
  }

  lemma PowerAcceptedReports(env: Environment, c: Coord, c1: Coord, id: TimerId)
    requires Reports(c1.hub)
    ensures Reports(PowerAccepted(env, c, c1, id).hub)
  {
    hide CommitPost, TellShutdown, CompleteEdit, Current, Recompute;
    ReportingFacts();
  }

  lemma PowerRefusedReports(env: Environment, c: Coord, c1: Coord, id: TimerId, reason: string)
    requires Reports(c1.hub)
    ensures Reports(PowerRefused(env, c, c1, id, reason).hub)
  {
    hide CommitPost, TellShutdown, FailEdit, DeriveShutdown, Current, Recompute;
    ReportingFacts();
  }

  lemma RetryReports(env: Environment, c: Coord)
    requires Reports(c.hub)
    ensures Reports(Retry(env, c).hub)
  {
    hide CommitPost, MarkGate, RecordGateFailure, TellPolicy, RetryDoneEdit, GateError, Current, Recompute;
    ReportingFacts();
    var c1 := LookForStop(env, c);
    var error := GateError(c.mem.desired, env(c1.world.instant).gate);
    var c3 := MarkGate(env, TellPolicy(env, ApplyGate(env, c1, c.mem.desired), c.mem.desired, c.observed, PlatformSync), error);
    if error.Some? { GateFailureReports(env, c3.(world := c3.world.Draw(1)), RetryEdit(c3.mem, error.value, c3.world.nextId)); }
  }

  lemma {:induction false} WarnAllReports(env: Environment, c: Coord, order: seq<TimerId>, now: nat)
    requires Reports(c.hub)
    ensures Reports(WarnAll(env, c, order, now).hub)
    decreases |order|
  {
    hide Commit, TellWarnings, CrossedBy, SecondsLeft, Current, Recompute, WarnEdit;
    ReportingFacts();
    if order != [] { WarnAllReports(env, c, order[..|order| - 1], now); }
  }

  lemma {:induction false} FireAllReports(env: Environment, c: Coord, kinds: map<TimerId, Anchor>, due: seq<TimerId>)
    requires Reports(c.hub)
    ensures Reports(FireAll(env, c, kinds, due).coord.hub)
    decreases |due|
  {
    hide FireBlock, FireShutdown, Reports;
    if due != [] {
      FireAllReports(env, c, kinds, due[..|due| - 1]);
      var c1 := LookForStop(env, FireAll(env, c, kinds, due[..|due| - 1]).coord);
      FireBlockReports(env, c1, due[|due| - 1]);
      FireShutdownReports(env, c1, due[|due| - 1]);
    }
  }

  lemma TickReports(env: Environment, c: Coord, order: seq<TimerId>)
    requires Reports(c.hub)
    ensures Reports(Tick(env, c, order).hub)
  {
    hide WarnAll, FireAll, Retry, Expired, Reports;
    var c0 := LookForStop(env, c);
    var now, c1 := Mono(env, c0), Looked(c0);
    WarnAllReports(env, c1, order, now);
    var c2 := WarnAll(env, c1, order, now);
    FireAllReports(env, c2, c.timers, Expired(c.timers, order, now));
    var f := FireAll(env, c2, c.timers, Expired(c.timers, order, now));
    RetryReports(env, f.coord.(retryAt := None));
  }

  // ---- whole runs ----------------------------------------------------------------------------------

  lemma RecoverReports(env: Environment, w: World)
    ensures var m := Recover(env, w); m.Up? ==> Reports(m.coord.hub)
  {
    hide Commit, TellMissed, SyncShutdown, RecoverState, RecoverTimers, MissedActions, Current, Recompute;
    ReportingFacts();
    FreshReports();
  }

  lemma FreshReports()
    ensures Reports(InitialHub())
  {
  }

  lemma RestoreReports(env: Environment, c: Coord, ids: set<TimerId>)
    requires Reports(c.hub)
    ensures var m := Restore(env, c, ids); m.Up? ==> Reports(m.coord.hub)
  {
    hide FinishRestore, DegradeRestore, MarkGate, TellPolicy, GateError, Current, Recompute;
    ReportingFacts();
    var error := GateError(c.mem.desired, env(c.world.instant).gate);
    var c3 := MarkGate(env, TellPolicy(env, ApplyGate(env, c, c.mem.desired), c.mem.desired, c.observed, StartupRestoration), error);
    if error.None? { FinishRestoreReports(env, c3, ids); } else { DegradeRestoreReports(env, c3, ids, error.value); }
  }

  lemma FinishRestoreReports(env: Environment, c: Coord, ids: set<TimerId>)
    requires Reports(c.hub)
    ensures var m := FinishRestore(env, c, ids); m.Up? ==> Reports(m.coord.hub)
  {
    hide CommitPost, ReconciledState, Current, Recompute;
    ReportingFacts();
  }

  lemma DegradeRestoreReports(env: Environment, c: Coord, ids: set<TimerId>, reason: string)
    requires Reports(c.hub)
    ensures var m := DegradeRestore(env, c, ids, reason); m.Up? ==> Reports(m.coord.hub)
  {
    hide CommitPost, ScheduleRetry, DegradedState, Current, Recompute;
    ReportingFacts();
    var c1 := c.(world := c.world.Draw(1));
    RetryTimeReports(env, CommitPost(env, c1, DegradedState(c.mem, ids, reason, c.world.nextId)));
  }

  lemma BootReports(env: Environment, w: World)
    ensures var m := Boot(env, w); m.Up? ==> Reports(m.coord.hub)
  {
    hide Recover, Restore, OverdueBlocks, Reports;
    RecoverReports(env, w);
    var m := Recover(env, w);
    if m.Up? { RestoreReports(env, m.coord, OverdueBlocks(w.disk.actions, BootUtc(env, w))); }
  }

  lemma {:induction false} RunReports(env: Environment, m: Machine, steps: seq<Step>)
    requires m.Up? ==> Reports(m.coord.hub)
    ensures var end := Run(env, m, steps); end.Up? ==> Reports(end.coord.hub)
    decreases |steps|
  {
    hide Handle, Tick, Boot, Crashed, Reports;
    if steps != [] {
      var before, step := Run(env, m, steps[..|steps| - 1]), steps[|steps| - 1];
      RunReports(env, m, steps[..|steps| - 1]);
      match step
      case CrashAndBoot(lost) => BootReports(env, Crashed(WorldOf(before), lost));
      case Serve(cmd) => if before.Up? { HandleReports(env, before.coord, cmd); }
      case Clock(order) => if before.Up? { TickReports(env, before.coord, order); }
    }
  }

  /** At the end of every run the health is critical exactly while a save error is on record, and degraded
      otherwise: nothing ever connects Telegram, so it is never healthy. Its error is the one of highest
      priority on record. What could not be saved makes it critical, and as long as no stop was requested
      an unfinished reconciliation leaves the error of the gate on record. */
  lemma HealthIsTruthful(env: Environment, m: Machine, steps: seq<Step>)
    requires Installed(m) && Run(env, m, steps).Up?
    ensures var c := Run(env, m, steps).coord;
      && c.hub.health.status == (if c.hub.persistenceError.Some? then Critical else Degraded)
      && IsFirstError(c.hub.health.lastError, Errors(c.hub))
      && (c.pending.Some? ==> c.hub.health.status.Critical?)
      && (!c.world.stopSeen ==> (c.mem.retry.Some? <==> c.hub.gateError.Some?))
  {
    hide Run, Durable, Healed, IsFirstError;
    RunReports(env, m, steps);
    MemoryAgreesWithDisk(env, m, steps);
    if !Run(env, m, steps).coord.world.stopSeen { PolicyHeals(env, m, steps); }
  }
}
