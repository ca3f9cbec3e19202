/** Effects outside the ticks: which commands ask the gate, that a boot asks it once, and that nothing is
    asked any more once a stop is requested. */
module Effects {
  import opened Domain
  import opened World
  import opened Subscribers
  import opened Runtime
  import opened Recovery
  import opened Safety
  import opened Durability
  import opened Edits
  import opened Wake
  import opened Settling
  import opened Announcements
  import opened Liveness

  // ---- commands ----------------------------------------------------------------------------------------

  lemma ReconcileCalls(env: Environment, hub: Hub, w: World, excluded: Option<nat>)
    ensures Calls(Reconcile(env, hub, w, excluded).world.trace) == Calls(w.trace)
  {
    ReconcileQuiet(env, hub, w, excluded);
    QuietCalls(w.trace, Reconcile(env, hub, w, excluded).world.trace);
  }

  lemma SyncCalls(env: Environment, c: Coord)
    ensures SameCalls(c, SyncShutdown(env, c))
  {
    SyncShutdownHushed(env, c);
    HushedCalls(c, SyncShutdown(env, c));
  }

  lemma ScheduleCalls(env: Environment, c: Coord, kind: ActionKind, duration: nat, who: Initiator)
    ensures SameCalls(c, Schedule(env, c, kind, duration, who).coord)
  {
    hide Schedule, Saving, Arm, CreationDue, NewAction, Calls;
    var due, a := CreationDue(duration), NewAction(c.world.nextId, kind, duration, who, Utc(env, c));
    ScheduleSplits(env, c, kind, duration, who);
    SavedIsSilent(env, c, a, due);
    if Schedule(env, c, kind, duration, who).reply.ScheduledAs? {
      var anchor: Anchor :| Schedule(env, c, kind, duration, who).coord == Arm(env, Saving(env, c, a, due), a, anchor, due);
      ArmCalls(env, Saving(env, c, a, due), a, anchor, due);
    }
  }

  lemma SavedIsSilent(env: Environment, c: Coord, a: Action, due: seq<Threshold>)
    ensures SameCalls(c, Saving(env, c, a, due))
  {
    hide Commit, Notices, Recompute, ScheduleEdit, Calls, OnlyTold;
    var c2 := Looked(Looked(c));
    var c3 := c2.(world := c2.world.Draw(1 + |due|));
    SavingCalls(env, c3, ScheduleEdit(c.mem, a, Notices(c.world.nextId + 1, |due|, WARNING_TEXT)));
    SilentFrom(c, c3);
  }

  lemma SilentFrom(c: Coord, c1: Coord)
    requires c1.world.trace == c.world.trace
    ensures SameCalls(c, c1)
  {
  }

  lemma ArmCalls(env: Environment, c: Coord, a: Action, anchor: Anchor, due: seq<Threshold>)
    ensures SameCalls(c, Arm(env, c, a, anchor, due))
  {
    hide Tell, TellWarnings, SyncShutdown;
    var c1 := c.(timers := c.timers[a.id := anchor]);
    TellCalls(env, c1, TimerScheduled(a));
    var c2 := Tell(env, c1, TimerScheduled(a));
    TellWarningsCalls(env, c2, a, due, a.createdAt);
    SyncCalls(env, TellWarnings(env, c2, a, due, a.createdAt));
  }

  lemma CancelCalls(env: Environment, c: Coord, id: TimerId, kind: ActionKind)
    ensures SameCalls(c, Cancel(env, c, id, kind).coord)
  {
    hide Commit, Disarm, RemoveAction, FindAction, CancelBlocked, Recompute;
    var c1, after := Consulted(c, id, kind), c.mem.(actions := RemoveAction(c.mem.actions, id));
    SavingCalls(env, c1, after);
    DisarmCalls(env, Commit(env, c1, after), id, kind);
  }

  lemma DisarmCalls(env: Environment, c: Coord, id: TimerId, kind: ActionKind)
    ensures SameCalls(c, Disarm(env, c, id, kind))
  {
    hide Tell, SyncShutdown;
    var c1 := c.(timers := c.timers - {id});
    TellCalls(env, c1, TimerCancelled(id, kind));
    SyncCalls(env, Tell(env, c1, TimerCancelled(id, kind)));
  }

  /** A policy command asks the gate once for its policy if the policy is saved and no stop is requested. */
  lemma SetPolicyCalls(env: Environment, c: Coord, target: DesiredInternet, reason: ChangeReason)
    ensures var r := SetPolicy(env, c, target, reason);
      Calls(r.coord.world.trace) == Calls(c.world.trace)
        + if SaveOk(env, c) && !GateAsked(env, c, target).world.stopSeen then [Gate(target)] else []
  {
    hide Commit, PolicyOutcome, TellPolicy, GateError, Recompute;
    SavingCalls(env, c, c.mem.(desired := target));
    var c2 := GateAsked(env, c, target);
    if SaveOk(env, c) && !c2.world.stopSeen {
      var c3 := ApplyGate(env, c2, target);
      TellPolicyHushed(env, c3, c.mem.desired, c.observed, reason);
      var c4 := TellPolicy(env, c3, c.mem.desired, c.observed, reason);
      HushedCalls(c3, c4);
      PolicyOutcomeCalls(env, c4, GateError(target, env(c2.world.instant).gate));
    }
  }

  lemma PolicyOutcomeCalls(env: Environment, c: Coord, error: Option<string>)
    ensures SameCalls(c, PolicyOutcome(env, c, error).coord)
  {
    hide CommitPost, MarkGate, RecordGateFailure, Recompute;
    MarksHushed(env, c, error);
    var c1 := MarkGate(env, c, error);
    HushedCalls(c, c1);
    SavingCalls(env, c1, c1.mem.(retry := None));
    if error.Some? { GateFailureCalls(env, c1.(world := c1.world.Draw(1)), RetryEdit(c1.mem, error.value, c1.world.nextId)); }
  }

  lemma AckCalls(env: Environment, c: Coord, id: EntryId)
    ensures SameCalls(c, Ack(env, c, id).coord)
  {
    hide Commit, FindEntry, Recompute;
    var k := FindEntry(c.mem.outbox, id);
    if k < |c.mem.outbox| {
      SavingCalls(env, c.(world := c.world.Did(AckReceived(id))), c.mem.(outbox := c.mem.outbox[..k] + c.mem.outbox[k + 1..]));
    }
  }

  lemma MessagesCalls(env: Environment, c: Coord, text: string, message: ChatMessage)
    ensures SameCalls(c, ChildMessage(env, c, text).coord) && SameCalls(c, ParentMessage(env, c, message).coord)
  {
    hide Commit, ValidChat, Tell, Recompute;
    var entry := OutboxEntry(c.world.nextId, Chat(ChatMessage(c.world.nextId, Child, text, Utc(env, c), AcceptedByService)), 0, None);
    SavingCalls(env, Looked(c.(world := c.world.Draw(1))), c.mem.(outbox := c.mem.outbox + [entry]));
    TellCalls(env, c, ChatReceived(message));
  }

  lemma DropCalls(env: Environment, c: Coord, id: nat)
    ensures SameCalls(c, Drop(env, c, id)) && SameCalls(c, Unsubscribe(env, c, id).coord)
  {
    hide Reconcile;
    ReconcileCalls(env, c.hub.(subs := c.hub.subs - {id}), c.world, None);
  }

  lemma SubscribeCalls(env: Environment, c: Coord)
    ensures SameCalls(c, Subscribe(env, c).coord)
  {
    hide Reconcile, Calls, StatusOf, Drop;
    if c.hub.nextSub.Some? {
      var x := c.hub.nextSub.value;
      var c1 := Enlist(c, x);
      ReconcileCalls(env, c1.hub, c1.world, Some(x));
      var c2 := Reconciled(env, c1, Some(x));
      DropCalls(env, c2, x);
      DropCalls(env, Looked(Register(c2, x)), x);
    }
  }

  lemma StopCalls(env: Environment, c: Coord)
    ensures SameCalls(c, Stop(env, c).coord)
  {
    hide MarkPersistence, Recompute;
    var c1 := if c.stopping then c
              else c.(stopping := true, hub := c.hub.(subs := map[], health := c.hub.health.(sessions := 0)));
    if c1.pending.Some? {
      var b := AfterSave(c1, c1.pending.value, SaveOk(env, c1), false);
      MarkPersistenceFacts(env, b, SaveOk(env, c1));
      QuietCalls(b.world.trace, MarkPersistence(env, b, SaveOk(env, c1)).world.trace);
    }
  }

  /** The policy a command asks for. */
  function Wanted(cmd: Command): Option<DesiredInternet> {
    match cmd
    case ImmediateInternetBlock(_) => Some(Blocked)
    case RestoreInternet(_) => Some(Unrestricted)
    case _ => None
  }

  /** From `c` to `d` the gate was asked once if this is a policy command that was saved when no stop was
      requested, and nothing was asked otherwise. */
  ghost predicate AsksOnlyFor(env: Environment, c: Coord, cmd: Command, d: Coord) {
    Calls(d.world.trace) == Calls(c.world.trace)
      + match Wanted(cmd)
        case Some(target) =>
          if !c.stopping && SaveOk(env, c) && !GateAsked(env, c, target).world.stopSeen then [Gate(target)] else []
        case None => []
  }

  /** Only the two policy commands ask the gate, once, and no command calls the power controller. */
  lemma CommandCalls(env: Environment, c: Coord, cmd: Command)
    ensures AsksOnlyFor(env, c, cmd, Handle(env, c, cmd).coord)
  {
    hide Schedule, Cancel, SetPolicy, Ack, ChildMessage, ParentMessage, Subscribe, Unsubscribe, Stop, Calls, GateAsked;
    match cmd
    case ScheduleAction(kind, duration, who) => ScheduleCalls(env, c, kind, duration, who);
    case CancelExactTimer(id, kind) => CancelCalls(env, c, id, kind);
    case ImmediateInternetBlock(who) => SetPolicyCalls(env, c, Blocked, ImmediateCommand(who));
    case RestoreInternet(who) => SetPolicyCalls(env, c, Unrestricted, ManualRestore(who));
    case AckTelegram(id) => AckCalls(env, c, id);
    case SendChildMessage(text) => MessagesCalls(env, c, text, ChatMessage(0, Child, "", 0, Queued));
    case PublishParentMessage(message) => MessagesCalls(env, c, "", message);
    case QueryStatus =>
    case SubscribeEvents => SubscribeCalls(env, c);
    case UnsubscribeEvents(id) => DropCalls(env, c, id);
    case StopRuntime => StopCalls(env, c);
  }

  // ---- boots -------------------------------------------------------------------------------------------

  /** A boot that succeeds has asked the gate once, for the policy now on disk. */
  lemma BootCalls(env: Environment, w: World)
    requires Boot(env, w).Up?
    ensures var d := Boot(env, w).coord; Calls(d.world.trace) == Calls(w.trace) + [Gate(d.mem.desired)]
  {
    hide Recover, Restore, OverdueBlocks, Calls;
    RecoverCalls(env, w);
    RestoreCalls(env, Recover(env, w).coord, OverdueBlocks(w.disk.actions, BootUtc(env, w)));
  }

  lemma {:induction false} TellMissedCalls(env: Environment, c: Coord, missed: seq<Action>)
    ensures SameCalls(c, TellMissed(env, c, missed))
    decreases |missed|
  {
    hide Tell;
    if missed != [] {
      TellMissedCalls(env, c, missed[..|missed| - 1]);
      TellCalls(env, TellMissed(env, c, missed[..|missed| - 1]), MissedDeadline(missed[|missed| - 1]));
    }
  }

  lemma RecoverCalls(env: Environment, w: World)
    ensures var m := Recover(env, w); m.Up? ==> Calls(m.coord.world.trace) == Calls(w.trace)
  {
    hide Commit, TellMissed, SyncShutdown, RecoverState, RecoverTimers, MissedActions, Recompute;
    var c0 := Blank(w.Did(Booted).(stopSeen := false));
    var utc, c2 := Utc(env, c0), Looked(Looked(c0));
    var missed := MissedActions(w.disk.actions, utc);
    var candidate := RecoverState(w.disk, utc, c2.world.nextId);
    var c3 := c2.(timers := RecoverTimers(w.disk.actions, utc, Mono(env, Looked(c0))), world := c2.world.Draw(|missed|));
    SavingCalls(env, c3, candidate);
    var c4 := if candidate != w.disk then Commit(env, c3, candidate) else c3;
    TellMissedCalls(env, c4, missed);
    SyncCalls(env, TellMissed(env, c4, missed));
  }

  lemma RestoreCalls(env: Environment, c: Coord, ids: set<TimerId>)
    requires Restore(env, c, ids).Up?
    ensures var d := Restore(env, c, ids).coord;
      Calls(d.world.trace) == Calls(c.world.trace) + [Gate(d.mem.desired)]
  {
    hide FinishRestore, DegradeRestore, MarkGate, TellPolicy, GateError, Recompute;
    var c1 := ApplyGate(env, c, c.mem.desired);
    TellPolicyHushed(env, c1, c.mem.desired, c.observed, StartupRestoration);
    var c2 := TellPolicy(env, c1, c.mem.desired, c.observed, StartupRestoration);
    HushedCalls(c1, c2);
    var error := GateError(c.mem.desired, env(c.world.instant).gate);
    MarksHushed(env, c2, error);
    var c3 := MarkGate(env, c2, error);
    HushedCalls(c2, c3);
    if error.None? { FinishRestoreCalls(env, c3, ids); } else { DegradeRestoreCalls(env, c3, ids, error.value); }
  }

  lemma FinishRestoreCalls(env: Environment, c: Coord, ids: set<TimerId>)
    ensures var m := FinishRestore(env, c, ids); m.Up? ==> SameCalls(c, m.coord) && m.coord.mem.desired == c.mem.desired
  {
    hide CommitPost, CompleteBlocks, Recompute;
    SavingCalls(env, c, ReconciledState(c.mem, ids));
  }

  lemma DegradeRestoreCalls(env: Environment, c: Coord, ids: set<TimerId>, reason: string)
    ensures var m := DegradeRestore(env, c, ids, reason); m.Up? ==> SameCalls(c, m.coord) && m.coord.mem.desired == c.mem.desired
  {
    hide CommitPost, ScheduleRetry, FailBlocks, Recompute;
    var c1 := c.(world := c.world.Draw(1));
    var update := DegradedState(c.mem, ids, reason, c.world.nextId);
    SavingCalls(env, c1, update);
    ScheduleRetryHushed(env, CommitPost(env, c1, update));
    HushedCalls(CommitPost(env, c1, update), ScheduleRetry(env, CommitPost(env, c1, update)));
  }

  lemma HandleInstant(env: Environment, c: Coord, cmd: Command)
    requires !cmd.ImmediateInternetBlock? && !cmd.RestoreInternet?
    ensures c.world.instant <= Handle(env, c, cmd).coord.world.instant
  {
    hide Schedule, Cancel, Ack, ChildMessage, ParentMessage, Subscribe, Unsubscribe, Stop;
    match cmd
    case ScheduleAction(kind, duration, who) => ScheduleInstant(env, c, kind, duration, who);
    case CancelExactTimer(id, kind) => CancelInstant(env, c, id, kind);
    case AckTelegram(id) => MessagesInstant(env, c, id, "", ChatMessage(0, Child, "", 0, Queued));
    case SendChildMessage(text) => MessagesInstant(env, c, 0, text, ChatMessage(0, Child, "", 0, Queued));
    case PublishParentMessage(message) => MessagesInstant(env, c, 0, "", message);
    case SubscribeEvents => SubscriptionsInstant(env, c, 0);
    case UnsubscribeEvents(id) => SubscriptionsInstant(env, c, id);
    case StopRuntime => StopInstant(env, c);
    case _ =>
  }

  lemma ScheduleInstant(env: Environment, c: Coord, kind: ActionKind, duration: nat, who: Initiator)
    ensures c.world.instant <= Schedule(env, c, kind, duration, who).coord.world.instant
  {
    hide Commit, Tell, TellWarnings, SyncShutdown, CreationDue, Recompute;
  }

  lemma CancelInstant(env: Environment, c: Coord, id: TimerId, kind: ActionKind)
    ensures c.world.instant <= Cancel(env, c, id, kind).coord.world.instant
  {
    hide Commit, Disarm, RemoveAction, FindAction, CancelBlocked, Recompute;
    DisarmInstant(env, Commit(env, Consulted(c, id, kind), c.mem.(actions := RemoveAction(c.mem.actions, id))), id, kind);
  }

  lemma DisarmInstant(env: Environment, c: Coord, id: TimerId, kind: ActionKind)
    ensures c.world.instant <= Disarm(env, c, id, kind).world.instant
  {
    hide Tell, SyncShutdown;
  }

  lemma MessagesInstant(env: Environment, c: Coord, id: EntryId, text: string, message: ChatMessage)
    ensures c.world.instant <= Ack(env, c, id).coord.world.instant
    ensures c.world.instant <= ChildMessage(env, c, text).coord.world.instant
    ensures c.world.instant <= ParentMessage(env, c, message).coord.world.instant
  {
    hide Commit, ValidChat, FindEntry, Tell, Recompute;
  }

  lemma SubscriptionsInstant(env: Environment, c: Coord, id: nat)
    ensures c.world.instant <= Subscribe(env, c).coord.world.instant
    ensures c.world.instant <= Unsubscribe(env, c, id).coord.world.instant
  {
    hide Reconcile;
  }

  lemma StopInstant(env: Environment, c: Coord)
    ensures c.world.instant <= Stop(env, c).coord.world.instant
  {
    hide MarkPersistence, Recompute;
  }

  lemma CommandInstant(env: Environment, c: Coord, cmd: Command)
    ensures c.world.instant <= Handle(env, c, cmd).coord.world.instant
  {
    hide Schedule, Cancel, SetPolicy, Ack, ChildMessage, ParentMessage, Subscribe, Unsubscribe, Stop;
    match cmd
    case ImmediateInternetBlock(who) => SetPolicyInstant(env, c, Blocked, ImmediateCommand(who));
    case RestoreInternet(who) => SetPolicyInstant(env, c, Unrestricted, ManualRestore(who));
    case _ => HandleInstant(env, c, cmd);
  }

  lemma SetPolicyInstant(env: Environment, c: Coord, target: DesiredInternet, reason: ChangeReason)
    ensures c.world.instant <= SetPolicy(env, c, target, reason).coord.world.instant
  {
    hide Commit, PolicyOutcome, TellPolicy, GateError, Recompute;
  }

  // ---- after a stop ------------------------------------------------------------------------------------

  /** From instant `from` on the stop flag is set. */
  ghost predicate StopRequested(env: Environment, from: nat) { forall n: nat :: n >= from ==> env(n).stopRequested }

  lemma CommitInstant(env: Environment, c: Coord, after: PersistentState)
    ensures c.world.instant <= Commit(env, c, after).world.instant
  {
    hide Recompute;
  }

  /** Once a stop is requested, nothing is asked of the gate or the power controller any more, whatever
      commands are served and however often the clock ticks. */
  lemma {:induction false} StopEndsEffects(env: Environment, c: Coord, steps: seq<Step>)
    requires StopRequested(env, c.world.instant) && forall s <- steps :: !s.CrashAndBoot?
    ensures var end := Run(env, Up(c), steps);
      end.Up? && SameCalls(c, end.coord) && StopRequested(env, end.coord.world.instant)
    decreases |steps|
  {
    hide Handle, Tick, Calls;
    if steps != [] {
      var front, last := steps[..|steps| - 1], steps[|steps| - 1];
      assert steps == front + [last];
      StopEndsEffects(env, c, front);
      var d := Run(env, Up(c), front).coord;
      if last.Serve? { StoppedCommand(env, d, last.cmd); } else { StoppedTick(env, d, last.order); }
    }
  }

  lemma StoppedCommand(env: Environment, c: Coord, cmd: Command)
    requires StopRequested(env, c.world.instant)
    ensures var d := Handle(env, c, cmd).coord; SameCalls(c, d) && StopRequested(env, d.world.instant)
  {
    hide Handle, Commit;
    CommandCalls(env, c, cmd);
    CommitInstant(env, c, c.mem.(desired := Blocked));
    CommitInstant(env, c, c.mem.(desired := Unrestricted));
    CommandInstant(env, c, cmd);
  }

  lemma StoppedTick(env: Environment, c: Coord, order: seq<TimerId>)
    requires StopRequested(env, c.world.instant)
    ensures var d := Tick(env, c, order); SameCalls(c, d) && StopRequested(env, d.world.instant)
  {
    hide WarnAll, FireAll, Retry;
  }
}
