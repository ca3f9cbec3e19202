/** Self-healing of the Internet policy: whenever the gate does not enforce the durable policy, a
    retry is armed or the retry policy is known to be broken. */
module Healing {
  import opened Domain
  import opened World
  import opened Subscribers
  import opened Runtime
  import opened Recovery
  import opened Safety
  import opened Durability

  ghost predicate Healed(c: Coord) {
    !c.world.stopSeen ==>
      && (c.mem.retry.None? <==> c.hub.health.gateHealthy)
      && (c.hub.health.gateHealthy ==> Matches(c.mem.desired, c.observed))
      && (c.mem.retry.Some? ==> c.retryAt.Some? || c.hub.retryPolicyError.Some?)
  }

  /** Nothing the invariant speaks of was touched. */
  ghost predicate Aside(c: Coord, d: Coord) {
    && d.mem.retry == c.mem.retry && d.mem.desired == c.mem.desired && d.observed == c.observed
    && d.retryAt == c.retryAt && d.hub.retryPolicyError == c.hub.retryPolicyError
    && d.hub.health.gateHealthy == c.hub.health.gateHealthy
    && (c.world.stopSeen ==> d.world.stopSeen)
  }

  lemma AsideCommands(env: Environment, c: Coord, cmd: Command)
    requires Durable(c) && !cmd.ImmediateInternetBlock? && !cmd.RestoreInternet?
    ensures Aside(c, Handle(env, c, cmd).coord)
  {
    hide Schedule, Cancel, Stop, Subscribe, Unsubscribe, Ack, ChildMessage, ParentMessage;
    match cmd
    case ScheduleAction(kind, duration, who) => ScheduleAside(env, c, kind, duration, who);
    case CancelExactTimer(id, kind) => CancelAside(env, c, id, kind);
    case StopRuntime => StopAside(env, c);
    case SubscribeEvents => SubscribeAside(env, c);
    case UnsubscribeEvents(id) => UnsubscribeAside(env, c, id);
    case AckTelegram(id) => MessagesAside(env, c, id, "");
    case SendChildMessage(text) => MessagesAside(env, c, 0, text);
    case PublishParentMessage(message) => ParentMessageAside(env, c, message);
    case _ =>
  }

  lemma ScheduleAside(env: Environment, c: Coord, kind: ActionKind, duration: nat, who: Initiator)
    ensures Aside(c, Schedule(env, c, kind, duration, who).coord)
  {
    hide Commit, Tell, TellWarnings, SyncShutdown, CreationDue;
  }

  lemma DisarmAside(env: Environment, c: Coord, id: TimerId, kind: ActionKind)
    ensures Aside(c, Disarm(env, c, id, kind))
  {
    hide Tell, SyncShutdown;
  }

  lemma CancelAside(env: Environment, c: Coord, id: TimerId, kind: ActionKind)
    ensures Aside(c, Cancel(env, c, id, kind).coord)
  {
    hide Commit, Disarm, RemoveAction, FindAction, CancelBlocked;
    DisarmAside(env, Commit(env, Consulted(c, id, kind), c.mem.(actions := RemoveAction(c.mem.actions, id))), id, kind);
  }

  lemma StopAside(env: Environment, c: Coord)
    requires Durable(c)
    ensures Aside(c, Stop(env, c).coord)
  {
    hide MarkPersistence;
  }

  lemma SubscribeAside(env: Environment, c: Coord)
    ensures Aside(c, Subscribe(env, c).coord)
  {
    hide Reconcile;
  }

  lemma UnsubscribeAside(env: Environment, c: Coord, id: nat)
    ensures Aside(c, Unsubscribe(env, c, id).coord)
  {
    hide Reconcile;
  }

  lemma MessagesAside(env: Environment, c: Coord, id: EntryId, text: string)
    ensures Aside(c, Ack(env, c, id).coord) && Aside(c, ChildMessage(env, c, text).coord)
  {
    hide Commit, ValidChat, FindEntry;
  }

  lemma ParentMessageAside(env: Environment, c: Coord, message: ChatMessage)
    ensures Aside(c, ParentMessage(env, c, message).coord)
  {
    hide Tell;
  }

  lemma SetPolicyHeals(env: Environment, c: Coord, target: DesiredInternet, reason: ChangeReason)
    requires Healed(c)
    ensures Healed(SetPolicy(env, c, target, reason).coord)
  {
    hide Commit, PolicyOutcome, TellPolicy, Matches;
    var c2 := LookForStop(env, Commit(env, c, c.mem.(desired := target)));
    var c4 := TellPolicy(env, ApplyGate(env, c2, target), c.mem.desired, c.observed, reason);
    GateErrorMatches(target, env(c2.world.instant).gate);
    if SaveOk(env, c) { PolicyOutcomeHeals(env, c4, GateError(target, env(c2.world.instant).gate)); }
  }

  lemma GateErrorMatches(target: DesiredInternet, a: GateAnswer)
    ensures GateError(target, a).None? ==> a.reading.Seen? && Matches(target, a.reading.state)
  {
  }

  lemma PolicyOutcomeHeals(env: Environment, c: Coord, error: Option<string>)
    requires error.None? ==> Matches(c.mem.desired, c.observed)
    ensures Healed(PolicyOutcome(env, c, error).coord)
  {
    hide CommitPost, MarkGate, RecordGateFailure, Matches;
  }

  lemma {:induction false} WarnAllAside(env: Environment, c: Coord, order: seq<TimerId>, now: nat)
    ensures Aside(c, WarnAll(env, c, order, now))
    decreases |order|
  {
    hide Warn;
    if order != [] {
      WarnAllAside(env, c, order[..|order| - 1], now);
      WarnAside(env, WarnAll(env, c, order[..|order| - 1], now), order[|order| - 1], now);
    }
  }

  lemma WarnAside(env: Environment, c: Coord, id: TimerId, now: nat)
    ensures Aside(c, Warn(env, c, id, now))
  {
    hide WarnCrossed, CrossedBy, SecondsLeft;
  }

  lemma FireBlockHeals(env: Environment, c: Coord, id: TimerId)
    requires Healed(c)
    ensures Healed(FireBlock(env, c, id))
  {
    hide Commit, FiredBlock, FindAction;
    var c0 := LookForStop(env, c);
    var k := FindAction(c.mem.actions, id);
    if k < |c.mem.actions| && SaveOk(env, c0) {
      FiredBlockHeals(env, c, Commit(env, c0, c.mem.(actions := SetExec(c.mem.actions, k, Executing), desired := Blocked)), id);
    }
  }

  lemma FiredBlockHeals(env: Environment, before: Coord, c: Coord, id: TimerId)
    requires c.mem.desired.Blocked?
    ensures Healed(FiredBlock(env, before, c, id))
  {
    hide Tell, TellPolicy, BlockOutcome;
    var c3 := LookForStop(env, Tell(env, c.(timers := c.timers - {id}), TimerExpired(id, BlockInternet)));
    var answer := env(c3.world.instant).gate;
    var c5 := TellPolicy(env, ApplyGate(env, c3, Blocked), before.mem.desired, before.observed, TimerFired(id));
    BlockOutcomeHeals(env, c5, id, GateError(Blocked, answer));
  }

  lemma BlockOutcomeHeals(env: Environment, c: Coord, id: TimerId, error: Option<string>)
    requires error.None? ==> Matches(c.mem.desired, c.observed)
    ensures Healed(BlockOutcome(env, c, id, error))
  {
    hide CommitPost, MarkGate, RecordGateFailure, RemoveAction, FindAction;
  }

  lemma FireShutdownAside(env: Environment, c: Coord, id: TimerId)
    ensures Aside(c, FireShutdown(env, c, id))
  {
    hide Commit, Tell, PowerOutcome;
    var c0 := LookForStop(env, c);
    var k := FindAction(c.mem.actions, id);
    if k < |c.mem.actions| {
      var c1 := Commit(env, c0, c.mem.(actions := SetExec(c.mem.actions, k, Executing)));
      var c3 := LookForStop(env, Tell(env, c1.(timers := c1.timers - {id}), TimerExpired(id, ShutdownComputer)));
      var outcome := env(c3.world.instant).power;
      PowerOutcomeAside(env, c3.(world := c3.world.Did(PowerCall(id, outcome))), id, outcome);
    }
  }

  lemma PowerOutcomeAside(env: Environment, c: Coord, id: TimerId, outcome: Outcome)
    ensures Aside(c, PowerOutcome(env, c, id, outcome))
  {
    hide MarkPower, PowerAccepted, PowerRefused;
  }

  lemma {:induction false} FireAllHeals(env: Environment, c: Coord, kinds: map<TimerId, Anchor>, due: seq<TimerId>)
    requires Healed(c)
    ensures Healed(FireAll(env, c, kinds, due).coord)
    decreases |due|
  {
    hide FireBlock, FireShutdown;
    if due != [] {
      var front, id := due[..|due| - 1], due[|due| - 1];
      FireAllHeals(env, c, kinds, front);
      var f := FireAll(env, c, kinds, front);
      var c1 := LookForStop(env, f.coord);
      FireBlockHeals(env, c1, id);
      FireShutdownAside(env, c1, id);
    }
  }

  /** A retry restores the invariant from any state. */
  lemma RetryHeals(env: Environment, c: Coord)
    ensures Healed(Retry(env, c))
  {
    hide CommitPost, MarkGate, RecordGateFailure, TellPolicy, ResolveBlocks;
  }

  lemma TickHeals(env: Environment, c: Coord, order: seq<TimerId>)
    requires Healed(c)
    ensures Healed(Tick(env, c, order))
  {
    hide WarnAll, FireAll, Retry;
    var c1 := Looked(LookForStop(env, c));
    var now := Mono(env, LookForStop(env, c));
    WarnAllAside(env, c1, order, now);
    var c2 := WarnAll(env, c1, order, now);
    FireAllHeals(env, c2, c.timers, Expired(c.timers, order, now));
    var c3 := FireAll(env, c2, c.timers, Expired(c.timers, order, now)).coord;
    RetryHeals(env, c3.(retryAt := None));
  }

  /** The boot establishes it, whatever was on disk. */
  lemma RestoreHeals(env: Environment, c: Coord, ids: set<TimerId>)
    ensures var m := Restore(env, c, ids); m.Up? ==> Healed(m.coord)
  {
    hide CommitPost, MarkGate, ScheduleRetry, TellPolicy, CompleteBlocks, FailBlocks;
  }
}
