/** Subscription identifiers are handed out in increasing order and never again. */
module Subscriptions {
  import opened Domain
  import opened World
  import opened Subscribers
  import opened Runtime
  import opened Recovery

  /** No subscription was handed out from `c` to `d`. */
  ghost predicate SameIds(c: Coord, d: Coord) { d.hub.nextSub == c.hub.nextSub }

  /** What may be handed out later was not handed out before. */
  ghost predicate LaterIds(c: Coord, d: Coord) {
    d.hub.nextSub.Some? ==> c.hub.nextSub.Some? && c.hub.nextSub.value <= d.hub.nextSub.value
  }

  lemma ScheduleIds(env: Environment, c: Coord, kind: ActionKind, duration: nat, who: Initiator)
    ensures SameIds(c, Schedule(env, c, kind, duration, who).coord)
  {
    hide Commit, Tell, TellWarnings, SyncShutdown, CreationDue;
  }

  lemma CancelIds(env: Environment, c: Coord, id: TimerId, kind: ActionKind)
    ensures SameIds(c, Cancel(env, c, id, kind).coord)
  {
    hide Commit, Tell, SyncShutdown, RemoveAction, FindAction, CancelBlocked;
  }

  lemma SetPolicyIds(env: Environment, c: Coord, target: DesiredInternet, reason: ChangeReason)
    ensures SameIds(c, SetPolicy(env, c, target, reason).coord)
  {
    hide Commit, PolicyOutcome, TellPolicy;
  }

  lemma MessagesIds(env: Environment, c: Coord, id: EntryId, text: string, message: ChatMessage)
    ensures SameIds(c, Ack(env, c, id).coord) && SameIds(c, ChildMessage(env, c, text).coord)
    ensures SameIds(c, ParentMessage(env, c, message).coord)
  {
    hide Commit, ValidChat, FindEntry, Tell;
  }

  lemma SubscribeIds(env: Environment, c: Coord)
    ensures var r := Subscribe(env, c);
      && LaterIds(c, r.coord)
      && (r.reply.Subscribed? ==> c.hub.nextSub == Some(r.reply.sub))
      && (r.reply.Subscribed? && r.coord.hub.nextSub.Some? ==> r.reply.sub < r.coord.hub.nextSub.value)
  {
    hide Reconcile;
  }

  lemma HandleIds(env: Environment, c: Coord, cmd: Command)
    ensures LaterIds(c, Handle(env, c, cmd).coord)
  {
    hide Schedule, Cancel, SetPolicy, Ack, ChildMessage, ParentMessage, Subscribe, Unsubscribe, Stop;
    match cmd
    case ScheduleAction(kind, duration, who) => ScheduleIds(env, c, kind, duration, who);
    case CancelExactTimer(id, kind) => CancelIds(env, c, id, kind);
    case ImmediateInternetBlock(who) => SetPolicyIds(env, c, Blocked, ImmediateCommand(who));
    case RestoreInternet(who) => SetPolicyIds(env, c, Unrestricted, ManualRestore(who));
    case AckTelegram(id) => MessagesIds(env, c, id, "", ChatMessage(0, Child, "", 0, Queued));
    case SendChildMessage(text) => MessagesIds(env, c, 0, text, ChatMessage(0, Child, "", 0, Queued));
    case PublishParentMessage(message) => MessagesIds(env, c, 0, "", message);
    case QueryStatus =>
    case SubscribeEvents => SubscribeIds(env, c);
    case UnsubscribeEvents(id) => UnsubscribeIds(env, c, id);
    case StopRuntime => StopIds(env, c);
  }

  lemma UnsubscribeIds(env: Environment, c: Coord, id: nat)
    ensures SameIds(c, Unsubscribe(env, c, id).coord)
  {
    hide Reconcile;
  }

  lemma StopIds(env: Environment, c: Coord)
    ensures SameIds(c, Stop(env, c).coord)
  {
    hide MarkPersistence;
  }

  lemma FireBlockIds(env: Environment, c: Coord, id: TimerId)
    ensures SameIds(c, FireBlock(env, c, id))
  {
    hide Commit, FiredBlock, FindAction;
    var k := FindAction(c.mem.actions, id);
    if k < |c.mem.actions| {
      FiredBlockIds(env, c, Commit(env, LookForStop(env, c),
        c.mem.(actions := SetExec(c.mem.actions, k, Executing), desired := Blocked)), id);
    }
  }

  lemma FiredBlockIds(env: Environment, before: Coord, c: Coord, id: TimerId)
    ensures SameIds(c, FiredBlock(env, before, c, id))
  {
    hide Tell, TellPolicy, CommitPost, MarkGate, RecordGateFailure, CompleteEdit, FailEdit, GateError;
  }

  lemma FireShutdownIds(env: Environment, c: Coord, id: TimerId)
    ensures SameIds(c, FireShutdown(env, c, id))
  {
    hide Commit, FiredShutdown, FindAction;
    var k := FindAction(c.mem.actions, id);
    if k < |c.mem.actions| {
      FiredShutdownIds(env, Commit(env, LookForStop(env, c), c.mem.(actions := SetExec(c.mem.actions, k, Executing))), id);
    }
  }

  lemma FiredShutdownIds(env: Environment, c: Coord, id: TimerId)
    ensures SameIds(c, FiredShutdown(env, c, id))
  {
    hide Tell, MarkPower, PowerAccepted, PowerRefused, FindAction;
  }

  lemma RetryIds(env: Environment, c: Coord)
    ensures SameIds(c, Retry(env, c))
  {
    hide TellPolicy, CommitPost, MarkGate, RecordGateFailure, ResolveBlocks, GateError;
  }

  lemma {:induction false} WarnAllIds(env: Environment, c: Coord, order: seq<TimerId>, now: nat)
    ensures SameIds(c, WarnAll(env, c, order, now))
    decreases |order|
  {
    hide WarnCrossed, CrossedBy, SecondsLeft;
    if order != [] { WarnAllIds(env, c, order[..|order| - 1], now); }
  }

  lemma {:induction false} FireAllIds(env: Environment, c: Coord, kinds: map<TimerId, Anchor>, due: seq<TimerId>)
    ensures SameIds(c, FireAll(env, c, kinds, due).coord)
    decreases |due|
  {
    hide FireBlock, FireShutdown;
    if due != [] {
      FireAllIds(env, c, kinds, due[..|due| - 1]);
      var c1 := LookForStop(env, FireAll(env, c, kinds, due[..|due| - 1]).coord);
      FireBlockIds(env, c1, due[|due| - 1]);
      FireShutdownIds(env, c1, due[|due| - 1]);
    }
  }

  lemma TickIds(env: Environment, c: Coord, order: seq<TimerId>)
    ensures SameIds(c, Tick(env, c, order))
  {
    hide WarnAll, FireAll, Retry, Expired;
    var c0 := LookForStop(env, c);
    var now, c1 := Mono(env, c0), Looked(c0);
    WarnAllIds(env, c1, order, now);
    var c2 := WarnAll(env, c1, order, now);
    FireAllIds(env, c2, c.timers, Expired(c.timers, order, now));
    var f := FireAll(env, c2, c.timers, Expired(c.timers, order, now));
    RetryIds(env, f.coord.(retryAt := None));
  }

  lemma {:induction false} RunIds(env: Environment, c: Coord, steps: seq<Step>)
    requires forall s <- steps :: !s.CrashAndBoot?
    ensures Run(env, Up(c), steps).Up? && LaterIds(c, Run(env, Up(c), steps).coord)
    decreases |steps|
  {
    hide Handle, Tick;
    if steps != [] {
      var front, last := steps[..|steps| - 1], steps[|steps| - 1];
      assert steps == front + [last];
      RunIds(env, c, front);
      var d := Run(env, Up(c), front).coord;
      if last.Serve? { HandleIds(env, d, last.cmd); } else { TickIds(env, d, last.order); }
    }
  }

  /** Between two boots, two subscriptions never get the same identifier, whatever happens between
      them: also when the first was dropped, pruned or given up in the meantime. */
  lemma SubscriptionIdsAreFresh(env: Environment, c: Coord, steps: seq<Step>)
    requires forall s <- steps :: !s.CrashAndBoot?
    ensures var first := Handle(env, c, SubscribeEvents);
      var later := Run(env, Up(first.coord), steps);
      && later.Up?
      && var second := Handle(env, later.coord, SubscribeEvents);
        first.reply.Subscribed? && second.reply.Subscribed? ==> first.reply.sub < second.reply.sub
  {
    hide Subscribe, Run;
    SubscribeIds(env, c);
    var first := Handle(env, c, SubscribeEvents);
    RunIds(env, first.coord, steps);
    SubscribeIds(env, Run(env, Up(first.coord), steps).coord);
  }
}
