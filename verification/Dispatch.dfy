/** What a client gets for each command: the reply, the change it stands for, and the events told. */
module Dispatch {
  import opened Domain
  import opened World
  import opened Subscribers
  import opened Runtime
  import opened Recovery
  import opened Texts
  import opened Safety
  import opened Durability
  import opened Outcomes
  import opened Settling
  import opened Announcements
  import opened Effects
  import opened Invariants

  // ---- what a command achieves ---------------------------------------------------------------------------

  /** A command for this policy: it is on disk once saved, `Done` means that the gate shows it, and a platform
      error that the gate has refused and a retry is armed. */
  ghost predicate PolicyServed(env: Environment, c: Coord, d: Coord, reply: Reply, target: DesiredInternet, reason: ChangeReason) {
    && d.mem.actions == c.mem.actions && d.timers == c.timers
    && Told(c, d, if !SaveOk(env, c) || reply == StoppingError then [] else PolicyNews(c, d, reason))
    && (if SaveOk(env, c) then d.mem.desired == d.world.disk.desired == target else reply == PersistenceError && SameCore(c, d))
    && match reply
       case Done => d.world.disk == d.mem == c.mem.(desired := target, retry := None) && d.observed == ShownAs(target)
       case PlatformError(refusal) => d.world.disk == d.mem && RefusalRecorded(env, c, d, refusal)
       case StoppingError => d.world.stopSeen && d.world.disk == d.mem == c.mem.(desired := target) && d.observed == c.observed
       case PersistenceError => !SaveOk(env, c) || d.pending == Some(d.mem)
       case _ => false
  }

  ghost predicate ScheduleServed(env: Environment, c: Coord, d: Coord, reply: Reply, kind: ActionKind, duration: nat, who: Initiator) {
    if env(c.world.instant + 2).saveOk then
      && reply == ScheduledAs(c.world.nextId) && c.world.nextId !in Known(c.world.trace)
      && Outcomes.Scheduled(env, c, d, kind, duration, who)
      && var a := d.mem.actions[|c.mem.actions|];
        exists due: seq<Threshold> :: |due| <= 1 && (forall t: Threshold :: t in due <==> t.Seconds() == duration)
          && Told(c, d, [TimerScheduled(a)] + WarningNews(a.id, kind, a.deadline, due, a.createdAt) + ShutdownNews(c, d))
    else
      reply == PersistenceError && SameCore(c, d) && Told(c, d, [])
  }

  ghost predicate CancelServed(env: Environment, c: Coord, d: Coord, reply: Reply, id: TimerId, kind: ActionKind) {
    && (reply in {Cancelled, PersistenceError} <==> MayCancel(env, c, id, kind))
    && (reply == AlreadyAbsent <==> forall a <- c.mem.actions :: a.id != id)
    && (reply == KindMismatch <==> exists a <- c.mem.actions :: a.id == id && a.kind != kind)
    && reply in {Cancelled, PersistenceError, AlreadyAbsent, KindMismatch, CancellationForbidden}
    && if reply == Cancelled then
         && (exists k :: 0 <= k < |c.mem.actions| && c.mem.actions[k].id == id
               && d.mem == d.world.disk == c.mem.(actions := c.mem.actions[..k] + c.mem.actions[k + 1..]))
         && d.timers == c.timers - {id} && Told(c, d, [TimerCancelled(id, kind)] + ShutdownNews(c, d))
       else SameCore(c, d) && Told(c, d, [])
  }

  ghost predicate AckServed(c: Coord, d: Coord, reply: Reply, id: EntryId) {
    && (reply == Acked(false) <==> forall e <- c.mem.outbox :: e.id != id)
    && reply in {Acked(false), Acked(true), PersistenceError} && Told(c, d, [])
    && if reply == Acked(true) then
         && d.mem == d.world.disk == c.mem.(outbox := d.mem.outbox) && |d.mem.outbox| + 1 == |c.mem.outbox|
         && (forall e :: e in d.mem.outbox <==> e in c.mem.outbox && e.id != id)
       else SameCore(c, d)
  }

  /** Text of a legal length that is not blank. */
  ghost predicate IsMessage(text: string) { 1 <= |Utf8Text(text)| <= 4096 && Trim(text) != "" }

  ghost predicate ChildMessageServed(env: Environment, c: Coord, d: Coord, reply: Reply, text: string) {
    && (reply == InvalidInput <==> !IsMessage(text)) && Told(c, d, [])
    && match reply
       case MessageAccepted(id) =>
         && id == c.world.nextId
         && d.mem == d.world.disk == c.mem.(outbox := c.mem.outbox
              + [OutboxEntry(id, Chat(ChatMessage(id, Child, text, Utc(env, c), AcceptedByService)), 0, None)])
       case PersistenceError => SameCore(c, d)
       case InvalidInput => d == c
       case _ => false
  }

  ghost predicate ParentMessageServed(c: Coord, d: Coord, reply: Reply, message: ChatMessage) {
    if message.sender.Parent? then reply == Done && SameCore(c, d) && Told(c, d, [ChatReceived(message)])
    else reply == InvalidInput && d == c
  }

  /** The status, field by field. */
  function StatusNow(c: Coord): Snapshot {
    Snapshot(c.mem.desired, c.observed, c.shutdown, c.mem.actions, c.hub.health)
  }

  ghost predicate SubscribeServed(c: Coord, d: Coord, reply: Reply) {
    && SameCore(c, d) && Told(c, d, [])
    && match reply
       case Subscribed(id, snapshot) =>
         && c.hub.nextSub == Some(id) && snapshot == StatusNow(d) && id in d.hub.subs
         && d.hub.subs[id] == Subscriber(snapshot, [], |Broadcasts(d.world.trace)|)
       case SubscriptionIdExhausted => c.hub.nextSub.None?
       case CapacityExhausted => c.hub.nextSub.Some? && |c.hub.subs| == U32_MAX
       case Done => d.hub.subs.Keys <= c.hub.subs.Keys
       case _ => false
  }

  ghost predicate StopServed(env: Environment, c: Coord, d: Coord, reply: Reply) {
    && d.stopping && d.mem == c.mem && d.timers == c.timers && Told(c, d, [])
    && (!c.stopping ==> d.hub.subs == map[])
    && if c.pending.None? || SaveOk(env, c) then reply == Stopped && d.pending.None? && d.world.disk == d.mem
       else reply == PersistenceError && d.pending == c.pending && d.world.disk == c.world.disk
  }

  /** What the command stands for. */
  ghost predicate CommandServed(env: Environment, c: Coord, cmd: Command, d: Coord, reply: Reply) {
    AsksOnlyFor(env, c, cmd, d) &&
    if cmd.QueryStatus? then reply == Status(StatusNow(c)) && d == c
    else if cmd.StopRuntime? then StopServed(env, c, d, reply)
    else if c.stopping then reply == StoppingError && d == c
    else match cmd
      case ScheduleAction(kind, duration, who) => ScheduleServed(env, c, d, reply, kind, duration, who)
      case CancelExactTimer(id, kind) => CancelServed(env, c, d, reply, id, kind)
      case ImmediateInternetBlock(who) => PolicyServed(env, c, d, reply, Blocked, ImmediateCommand(who))
      case RestoreInternet(who) => PolicyServed(env, c, d, reply, Unrestricted, ManualRestore(who))
      case AckTelegram(id) => AckServed(c, d, reply, id)
      case SendChildMessage(text) => ChildMessageServed(env, c, d, reply, text)
      case PublishParentMessage(message) => ParentMessageServed(c, d, reply, message)
      case SubscribeEvents => SubscribeServed(c, d, reply)
      case UnsubscribeEvents(id) =>
        reply == Unsubscribed(id in c.hub.subs) && id !in d.hub.subs && SameCore(c, d) && Told(c, d, [])
  }

  // ---- every command does ----------------------------------------------------------------------------------

  lemma PolicyIsServed(env: Environment, c: Coord, target: DesiredInternet, reason: ChangeReason)
    ensures var r := SetPolicy(env, c, target, reason); PolicyServed(env, c, r.coord, r.reply, target, reason)
  {
    hide SetPolicy, Commit, Told, PolicyNews, RefusalRecorded, Refusal;
    SetPolicyOutcome(env, c, target, reason);
    SetPolicyTells(env, c, target, reason);
    SetPolicyPending(env, c, target, reason);
  }

  lemma SetPolicyPending(env: Environment, c: Coord, target: DesiredInternet, reason: ChangeReason)
    ensures var r := SetPolicy(env, c, target, reason);
      SaveOk(env, c) ==>
        && (r.coord.pending.Some? ==> r.coord.pending.value == r.coord.mem)
        && (r.reply == StoppingError ==> r.coord.world.stopSeen && r.coord.pending.None?)
  {
    hide Commit, CommitPost, MarkGate, TellPolicy, ScheduleRetry, GateError, Recompute;
  }

  lemma ScheduleIsServed(env: Environment, c: Coord, kind: ActionKind, duration: nat, who: Initiator)
    requires Durable(c)
    ensures var r := Schedule(env, c, kind, duration, who); ScheduleServed(env, c, r.coord, r.reply, kind, duration, who)
  {
    hide Schedule, Durable, Told, WarningNews, ShutdownNews, CreationDue;
    ScheduleOutcome(env, c, kind, duration, who);
    ScheduleTells(env, c, kind, duration, who);
    DueExactly(duration);
  }

  lemma DueExactly(duration: nat)
    ensures |CreationDue(duration)| <= 1 && forall t: Threshold :: t in CreationDue(duration) <==> t.Seconds() == duration
  {
    AllThresholdsListed();
    DueCount(duration);
  }

  lemma CancelIsServed(env: Environment, c: Coord, id: TimerId, kind: ActionKind)
    requires UniqueActions(c.mem.actions)
    ensures var r := Cancel(env, c, id, kind); CancelServed(env, c, r.coord, r.reply, id, kind)
  {
    hide Told, ShutdownNews, MayCancel, UniqueActions, RemoveTimer, CancelBlocked, SaveOk;
    CancelOutcome(env, c, id, kind);
    CancelTells(env, c, id, kind);
    RemoveReplies(env, Consulted(c, id, kind), id, kind);
  }

  lemma RemoveReplies(env: Environment, c: Coord, id: TimerId, kind: ActionKind)
    ensures RemoveTimer(env, c, id, kind).reply in {Cancelled, PersistenceError, CancellationForbidden}
  {
    hide Commit, Disarm, RemoveAction;
  }

  lemma AckIsServed(env: Environment, c: Coord, id: EntryId)
    requires UniqueEntries(c.mem.outbox)
    ensures var r := Ack(env, c, id); AckServed(c, r.coord, r.reply, id)
  {
    hide Told, Commit, FindEntry, Recompute, UniqueEntries;
    AckOutcome(env, c, id);
    MessagesTell(env, c, id, "", ChatMessage(0, Child, "", 0, Queued));
  }

  lemma ChildMessageIsServed(env: Environment, c: Coord, text: string)
    ensures var r := ChildMessage(env, c, text); ChildMessageServed(env, c, r.coord, r.reply, text)
  {
    hide Told, ChildMessage, ValidChat, Utf8Text, Trim;
    ChildMessageOutcome(env, c, text);
    ValidChatExact(text);
    MessagesTell(env, c, 0, text, ChatMessage(0, Child, "", 0, Queued));
  }

  lemma SubscribeIsServed(env: Environment, c: Coord)
    requires RegistryOk(c.hub) && GapFree(c.hub.subs, c.world.trace, None)
    ensures var r := Subscribe(env, c); SubscribeServed(c, r.coord, r.reply)
  {
    hide Told, Reconcile, Drop, Broadcasts, RegistryOk, GapFree;
    SubscribeOutcome(env, c);
    SubscriptionsTell(env, c, 0);
  }

  /** Every command does what it stands for, and tells exactly that. */
  lemma CommandIsServed(env: Environment, c: Coord, cmd: Command)
    requires Good(c)
    ensures var r := Handle(env, c, cmd); CommandServed(env, c, cmd, r.coord, r.reply)
  {
    hide Good, Durable, RegistryOk, GapFree, PolicyServed, ScheduleServed, CancelServed, AckServed, ChildMessageServed, SubscribeServed, Told, AsksOnlyFor;
    hide Schedule, Cancel, SetPolicy, Ack, ChildMessage, ParentMessage, Subscribe, Unsubscribe, Stop, UniqueActions, UniqueEntries;
    GoodFacts(c);
    CommandCalls(env, c, cmd);
    match cmd
    case ScheduleAction(kind, duration, who) => ScheduleIsServed(env, c, kind, duration, who);
    case CancelExactTimer(id, kind) => CancelIsServed(env, c, id, kind);
    case ImmediateInternetBlock(who) => PolicyIsServed(env, c, Blocked, ImmediateCommand(who));
    case RestoreInternet(who) => PolicyIsServed(env, c, Unrestricted, ManualRestore(who));
    case AckTelegram(id) => AckIsServed(env, c, id);
    case SendChildMessage(text) => ChildMessageIsServed(env, c, text);
    case PublishParentMessage(message) =>
      ParentMessageOutcome(env, c, message);
      MessagesTell(env, c, 0, "", message);
    case QueryStatus =>
    case SubscribeEvents => SubscribeIsServed(env, c);
    case UnsubscribeEvents(id) =>
      UnsubscribeOutcome(env, c, id);
      SubscriptionsTell(env, c, id);
    case StopRuntime =>
      StopOutcome(env, c);
      StopTells(env, c);
  }

  /** So in every run. */
  lemma RunServes(env: Environment, m: Machine, steps: seq<Step>, cmd: Command)
    requires Installed(m) && Run(env, m, steps).Up?
    ensures var c := Run(env, m, steps).coord;
      var r := Handle(env, c, cmd);
      CommandServed(env, c, cmd, r.coord, r.reply)
  {
    hide Run, Good, CommandServed, Handle;
    RunIsGood(env, m, steps);
    CommandIsServed(env, Run(env, m, steps).coord, cmd);
  }
}
