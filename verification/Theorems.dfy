/** The main results about whole runs: every sequence of boots, commands, ticks and crashes, with
    every combination of port answers. */
module Theorems {
  import opened Domain
  import opened World
  import opened Subscribers
  import opened Runtime
  import opened Recovery
  import opened Safety
  import opened Durability
  import opened Preservation
  import opened Deadlines
  import opened Timers
  import opened Healing
  import opened Aggregate
  import opened Booting
  import opened Wake

  lemma HandleKeepsSane(env: Environment, c: Coord, cmd: Command)
    requires Sane(c)
    ensures Sane(Handle(env, c, cmd).coord)
    ensures Exact(c) ==> Exact(Handle(env, c, cmd).coord)
  {
    hide Durable, Timed, Healed, Truthful, Exact, Moves;
    hide Schedule, Cancel, SetPolicy, Ack, ChildMessage, ParentMessage, Subscribe, Unsubscribe, Stop;
    HandleKeepsDurable(env, c, cmd);
    HandleKeepsTimed(env, c, cmd);
    HandleHeals(env, c, cmd);
    HandleTruthful(env, c, cmd);
  }

  lemma HandleKeepsDurable(env: Environment, c: Coord, cmd: Command)
    requires Durable(c)
    ensures Durable(Handle(env, c, cmd).coord)
  {
    hide Durable, Schedule, Cancel, SetPolicy, Ack, ChildMessage, ParentMessage, Subscribe, Unsubscribe, Stop;
    match cmd
    case ScheduleAction(kind, duration, who) => ScheduleKeeps(env, c, kind, duration, who);
    case CancelExactTimer(id, kind) => CancelKeeps(env, c, id, kind);
    case ImmediateInternetBlock(who) => SetPolicyKeeps(env, c, Blocked, ImmediateCommand(who));
    case RestoreInternet(who) => SetPolicyKeeps(env, c, Unrestricted, ManualRestore(who));
    case AckTelegram(id) => AckKeeps(env, c, id);
    case SendChildMessage(text) => ChildMessageKeeps(env, c, text);
    case PublishParentMessage(message) => ParentMessageKeeps(env, c, message);
    case QueryStatus =>
    case SubscribeEvents => SubscribeKeeps(env, c);
    case UnsubscribeEvents(id) => UnsubscribeKeeps(env, c, id);
    case StopRuntime => StopKeeps(env, c);
  }

  lemma ParentMessageKeeps(env: Environment, c: Coord, message: ChatMessage)
    requires Durable(c)
    ensures Durable(ParentMessage(env, c, message).coord)
  {
    hide Durable, Tell;
    TellKeeps(env, c, ChatReceived(message));
  }

  lemma UnsubscribeKeeps(env: Environment, c: Coord, id: nat)
    requires Durable(c)
    ensures Durable(Unsubscribe(env, c, id).coord)
  {
    hide Durable, Reconcile;
    DropKeeps(env, c, id);
  }

  lemma HandleKeepsTimed(env: Environment, c: Coord, cmd: Command)
    requires Durable(c) && Timed(c)
    ensures Timed(Handle(env, c, cmd).coord)
    ensures Exact(c) ==> Exact(Handle(env, c, cmd).coord)
  {
    hide Durable, Timed, Exact, Moves, Schedule, Cancel, SetPolicy, Ack, ChildMessage, ParentMessage, Subscribe, Unsubscribe, Stop;
    var d := Handle(env, c, cmd).coord;
    DurableIsSound(c);
    if cmd.ScheduleAction? && !c.stopping {
      ScheduleKeepsTimed(env, c, cmd.kind, cmd.duration, cmd.initiator);
    } else {
      SameActionsMove(c, c);
      match cmd {
        case CancelExactTimer(id, kind) => CancelMoves(env, c, id, kind);
        case ImmediateInternetBlock(who) => SetPolicyMoves(env, c, Blocked, ImmediateCommand(who));
        case RestoreInternet(who) => SetPolicyMoves(env, c, Unrestricted, ManualRestore(who));
        case AckTelegram(id) => AckMoves(env, c, id);
        case SendChildMessage(text) => ChildMessageMoves(env, c, text);
        case PublishParentMessage(message) => ParentMessageMoves(env, c, message);
        case SubscribeEvents => SubscriptionsMove(env, c, 0);
        case UnsubscribeEvents(id) => SubscriptionsMove(env, c, id);
        case StopRuntime => StopMoves(env, c);
        case _ =>
      }
      MovesKeepsTimed(c, d);
    }
  }

  lemma HandleHeals(env: Environment, c: Coord, cmd: Command)
    requires Durable(c) && Healed(c)
    ensures Healed(Handle(env, c, cmd).coord)
  {
    hide Durable, Schedule, Cancel, SetPolicy, Ack, ChildMessage, ParentMessage, Subscribe, Unsubscribe, Stop;
    match cmd
    case ImmediateInternetBlock(who) => SetPolicyHeals(env, c, Blocked, ImmediateCommand(who));
    case RestoreInternet(who) => SetPolicyHeals(env, c, Unrestricted, ManualRestore(who));
    case _ => AsideCommands(env, c, cmd);
  }

  lemma HandleTruthful(env: Environment, c: Coord, cmd: Command)
    requires Durable(c) && Truthful(c)
    ensures Truthful(Handle(env, c, cmd).coord)
  {
    hide Durable, Schedule, Cancel, SetPolicy, Ack, ChildMessage, ParentMessage, Subscribe, Unsubscribe, Stop;
    DurableIsUnique(c);
    match cmd
    case ScheduleAction(kind, duration, who) => ScheduleTruthful(env, c, kind, duration, who);
    case CancelExactTimer(id, kind) => CancelTruthful(env, c, id, kind);
    case ImmediateInternetBlock(who) => SetPolicyAggregate(env, c, Blocked, ImmediateCommand(who));
    case RestoreInternet(who) => SetPolicyAggregate(env, c, Unrestricted, ManualRestore(who));
    case AckTelegram(id) => AckAggregate(env, c, id);
    case SendChildMessage(text) => ChildMessageAggregate(env, c, text);
    case PublishParentMessage(message) => ParentMessageAggregate(env, c, message);
    case QueryStatus =>
    case SubscribeEvents => SubscriptionsAggregate(env, c, 0);
    case UnsubscribeEvents(id) => SubscriptionsAggregate(env, c, id);
    case StopRuntime => StopAggregate(env, c);
  }

  lemma AdvanceIsSane(env: Environment, m: Machine, step: Step)
    requires MachineOk(m)
    ensures MachineOk(Advance(env, m, step))
  {
    hide Durable, Timed, Healed, Truthful, Exact, Handle, Tick, Boot, WorldOk, Crashed;
    match step
    case CrashAndBoot(lost) =>
      if m.Up? { DurableWorld(m.coord); }
      CrashedOk(WorldOf(m), lost);
      BootIsSane(env, Crashed(WorldOf(m), lost));
    case Serve(cmd) =>
      if m.Up? { HandleKeepsSane(env, m.coord, cmd); }
    case Clock(order) =>
      if m.Up? { TickKeepsSane(env, m.coord, order); }
  }

  lemma TickKeepsSane(env: Environment, c: Coord, order: seq<TimerId>)
    requires Sane(c)
    ensures Sane(Tick(env, c, order))
  {
    hide Durable, Timed, Healed, Truthful, Exact, Tick;
    TimedKinds(c);
    TickKeeps(env, c, order);
    TickKeepsTimed(env, c, order);
    TickHeals(env, c, order);
    TickTruthful(env, c, order);
  }

  /** Whatever happens to an installed machine, its invariants hold. */
  lemma {:induction false} RunIsSane(env: Environment, m: Machine, steps: seq<Step>)
    requires Installed(m)
    ensures MachineOk(Run(env, m, steps))
    decreases |steps|
  {
    hide Advance, Durable, Timed, Healed, Truthful;
    if steps == [] {
      InstalledIsOk(m);
    } else {
      RunIsSane(env, m, steps[..|steps| - 1]);
      AdvanceIsSane(env, Run(env, m, steps[..|steps| - 1]), steps[|steps| - 1]);
    }
  }

  lemma InstalledIsOk(m: Machine)
    requires Installed(m)
    ensures MachineOk(m)
  {
  }

  // ---- at most one shutdown --------------------------------------------------------------------

  /** How often the power controller was called for this action. */
  ghost function PowerCalls(t: Trace, id: TimerId): nat {
    match t
    case Start(_) => 0
    case Then(past, PowerCall(x, _)) => PowerCalls(past, id) + (if x == id then 1 else 0)
    case Then(past, _) => PowerCalls(past, id)
  }

  /** How often this warning was broadcast. */
  ghost function WarningsSent(t: Trace, id: TimerId, threshold: Threshold): nat {
    match t
    case Start(_) => 0
    case Then(past, Broadcast(WarningReached(x, _, y, _, _))) =>
      WarningsSent(past, id, threshold) + (if x == id && y == threshold then 1 else 0)
    case Then(past, _) => WarningsSent(past, id, threshold)
  }

  lemma {:induction false} PowerCallsBounded(t: Trace, id: TimerId)
    requires SafeTrace(t)
    ensures PowerCalls(t, id) == (if id in Powered(t) then 1 else 0)
  {
    if t.Then? { PowerCallsBounded(t.past, id); }
  }

  lemma {:induction false} WarningsBounded(t: Trace, id: TimerId, threshold: Threshold)
    requires SafeTrace(t)
    ensures WarningsSent(t, id, threshold) == (if (id, threshold) in Warned(t) then 1 else 0)
  {
    if t.Then? { WarningsBounded(t.past, id, threshold); }
  }

  /** `past` is a point of the history `t`. */
  ghost predicate IsPastOf(past: Trace, t: Trace) {
    past == t || (t.Then? && IsPastOf(past, t.past))
  }

  lemma {:induction false} PastIsSafe(past: Trace, t: Trace)
    requires SafeTrace(t) && IsPastOf(past, t)
    ensures SafeTrace(past)
  {
    if past != t { PastIsSafe(past, t.past); }
  }

  ghost predicate PendingOnDisk(t: Trace, id: TimerId) {
    exists a <- DiskOf(t).actions :: a.id == id && a.exec.Pending?
  }

  /** An action that was known and is not pending now is not pending at any later point. */
  lemma {:induction false} NeverPendingAgain(past: Trace, t: Trace, id: TimerId)
    requires SafeTrace(t) && IsPastOf(past, t)
    requires id in Known(past) && !PendingOnDisk(past, id)
    ensures id in Known(t) && !PendingOnDisk(t, id)
  {
    if past != t {
      NeverPendingAgain(past, t.past, id);
    }
  }

  /** Over any run with failing saves, stops, crashes at any point and reboots at any time of day:
      a scheduled shutdown calls the power controller at most once, and at each call it is
      Executing on disk. */
  lemma ShutdownAtMostOnce(env: Environment, m: Machine, steps: seq<Step>, id: TimerId)
    requires Installed(m)
    ensures var t := WorldOf(Run(env, m, steps)).trace;
      && PowerCalls(t, id) <= 1
      && (forall p: Trace :: IsPastOf(p, t) && p.Then? && p.last.PowerCall? ==>
            HasExecutingShutdown(DiskOf(p.past), p.last.id))
  {
    RunIsSafe(env, m, steps);
    var t := WorldOf(Run(env, m, steps)).trace;
    PowerCallsBounded(t, id);
    forall p: Trace | IsPastOf(p, t) && p.Then? && p.last.PowerCall? ensures HasExecutingShutdown(DiskOf(p.past), p.last.id) {
      PastIsSafe(p, t);
    }
  }

  lemma RunIsSafe(env: Environment, m: Machine, steps: seq<Step>)
    requires Installed(m)
    ensures SafeTrace(WorldOf(Run(env, m, steps)).trace)
  {
    hide Run;
    RunIsSane(env, m, steps);
    var end := Run(env, m, steps);
    if end.Up? { DurableWorld(end.coord); }
  }

  /** In no run does an action become pending a second time. */
  lemma PendingOnlyOnce(env: Environment, m: Machine, steps: seq<Step>, p: Trace, q: Trace, id: TimerId)
    requires Installed(m)
    requires IsPastOf(q, WorldOf(Run(env, m, steps)).trace) && IsPastOf(p, q)
    requires id in Known(p) && !PendingOnDisk(p, id)
    ensures !PendingOnDisk(q, id)
  {
    RunIsSafe(env, m, steps);
    PastIsSafe(q, WorldOf(Run(env, m, steps)).trace);
    NeverPendingAgain(p, q, id);
  }

  /** Every warning is broadcast at most once, even across restarts. */
  lemma WarningAtMostOnce(env: Environment, m: Machine, steps: seq<Step>, id: TimerId, threshold: Threshold)
    requires Installed(m)
    ensures WarningsSent(WorldOf(Run(env, m, steps)).trace, id, threshold) <= 1
  {
    RunIsSafe(env, m, steps);
    WarningsBounded(WorldOf(Run(env, m, steps)).trace, id, threshold);
  }

  /** Whenever the gate is called, by a command, a deadline, a retry or a boot, it is asked for the
      policy that is on disk. */
  lemma GateFollowsDisk(env: Environment, m: Machine, steps: seq<Step>, p: Trace)
    requires Installed(m) && IsPastOf(p, WorldOf(Run(env, m, steps)).trace) && p.Then? && p.last.GateCall?
    ensures p.last.target == DiskOf(p.past).desired
  {
    RunIsSafe(env, m, steps);
    PastIsSafe(p, WorldOf(Run(env, m, steps)).trace);
  }

  /** Everything ever handed to the store encodes, whether the save succeeds or not, so the codec never
      refuses a save. */
  lemma SavesEncode(env: Environment, m: Machine, steps: seq<Step>, p: Trace)
    requires Installed(m) && IsPastOf(p, WorldOf(Run(env, m, steps)).trace) && p.Then?
    requires p.last.Saved? || p.last.SaveFailed?
    ensures Encodable(p.last.state)
  {
    RunIsSafe(env, m, steps);
    PastIsSafe(p, WorldOf(Run(env, m, steps)).trace);
  }

  // ---- the outbox ----------------------------------------------------------------------------

  /** The identifiers whose acknowledgement was saved between two points of a history. */
  ghost function AckedBetween(past: Trace, t: Trace): set<EntryId>
    requires IsPastOf(past, t)
    decreases t
  {
    if past == t then {}
    else AckedBetween(past, t.past) + (if t.last.Saved? then AckedBy(t.past) * EntryIds(DiskOf(t.past).outbox) else {})
  }

  lemma {:induction false} StoredGrows(past: Trace, t: Trace)
    requires IsPastOf(past, t)
    ensures Stored(past) <= Stored(t)
  {
    if past != t { StoredGrows(past, t.past); }
  }

  lemma {:induction false} DiskIsStored(t: Trace)
    ensures EntryIds(DiskOf(t).outbox) <= Stored(t)
  {
    if t.Then? { DiskIsStored(t.past); }
  }

  lemma {:induction false} WithoutTwice(outbox: seq<OutboxEntry>, a: set<EntryId>, b: set<EntryId>)
    ensures Without(Without(outbox, a), b) == Without(outbox, a + b)
    decreases |outbox|
  {
    if outbox != [] {
      var front, e := outbox[..|outbox| - 1], outbox[|outbox| - 1];
      WithoutTwice(front, a, b);
      assert (Without(front, a) + [e])[..|Without(front, a)|] == Without(front, a);
    }
  }

  lemma {:induction false} WithoutMembers(outbox: seq<OutboxEntry>, ids: set<EntryId>)
    ensures forall e :: e in Without(outbox, ids) <==> e in outbox && e.id !in ids
    decreases |outbox|
  {
    if outbox != [] {
      assert outbox == outbox[..|outbox| - 1] + [outbox[|outbox| - 1]];
      WithoutMembers(outbox[..|outbox| - 1], ids);
    }
  }

  lemma {:induction false} WithoutAppend(a: seq<OutboxEntry>, b: seq<OutboxEntry>, ids: set<EntryId>)
    ensures Without(a + b, ids) == Without(a, ids) + Without(b, ids)
    decreases |b|
  {
    if b == [] {
      assert a + b == a;
    } else {
      assert (a + b)[..|a + b| - 1] == a + b[..|b| - 1];
      WithoutAppend(a, b[..|b| - 1], ids);
    }
  }

  /** Only identifiers on disk matter. */
  lemma {:induction false} WithoutSame(outbox: seq<OutboxEntry>, a: set<EntryId>, b: set<EntryId>)
    requires forall e <- outbox :: e.id in a <==> e.id in b
    ensures Without(outbox, a) == Without(outbox, b)
    decreases |outbox|
  {
    if outbox != [] {
      assert outbox == outbox[..|outbox| - 1] + [outbox[|outbox| - 1]];
      WithoutSame(outbox[..|outbox| - 1], a, b);
    }
  }

  /** Appending, then taking out and appending again. */
  lemma AppendsTransitive(stored: set<EntryId>, later: set<EntryId>, a: seq<OutboxEntry>, b: seq<OutboxEntry>, ids: set<EntryId>,
      d: seq<OutboxEntry>)
    requires stored <= later && Appends(stored, a, b) && Appends(later, Without(b, ids), d)
    ensures Appends(stored, Without(a, ids), d)
  {
    var more := b[|a|..];
    assert b == a + more;
    WithoutAppend(a, more, ids);
    WithoutMembers(more, ids);
    var x, y := Without(a, ids), Without(more, ids);
    forall i | |x| <= i < |d| ensures d[i].id !in stored {
      if i < |x| + |y| {
        assert d[i] == Without(b, ids)[i] == y[i - |x|];
        assert y[i - |x|] in more;
      }
    }
  }

  /** Between two points of a history the outbox on disk loses exactly what was acknowledged and
      saved, keeps the rest in order, and gains only entries never seen before, at its end. */
  lemma {:induction false} OutboxBetween(past: Trace, t: Trace)
    requires SafeTrace(t) && IsPastOf(past, t)
    ensures Appends(Stored(past), Without(DiskOf(past).outbox, AckedBetween(past, t)), DiskOf(t).outbox)
    decreases t
  {
    if past == t {
      WithoutOthers(DiskOf(past).outbox, {});
    } else {
      OutboxBetween(past, t.past);
      if t.last.Saved? {
        var disk, acked := DiskOf(t.past).outbox, AckedBy(t.past);
        var gone := acked * EntryIds(disk);
        StoredGrows(past, t.past);
        WithoutSame(disk, acked, gone);
        AppendsTransitive(Stored(past), Stored(t.past), Without(DiskOf(past).outbox, AckedBetween(past, t.past)), disk, gone, DiskOf(t).outbox);
        WithoutTwice(DiskOf(past).outbox, AckedBetween(past, t.past), gone);
        assert AckedBetween(past, t) == AckedBetween(past, t.past) + gone;
      } else {
        assert AckedBetween(past, t) == AckedBetween(past, t.past);
      }
    }
  }

  /** In every run, from any point of its history to its end: the outbox on disk is the one of then,
      in order, without exactly the entries whose acknowledgement was saved in between, and with
      entries never on disk before behind it. So an entry is still there if and only if no
      acknowledgement of it was saved, and one that was taken out never comes back. */
  lemma OutboxIsExact(env: Environment, m: Machine, steps: seq<Step>, p: Trace)
    requires Installed(m) && IsPastOf(p, WorldOf(Run(env, m, steps)).trace)
    ensures var w := WorldOf(Run(env, m, steps));
      var acked := AckedBetween(p, w.trace);
      && Appends(Stored(p), Without(DiskOf(p).outbox, acked), w.disk.outbox)
      && (forall e <- DiskOf(p).outbox :: e in w.disk.outbox <==> e.id !in acked)
      && (forall id <- Stored(p) :: id !in EntryIds(DiskOf(p).outbox) ==> id !in EntryIds(w.disk.outbox))
  {
    hide Run;
    RunIsSane(env, m, steps);
    var end := Run(env, m, steps);
    if end.Up? { DurableWorld(end.coord); }
    var w := WorldOf(end);
    var acked, before := AckedBetween(p, w.trace), DiskOf(p).outbox;
    OutboxBetween(p, w.trace);
    WithoutMembers(before, acked);
    DiskIsStored(p);
    forall e | e in w.disk.outbox ensures e in Without(before, acked) || e.id !in Stored(p) {
      var i :| 0 <= i < |w.disk.outbox| && w.disk.outbox[i] == e;
    }
    forall e | e in before ensures e in w.disk.outbox <==> e.id !in acked {
      assert e.id in EntryIds(before);
      if e.id !in acked { assert e in Without(before, acked); }
    }
  }

  /** A stop that reports success leaves nothing in memory only. */
  lemma StopLosesNothing(env: Environment, m: Machine, steps: seq<Step>)
    requires Installed(m) && Run(env, m, steps).Up?
    ensures var r := Stop(env, Run(env, m, steps).coord);
      r.reply.Stopped? ==> r.coord.mem == r.coord.world.disk
  {
    hide Run, Durable, Stop;
    RunIsSane(env, m, steps);
    StopKeeps(env, Run(env, m, steps).coord);
  }

  // ---- what holds at the end of every run --------------------------------------------------------

  /** Every pending action has an anchor of its kind and deadline. Every threshold from the cursor of
      the anchor on has been emitted; for a timer scheduled since the boot no other has, however the
      ticks were spaced and whatever saves failed. */
  lemma PendingIsAnchored(env: Environment, m: Machine, steps: seq<Step>, a: Action)
    requires Installed(m) && Run(env, m, steps).Up?
    requires a in Run(env, m, steps).coord.mem.actions && a.exec.Pending?
    ensures var c := Run(env, m, steps).coord;
      && a.id in c.timers && c.timers[a.id].kind == a.kind && c.timers[a.id].deadline == a.deadline
      && (forall t: Threshold :: c.timers[a.id].cursor <= t.Seconds() ==> t in a.emitted)
      && (a.id >= c.bootId ==> forall t: Threshold :: t in a.emitted <==> c.timers[a.id].cursor <= t.Seconds())
  {
    hide Run, Durable, Healed, Truthful;
    RunIsSane(env, m, steps);
  }

  /** With no pending candidate the disk equals memory; with one, memory is that candidate and the
      persistence is marked unhealthy, so that no retry of the gate is made. */
  lemma MemoryAgreesWithDisk(env: Environment, m: Machine, steps: seq<Step>)
    requires Installed(m) && Run(env, m, steps).Up?
    ensures var c := Run(env, m, steps).coord;
      && (c.pending.None? ==> c.mem == c.world.disk)
      && (c.pending.Some? ==> c.mem == c.pending.value && !c.hub.health.persistenceHealthy)
      && (forall now: nat :: c.pending.Some? ==> RetryIfDue(env, c, now) == c)
  {
    hide Run, Timed, Healed, Truthful;
    RunIsSane(env, m, steps);
  }

  /** As long as no stop was requested: retry metadata is absent exactly when the gate is marked
      healthy, and then the gate was seen in the desired state; when it is present, a retry time is
      armed or a broken retry policy is on record. */
  lemma PolicyHeals(env: Environment, m: Machine, steps: seq<Step>)
    requires Installed(m) && Run(env, m, steps).Up? && !Run(env, m, steps).coord.world.stopSeen
    ensures var c := Run(env, m, steps).coord;
      && (c.mem.retry.None? <==> c.hub.health.gateHealthy)
      && (c.mem.retry.None? ==> Matches(c.mem.desired, c.observed))
      && (c.mem.retry.Some? ==> c.retryAt.Some? || c.hub.retryPolicyError.Some?)
  {
    hide Run, Durable, Timed, Truthful;
    RunIsSane(env, m, steps);
  }

  /** The cached shutdown state is in progress exactly if a power call has succeeded, and otherwise
      what the actions say. */
  lemma ShutdownStateIsTruthful(env: Environment, m: Machine, steps: seq<Step>)
    requires Installed(m) && Run(env, m, steps).Up?
    ensures var c := Run(env, m, steps).coord;
      c.shutdown ==
        if c.world.poweredDown then InProgress
        else if exists a <- c.mem.actions :: a.kind.ShutdownComputer? && (a.exec.Pending? || a.exec.Executing?)
        then Scheduled else Idle
  {
    hide Run, Durable, Timed, Healed;
    RunIsSane(env, m, steps);
  }

  /** From a boot that finds only pending actions ahead, the anchors are exactly the pending actions
      until the next crash. */
  lemma {:induction false} AnchorsStayExact(env: Environment, w: World, steps: seq<Step>)
    requires WorldOk(w) && Boot(env, w).Up? && OnlyPendingAhead(w.disk, BootUtc(env, w))
    requires forall s <- steps :: !s.CrashAndBoot?
    ensures var end := Run(env, Boot(env, w), steps);
      MachineOk(end) && end.Up? && Exact(end.coord)
    decreases |steps|
  {
    hide Boot, Handle, Tick, Durable, Timed, Healed, Truthful, Exact, WorldOk, OnlyPendingAhead;
    if steps == [] {
      BootIsSane(env, w);
    } else {
      var front, last := steps[..|steps| - 1], steps[|steps| - 1];
      assert steps == front + [last];
      AnchorsStayExact(env, w, front);
      var before := Run(env, Boot(env, w), front);
      AdvanceIsSane(env, before, last);
      if last.Serve? {
        HandleKeepsSane(env, before.coord, last.cmd);
      } else {
        TickKeepsTimed(env, before.coord, last.order);
      }
    }
  }

  /** Sleeping until the earliest wake instant misses nothing: a tick before it writes nothing, sends
      nothing and calls nothing. */
  lemma SleepMissesNothing(env: Environment, m: Machine, steps: seq<Step>, order: seq<TimerId>)
    requires Installed(m) && Run(env, m, steps).Up?
    requires forall at: nat :: WakeInstant(Run(env, m, steps).coord, at) ==> TickTime(env, Run(env, m, steps).coord) < at
    ensures var c := Run(env, m, steps).coord;
      Tick(env, c, order).world.trace == c.world.trace && Tick(env, c, order).mem == c.mem
  {
    hide Run, Durable, Timed, Healed, Truthful, Tick, WakeInstant;
    RunIsSane(env, m, steps);
    WakeIsSound(env, Run(env, m, steps).coord, order);
  }

  /** In every run: after a tick in which every save succeeds, the worker is woken at the same instant
      exactly if an anchor has passed its target while its action is not pending. */
  lemma WorkerSpinsExactly(env: Environment, m: Machine, steps: seq<Step>, order: seq<TimerId>)
    requires Installed(m) && Run(env, m, steps).Up?
    requires forall id <- Run(env, m, steps).coord.timers :: id in order
    requires var c := Run(env, m, steps).coord; Kind(env, c.world.instant, TickTime(env, c))
    ensures var c := Run(env, m, steps).coord;
      var d := Tick(env, c, order);
      d.world.stopSeen || !d.hub.health.persistenceHealthy
      || (DueAt(d, TickTime(env, c)) <==> HasDeadAnchor(c, TickTime(env, c)))
  {
    hide Run, Durable, Timed, Healed, Truthful, Kind, Tick, DueAt, HasDeadAnchor;
    RunIsSane(env, m, steps);
    SpinExact(env, Run(env, m, steps).coord, order);
  }

  /** From a boot that finds only pending actions ahead there is never such an anchor: the worker does
      not spin, whatever the retry policy answers, zero delays included. */
  lemma WorkerNeverSpins(env: Environment, w: World, steps: seq<Step>, order: seq<TimerId>)
    requires WorldOk(w) && Boot(env, w).Up? && OnlyPendingAhead(w.disk, BootUtc(env, w))
    requires (forall s <- steps :: !s.CrashAndBoot?) && Run(env, Boot(env, w), steps).Up?
    requires forall id <- Run(env, Boot(env, w), steps).coord.timers :: id in order
    requires var c := Run(env, Boot(env, w), steps).coord; Kind(env, c.world.instant, TickTime(env, c))
    ensures var c := Run(env, Boot(env, w), steps).coord;
      var d := Tick(env, c, order);
      d.world.stopSeen || !d.hub.health.persistenceHealthy
      || forall at: nat :: WakeInstant(d, at) ==> TickTime(env, c) < at
  {
    hide Run, Boot, Durable, Timed, Healed, Truthful, Exact, Kind, Tick, WakeInstant, WorldOk, OnlyPendingAhead;
    AnchorsStayExact(env, w, steps);
    NoSpin(env, Run(env, Boot(env, w), steps).coord, order);
  }
}
