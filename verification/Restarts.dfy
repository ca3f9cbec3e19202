/** Deadlines across a restart: a stored action fires when the time left at the boot has passed, not
    before and not later than the first tick after it. */
module Restarts {
  import opened Domain
  import opened World
  import opened Subscribers
  import opened Runtime
  import opened Recovery
  import opened Safety
  import opened Durability
  import opened Edits
  import opened Deadlines
  import opened Timers
  import opened Healing
  import opened Aggregate
  import opened Booting
  import opened Wake
  import opened Theorems
  import opened Settling
  import opened Liveness
  import opened Ticks
  import opened Startup

  // ---- anchors stay ------------------------------------------------------------------------------------

  /** No anchor that may have existed in `c` is new or other in `d`, but for its cursor. */
  ghost predicate KeepsAnchors(c: Coord, d: Coord) {
    && c.world.nextId <= d.world.nextId
    && forall id <- d.timers :: id < c.world.nextId ==>
         id in c.timers && d.timers[id] == c.timers[id].(cursor := d.timers[id].cursor)
  }

  lemma MovesKeepAnchors(c: Coord, d: Coord)
    requires Moves(c, d)
    ensures KeepsAnchors(c, d)
  {
  }

  lemma ScheduleKeepsAnchors(env: Environment, c: Coord, kind: ActionKind, duration: nat, who: Initiator)
    ensures KeepsAnchors(c, Schedule(env, c, kind, duration, who).coord)
  {
    hide Commit, Tell, TellWarnings, SyncShutdown, CreationDue, Recompute;
  }

  lemma HandleKeepsAnchors(env: Environment, c: Coord, cmd: Command)
    requires Durable(c) && Timed(c)
    ensures KeepsAnchors(c, Handle(env, c, cmd).coord)
  {
    hide Durable, Timed, Moves, KeepsAnchors;
    hide Schedule, Cancel, SetPolicy, Ack, ChildMessage, ParentMessage, Subscribe, Unsubscribe, Stop;
    DurableIsUnique(c);
    SameActionsMove(c, c);
    if cmd.ScheduleAction? && !c.stopping {
      ScheduleKeepsAnchors(env, c, cmd.kind, cmd.duration, cmd.initiator);
    } else {
      match cmd {
        case CancelExactTimer(id, kind) => CancelMoves(env, c, id, kind);
        case ImmediateInternetBlock(who) => SetPolicyMoves(env, c, Blocked, ImmediateCommand(who));
        case RestoreInternet(who) => SetPolicyMoves(env, c, Unrestricted, ManualRestore(who));
        case AckTelegram(id) => AckMoves(env, c, id);
        case SendChildMessage(text) => ChildMessageMoves(env, c, text);
        case PublishParentMessage(message) => ParentMessageMoves(env, c, message);
        case SubscribeEvents => SubscriptionsMove(env, c, 0);
        case UnsubscribeEvents(id) => SubscriptionsMove(env, c, id);
        case StopRuntime => StopMoves(env, c);
        case _ =>
      }
      MovesKeepAnchors(c, Handle(env, c, cmd).coord);
    }
  }

  lemma {:induction false} WarnAllKeepsAnchors(env: Environment, c: Coord, order: seq<TimerId>, now: nat)
    ensures KeepsAnchors(c, WarnAll(env, c, order, now))
    decreases |order|
  {
    hide Warn, KeepsAnchors;
    if order == [] {
      ReflexiveAnchors(c);
    } else {
      var before := WarnAll(env, c, order[..|order| - 1], now);
      WarnAllKeepsAnchors(env, c, order[..|order| - 1], now);
      WarnKeepsAnchors(env, before, order[|order| - 1], now);
      KeepsAnchorsOn(c, before, Warn(env, before, order[|order| - 1], now));
    }
  }

  lemma WarnKeepsAnchors(env: Environment, c: Coord, id: TimerId, now: nat)
    ensures KeepsAnchors(c, Warn(env, c, id, now))
  {
    hide Commit, TellWarnings, CrossedBy, SecondsLeft, WarnEdit, Recompute;
  }

  lemma KeepsAnchorsOn(b: Coord, c: Coord, d: Coord)
    requires KeepsAnchors(b, c) && KeepsAnchors(c, d)
    ensures KeepsAnchors(b, d)
  {
  }

  lemma TickKeepsAnchors(env: Environment, c: Coord, order: seq<TimerId>)
    requires Durable(c) && Timed(c)
    ensures KeepsAnchors(c, Tick(env, c, order))
  {
    hide WarnAll, FireAll, Retry, Durable, Timed, Expired, Moves, KeepsAnchors;
    var c0 := LookForStop(env, c);
    SameActionsMove(c, c0);
    MovesKeepAnchors(c, c0);
    if !c0.world.stopSeen {
      var now, c1 := Mono(env, c0), Looked(c0);
      SameActionsMove(c, c1);
      MovesKeepsTimed(c, c1);
      MovesKeepAnchors(c, c1);
      HushedKeeps(c, c1);
      var c2 := WarnAll(env, c1, order, now);
      WarnAllKeepsAnchors(env, c1, order, now);
      KeepsAnchorsOn(c, c1, c2);
      WarnAllKeeps(env, c1, order, now);
      TimedKinds(c);
      KindsSurvive(c.mem.actions, c2.mem.actions, c.timers);
      ExpiredFacts(c.timers, order, now);
      var due := Expired(c.timers, order, now);
      FireAllMoves(env, c2, c.timers, due);
      var f := FireAll(env, c2, c.timers, due);
      MovesKeepAnchors(c2, f.coord);
      KeepsAnchorsOn(c, c2, f.coord);
      FireAllKeeps(env, c2, c.timers, due);
      DurableIsUnique(f.coord);
      var c3 := f.coord.(retryAt := None);
      SameActionsMove(f.coord, c3);
      RetryMoves(env, c3);
      MovesKeepAnchors(f.coord, c3);
      MovesKeepAnchors(c3, Retry(env, c3));
      KeepsAnchorsOn(f.coord, c3, Retry(env, c3));
      KeepsAnchorsOn(c, f.coord, Retry(env, c3));
    }
  }

  /** From a boot to the next crash. */
  lemma {:induction false} RunKeepsAnchors(env: Environment, w: World, steps: seq<Step>)
    requires WorldOk(w) && Boot(env, w).Up? && forall s <- steps :: !s.CrashAndBoot?
    ensures var end := Run(env, Boot(env, w), steps);
      MachineOk(end) && end.Up? && KeepsAnchors(Boot(env, w).coord, end.coord)
    decreases |steps|
  {
    hide Boot, Handle, Tick, Durable, Timed, Healed, Truthful, WorldOk, KeepsAnchors;
    BootIsSane(env, w);
    var c := Boot(env, w).coord;
    if steps == [] {
      ReflexiveAnchors(c);
    } else {
      var front, last := steps[..|steps| - 1], steps[|steps| - 1];
      assert steps == front + [last];
      RunKeepsAnchors(env, w, front);
      var before := Run(env, Boot(env, w), front);
      AdvanceIsSane(env, before, last);
      ReflexiveAnchors(before.coord);
      if last.Serve? {
        HandleKeepsAnchors(env, before.coord, last.cmd);
        KeepsAnchorsOn(c, before.coord, Handle(env, before.coord, last.cmd).coord);
      } else {
        TickKeepsAnchors(env, before.coord, last.order);
        KeepsAnchorsOn(c, before.coord, Tick(env, before.coord, last.order));
      }
    }
  }

  lemma ReflexiveAnchors(c: Coord)
    ensures KeepsAnchors(c, c)
  {
  }

  // ---- when a deadline is served -------------------------------------------------------------------------

  /** The calls made from `c` to `d`. */
  ghost function NewCalls(c: Coord, d: Coord): seq<Call> {
    var before, after := Calls(c.world.trace), Calls(d.world.trace);
    if before <= after then after[|before|..] else []
  }

  ghost predicate IsPending(actions: seq<Action>, id: TimerId) {
    exists a <- actions :: a.id == id && a.exec.Pending?
  }

  lemma {:induction false} DueCallsExact(actions: seq<Action>, timers: map<TimerId, Anchor>, order: seq<TimerId>, now: nat, id: TimerId)
    ensures id in order && id in timers && timers[id].target <= now && !Stale(actions, id) ==>
      CallOf(timers[id].kind, id) in DueCalls(actions, timers, order, now)
    ensures Power(id) in DueCalls(actions, timers, order, now) ==> id in timers && timers[id].target <= now
    decreases |order|
  {
    hide Stale;
    if order != [] {
      assert order == order[..|order| - 1] + [order[|order| - 1]];
      DueCallsExact(actions, timers, order[..|order| - 1], now, id);
    }
  }

  lemma CalledMembers(c: Coord, d: Coord, calls: seq<Call>, id: TimerId)
    requires Called(c, d, calls)
    ensures Calls(c.world.trace) <= Calls(d.world.trace)
    ensures forall x <- calls :: x in NewCalls(c, d)
    ensures Power(id) in NewCalls(c, d) ==> Power(id) in calls
  {
    hide Calls;
    var retry: seq<Call> :| IsRetry(retry, d.mem.desired) && Calls(d.world.trace) == Calls(c.world.trace) + calls + retry;
    assert Calls(d.world.trace) == Calls(c.world.trace) + (calls + retry);
    assert NewCalls(c, d) == calls + retry;
  }

  /** The deadline of a pending action in one tick: from its target on the call is made and the action is
      settled; before, it stays pending, and no shutdown is called for it. */
  ghost predicate ServedAt(env: Environment, c: Coord, d: Coord, a: Action, target: int, now: nat) {
    if target <= now
    then CallOf(a.kind, a.id) in NewCalls(c, d) && SettledBetween(env, c.world.instant, d.world.instant, a, d.mem.actions)
    else IsPending(d.mem.actions, a.id) && Power(a.id) !in NewCalls(c, d)
  }

  lemma TickServes(env: Environment, c: Coord, order: seq<TimerId>, a: Action)
    requires Durable(c) && Timed(c) && Distinct(order) && Kind(env, c.world.instant, TickTime(env, c))
    requires a in c.mem.actions && a.exec.Pending? && a.id in order && a.id in c.timers
    ensures var d := Tick(env, c, order);
      d.world.stopSeen || ServedAt(env, c, d, a, c.timers[a.id].target, TickTime(env, c))
  {
    hide Durable, Kind, Tick, Calls, CallsOfGone, DueCalls, Called, SettledBetween, NewCalls, Expired;
    var d, now := Tick(env, c, order), TickTime(env, c);
    TickCallsExactly(env, c, order);
    ExpiredAreGone(env, c, order);
    if !d.world.stopSeen {
      GoneIsDue(c.mem.actions, c.timers, d.timers, order, now);
      DueCallsExact(c.mem.actions, c.timers, order, now, a.id);
      CalledMembers(c, d, DueCalls(c.mem.actions, c.timers, order, now), a.id);
      assert !Stale(c.mem.actions, a.id);
      if c.timers[a.id].target <= now {
        TickSettles(env, c, order, a);
      } else {
        TickKeepsPending(env, c, order, a);
      }
    }
  }

  lemma TickKeepsPending(env: Environment, c: Coord, order: seq<TimerId>, a: Action)
    requires Durable(c) && Timed(c)
    requires a in c.mem.actions && a.exec.Pending? && a.id in c.timers && c.timers[a.id].target > TickTime(env, c)
    ensures var d := Tick(env, c, order); IsPending(d.mem.actions, a.id)
  {
    hide WarnAll, FireAll, Retry, Durable, Timed, Expired, Moves;
    var c0 := LookForStop(env, c);
    if !c0.world.stopSeen {
      var now, c1 := Mono(env, c0), Looked(c0);
      HushedKeeps(c, c1);
      var c2 := WarnAll(env, c1, order, now);
      WarnAllKeeps(env, c1, order, now);
      WarnAllKeepsPending(env, c1, order, now, a.id);
      assert !Stale(c.mem.actions, a.id);
      TimedKinds(c);
      KindsSurvive(c.mem.actions, c2.mem.actions, c.timers);
      ExpiredFacts(c.timers, order, now);
      ExpiredHas(c.timers, order, now, a.id);
      var due := Expired(c.timers, order, now);
      var b :| b in c2.mem.actions && b.id == a.id && b.exec.Pending?;
      FireAllKeepsOthers(env, c2, c.timers, due, b);
      var f := FireAll(env, c2, c.timers, due);
      assert b in f.coord.mem.actions;
      RetryKeepsPending(env, f.coord.(retryAt := None), b);
    }
  }

  lemma RetryKeepsPending(env: Environment, c: Coord, a: Action)
    requires a in c.mem.actions && a.exec.Pending?
    ensures a in Retry(env, c).mem.actions
  {
    hide Retry, RefusalRecorded;
    RetryOutcomeFacts(env, c);
  }

  /** A stored action whose deadline is ahead at a boot: in every run from this boot on in which it is still
      pending, a tick with saves that succeed serves it from the instant on at which the time left has passed
      since the boot, and none before. */
  lemma RecoveredDeadlineIsKept(env: Environment, w: World, steps: seq<Step>, order: seq<TimerId>, stored: Action, a: Action)
    requires WorldOk(w) && Boot(env, w).Up? && (forall s <- steps :: !s.CrashAndBoot?)
    requires Run(env, Boot(env, w), steps).Up?
    requires var c := Run(env, Boot(env, w), steps).coord; Kind(env, c.world.instant, TickTime(env, c)) && a in c.mem.actions
    requires stored in w.disk.actions && stored.deadline > BootUtc(env, w)
    requires a.id == stored.id && a.exec.Pending? && Distinct(order) && a.id in order
    ensures var c := Run(env, Boot(env, w), steps).coord;
      var d := Tick(env, c, order);
      && a.kind == stored.kind && a.deadline == stored.deadline
      && (d.world.stopSeen ||
          ServedAt(env, c, d, a, BootMono(env, w) + (stored.deadline - BootUtc(env, w)) * NANOS_PER_MILLI, TickTime(env, c)))
  {
    hide Run, Boot, Durable, Timed, Healed, Truthful, Kind, Tick, ServedAt, WorldOk, KeepsAnchors, BootUtc, BootMono;
    var c := Run(env, Boot(env, w), steps).coord;
    RunKeepsAnchors(env, w, steps);
    AnchorSurvives(env, w, c, stored);
    PendingHasAnchor(c, a);
    TickServes(env, c, order, a);
  }

  lemma PendingHasAnchor(c: Coord, a: Action)
    requires Timed(c) && a in c.mem.actions && a.exec.Pending?
    ensures a.id in c.timers && c.timers[a.id].kind == a.kind && c.timers[a.id].deadline == a.deadline
  {
  }

  /** As long as a stored action has an anchor, it is the one it got at the boot. */
  lemma AnchorSurvives(env: Environment, w: World, c: Coord, stored: Action)
    requires WorldOk(w) && Boot(env, w).Up? && KeepsAnchors(Boot(env, w).coord, c)
    requires stored in w.disk.actions && stored.deadline > BootUtc(env, w)
    ensures stored.id in c.timers ==>
      var n := c.timers[stored.id];
      && n.kind == stored.kind && n.deadline == stored.deadline
      && n.target == BootMono(env, w) + (stored.deadline - BootUtc(env, w)) * NANOS_PER_MILLI
  {
    hide Boot, WorldOk, ActionsRestored, Armed, Confirms, Refusal;
    DiskFacts(w);
    BootOutcome(env, w);
    BootIdsBelow(env, w);
  }

  lemma BootIdsBelow(env: Environment, w: World)
    requires WorldOk(w) && Boot(env, w).Up?
    ensures forall a <- w.disk.actions :: a.id < Boot(env, w).coord.world.nextId
  {
    hide Boot, Durable, Timed, Healed, Truthful, WorldOk;
    BootIsSane(env, w);
    DiskFacts(w);
    BootDraws(env, w);
  }

  lemma BootDraws(env: Environment, w: World)
    ensures Boot(env, w).Up? ==> w.nextId <= Boot(env, w).coord.world.nextId
  {
    hide Commit, CommitPost, TellMissed, SyncShutdown, TellPolicy, MarkGate, ScheduleRetry, RecoverState, RecoverTimers, MissedActions, Recompute;
    hide ReconciledState, DegradedState, OverdueBlocks, GateError;
  }
}
