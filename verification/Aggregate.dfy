/** The cached shutdown state tells the truth: in progress exactly after a power call that
    succeeded since the boot, else derived from the actions. */
module Aggregate {
  import opened Domain
  import opened World
  import opened Subscribers
  import opened Runtime
  import opened Recovery
  import opened Safety
  import opened Durability
  import opened Edits
  import opened Deadlines
  import opened Timers

  ghost predicate ActiveShutdown(actions: seq<Action>) {
    exists a <- actions :: a.kind.ShutdownComputer? && (a.exec.Pending? || a.exec.Executing?)
  }

  ghost predicate Truthful(c: Coord) {
    c.shutdown ==
      if c.world.poweredDown then InProgress
      else if ActiveShutdown(c.mem.actions) then Scheduled else Idle
  }

  ghost predicate SameAggregate(c: Coord, d: Coord) {
    && d.shutdown == c.shutdown && d.world.poweredDown == c.world.poweredDown
    && ActiveShutdown(d.mem.actions) == ActiveShutdown(c.mem.actions)
  }

  lemma SyncIsTruthful(env: Environment, c: Coord)
    requires c.shutdown.InProgress? <==> c.world.poweredDown
    ensures Truthful(SyncShutdown(env, c))
  {
    hide TellShutdown;
  }

  lemma ScheduleTruthful(env: Environment, c: Coord, kind: ActionKind, duration: nat, who: Initiator)
    requires Truthful(c)
    ensures Truthful(Schedule(env, c, kind, duration, who).coord)
  {
    hide Commit, Arm, CreationDue, Recompute;
    var d := Schedule(env, c, kind, duration, who);
    if d.reply.ScheduledAs? {
      var utc, c2 := Utc(env, c), Looked(Looked(c));
      var id, due := c.world.nextId, CreationDue(duration);
      var a := NewAction(id, kind, duration, who, utc);
      var c3 := c2.(world := c2.world.Draw(1 + |due|));
      var c4 := Commit(env, c3, ScheduleEdit(c.mem, a, Notices(id + 1, |due|, WARNING_TEXT)));
      var mono := Mono(env, Looked(c));
      ArmTruthful(env, c, c4, a, Anchor(kind, a.deadline, mono + duration * NANOS_PER_SECOND, duration, mono, duration), due);
    }
  }

  lemma ArmTruthful(env: Environment, before: Coord, c: Coord, a: Action, anchor: Anchor, due: seq<Threshold>)
    requires Truthful(before) && c.mem.actions == before.mem.actions + [a]
    requires c.shutdown == before.shutdown && c.world.poweredDown == before.world.poweredDown
    ensures Truthful(Arm(env, c, a, anchor, due))
  {
    hide Tell, TellWarnings, SyncShutdown;
    if a.kind.ShutdownComputer? {
      SyncIsTruthful(env, TellWarnings(env, Tell(env, c.(timers := c.timers[a.id := anchor]), TimerScheduled(a)), a, due, a.createdAt));
    } else {
      assert forall x <- before.mem.actions :: x in c.mem.actions;
    }
  }

  lemma CancelTruthful(env: Environment, c: Coord, id: TimerId, kind: ActionKind)
    requires Truthful(c) && UniqueActions(c.mem.actions)
    ensures Truthful(Cancel(env, c, id, kind).coord)
  {
    hide Commit, Disarm, RemoveAction, CancelBlocked, Recompute;
    if Cancel(env, c, id, kind).reply.Cancelled? {
      var k := FindAction(c.mem.actions, id);
      var c2 := Commit(env, Consulted(c, id, kind), c.mem.(actions := RemoveAction(c.mem.actions, id)));
      DisarmTruthful(env, c, c2, c.mem.actions[k]);
    }
  }

  lemma DisarmTruthful(env: Environment, before: Coord, c: Coord, a: Action)
    requires Truthful(before) && UniqueActions(before.mem.actions) && a in before.mem.actions
    requires c.mem.actions == RemoveAction(before.mem.actions, a.id)
    requires c.shutdown == before.shutdown && c.world.poweredDown == before.world.poweredDown
    ensures Truthful(Disarm(env, c, a.id, a.kind))
  {
    hide Tell, SyncShutdown, RemoveAction, Descends;
    if a.kind.ShutdownComputer? {
      SyncIsTruthful(env, Tell(env, c.(timers := c.timers - {a.id}), TimerCancelled(a.id, a.kind)));
    } else {
      RemoveDescends(before.mem.actions, a.id);
      forall x | x in before.mem.actions && x.kind.ShutdownComputer? ensures x in c.mem.actions {
        if x.id == a.id { SameAction(before.mem.actions, a, x); }
      }
    }
  }

  lemma SetPolicyAggregate(env: Environment, c: Coord, target: DesiredInternet, reason: ChangeReason)
    ensures SameAggregate(c, SetPolicy(env, c, target, reason).coord)
  {
    hide Commit, PolicyOutcome, TellPolicy, Recompute, ActiveShutdown;
  }

  lemma AckAggregate(env: Environment, c: Coord, id: EntryId)
    ensures SameAggregate(c, Ack(env, c, id).coord)
  {
    hide Commit, Recompute, FindEntry;
  }

  lemma ChildMessageAggregate(env: Environment, c: Coord, text: string)
    ensures SameAggregate(c, ChildMessage(env, c, text).coord)
  {
    hide Commit, Recompute, ValidChat;
  }

  lemma ParentMessageAggregate(env: Environment, c: Coord, message: ChatMessage)
    ensures SameAggregate(c, ParentMessage(env, c, message).coord)
  {
    hide Tell;
  }

  lemma SubscriptionsAggregate(env: Environment, c: Coord, id: nat)
    ensures SameAggregate(c, Subscribe(env, c).coord)
    ensures SameAggregate(c, Unsubscribe(env, c, id).coord)
  {
    hide Reconcile;
  }

  lemma StopAggregate(env: Environment, c: Coord)
    requires Durable(c)
    ensures SameAggregate(c, Stop(env, c).coord)
  {
    hide MarkPersistence, Recompute;
  }

  // ---- deadlines -----------------------------------------------------------------------------

  ghost predicate IsBlock(actions: seq<Action>, id: TimerId) {
    forall a <- actions :: a.id == id ==> a.kind.BlockInternet?
  }

  lemma SetExecAggregate(actions: seq<Action>, k: nat, exec: ExecutionState)
    requires k < |actions|
    requires actions[k].kind.BlockInternet? || (actions[k].exec.Pending? && exec.Executing?)
    ensures ActiveShutdown(SetExec(actions, k, exec)) == ActiveShutdown(actions)
  {
    var after := SetExec(actions, k, exec);
    if ActiveShutdown(actions) {
      var i :| 0 <= i < |actions| && actions[i].kind.ShutdownComputer? && (actions[i].exec.Pending? || actions[i].exec.Executing?);
      assert after[i] in after;
    }
    if ActiveShutdown(after) {
      var i :| 0 <= i < |after| && after[i].kind.ShutdownComputer? && (after[i].exec.Pending? || after[i].exec.Executing?);
      assert actions[i] in actions;
    }
  }

  lemma ResolvedAggregate(s: PersistentState, id: TimerId, reason: string)
    requires IsBlock(s.actions, id)
    ensures ActiveShutdown(CompleteEdit(s, id).actions) == ActiveShutdown(s.actions)
    ensures ActiveShutdown(FailEdit(s, id, reason).actions) == ActiveShutdown(s.actions)
  {
    RemoveDescends(s.actions, id);
    var k := FindAction(s.actions, id);
    if k < |s.actions| && s.actions[k].exec.Executing? {
      assert s.actions[k] in s.actions;
      SetExecAggregate(s.actions, k, Failed(reason));
    }
  }

  lemma BlockOutcomeAggregate(env: Environment, c: Coord, id: TimerId, error: Option<string>)
    requires IsBlock(c.mem.actions, id)
    ensures SameAggregate(c, BlockOutcome(env, c, id, error))
  {
    hide CommitPost, MarkGate, RecordGateFailure, Recompute, CompleteEdit, FailEdit;
    ResolvedAggregate(c.mem, id, if error.Some? then error.value else "");
    CompleteKeepsRest(c.mem, id);
  }

  lemma CompleteKeepsRest(s: PersistentState, id: TimerId)
    ensures CompleteEdit(s, id) == s.(actions := CompleteEdit(s, id).actions)
  {
  }

  lemma FireBlockAggregate(env: Environment, c: Coord, id: TimerId)
    requires IsBlock(c.mem.actions, id)
    ensures SameAggregate(c, FireBlock(env, c, id))
  {
    hide Commit, Tell, TellPolicy, BlockOutcome, Recompute;
    var c0 := LookForStop(env, c);
    var k := FindAction(c.mem.actions, id);
    if k < |c.mem.actions| {
      assert c.mem.actions[k] in c.mem.actions;
      var after := SetExec(c.mem.actions, k, Executing);
      SetExecAggregate(c.mem.actions, k, Executing);
      forall b | b in after && b.id == id ensures b.kind.BlockInternet? {
        var i :| 0 <= i < |after| && after[i] == b;
        assert c.mem.actions[i] in c.mem.actions;
      }
      var c1 := Commit(env, c0, c.mem.(actions := after, desired := Blocked));
      var c3 := LookForStop(env, Tell(env, c1.(timers := c1.timers - {id}), TimerExpired(id, BlockInternet)));
      var c5 := TellPolicy(env, ApplyGate(env, c3, Blocked), c.mem.desired, c.observed, TimerFired(id));
      if SaveOk(env, c0) { BlockOutcomeAggregate(env, c5, id, GateError(Blocked, env(c3.world.instant).gate)); }
    }
  }

  lemma FireShutdownTruthful(env: Environment, c: Coord, id: TimerId)
    requires Truthful(c)
    ensures Truthful(FireShutdown(env, c, id))
  {
    hide Commit, Tell, PowerOutcome, Recompute;
    var c0 := LookForStop(env, c);
    var k := FindAction(c.mem.actions, id);
    if k < |c.mem.actions| && c.mem.actions[k].exec.Pending? {
      SetExecAggregate(c.mem.actions, k, Executing);
      var c1 := Commit(env, c0, c.mem.(actions := SetExec(c.mem.actions, k, Executing)));
      var c3 := LookForStop(env, Tell(env, c1.(timers := c1.timers - {id}), TimerExpired(id, ShutdownComputer)));
      var outcome := env(c3.world.instant).power;
      if SaveOk(env, c0) {
        FoundAfterSet(c.mem.actions, k, Executing);
        PowerOutcomeTruthful(env, c3, id, outcome);
      }
    }
  }

  lemma FoundAfterSet(actions: seq<Action>, k: nat, exec: ExecutionState)
    requires k < |actions|
    ensures FindAction(SetExec(actions, k, exec), actions[k].id) < |actions|
  {
    var after := SetExec(actions, k, exec);
    assert after[k].id == actions[k].id;
  }

  lemma PowerOutcomeTruthful(env: Environment, c: Coord, id: TimerId, outcome: Outcome)
    requires Truthful(c) && FindAction(c.mem.actions, id) < |c.mem.actions|
    ensures Truthful(PowerOutcome(env, c.(world := c.world.Did(PowerCall(id, outcome))), id, outcome))
  {
    hide CommitPost, MarkPower, TellShutdown, Recompute, CompleteEdit, FailEdit;
  }

  lemma {:induction false} WarnAllAggregate(env: Environment, c: Coord, order: seq<TimerId>, now: nat)
    ensures SameAggregate(c, WarnAll(env, c, order, now))
    decreases |order|
  {
    hide Warn;
    if order != [] {
      var before := WarnAll(env, c, order[..|order| - 1], now);
      WarnAllAggregate(env, c, order[..|order| - 1], now);
      WarnAggregate(env, before, order[|order| - 1], now);
    }
  }

  lemma WarnAggregate(env: Environment, c: Coord, id: TimerId, now: nat)
    ensures SameAggregate(c, Warn(env, c, id, now))
  {
    hide Commit, TellWarnings, CrossedBy, Notices, SecondsLeft, Recompute;
    var d := Warn(env, c, id, now);
    if d.mem.actions != c.mem.actions {
      var k := FindAction(c.mem.actions, id);
      MoreEmittedAggregate(c.mem.actions, d.mem.actions);
    }
  }

  lemma MoreEmittedAggregate(before: seq<Action>, after: seq<Action>)
    requires |before| == |after|
    requires forall i :: 0 <= i < |before| ==> after[i] == before[i].(emitted := after[i].emitted)
    ensures ActiveShutdown(after) == ActiveShutdown(before)
  {
    if ActiveShutdown(before) {
      var i :| 0 <= i < |before| && before[i].kind.ShutdownComputer? && (before[i].exec.Pending? || before[i].exec.Executing?);
      assert after[i] in after;
    }
    if ActiveShutdown(after) {
      var i :| 0 <= i < |after| && after[i].kind.ShutdownComputer? && (after[i].exec.Pending? || after[i].exec.Executing?);
      assert before[i] in before;
    }
  }

  lemma {:induction false} FireAllTruthful(env: Environment, c: Coord, kinds: map<TimerId, Anchor>, due: seq<TimerId>)
    requires Durable(c) && Truthful(c) && KindsMatch(c.mem.actions, kinds) && (forall id <- due :: id in kinds)
    ensures Truthful(FireAll(env, c, kinds, due).coord)
    decreases |due|
  {
    hide FireBlock, FireShutdown, Durable;
    if due != [] {
      var front, id := due[..|due| - 1], due[|due| - 1];
      FireAllTruthful(env, c, kinds, front);
      FireAllKeeps(env, c, kinds, front);
      var f := FireAll(env, c, kinds, front);
      var c1 := LookForStop(env, f.coord);
      KindsSurvive(c.mem.actions, c1.mem.actions, kinds);
      if kinds[id].kind.BlockInternet? { FireBlockAggregate(env, c1, id); }
      FireShutdownTruthful(env, c1, id);
    }
  }

  lemma RetryAggregate(env: Environment, c: Coord)
    ensures SameAggregate(c, Retry(env, c))
  {
    hide CommitPost, MarkGate, RecordGateFailure, TellPolicy, Recompute, ResolveBlocks, Descends;
    ResolveDescends(c.mem.actions);
  }

  lemma TickTruthful(env: Environment, c: Coord, order: seq<TimerId>)
    requires Durable(c) && Timed(c) && Truthful(c)
    ensures Truthful(Tick(env, c, order))
  {
    hide WarnAll, FireAll, Retry, Durable, Timed;
    var c0 := LookForStop(env, c);
    if !c0.world.stopSeen {
      var now, c1 := Mono(env, c0), Looked(c0);
      HushedKeeps(c, c1);
      WarnAllKeeps(env, c1, order, now);
      WarnAllAggregate(env, c1, order, now);
      var c2 := WarnAll(env, c1, order, now);
      TimedKinds(c);
      KindsSurvive(c.mem.actions, c2.mem.actions, c.timers);
      ExpiredFacts(c.timers, order, now);
      FireAllTruthful(env, c2, c.timers, Expired(c.timers, order, now));
      var f := FireAll(env, c2, c.timers, Expired(c.timers, order, now));
      RetryAggregate(env, f.coord.(retryAt := None));
    }
  }
}
