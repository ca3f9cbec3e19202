/** The table of monotonic anchors: no pending timer is ever without its anchor, and the warning
    cursor of an anchor tells which thresholds its action has emitted. */
module Timers {
  import opened Domain
  import opened World
  import opened Subscribers
  import opened Runtime
  import opened Safety
  import opened Durability
  import opened Edits
  import opened Deadlines

  // ---- the invariant -------------------------------------------------------------------------

  /** The target lies inside the last of the `original` seconds. */
  ghost predicate AnchorShape(n: Anchor) {
    && n.cursor <= n.original
    && n.start + (n.original - 1) * NANOS_PER_SECOND < n.target <= n.start + n.original * NANOS_PER_SECOND
  }

  /** Every threshold not below the cursor is emitted; for a timer scheduled since the boot, no
      other is. */
  ghost predicate AnchorFits(a: Action, n: Anchor, bootId: nat) {
    && n.kind == a.kind && n.deadline == a.deadline
    && (forall t: Threshold :: n.cursor <= t.Seconds() ==> t in a.emitted)
    && (a.id >= bootId ==> forall t <- a.emitted :: n.cursor <= t.Seconds())
  }

  ghost predicate Anchored(actions: seq<Action>, timers: map<TimerId, Anchor>, bootId: nat, nextId: nat) {
    && (forall a <- actions :: a.exec.Pending? ==> a.id in timers)
    && (forall a <- actions :: a.id in timers ==> AnchorFits(a, timers[a.id], bootId))
    && (forall id <- timers :: AnchorShape(timers[id]) && id < nextId)
  }

  ghost predicate Timed(c: Coord) {
    c.bootId <= c.world.nextId && Anchored(c.mem.actions, c.timers, c.bootId, c.world.nextId)
  }

  /** The anchors are exactly those of the pending actions. */
  ghost predicate Exact(c: Coord) {
    forall id <- c.timers :: exists a <- c.mem.actions :: a.id == id && a.exec.Pending?
  }

  // ---- steps that only move actions forward and drop anchors ------------------------------------

  ghost predicate Forward(a: Action, b: Action) {
    b == a.(exec := b.exec) && Rank(a.exec) <= Rank(b.exec)
  }

  ghost predicate Forwards(before: seq<Action>, after: seq<Action>) {
    forall b <- after :: exists a <- before :: Forward(a, b)
  }

  /** Pending actions are kept, unless their anchor goes too; an anchor only goes when its action
      is not pending any more. */
  ghost predicate Moves(c: Coord, d: Coord) {
    && d.bootId == c.bootId && c.world.nextId <= d.world.nextId
    && Forwards(c.mem.actions, d.mem.actions)
    && d.timers.Keys <= c.timers.Keys && (forall id <- d.timers :: d.timers[id] == c.timers[id])
    && (forall a <- d.mem.actions :: a.exec.Pending? && a.id in c.timers ==> a.id in d.timers)
    && (forall a <- c.mem.actions :: a.exec.Pending? && a.id in d.timers ==> a in d.mem.actions)
  }

  lemma MovesKeepsTimed(c: Coord, d: Coord)
    requires Timed(c) && Moves(c, d)
    ensures Timed(d)
    ensures Exact(c) ==> Exact(d)
  {
    forall b | b in d.mem.actions
      ensures b.exec.Pending? ==> b.id in d.timers
      ensures b.id in d.timers ==> AnchorFits(b, d.timers[b.id], d.bootId)
    {
      var a :| a in c.mem.actions && Forward(a, b);
    }
  }

  lemma SameActionsMove(c: Coord, d: Coord)
    requires d.mem.actions == c.mem.actions && d.timers == c.timers
    requires d.bootId == c.bootId && c.world.nextId <= d.world.nextId
    ensures Moves(c, d)
  {
    SubsetForwards(c.mem.actions, c.mem.actions);
  }

  lemma MovesTransitive(b: Coord, c: Coord, d: Coord)
    requires Moves(b, c) && Moves(c, d)
    ensures Moves(b, d)
  {
    forall z | z in d.mem.actions ensures exists x <- b.mem.actions :: Forward(x, z) {
      var y :| y in c.mem.actions && Forward(y, z);
      var x :| x in b.mem.actions && Forward(x, y);
      assert Forward(x, z);
    }
  }

  // ---- commands ------------------------------------------------------------------------------

  lemma SetPolicyMoves(env: Environment, c: Coord, target: DesiredInternet, reason: ChangeReason)
    ensures Moves(c, SetPolicy(env, c, target, reason).coord)
  {
    hide Commit, PolicyOutcome, TellPolicy, Recompute, Moves;
    SameActionsMove(c, SetPolicy(env, c, target, reason).coord);
  }

  lemma AckMoves(env: Environment, c: Coord, id: EntryId)
    ensures Moves(c, Ack(env, c, id).coord)
  {
    hide Commit, Recompute, Moves, FindEntry;
    SameActionsMove(c, Ack(env, c, id).coord);
  }

  lemma ChildMessageMoves(env: Environment, c: Coord, text: string)
    ensures Moves(c, ChildMessage(env, c, text).coord)
  {
    hide Commit, Recompute, Moves, ValidChat;
    SameActionsMove(c, ChildMessage(env, c, text).coord);
  }

  lemma ParentMessageMoves(env: Environment, c: Coord, message: ChatMessage)
    ensures Moves(c, ParentMessage(env, c, message).coord)
  {
    hide Tell, Moves;
    SameActionsMove(c, ParentMessage(env, c, message).coord);
  }

  lemma SubscriptionsMove(env: Environment, c: Coord, id: nat)
    ensures Moves(c, Subscribe(env, c).coord)
    ensures Moves(c, Unsubscribe(env, c, id).coord)
  {
    hide Reconcile, Moves;
    SameActionsMove(c, Subscribe(env, c).coord);
    SameActionsMove(c, Unsubscribe(env, c, id).coord);
  }

  lemma StopMoves(env: Environment, c: Coord)
    requires Durable(c)
    ensures Moves(c, Stop(env, c).coord)
  {
    hide MarkPersistence, Recompute, Moves;
    SameActionsMove(c, Stop(env, c).coord);
  }

  lemma DisarmFrame(env: Environment, c: Coord, id: TimerId, kind: ActionKind)
    ensures var d := Disarm(env, c, id, kind);
      && d.mem == c.mem && d.timers == c.timers - {id} && d.bootId == c.bootId && d.world.nextId == c.world.nextId
  {
    hide Tell, SyncShutdown;
  }

  lemma CancelMoves(env: Environment, c: Coord, id: TimerId, kind: ActionKind)
    requires UniqueActions(c.mem.actions)
    ensures Moves(c, Cancel(env, c, id, kind).coord)
  {
    hide RemoveTimer, CancelBlocked, Moves;
    var c1 := Consulted(c, id, kind);
    SameActionsMove(c, c);
    SameActionsMove(c, c1);
    RemoveTimerMoves(env, c1, id, kind);
    MovesTransitive(c, c1, RemoveTimer(env, c1, id, kind).coord);
  }

  lemma RemoveTimerMoves(env: Environment, c: Coord, id: TimerId, kind: ActionKind)
    requires UniqueActions(c.mem.actions)
    ensures Moves(c, RemoveTimer(env, c, id, kind).coord)
  {
    hide Commit, Disarm, RemoveAction, Recompute, Moves;
    var d := RemoveTimer(env, c, id, kind).coord;
    DisarmFrame(env, Commit(env, c, c.mem.(actions := RemoveAction(c.mem.actions, id))), id, kind);
    if d.mem.actions == c.mem.actions && d.timers == c.timers {
      SameActionsMove(c, d);
    } else {
      RemoveMoves(c, d, id);
    }
  }

  lemma RemoveMoves(c: Coord, d: Coord, id: TimerId)
    requires d.mem.actions == RemoveAction(c.mem.actions, id)
    requires d.timers == c.timers || d.timers == c.timers - {id}
    requires id in d.timers ==> NonePending(c.mem.actions, id)
    requires d.bootId == c.bootId && c.world.nextId <= d.world.nextId
    ensures Moves(c, d)
  {
    hide RemoveAction, Descends, Forwards;
    RemoveDescends(c.mem.actions, id);
    var s, s' := c.mem.actions, d.mem.actions;
    assert forall b <- s' :: b in s;
    SubsetForwards(s, s');
    assert d.timers.Keys <= c.timers.Keys;
    assert forall a <- s :: a.exec.Pending? && a.id in d.timers ==> a in s';
  }

  lemma SubsetForwards(before: seq<Action>, after: seq<Action>)
    requires forall b <- after :: b in before
    ensures Forwards(before, after)
  {
    forall b | b in after ensures exists a <- before :: Forward(a, b) {
      assert Forward(b, b);
    }
  }

  /** The initial thresholds of a new timer are those its first cursor says. */
  lemma InitialFits(duration: nat)
    ensures forall t: Threshold :: t in InitialThresholds(duration) <==> duration <= t.Seconds()
  {
    AllThresholdsListed();
  }

  lemma ScheduleKeepsTimed(env: Environment, c: Coord, kind: ActionKind, duration: nat, who: Initiator)
    requires Timed(c) && IdsBelow(c.mem, c.world.nextId)
    ensures Timed(Schedule(env, c, kind, duration, who).coord)
    ensures Exact(c) ==> Exact(Schedule(env, c, kind, duration, who).coord)
  {
    hide Commit, Tell, TellWarnings, SyncShutdown, Recompute, CreationDue, InitialThresholds, Exact, Anchored;
    var d := Schedule(env, c, kind, duration, who).coord;
    var id := c.world.nextId;
    if d.mem.actions == c.mem.actions {
      SameActionsMove(c, d);
      MovesKeepsTimed(c, d);
    } else {
      var a := NewAction(id, kind, duration, who, Utc(env, c));
      assert d.mem.actions == c.mem.actions + [a];
      var mono := Mono(env, Looked(c));
      var n := Anchor(kind, a.deadline, mono + duration * NANOS_PER_SECOND, duration, mono, duration);
      assert d.timers == c.timers[id := n];
      InitialFits(duration);
      NewTimerAnchored(c, d, a, n);
    }
  }

  lemma NewTimerAnchored(c: Coord, d: Coord, a: Action, n: Anchor)
    requires Timed(c) && IdsBelow(c.mem, c.world.nextId) && a.id == c.world.nextId < d.world.nextId
    requires a.exec.Pending? && AnchorShape(n) && AnchorFits(a, n, c.bootId)
    requires d.mem.actions == c.mem.actions + [a] && d.timers == c.timers[a.id := n] && d.bootId == c.bootId
    ensures Timed(d)
    ensures Exact(c) ==> Exact(d)
  {
    assert forall b <- c.mem.actions :: b in d.mem.actions;
    assert a in d.mem.actions;
  }

  // ---- warnings ------------------------------------------------------------------------------

  /** Before its target a timer has at least one second left, unless it never had any. */
  lemma SecondsLeftPositive(n: Anchor, now: nat)
    requires AnchorShape(n) && now < n.target
    ensures SecondsLeft(n, now) < n.cursor ==> SecondsLeft(n, now) >= 1
    ensures n.original >= 1 ==> SecondsLeft(n, now) >= 1
  {
  }

  /** Emitting what was crossed restores the meaning of the cursor. */
  lemma CrossingFits(a: Action, n: Anchor, current: nat, bootId: nat)
    requires AnchorFits(a, n, bootId) && 1 <= current < n.cursor
    ensures AnchorFits(a.(emitted := a.emitted + (set t <- Crossed(n.cursor, current, a.emitted))), n.(cursor := current), bootId)
  {
    AllThresholdsListed();
  }

  /** One timer moves its cursor, its action takes up what was crossed. */
  lemma CursorMoves(c: Coord, d: Coord, k: nat, id: TimerId, current: nat)
    requires Timed(c) && UniqueActions(c.mem.actions) && id in c.timers
    requires d.timers == c.timers[id := c.timers[id].(cursor := current)]
    requires current < c.timers[id].cursor && current >= 1
    requires k <= |c.mem.actions| && (k == |c.mem.actions| ==> forall a <- c.mem.actions :: a.id != id)
    requires k < |c.mem.actions| ==> c.mem.actions[k].id == id
    requires d.mem.actions == (if k == |c.mem.actions| then c.mem.actions
      else c.mem.actions[k := c.mem.actions[k].(emitted :=
        c.mem.actions[k].emitted + (set t <- Crossed(c.timers[id].cursor, current, c.mem.actions[k].emitted)))])
    requires d.bootId == c.bootId && c.world.nextId <= d.world.nextId
    ensures Timed(d)
    ensures Exact(c) ==> Exact(d)
  {
    hide Crossed;
    forall i | 0 <= i < |d.mem.actions|
      ensures var b := d.mem.actions[i];
        && (b.exec.Pending? ==> b.id in d.timers)
        && (b.id in d.timers ==> AnchorFits(b, d.timers[b.id], d.bootId))
    {
      var a := c.mem.actions[i];
      assert a in c.mem.actions;
      if i == k {
        CrossingFits(a, c.timers[id], current, c.bootId);
      } else {
        assert a.id != id;
      }
    }
    if Exact(c) {
      forall x | x in d.timers ensures exists b <- d.mem.actions :: b.id == x && b.exec.Pending? {
        var a :| a in c.mem.actions && a.id == x && a.exec.Pending?;
        var i :| 0 <= i < |c.mem.actions| && c.mem.actions[i] == a;
        assert d.mem.actions[i] in d.mem.actions;
      }
    }
  }

  lemma FindActionAbsent(actions: seq<Action>, id: TimerId)
    requires FindAction(actions, id) == |actions|
    ensures forall a <- actions :: a.id != id
  {
  }

  lemma WarnKeepsTimed(env: Environment, c: Coord, id: TimerId, now: nat)
    requires Timed(c) && UniqueActions(c.mem.actions)
    ensures Timed(Warn(env, c, id, now))
    ensures Exact(c) ==> Exact(Warn(env, c, id, now))
  {
    hide Commit, Recompute, TellWarnings, Crossed, Timed, Exact, Notices;
    var d := Warn(env, c, id, now);
    if id in c.timers && now < c.timers[id].target {
      ShapeOf(c, id);
      SecondsLeftPositive(c.timers[id], now);
      var previous, current := c.timers[id].cursor, SecondsLeft(c.timers[id], now);
      var k := FindAction(c.mem.actions, id);
      if d.mem.actions == c.mem.actions && d.timers == c.timers {
        SameActionsMove(c, d);
        MovesKeepsTimed(c, d);
      } else {
        if k == |c.mem.actions| { FindActionAbsent(c.mem.actions, id); }
        else if CrossedBy(c, id, previous, current) == [] { NothingCrossed(c.mem.actions, k, CrossedBy(c, id, previous, current)); }
        CursorMoves(c, d, k, id, current);
      }
    } else {
      SameActionsMove(c, d);
      MovesKeepsTimed(c, d);
    }
  }

  lemma ShapeOf(c: Coord, id: TimerId)
    requires Timed(c) && id in c.timers
    ensures AnchorShape(c.timers[id])
  {
  }

  lemma NothingCrossed(actions: seq<Action>, k: nat, crossed: seq<Threshold>)
    requires k < |actions| && crossed == []
    ensures actions == actions[k := actions[k].(emitted := actions[k].emitted + (set t <- crossed))]
  {
    assert actions[k].emitted + (set t <- crossed) == actions[k].emitted;
  }

  lemma {:induction false} WarnAllKeepsTimed(env: Environment, c: Coord, order: seq<TimerId>, now: nat)
    requires Durable(c) && Timed(c)
    ensures Timed(WarnAll(env, c, order, now))
    ensures Exact(c) ==> Exact(WarnAll(env, c, order, now))
    decreases |order|
  {
    hide Warn, Timed, Exact;
    if order != [] {
      WarnAllKeepsTimed(env, c, order[..|order| - 1], now);
      WarnAllKeeps(env, c, order[..|order| - 1], now);
      WarnKeepsTimed(env, WarnAll(env, c, order[..|order| - 1], now), order[|order| - 1], now);
    }
  }

  // ---- deadlines -----------------------------------------------------------------------------

  ghost predicate NonePending(actions: seq<Action>, id: TimerId) {
    forall a <- actions :: a.id == id ==> !a.exec.Pending?
  }

  /** Resolving an action that is not pending touches no pending one. */
  lemma ResolvedMoves(c: Coord, d: Coord, id: TimerId, reason: string)
    requires NonePending(c.mem.actions, id)
    requires d.mem.actions == c.mem.actions || d.mem.actions == CompleteEdit(c.mem, id).actions
      || d.mem.actions == FailEdit(c.mem, id, reason).actions
    requires d.timers == c.timers && d.bootId == c.bootId && c.world.nextId <= d.world.nextId
    ensures Moves(c, d)
  {
    var k := FindAction(c.mem.actions, id);
    if d.mem.actions == c.mem.actions {
      SameActionsMove(c, d);
    } else if d.mem.actions == RemoveAction(c.mem.actions, id) {
      RemoveMoves(c, d, id);
    } else {
      ExecMoves(c, d, k, Failed(reason));
    }
  }

  lemma ExecMoves(c: Coord, d: Coord, k: nat, exec: ExecutionState)
    requires k < |c.mem.actions| && Rank(c.mem.actions[k].exec) <= Rank(exec) && !exec.Pending?
    requires d.mem.actions == SetExec(c.mem.actions, k, exec)
    requires d.timers == c.timers - {c.mem.actions[k].id} || (d.timers == c.timers && !c.mem.actions[k].exec.Pending?)
    requires d.timers != c.timers ==> UniqueActions(c.mem.actions)
    requires d.bootId == c.bootId && c.world.nextId <= d.world.nextId
    ensures Moves(c, d)
  {
    var s, s' := c.mem.actions, d.mem.actions;
    forall i | 0 <= i < |s'|
      ensures exists a <- s :: Forward(a, s'[i])
      ensures s'[i].exec.Pending? && s'[i].id in c.timers ==> s'[i].id in d.timers
    {
      assert s[i] in s && Forward(s[i], s'[i]);
      if s'[i].exec.Pending? && d.timers != c.timers { assert i != k && s[i].id != s[k].id; }
    }
    forall a | a in s && a.exec.Pending? && a.id in d.timers ensures a in s' {
      var i :| 0 <= i < |s| && s[i] == a;
      assert s'[i] == a;
    }
  }

  lemma BlockOutcomeMoves(env: Environment, c: Coord, id: TimerId, error: Option<string>)
    requires NonePending(c.mem.actions, id)
    ensures Moves(c, BlockOutcome(env, c, id, error))
  {
    hide CommitPost, MarkGate, RecordGateFailure, Recompute, Moves;
    var reason := if error.Some? then error.value else "";
    ResolvedMoves(c, BlockOutcome(env, c, id, error), id, reason);
  }

  lemma PowerOutcomeMoves(env: Environment, c: Coord, id: TimerId, outcome: Outcome)
    requires NonePending(c.mem.actions, id)
    ensures Moves(c, PowerOutcome(env, c, id, outcome))
  {
    hide CommitPost, MarkPower, TellShutdown, Recompute, DeriveShutdown, Moves;
    var reason := if outcome.Failure? then outcome.reason else "";
    ResolvedMoves(c, PowerOutcome(env, c, id, outcome), id, reason);
  }

  /** What is left of a firing once the transition to Executing is durable. */
  ghost predicate Started(c: Coord, d: Coord, k: nat) {
    && k < |c.mem.actions| && c.mem.actions[k].exec.Pending?
    && d.mem.actions == SetExec(c.mem.actions, k, Executing)
    && d.timers == c.timers - {c.mem.actions[k].id}
    && d.bootId == c.bootId && c.world.nextId <= d.world.nextId
  }

  lemma StartedMoves(c: Coord, d: Coord, k: nat)
    requires UniqueActions(c.mem.actions) && Started(c, d, k)
    ensures Moves(c, d) && NonePending(d.mem.actions, c.mem.actions[k].id)
  {
    if d.timers == c.timers {
      assert c.mem.actions[k].id !in c.timers;
    }
    ExecMoves(c, d, k, Executing);
    var id := c.mem.actions[k].id;
    forall i | 0 <= i < |d.mem.actions| && i != k ensures d.mem.actions[i].id != id {
      assert c.mem.actions[i].id != c.mem.actions[k].id;
    }
  }

  lemma FireBlockMoves(env: Environment, c: Coord, id: TimerId)
    requires UniqueActions(c.mem.actions)
    ensures Moves(c, FireBlock(env, c, id))
  {
    hide Commit, Tell, TellPolicy, BlockOutcome, Recompute, Moves;
    var d := FireBlock(env, c, id);
    var c0 := LookForStop(env, c);
    var k := FindAction(c.mem.actions, id);
    if c0.world.stopSeen || k == |c.mem.actions| || !c.mem.actions[k].exec.Pending? || !SaveOk(env, c0) {
      SameActionsMove(c, d);
    } else {
      var c1 := Commit(env, c0, c.mem.(actions := SetExec(c.mem.actions, k, Executing), desired := Blocked));
      var c3 := LookForStop(env, Tell(env, c1.(timers := c1.timers - {id}), TimerExpired(id, BlockInternet)));
      StartedMoves(c, c3, k);
      if !c3.world.stopSeen {
        var c4 := ApplyGate(env, c3, Blocked);
        var c5 := TellPolicy(env, c4, c.mem.desired, c.observed, TimerFired(id));
        StartedMoves(c, c5, k);
        BlockOutcomeMoves(env, c5, id, GateError(Blocked, env(c3.world.instant).gate));
        MovesTransitive(c, c5, d);
      }
    }
  }

  lemma FireShutdownMoves(env: Environment, c: Coord, id: TimerId)
    requires UniqueActions(c.mem.actions)
    ensures Moves(c, FireShutdown(env, c, id))
  {
    hide Commit, Tell, PowerOutcome, Recompute, Moves;
    var d := FireShutdown(env, c, id);
    var c0 := LookForStop(env, c);
    var k := FindAction(c.mem.actions, id);
    if c0.world.stopSeen || k == |c.mem.actions| || !c.mem.actions[k].exec.Pending? || !SaveOk(env, c0) {
      SameActionsMove(c, d);
    } else {
      var c1 := Commit(env, c0, c.mem.(actions := SetExec(c.mem.actions, k, Executing)));
      var c3 := LookForStop(env, Tell(env, c1.(timers := c1.timers - {id}), TimerExpired(id, ShutdownComputer)));
      StartedMoves(c, c3, k);
      if !c3.world.stopSeen {
        var outcome := env(c3.world.instant).power;
        var c4 := c3.(world := c3.world.Did(PowerCall(id, outcome)));
        StartedMoves(c, c4, k);
        PowerOutcomeMoves(env, c4, id, outcome);
        MovesTransitive(c, c4, d);
      }
    }
  }

  lemma {:induction false} FireAllMoves(env: Environment, c: Coord, kinds: map<TimerId, Anchor>, due: seq<TimerId>)
    requires Durable(c) && KindsMatch(c.mem.actions, kinds) && (forall id <- due :: id in kinds)
    ensures Moves(c, FireAll(env, c, kinds, due).coord)
    decreases |due|
  {
    hide FireBlock, FireShutdown, Durable, Moves;
    if due == [] {
      SameActionsMove(c, c);
    } else {
      var front, id := due[..|due| - 1], due[|due| - 1];
      FireAllMoves(env, c, kinds, front);
      FireAllKeeps(env, c, kinds, front);
      var f := FireAll(env, c, kinds, front);
      if !f.aborted {
        var c1 := LookForStop(env, f.coord);
        SameActionsMove(f.coord, c1);
        MovesTransitive(c, f.coord, c1);
        DurableIsUnique(f.coord);
        FireBlockMoves(env, c1, id);
        FireShutdownMoves(env, c1, id);
        if !c1.world.stopSeen {
          MovesTransitive(c, c1, FireAll(env, c, kinds, due).coord);
        }
      }
    }
  }

  lemma DurableIsUnique(c: Coord)
    requires Durable(c)
    ensures UniqueActions(c.mem.actions)
  {
  }

  // ---- retry and tick ------------------------------------------------------------------------

  lemma RetryMoves(env: Environment, c: Coord)
    ensures Moves(c, Retry(env, c))
  {
    hide CommitPost, MarkGate, RecordGateFailure, TellPolicy, Recompute, Moves;
    var d := Retry(env, c);
    if d.mem.actions == c.mem.actions {
      SameActionsMove(c, d);
    } else {
      assert d.mem.actions == ResolveBlocks(c.mem.actions);
      ResolveMoves(c, d);
    }
  }

  lemma ResolveMoves(c: Coord, d: Coord)
    requires d.mem.actions == ResolveBlocks(c.mem.actions)
    requires d.timers == c.timers && d.bootId == c.bootId && c.world.nextId <= d.world.nextId
    ensures Moves(c, d)
  {
    ResolveDescends(c.mem.actions);
    SubsetForwards(c.mem.actions, d.mem.actions);
  }

  lemma TimedKinds(c: Coord)
    requires Timed(c)
    ensures KindsMatch(c.mem.actions, c.timers)
  {
  }

  lemma TickKeepsTimed(env: Environment, c: Coord, order: seq<TimerId>)
    requires Durable(c) && Timed(c)
    ensures Timed(Tick(env, c, order))
    ensures Exact(c) ==> Exact(Tick(env, c, order))
  {
    hide WarnAll, FireAll, Retry, Durable, Timed, Exact, Moves;
    var c0 := LookForStop(env, c);
    SameActionsMove(c, c0);
    MovesKeepsTimed(c, c0);
    if !c0.world.stopSeen {
      var now, c1 := Mono(env, c0), Looked(c0);
      SameActionsMove(c, c1);
      MovesKeepsTimed(c, c1);
      HushedKeeps(c, c1);
      var c2 := WarnAll(env, c1, order, now);
      WarnAllKeeps(env, c1, order, now);
      WarnAllKeepsTimed(env, c1, order, now);
      TimedKinds(c);
      KindsSurvive(c.mem.actions, c2.mem.actions, c.timers);
      ExpiredFacts(c.timers, order, now);
      var f := FireAll(env, c2, c.timers, Expired(c.timers, order, now));
      FireAllMoves(env, c2, c.timers, Expired(c.timers, order, now));
      MovesKeepsTimed(c2, f.coord);
      var c3 := f.coord.(retryAt := None);
      SameActionsMove(f.coord, c3);
      MovesKeepsTimed(f.coord, c3);
      RetryMoves(env, c3);
      MovesKeepsTimed(c3, Retry(env, c3));
    }
  }
}
