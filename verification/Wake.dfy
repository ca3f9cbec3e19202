/** The wake-up scheduler: sleeping until the computed instant misses nothing, and a tick at that
    instant leaves no work for the same instant. */
module Wake {
  import opened Domain
  import opened World
  import opened Subscribers
  import opened Runtime
  import opened Safety
  import opened Durability
  import opened Deadlines
  import opened Timers

  // ---- when to wake --------------------------------------------------------------------------

  function ThresholdInstant(n: Anchor, t: Threshold): nat
    requires t.Seconds() <= n.original
  {
    n.start + (n.original - t.Seconds()) * NANOS_PER_SECOND
  }

  /** An instant at which a warning of this timer is still to be sent. */
  ghost predicate WarningInstant(actions: seq<Action>, id: TimerId, n: Anchor, at: nat) {
    var k := FindAction(actions, id);
    k < |actions| && exists t: Threshold ::
      t.Seconds() < n.original && t !in actions[k].emitted && at == ThresholdInstant(n, t)
  }

  /** The instants `next_wake_timeout` takes the earliest of. */
  ghost predicate WakeInstant(c: Coord, at: nat) {
    || (exists id <- c.timers :: at == c.timers[id].target || WarningInstant(c.mem.actions, id, c.timers[id], at))
    || c.retryAt == Some(at)
  }

  // ---- nothing happens before ------------------------------------------------------------------

  /** The clock the tick made next will read. */
  function TickTime(env: Environment, c: Coord): nat { Mono(env, LookForStop(env, c)) }

  /** The two states differ in the cursors of the anchors only. */
  ghost predicate OnlyCursors(c: Coord, d: Coord) {
    && d == c.(timers := d.timers)
    && d.timers.Keys == c.timers.Keys
    && forall id <- c.timers :: d.timers[id] == c.timers[id].(cursor := d.timers[id].cursor)
  }

  lemma EarlyWarn(env: Environment, c: Coord, id: TimerId, now: nat)
    requires forall at: nat :: WakeInstant(c, at) ==> now < at
    requires forall x <- c.timers :: c.timers[x].cursor <= c.timers[x].original
    ensures OnlyCursors(c, Warn(env, c, id, now))
    ensures forall x <- c.timers :: Warn(env, c, id, now).timers[x].cursor <= c.timers[x].original
  {
    hide WarnCrossed;
    if id in c.timers {
      var n := c.timers[id];
      var previous, current := n.cursor, SecondsLeft(n, now);
      var k := FindAction(c.mem.actions, id);
      if previous > current && CrossedBy(c, id, previous, current) != [] {
        var crossed := CrossedBy(c, id, previous, current);
        var t := crossed[0];
        assert t in crossed;
        var at := ThresholdInstant(n, t);
        assert WarningInstant(c.mem.actions, id, n, at);
        assert WakeInstant(c, at);
        ElapsedBound(n, t, now);
      }
    }
  }

  /** Before the instant of a threshold, more seconds than the threshold are left. */
  lemma ElapsedBound(n: Anchor, t: Threshold, now: nat)
    requires t.Seconds() < n.original && now < ThresholdInstant(n, t)
    ensures SecondsLeft(n, now) > t.Seconds()
  {
  }

  lemma {:induction false} EarlyWarnAll(env: Environment, c: Coord, order: seq<TimerId>, now: nat)
    requires forall at: nat :: WakeInstant(c, at) ==> now < at
    requires forall x <- c.timers :: c.timers[x].cursor <= c.timers[x].original
    ensures var d := WarnAll(env, c, order, now);
      OnlyCursors(c, d) && forall x <- d.timers :: d.timers[x].cursor <= d.timers[x].original
    decreases |order|
  {
    hide Warn;
    if order != [] {
      var before := WarnAll(env, c, order[..|order| - 1], now);
      EarlyWarnAll(env, c, order[..|order| - 1], now);
      SameWakeInstants(c, before);
      EarlyWarn(env, before, order[|order| - 1], now);
    }
  }

  lemma SameWakeInstants(c: Coord, d: Coord)
    requires OnlyCursors(c, d)
    ensures forall at: nat :: WakeInstant(d, at) ==> WakeInstant(c, at)
  {
    forall at: nat | WakeInstant(d, at) ensures WakeInstant(c, at) {
      if d.retryAt != Some(at) {
        var id :| id in d.timers && (at == d.timers[id].target || WarningInstant(d.mem.actions, id, d.timers[id], at));
        if at != d.timers[id].target {
          var t: Threshold :| t.Seconds() < d.timers[id].original
            && t !in d.mem.actions[FindAction(d.mem.actions, id)].emitted && at == ThresholdInstant(d.timers[id], t);
          assert at == ThresholdInstant(c.timers[id], t);
        }
      }
    }
  }

  lemma {:induction false} NoneExpired(timers: map<TimerId, Anchor>, order: seq<TimerId>, now: nat)
    requires forall id <- timers :: now < timers[id].target
    ensures Expired(timers, order, now) == []
    decreases |order|
  {
    if order != [] { NoneExpired(timers, order[..|order| - 1], now); }
  }

  /** A tick before the earliest wake instant saves nothing, sends nothing, calls nothing and
      changes nothing but cursors. */
  lemma WakeIsSound(env: Environment, c: Coord, order: seq<TimerId>)
    requires Timed(c)
    requires forall at: nat :: WakeInstant(c, at) ==> TickTime(env, c) < at
    ensures var d := Tick(env, c, order);
      && d.world.trace == c.world.trace && d.world.disk == c.world.disk
      && OnlyCursors(c.(world := d.world), d)
  {
    hide WarnAll, Retry;
    var c0 := LookForStop(env, c);
    if !c0.world.stopSeen {
      var now, c1 := Mono(env, c0), Looked(c0);
      assert forall at: nat :: WakeInstant(c1, at) ==> WakeInstant(c, at);
      EarlyWarnAll(env, c1, order, now);
      assert forall id <- c.timers :: WakeInstant(c, c.timers[id].target);
      NoneExpired(c.timers, order, now);
      assert c.retryAt.Some? ==> WakeInstant(c, c.retryAt.value);
    }
  }

  // ---- nothing is left for the same instant ------------------------------------------------------

  /** From instant `from` on, saves succeed and the clock does not fall behind `now`. */
  ghost predicate Kind(env: Environment, from: nat, now: nat) {
    forall n: nat :: n >= from ==> env(n).saveOk && env(n).mono >= now
  }

  /** What the warning phase leaves behind for a timer that has not expired. */
  ghost predicate UpToDate(n: Anchor, now: nat) {
    now < n.target ==> n.cursor <= SecondsLeft(n, now)
  }

  lemma WarnUpdates(env: Environment, c: Coord, id: TimerId, now: nat)
    requires Kind(env, c.world.instant, now)
    ensures var d := Warn(env, c, id, now);
      && c.world.instant <= d.world.instant && d.timers.Keys == c.timers.Keys
      && (id in c.timers ==> UpToDate(d.timers[id], now))
      && (forall x <- c.timers :: d.timers[x] == c.timers[x].(cursor := d.timers[x].cursor))
      && (forall x <- c.timers :: UpToDate(c.timers[x], now) ==> UpToDate(d.timers[x], now))
  {
    hide Commit, TellWarnings, Crossed, Notices;
    if id in c.timers && now < c.timers[id].target {
      assert SaveOk(env, c);
      var d := Warn(env, c, id, now);
      assert d.timers == c.timers || d.timers == c.timers[id := c.timers[id].(cursor := SecondsLeft(c.timers[id], now))];
    }
  }

  lemma {:induction false} WarnAllUpdates(env: Environment, c: Coord, order: seq<TimerId>, now: nat)
    requires Kind(env, c.world.instant, now)
    ensures var d := WarnAll(env, c, order, now);
      && c.world.instant <= d.world.instant && d.timers.Keys == c.timers.Keys
      && (forall id <- c.timers :: id in order ==> UpToDate(d.timers[id], now))
      && (forall x <- c.timers :: d.timers[x] == c.timers[x].(cursor := d.timers[x].cursor))
    decreases |order|
  {
    hide Warn, UpToDate;
    if order != [] {
      var front, id := order[..|order| - 1], order[|order| - 1];
      assert order == front + [id];
      WarnAllUpdates(env, c, front, now);
      WarnUpdates(env, WarnAll(env, c, front, now), id, now);
    }
  }

  /** A deadline of a pending action removes its anchor, unless the stop flag is seen. */
  lemma FiringClears(env: Environment, c: Coord, id: TimerId, now: nat)
    requires Kind(env, c.world.instant, now) && id in c.timers
    requires FindAction(c.mem.actions, id) < |c.mem.actions| && c.mem.actions[FindAction(c.mem.actions, id)].exec.Pending?
    ensures var d := FireBlock(env, c, id);
      c.world.instant <= d.world.instant && (d.world.stopSeen || id !in d.timers)
    ensures var d := FireShutdown(env, c, id);
      c.world.instant <= d.world.instant && (d.world.stopSeen || id !in d.timers)
  {
    hide Commit, CommitPost, Tell, TellPolicy, BlockOutcome, PowerOutcome, Recompute;
    var c0 := LookForStop(env, c);
    assert SaveOk(env, c0);
    var k := FindAction(c.mem.actions, id);
    var executing := SetExec(c.mem.actions, k, Executing);
    FiredBlockClears(env, c, Commit(env, c0, c.mem.(actions := executing, desired := Blocked)), id);
    FiredShutdownClears(env, Commit(env, c0, c.mem.(actions := executing)), id);
  }

  lemma FiredBlockClears(env: Environment, before: Coord, c: Coord, id: TimerId)
    ensures var d := FiredBlock(env, before, c, id);
      c.world.instant <= d.world.instant && d.timers == c.timers - {id}
  {
    hide CommitPost, Tell, TellPolicy, MarkGate, RecordGateFailure, Recompute;
  }

  lemma FiredShutdownClears(env: Environment, c: Coord, id: TimerId)
    ensures var d := FiredShutdown(env, c, id);
      c.world.instant <= d.world.instant && d.timers == c.timers - {id}
  {
    hide CommitPost, Tell, MarkPower, TellShutdown, DeriveShutdown, Recompute;
  }

  lemma PendingFound(actions: seq<Action>, id: TimerId)
    requires UniqueActions(actions) && exists a <- actions :: a.id == id && a.exec.Pending?
    ensures FindAction(actions, id) < |actions| && actions[FindAction(actions, id)].exec.Pending?
  {
    var a :| a in actions && a.id == id && a.exec.Pending?;
    var k := FindAction(actions, id);
    if k < |actions| { SameAction(actions, a, actions[k]); }
  }

  lemma InstantGrows(env: Environment, c: Coord, id: TimerId)
    ensures c.world.instant <= FireBlock(env, c, id).world.instant
    ensures c.world.instant <= FireShutdown(env, c, id).world.instant
    ensures c.world.stopSeen ==> FireBlock(env, c, id).world.stopSeen && FireShutdown(env, c, id).world.stopSeen
  {
    hide Commit, FiredBlock, FiredShutdown, Recompute;
    var c0 := LookForStop(env, c);
    var k := FindAction(c.mem.actions, id);
    if k < |c.mem.actions| {
      var executing := SetExec(c.mem.actions, k, Executing);
      FiredBlockClears(env, c, Commit(env, c0, c.mem.(actions := executing, desired := Blocked)), id);
      FiredShutdownClears(env, Commit(env, c0, c.mem.(actions := executing)), id);
    }
  }

  /** No action with this identifier is pending. */
  ghost predicate Stale(actions: seq<Action>, id: TimerId) {
    forall a <- actions :: a.id == id ==> !a.exec.Pending?
  }

  lemma StaleLater(before: seq<Action>, after: seq<Action>, id: TimerId)
    requires Versions(before, after) && Stale(before, id)
    ensures Stale(after, id)
  {
    forall b | b in after && b.id == id ensures !b.exec.Pending? {
      var a :| a in before && Evolves(a, b);
    }
  }

  /** A deadline of an action that is not pending does nothing, and no deadline touches the anchor of
      another action. */
  lemma FiringSparesStale(env: Environment, c: Coord, id: TimerId, x: TimerId)
    requires x in c.timers && (id == x ==> Stale(c.mem.actions, x))
    ensures x in FireBlock(env, c, id).timers && x in FireShutdown(env, c, id).timers
  {
    hide Commit, FiredBlock, FiredShutdown, Recompute;
    var c0 := LookForStop(env, c);
    var k := FindAction(c.mem.actions, id);
    if k < |c.mem.actions| {
      assert c.mem.actions[k] in c.mem.actions;
      var executing := SetExec(c.mem.actions, k, Executing);
      FiredBlockClears(env, c, Commit(env, c0, c.mem.(actions := executing, desired := Blocked)), id);
      FiredShutdownClears(env, Commit(env, c0, c.mem.(actions := executing)), id);
    }
  }

  lemma {:induction false} FireAllSparesStale(env: Environment, c: Coord, kinds: map<TimerId, Anchor>, due: seq<TimerId>, x: TimerId)
    requires Durable(c) && KindsMatch(c.mem.actions, kinds) && (forall id <- due :: id in kinds)
    requires x in c.timers && Stale(c.mem.actions, x)
    ensures x in FireAll(env, c, kinds, due).coord.timers
    decreases |due|
  {
    hide FireBlock, FireShutdown, Durable, Stale;
    if due != [] {
      var front, id := due[..|due| - 1], due[|due| - 1];
      assert due == front + [id];
      FireAllSparesStale(env, c, kinds, front, x);
      FireAllKeeps(env, c, kinds, front);
      var f := FireAll(env, c, kinds, front);
      StaleLater(c.mem.actions, f.coord.mem.actions, x);
      FiringSparesStale(env, LookForStop(env, f.coord), id, x);
    }
  }

  /** After the deadline phase the only expired anchors left are stale. */
  lemma {:induction false} FireAllClears(env: Environment, c: Coord, kinds: map<TimerId, Anchor>, due: seq<TimerId>, now: nat)
    requires Kind(env, c.world.instant, now)
    requires Durable(c) && KindsMatch(c.mem.actions, kinds) && (forall id <- due :: id in kinds)
    ensures var f := FireAll(env, c, kinds, due);
      && c.world.instant <= f.coord.world.instant
      && (f.aborted ==> f.coord.world.stopSeen)
      && (f.coord.world.stopSeen || forall id <- due :: id in f.coord.timers ==> Stale(c.mem.actions, id))
    decreases |due|
  {
    hide FireBlock, FireShutdown, Durable, Kind, Moves, Stale;
    if due != [] {
      var front, id := due[..|due| - 1], due[|due| - 1];
      assert due == front + [id];
      FireAllClears(env, c, kinds, front, now);
      FireAllKeeps(env, c, kinds, front);
      FireAllMoves(env, c, kinds, front);
      var f := FireAll(env, c, kinds, front);
      var c1 := LookForStop(env, f.coord);
      if !c1.world.stopSeen && !f.aborted {
        InstantGrows(env, c1, id);
        KindLater(env, c.world.instant, c1.world.instant, now);
        DurableIsUnique(f.coord);
        if id in c1.timers && !Stale(c.mem.actions, id) {
          StillPending(c, f.coord, id);
          FiringClears(env, c1, id, now);
        }
        FireBlockMoves(env, c1, id);
        FireShutdownMoves(env, c1, id);
        MovesShrinks(c1, FireAll(env, c, kinds, due).coord);
      }
    }
  }

  lemma StillPending(c: Coord, d: Coord, id: TimerId)
    requires Moves(c, d) && UniqueActions(d.mem.actions) && !Stale(c.mem.actions, id) && id in d.timers
    ensures FindAction(d.mem.actions, id) < |d.mem.actions| && d.mem.actions[FindAction(d.mem.actions, id)].exec.Pending?
  {
    var a :| a in c.mem.actions && a.id == id && a.exec.Pending?;
    PendingFound(d.mem.actions, id);
  }

  /** Warnings leave every pending action pending. */
  lemma WarnKeepsPending(env: Environment, c: Coord, id: TimerId, now: nat, x: TimerId)
    ensures Stale(Warn(env, c, id, now).mem.actions, x) ==> Stale(c.mem.actions, x)
  {
    hide Commit, TellWarnings, CrossedBy, Notices, SecondsLeft, Recompute;
    var d := Warn(env, c, id, now);
    assert |d.mem.actions| == |c.mem.actions|;
    forall i | 0 <= i < |c.mem.actions| ensures d.mem.actions[i].id == c.mem.actions[i].id && d.mem.actions[i].exec == c.mem.actions[i].exec {
    }
    if Stale(d.mem.actions, x) {
      forall a | a in c.mem.actions && a.id == x ensures !a.exec.Pending? {
        var i :| 0 <= i < |c.mem.actions| && c.mem.actions[i] == a;
        assert d.mem.actions[i] in d.mem.actions;
      }
    }
  }

  lemma {:induction false} WarnAllKeepsPending(env: Environment, c: Coord, order: seq<TimerId>, now: nat, x: TimerId)
    ensures Stale(WarnAll(env, c, order, now).mem.actions, x) ==> Stale(c.mem.actions, x)
    decreases |order|
  {
    hide Warn, Stale;
    if order != [] {
      WarnAllKeepsPending(env, c, order[..|order| - 1], now, x);
      WarnKeepsPending(env, WarnAll(env, c, order[..|order| - 1], now), order[|order| - 1], now, x);
    }
  }

  lemma MovesShrinks(c: Coord, d: Coord)
    requires Moves(c, d)
    ensures d.timers.Keys <= c.timers.Keys && forall id <- d.timers :: d.timers[id] == c.timers[id]
  {
  }

  lemma KindLater(env: Environment, from: nat, later: nat, now: nat)
    requires Kind(env, from, now) && from <= later
    ensures Kind(env, later, now)
  {
  }

  lemma RetryFuture(env: Environment, c: Coord, now: nat)
    requires Kind(env, c.world.instant, now) && c.retryAt.None?
    ensures Retry(env, c).retryAt.Some? ==> now < Retry(env, c).retryAt.value
  {
    hide CommitPost, MarkGate, TellPolicy, Recompute, ResolveBlocks;
    var c1 := LookForStop(env, c);
    if !c1.world.stopSeen {
      var c3 := TellPolicy(env, ApplyGate(env, c1, c.mem.desired), c.mem.desired, c.observed, PlatformSync);
      var error := GateError(c.mem.desired, env(c1.world.instant).gate);
      var c4 := MarkGate(env, c3, error);
      if error.Some? {
        var c5 := CommitPost(env, c4.(world := c4.world.Draw(1)), RetryEdit(c3.mem, error.value, c4.world.nextId));
        ScheduleRetryFuture(env, c5, now);
      }
    }
  }

  lemma ScheduleRetryFuture(env: Environment, c: Coord, now: nat)
    requires Kind(env, c.world.instant, now)
    ensures ScheduleRetry(env, c).retryAt.Some? ==> now < ScheduleRetry(env, c).retryAt.value
  {
    hide MarkRetryPolicy;
    var c2 := MarkRetryPolicy(env, Looked(c), None);
    assert env(c2.world.instant).mono >= now;
  }

  /** With an up-to-date cursor every threshold not emitted lies strictly ahead. */
  lemma WarningsAhead(actions: seq<Action>, id: TimerId, n: Anchor, bootId: nat, now: nat)
    requires AnchorShape(n) && UpToDate(n, now) && now < n.target
    requires forall a <- actions :: a.id == id ==> AnchorFits(a, n, bootId)
    ensures forall at: nat :: WarningInstant(actions, id, n, at) ==> now < at
  {
    forall at: nat | WarningInstant(actions, id, n, at) ensures now < at {
      var k := FindAction(actions, id);
      var t: Threshold :| t.Seconds() < n.original && t !in actions[k].emitted && at == ThresholdInstant(n, t);
      assert actions[k] in actions;
      assert t.Seconds() < n.cursor;
    }
  }

  /** An anchor whose target has passed while its action is not pending: nothing will ever take it
      out of the table, and the worker is woken at once, again and again. */
  ghost predicate HasDeadAnchor(c: Coord, now: nat) {
    exists id <- c.timers :: c.timers[id].target <= now && Stale(c.mem.actions, id)
  }

  ghost predicate DueAt(c: Coord, now: nat) {
    exists at: nat :: WakeInstant(c, at) && at <= now
  }

  /** After a tick in which every save succeeds, something is still due at the same instant exactly
      if there is such an anchor. */
  lemma SpinExact(env: Environment, c: Coord, order: seq<TimerId>)
    requires Durable(c) && Timed(c)
    requires forall id <- c.timers :: id in order
    requires Kind(env, c.world.instant, TickTime(env, c))
    ensures var d := Tick(env, c, order);
      d.world.stopSeen || !d.hub.health.persistenceHealthy
      || (DueAt(d, TickTime(env, c)) <==> HasDeadAnchor(c, TickTime(env, c)))
  {
    hide WarnAll, FireAll, Retry, Durable, Timed, Kind, Moves, UpToDate, WakeInstant, Stale;
    var c0 := LookForStop(env, c);
    if !c0.world.stopSeen {
      var now, c1 := Mono(env, c0), Looked(c0);
      SameActionsMove(c, c1);
      MovesKeepsTimed(c, c1);
      HushedKeeps(c, c1);
      KindLater(env, c.world.instant, c1.world.instant, now);
      var c2 := WarnAll(env, c1, order, now);
      WarnAllKeeps(env, c1, order, now);
      WarnAllKeepsTimed(env, c1, order, now);
      WarnAllUpdates(env, c1, order, now);
      TimedKinds(c);
      KindsSurvive(c.mem.actions, c2.mem.actions, c.timers);
      ExpiredFacts(c.timers, order, now);
      KindLater(env, c.world.instant, c2.world.instant, now);
      var due := Expired(c.timers, order, now);
      FireAllClears(env, c2, c.timers, due, now);
      FireAllMoves(env, c2, c.timers, due);
      var f := FireAll(env, c2, c.timers, due);
      MovesKeepsTimed(c2, f.coord);
      MovesShrinks(c2, f.coord);
      KindLater(env, c.world.instant, f.coord.world.instant, now);
      forall x | x in c.timers
        ensures Stale(c2.mem.actions, x) <==> Stale(c.mem.actions, x)
        ensures Stale(c.mem.actions, x) ==> x in f.coord.timers
      {
        WarnAllKeepsPending(env, c1, order, now, x);
        if Stale(c.mem.actions, x) {
          StaleLater(c.mem.actions, c2.mem.actions, x);
          FireAllSparesStale(env, c2, c.timers, due, x);
        }
      }
      FinishTick(env, f.coord, now);
      assert f.coord.world.stopSeen || (HasDeadAnchor(c, now) <==> HasExpired(f.coord, now));
    }
  }

  ghost predicate HasExpired(c: Coord, now: nat) {
    exists id <- c.timers :: c.timers[id].target <= now
  }

  /** If the anchors are exactly the pending actions, the worker never spins, whatever the retry
      policy returns. */
  lemma NoSpin(env: Environment, c: Coord, order: seq<TimerId>)
    requires Durable(c) && Timed(c) && Exact(c)
    requires forall id <- c.timers :: id in order
    requires Kind(env, c.world.instant, TickTime(env, c))
    ensures var d := Tick(env, c, order);
      d.world.stopSeen || !d.hub.health.persistenceHealthy
      || forall at: nat :: WakeInstant(d, at) ==> TickTime(env, c) < at
  {
    hide Tick, Durable, Timed, Kind, WakeInstant;
    SpinExact(env, c, order);
    assert !HasDeadAnchor(c, TickTime(env, c));
  }

  /** The last phase of the tick, when every anchor that has not expired is up to date. */
  lemma FinishTick(env: Environment, c: Coord, now: nat)
    requires Kind(env, c.world.instant, now) && Timed(c)
    requires c.world.stopSeen || forall id <- c.timers :: UpToDate(c.timers[id], now)
    ensures var d := RetryIfDue(env, c, now);
      && (c.world.stopSeen ==> d.world.stopSeen)
      && (d.world.stopSeen || !d.hub.health.persistenceHealthy || (DueAt(d, now) <==> HasExpired(c, now)))
  {
    hide Retry, Kind, Moves, UpToDate, WarningInstant, Timed;
    var d := RetryIfDue(env, c, now);
    var c1 := c.(retryAt := None);
    RetryFuture(env, c1, now);
    RetryMoves(env, c1);
    RetryLatches(env, c1);
    RetryTimers(env, c1);
    SameActionsMove(c, c1);
    MovesKeepsTimed(c, c1);
    MovesKeepsTimed(c1, Retry(env, c1));
    if !d.world.stopSeen && d.hub.health.persistenceHealthy {
      forall id | id in d.timers ensures forall at: nat :: WarningInstant(d.mem.actions, id, d.timers[id], at) ==> now < at || d.timers[id].target <= now {
        TimedFits(d, id);
        if now < d.timers[id].target { WarningsAhead(d.mem.actions, id, d.timers[id], d.bootId, now); }
      }
      if HasExpired(c, now) {
        var id :| id in c.timers && c.timers[id].target <= now;
        assert WakeInstant(d, d.timers[id].target);
      }
    }
  }

  lemma RetryTimers(env: Environment, c: Coord)
    ensures Retry(env, c).timers == c.timers
  {
    hide CommitPost, MarkGate, RecordGateFailure, TellPolicy, Recompute, ResolveBlocks;
  }

  lemma RetryLatches(env: Environment, c: Coord)
    ensures c.world.stopSeen ==> Retry(env, c).world.stopSeen
  {
    hide RetryOutcome, TellPolicy;
  }

  lemma TimedFits(c: Coord, id: TimerId)
    requires Timed(c) && id in c.timers
    ensures AnchorShape(c.timers[id]) && forall a <- c.mem.actions :: a.id == id ==> AnchorFits(a, c.timers[id], c.bootId)
  {
  }
}
