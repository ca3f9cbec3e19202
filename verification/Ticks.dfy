/** What one tick does: every action whose time has come is settled by the answer it gets, and the retry
    of the gate is made when its time has come and not before. */
module Ticks {
  import opened Domain
  import opened World
  import opened Subscribers
  import opened Runtime
  import opened Recovery
  import opened Safety
  import opened Durability
  import opened Edits
  import opened Deadlines
  import opened Timers
  import opened Healing
  import opened Aggregate
  import opened Booting
  import opened Outcomes
  import opened Wake
  import opened Theorems
  import opened Settling
  import opened Liveness

  // ---- actions that are due ------------------------------------------------------------------------

  /** The action `a` is settled as the port has answered at this moment: gone, or failed for that reason. */
  ghost predicate SettledAs(a: Action, m: Moment, actions: seq<Action>) {
    var refusal := match a.kind
      case BlockInternet => if Confirms(Blocked, m.gate) then None else Some(Refusal(m.gate))
      case ShutdownComputer => match m.power case Success => None case Failure(reason) => Some(reason);
    match refusal
    case None => forall b <- actions :: b.id != a.id
    case Some(reason) => a.(exec := Failed(reason)) in actions
  }

  ghost predicate SettledBetween(env: Environment, lo: nat, hi: nat, a: Action, actions: seq<Action>) {
    exists i: nat :: lo <= i < hi && SettledAs(a, env(i), actions)
  }

  lemma DroppedSettles(before: seq<Action>, k: nat, after: seq<Action>, reason: string)
    requires UniqueActions(before) && k < |before|
    ensures Dropped(before, k, after) ==> forall b <- after :: b.id != before[k].id
    ensures FailedFor(before, k, reason, after) ==> before[k].(exec := Failed(reason)) in after
  {
    if Dropped(before, k, after) { DropKeepsOthers(before, k, after); }
    if FailedFor(before, k, reason, after) { assert after[k] == before[k].(exec := Failed(reason)); }
  }

  lemma FiringSettles(env: Environment, c: Coord, k: nat)
    requires UniqueActions(c.mem.actions) && Starts(env, c, k)
    ensures var d := if c.mem.actions[k].kind.BlockInternet? then FireBlock(env, c, c.mem.actions[k].id) else FireShutdown(env, c, c.mem.actions[k].id);
      d.world.stopSeen || SettledBetween(env, c.world.instant, d.world.instant, c.mem.actions[k], d.mem.actions)
  {
    hide FireBlock, FireShutdown, RefusalRecorded, Confirms, Refusal, Dropped, FailedFor;
    var a := c.mem.actions[k];
    if a.kind.BlockInternet? {
      var d, asked := FireBlock(env, c, a.id), BlockAsked(env, c, k);
      BlockDeadlineOutcome(env, c, k);
      AskedWithin(env, c, k);
      if !d.world.stopSeen {
        DroppedSettles(c.mem.actions, k, d.mem.actions, Refusal(env(asked.world.instant).gate));
        assert SettledAs(a, env(asked.world.instant), d.mem.actions);
      }
    } else {
      var d, asked := FireShutdown(env, c, a.id), PowerAsked(env, c, k);
      ShutdownDeadlineOutcome(env, c, k);
      AskedWithin(env, c, k);
      if !d.world.stopSeen {
        var outcome := env(asked.world.instant).power;
        DroppedSettles(c.mem.actions, k, d.mem.actions, if outcome.Failure? then outcome.reason else "");
        assert SettledAs(a, env(asked.world.instant), d.mem.actions);
      }
    }
  }

  /** The ports are asked within the step. */
  lemma AskedWithin(env: Environment, c: Coord, k: nat)
    requires UniqueActions(c.mem.actions) && Starts(env, c, k)
    ensures c.world.instant <= BlockAsked(env, c, k).world.instant && c.world.instant <= PowerAsked(env, c, k).world.instant
    ensures var d := FireBlock(env, c, c.mem.actions[k].id);
      c.world.instant <= d.world.instant && (!d.world.stopSeen ==> BlockAsked(env, c, k).world.instant < d.world.instant)
    ensures var d := FireShutdown(env, c, c.mem.actions[k].id);
      c.world.instant <= d.world.instant && (!d.world.stopSeen ==> PowerAsked(env, c, k).world.instant < d.world.instant)
  {
    hide Commit, Tell, TellPolicy, BlockOutcome, PowerOutcome, Recompute;
    FoundAt(c.mem.actions, k);
    var id := c.mem.actions[k].id;
    var asked := BlockAsked(env, c, k);
    var c5 := TellPolicy(env, ApplyGate(env, asked, Blocked), c.mem.desired, c.observed, TimerFired(id));
    BlockOutcomeInstant(env, c5, id, GateError(Blocked, env(asked.world.instant).gate));
    var called := PowerAsked(env, c, k);
    var outcome := env(called.world.instant).power;
    PowerOutcomeInstant(env, called.(world := called.world.Did(PowerCall(id, outcome))), id, outcome);
  }

  lemma BlockOutcomeInstant(env: Environment, c: Coord, id: TimerId, error: Option<string>)
    ensures c.world.instant <= BlockOutcome(env, c, id, error).world.instant
  {
    hide CommitPost, MarkGate, Recompute, RecordGateFailure, CompleteEdit, FailEdit;
  }

  lemma PowerOutcomeInstant(env: Environment, c: Coord, id: TimerId, outcome: Outcome)
    ensures c.world.instant <= PowerOutcome(env, c, id, outcome).world.instant
  {
    hide MarkPower, PowerAccepted, PowerRefused, Recompute;
  }

  lemma OthersStaySettled(env: Environment, lo: nat, hi: nat, later: nat, a: Action, before: seq<Action>, after: seq<Action>, id: TimerId)
    requires SameOthers(before, after, id) && a.id != id && hi <= later && SettledBetween(env, lo, hi, a, before)
    ensures SettledBetween(env, lo, later, a, after)
  {
    hide Confirms, Refusal;
    var i: nat :| lo <= i < hi && SettledAs(a, env(i), before);
    assert SettledAs(a, env(i), after);
  }

  lemma {:induction false} FireAllKeepsOthers(env: Environment, c: Coord, kinds: map<TimerId, Anchor>, due: seq<TimerId>, a: Action)
    requires Durable(c) && KindsMatch(c.mem.actions, kinds) && (forall id <- due :: id in kinds)
    requires a.id !in due && a in c.mem.actions
    ensures a in FireAll(env, c, kinds, due).coord.mem.actions
    decreases |due|
  {
    hide FireBlock, FireShutdown, Durable;
    if due != [] {
      var front, id := due[..|due| - 1], due[|due| - 1];
      assert due == front + [id];
      FireAllKeepsOthers(env, c, kinds, front, a);
      FireAllKeeps(env, c, kinds, front);
      var f := FireAll(env, c, kinds, front);
      DurableIsUnique(f.coord);
      FiringKeepsOthers(env, LookForStop(env, f.coord), id);
    }
  }

  lemma {:induction false} FireAllSettles(env: Environment, c: Coord, kinds: map<TimerId, Anchor>, due: seq<TimerId>, now: nat, a: Action)
    requires Kind(env, c.world.instant, now)
    requires Durable(c) && KindsMatch(c.mem.actions, kinds) && (forall id <- due :: id in kinds) && Distinct(due)
    requires a in c.mem.actions && a.exec.Pending? && a.id in due
    ensures var d := FireAll(env, c, kinds, due).coord;
      && c.world.instant <= d.world.instant
      && (d.world.stopSeen || SettledBetween(env, c.world.instant, d.world.instant, a, d.mem.actions))
    decreases |due|
  {
    hide FireBlock, FireShutdown, Durable, Kind, SettledBetween, Stale;
    var front, id := due[..|due| - 1], due[|due| - 1];
    assert due == front + [id];
    FireAllKeeps(env, c, kinds, front);
    FireAllClears(env, c, kinds, front, now);
    var f := FireAll(env, c, kinds, front);
    var c1 := LookForStop(env, f.coord);
    InstantGrows(env, c1, id);
    DurableIsUnique(f.coord);
    if a.id == id {
      assert a.id !in front;
      FireAllKeepsOthers(env, c, kinds, front, a);
      LastSettles(env, c, c1, now, a);
      SettledFrom(env, c.world.instant, c1.world.instant, FireAll(env, c, kinds, due).coord.world.instant, a, FireAll(env, c, kinds, due).coord.mem.actions);
    } else {
      FireAllSettles(env, c, kinds, front, now, a);
      if !f.coord.world.stopSeen && !c1.world.stopSeen {
        FiringKeepsOthers(env, c1, id);
        OthersStaySettled(env, c.world.instant, f.coord.world.instant, FireBlock(env, c1, id).world.instant, a, c1.mem.actions, FireBlock(env, c1, id).mem.actions, id);
        OthersStaySettled(env, c.world.instant, f.coord.world.instant, FireShutdown(env, c1, id).world.instant, a, c1.mem.actions, FireShutdown(env, c1, id).mem.actions, id);
      }
    }
  }

  lemma SettledFrom(env: Environment, lo: nat, from: nat, hi: nat, a: Action, actions: seq<Action>)
    requires lo <= from
    ensures SettledBetween(env, from, hi, a, actions) ==> SettledBetween(env, lo, hi, a, actions)
  {
    hide SettledAs;
  }

  lemma LastSettles(env: Environment, c: Coord, c1: Coord, now: nat, a: Action)
    requires Kind(env, c.world.instant, now) && c.world.instant <= c1.world.instant
    requires UniqueActions(c1.mem.actions) && a in c1.mem.actions && a.exec.Pending?
    ensures var d := if a.kind.BlockInternet? then FireBlock(env, c1, a.id) else FireShutdown(env, c1, a.id);
      d.world.stopSeen || SettledBetween(env, c1.world.instant, d.world.instant, a, d.mem.actions)
  {
    hide FireBlock, FireShutdown, SettledBetween;
    var k :| 0 <= k < |c1.mem.actions| && c1.mem.actions[k] == a;
    InstantGrows(env, c1, a.id);
    if Starts(env, c1, k) {
      FiringSettles(env, c1, k);
    } else {
      assert env(LookForStop(env, c1).world.instant).saveOk;
      StopIsSeen(env, c1, a.id);
    }
  }

  lemma StopIsSeen(env: Environment, c: Coord, id: TimerId)
    requires LookForStop(env, c).world.stopSeen
    ensures FireBlock(env, c, id).world.stopSeen && FireShutdown(env, c, id).world.stopSeen
  {
    hide Commit, FiredBlock, FiredShutdown, FindAction;
  }

  /** The warning phase leaves actions alone whose time has come. */
  lemma WarnKeepsExpired(env: Environment, c: Coord, id: TimerId, now: nat, a: Action)
    requires a in c.mem.actions && a.id in c.timers && c.timers[a.id].target <= now
    ensures a in Warn(env, c, id, now).mem.actions
  {
    hide Commit, TellWarnings, CrossedBy, Notices, SecondsLeft, Recompute;
    var d := Warn(env, c, id, now);
    var i :| 0 <= i < |c.mem.actions| && c.mem.actions[i] == a;
    assert d.mem.actions[i] == a;
  }

  lemma {:induction false} WarnAllKeepsExpired(env: Environment, c: Coord, order: seq<TimerId>, now: nat, a: Action)
    requires Kind(env, c.world.instant, now)
    requires a in c.mem.actions && a.id in c.timers && c.timers[a.id].target <= now
    ensures a in WarnAll(env, c, order, now).mem.actions
    decreases |order|
  {
    hide Warn, Kind;
    if order != [] {
      var front := order[..|order| - 1];
      WarnAllKeepsExpired(env, c, front, now, a);
      WarnAllUpdates(env, c, front, now);
      WarnKeepsExpired(env, WarnAll(env, c, front, now), order[|order| - 1], now, a);
    }
  }

  lemma {:induction false} ExpiredHas(timers: map<TimerId, Anchor>, order: seq<TimerId>, now: nat, id: TimerId)
    ensures id in Expired(timers, order, now) <==> id in order && id in timers && timers[id].target <= now
    decreases |order|
  {
    if order != [] {
      assert order == order[..|order| - 1] + [order[|order| - 1]];
      ExpiredHas(timers, order[..|order| - 1], now, id);
    }
  }

  lemma RetryKeepsSettled(env: Environment, c: Coord, lo: nat, a: Action)
    requires SettledBetween(env, lo, c.world.instant, a, c.mem.actions)
    ensures c.world.instant <= Retry(env, c).world.instant
    ensures SettledBetween(env, lo, Retry(env, c).world.instant, a, Retry(env, c).mem.actions)
  {
    hide Retry, Confirms, Refusal, RefusalRecorded;
    RetryOutcomeFacts(env, c);
    RetryInstant(env, c);
    var i: nat :| lo <= i < c.world.instant && SettledAs(a, env(i), c.mem.actions);
    assert SettledAs(a, env(i), Retry(env, c).mem.actions);
  }

  lemma RetryInstant(env: Environment, c: Coord)
    ensures c.world.instant <= Retry(env, c).world.instant
  {
    hide CommitPost, MarkGate, Recompute, RecordGateFailure, TellPolicy, ResolveBlocks;
  }

  /** In every run: a tick in which saves succeed settles every pending action whose timer has expired, as
      the gate or the power controller answers in this tick: it is gone, or exactly it has failed for the
      reason given. None is left executing unless a stop is seen. */
  lemma DueActionsAreSettled(env: Environment, m: Machine, steps: seq<Step>, order: seq<TimerId>, a: Action)
    requires Installed(m) && Run(env, m, steps).Up? && Distinct(order)
    requires var c := Run(env, m, steps).coord; Kind(env, c.world.instant, TickTime(env, c))
    requires a in Run(env, m, steps).coord.mem.actions && a.exec.Pending? && a.id in order
    ensures var c := Run(env, m, steps).coord;
      var d := Tick(env, c, order);
      && a.id in c.timers
      && (c.timers[a.id].target <= TickTime(env, c) ==>
            d.world.stopSeen || SettledBetween(env, c.world.instant, d.world.instant, a, d.mem.actions))
  {
    hide Run, Durable, Healed, Truthful, Kind, Tick, SettledBetween;
    RunIsSane(env, m, steps);
    var c := Run(env, m, steps).coord;
    if c.timers[a.id].target <= TickTime(env, c) { TickSettles(env, c, order, a); }
  }

  lemma TickSettles(env: Environment, c: Coord, order: seq<TimerId>, a: Action)
    requires Durable(c) && Timed(c) && Distinct(order) && Kind(env, c.world.instant, TickTime(env, c))
    requires a in c.mem.actions && a.exec.Pending? && a.id in order && a.id in c.timers && c.timers[a.id].target <= TickTime(env, c)
    ensures var d := Tick(env, c, order);
      d.world.stopSeen || SettledBetween(env, c.world.instant, d.world.instant, a, d.mem.actions)
  {
    hide WarnAll, FireAll, Retry, Durable, Timed, Kind, SettledBetween, Expired;
    var c0 := LookForStop(env, c);
    if !c0.world.stopSeen {
      var now, c1 := Mono(env, c0), Looked(c0);
      HushedKeeps(c, c1);
      KindLater(env, c.world.instant, c1.world.instant, now);
      var c2 := WarnAll(env, c1, order, now);
      WarnAllKeeps(env, c1, order, now);
      WarnAllUpdates(env, c1, order, now);
      WarnAllKeepsExpired(env, c1, order, now, a);
      TimedKinds(c);
      KindsSurvive(c.mem.actions, c2.mem.actions, c.timers);
      ExpiredFacts(c.timers, order, now);
      ExpiredDistinct(c.timers, order, now);
      ExpiredHas(c.timers, order, now, a.id);
      KindLater(env, c.world.instant, c2.world.instant, now);
      var due := Expired(c.timers, order, now);
      FireAllSettles(env, c2, c.timers, due, now, a);
      var f := FireAll(env, c2, c.timers, due);
      FireAllAborts(env, c2, c.timers, due);
      SettledFrom(env, c.world.instant, c2.world.instant, f.coord.world.instant, a, f.coord.mem.actions);
      var c3 := f.coord.(retryAt := None);
      RetryLatches(env, c3);
      if !f.coord.world.stopSeen { RetryKeepsSettled(env, c3, c.world.instant, a); }
    }
  }

  // ---- saves that succeed ----------------------------------------------------------------------------

  /** Nothing waits to be saved. */
  ghost predicate Clean(c: Coord) { c.pending.None? && c.hub.health.persistenceHealthy }

  lemma SavingCleans(env: Environment, c: Coord, after: PersistentState)
    requires SaveOk(env, c)
    ensures Clean(Commit(env, c, after)) && Clean(CommitPost(env, c, after))
  {
    hide MarkPersistence;
  }

  ghost predicate SavesFrom(env: Environment, from: nat) { forall n: nat :: n >= from ==> env(n).saveOk }

  lemma GateFailureStaysClean(env: Environment, c: Coord, edited: PersistentState)
    requires SavesFrom(env, c.world.instant)
    ensures Clean(RecordGateFailure(env, c, edited))
  {
    hide CommitPost, ScheduleRetry, Recompute;
    SavingCleans(env, c, edited);
  }

  lemma WarnStaysClean(env: Environment, c: Coord, id: TimerId, now: nat)
    requires SavesFrom(env, c.world.instant) && Clean(c)
    ensures Clean(Warn(env, c, id, now))
  {
    hide Commit, TellWarnings, CrossedBy, Notices, SecondsLeft, Recompute, WarnEdit;
    assert SaveOk(env, c);
  }

  lemma {:induction false} WarnAllStaysClean(env: Environment, c: Coord, order: seq<TimerId>, now: nat)
    requires Kind(env, c.world.instant, now) && Clean(c)
    ensures Clean(WarnAll(env, c, order, now))
    decreases |order|
  {
    hide Warn, Clean;
    if order != [] {
      WarnAllStaysClean(env, c, order[..|order| - 1], now);
      WarnAllUpdates(env, c, order[..|order| - 1], now);
      WarnStaysClean(env, WarnAll(env, c, order[..|order| - 1], now), order[|order| - 1], now);
    }
  }

  lemma BlockOutcomeClean(env: Environment, c: Coord, id: TimerId, error: Option<string>)
    requires SavesFrom(env, c.world.instant)
    ensures Clean(BlockOutcome(env, c, id, error))
  {
    hide CommitPost, MarkGate, Recompute, RecordGateFailure, CompleteEdit, FailEdit;
    var c1 := MarkGate(env, c, error);
    SavingCleans(env, c1, CompleteEdit(c.mem, id).(retry := None));
    if error.Some? {
      GateFailureStaysClean(env, c1.(world := c1.world.Draw(1)), RetryEdit(FailEdit(c.mem, id, error.value), error.value, c1.world.nextId));
    }
  }

  lemma PowerOutcomeClean(env: Environment, c: Coord, id: TimerId, outcome: Outcome)
    requires SavesFrom(env, c.world.instant) && Clean(c)
    ensures Clean(PowerOutcome(env, c, id, outcome))
  {
    hide CommitPost, MarkPower, TellShutdown, Recompute, DeriveShutdown, CompleteEdit, FailEdit, FindAction;
  }

  /** With saves that succeed a deadline leaves nothing to be saved. */
  lemma FiringStaysClean(env: Environment, c: Coord, id: TimerId)
    requires SavesFrom(env, c.world.instant)
    ensures Clean(c) || Starts(env, c, FindAction(c.mem.actions, id)) ==> Clean(FireBlock(env, c, id)) && Clean(FireShutdown(env, c, id))
  {
    hide Commit, Tell, TellPolicy, BlockOutcome, PowerOutcome, Recompute, SetExec, GateError;
    var k := FindAction(c.mem.actions, id);
    if Starts(env, c, k) {
      var s1 := Commit(env, LookForStop(env, c), c.mem.(actions := SetExec(c.mem.actions, k, Executing), desired := Blocked));
      var b3 := LookForStop(env, Tell(env, s1.(timers := s1.timers - {id}), TimerExpired(id, BlockInternet)));
      var b5 := TellPolicy(env, ApplyGate(env, b3, Blocked), c.mem.desired, c.observed, TimerFired(id));
      BlockOutcomeClean(env, b5, id, GateError(Blocked, env(b3.world.instant).gate));
      var s2 := Commit(env, LookForStop(env, c), c.mem.(actions := SetExec(c.mem.actions, k, Executing)));
      var p3 := LookForStop(env, Tell(env, s2.(timers := s2.timers - {id}), TimerExpired(id, ShutdownComputer)));
      var outcome := env(p3.world.instant).power;
      PowerOutcomeClean(env, p3.(world := p3.world.Did(PowerCall(id, outcome))), id, outcome);
    }
  }

  lemma {:induction false} FireAllStaysClean(env: Environment, c: Coord, kinds: map<TimerId, Anchor>, due: seq<TimerId>)
    requires SavesFrom(env, c.world.instant) && Clean(c)
    ensures Clean(FireAll(env, c, kinds, due).coord) && c.world.instant <= FireAll(env, c, kinds, due).coord.world.instant
    decreases |due|
  {
    hide FireBlock, FireShutdown, Starts;
    if due != [] {
      FireAllStaysClean(env, c, kinds, due[..|due| - 1]);
      var c1 := LookForStop(env, FireAll(env, c, kinds, due[..|due| - 1]).coord);
      InstantGrows(env, c1, due[|due| - 1]);
      FiringStaysClean(env, c1, due[|due| - 1]);
    }
  }

  // ---- the retry ---------------------------------------------------------------------------------------

  /** Nothing about the gate and its retry has changed from `c` to `d`. */
  ghost predicate GateAside(c: Coord, d: Coord) {
    && d.mem.retry == c.mem.retry && d.observed == c.observed && d.retryAt == c.retryAt
    && d.hub.retryPolicyError == c.hub.retryPolicyError && d.hub.health.gateHealthy == c.hub.health.gateHealthy
  }

  /** From `c` to `d` the gate was left aside; or it has confirmed last, and the metadata are cleared; or it
      has refused last, and the retry is armed as the policy has answered in between. */
  ghost predicate RetryFollows(env: Environment, c: Coord, d: Coord) {
    || GateAside(c, d)
    || (d.hub.health.gateHealthy && d.mem.retry == None)
    || (!d.hub.health.gateHealthy && Armed(env, c.world.instant, d.world.instant, d))
  }

  lemma ArmedStays(env: Environment, lo: nat, c: Coord, d: Coord)
    requires Armed(env, lo, c.world.instant, c) && GateAside(c, d) && c.world.instant <= d.world.instant
    ensures Armed(env, lo, d.world.instant, d)
  {
    var n := c.mem.retry.value.attempts;
    var i: nat, j: nat :| lo <= i <= j < c.world.instant && ArmedAt(env, i, j, n, c);
    assert ArmedAt(env, i, j, n, d);
  }

  lemma RetryFollowsOn(env: Environment, b: Coord, c: Coord, d: Coord)
    requires RetryFollows(env, b, c) && RetryFollows(env, c, d) && b.world.instant <= c.world.instant <= d.world.instant
    ensures RetryFollows(env, b, d)
  {
    hide ArmedFor;
    if GateAside(c, d) {
      if Armed(env, b.world.instant, c.world.instant, c) { ArmedStays(env, b.world.instant, c, d); }
    } else if !(d.hub.health.gateHealthy && d.mem.retry == None) {
      ArmedEarlier(env, b.world.instant, c.world.instant, d);
    }
  }

  lemma NotStartedAside(env: Environment, c: Coord, id: TimerId)
    requires !Starts(env, c, FindAction(c.mem.actions, id))
    ensures GateAside(c, FireBlock(env, c, id))
  {
    hide Commit, FiredBlock, Recompute;
  }

  lemma ShutdownAside(env: Environment, c: Coord, id: TimerId)
    ensures GateAside(c, FireShutdown(env, c, id))
  {
    hide FireShutdown;
    FireShutdownAside(env, c, id);
  }

  lemma FiringRetry(env: Environment, c: Coord, id: TimerId)
    requires UniqueActions(c.mem.actions)
    ensures RetryFollows(env, c, FireShutdown(env, c, id))
    ensures FireBlock(env, c, id).world.stopSeen || RetryFollows(env, c, FireBlock(env, c, id))
  {
    hide FireBlock, FireShutdown, ArmedFor, Dropped, FailedFor, Confirms, Refusal;
    ShutdownAside(env, c, id);
    var k := FindAction(c.mem.actions, id);
    if Starts(env, c, k) { BlockDeadlineOutcome(env, c, k); } else { NotStartedAside(env, c, id); }
  }

  lemma {:induction false} FireAllRetry(env: Environment, c: Coord, kinds: map<TimerId, Anchor>, due: seq<TimerId>)
    requires Durable(c) && KindsMatch(c.mem.actions, kinds) && (forall id <- due :: id in kinds)
    ensures var d := FireAll(env, c, kinds, due).coord;
      c.world.instant <= d.world.instant && (d.world.stopSeen || RetryFollows(env, c, d))
    decreases |due|
  {
    hide FireBlock, FireShutdown, Durable, Armed;
    if due != [] {
      var front, id := due[..|due| - 1], due[|due| - 1];
      FireAllRetry(env, c, kinds, front);
      FireAllKeeps(env, c, kinds, front);
      FireAllAborts(env, c, kinds, front);
      var f := FireAll(env, c, kinds, front);
      var c1 := LookForStop(env, f.coord);
      DurableIsUnique(f.coord);
      InstantGrows(env, c1, id);
      if !c1.world.stopSeen {
        FiringRetry(env, c1, id);
        var d := FireAll(env, c, kinds, due).coord;
        if !d.world.stopSeen {
          RetryFollowsOn(env, f.coord, c1, d);
          RetryFollowsOn(env, c, f.coord, d);
        }
      }
    }
  }

  /** The retry clock over a whole tick, in every run. */
  lemma TickRetry(env: Environment, c: Coord, order: seq<TimerId>)
    requires Durable(c) && Timed(c)
    ensures var d := Tick(env, c, order); d.world.stopSeen || RetryFollows(env, c, d)
  {
    hide WarnAll, FireAll, Retry, Durable, Timed, Expired, Armed, Confirms, Refusal;
    var c0 := LookForStop(env, c);
    if !c0.world.stopSeen {
      var now, c1 := Mono(env, c0), Looked(c0);
      HushedKeeps(c, c1);
      WarnAllAside(env, c1, order, now);
      WarnAllKeeps(env, c1, order, now);
      WarnAllInstant(env, c1, order, now);
      var c2 := WarnAll(env, c1, order, now);
      TimedKinds(c);
      KindsSurvive(c.mem.actions, c2.mem.actions, c.timers);
      ExpiredFacts(c.timers, order, now);
      var due := Expired(c.timers, order, now);
      FireAllRetry(env, c2, c.timers, due);
      var f := FireAll(env, c2, c.timers, due);
      FireAllAborts(env, c2, c.timers, due);
      var c3 := f.coord.(retryAt := None);
      RetryLatches(env, c3);
      RetryInstant(env, c3);
      RetryOutcomeFacts(env, c3);
      if !f.coord.world.stopSeen {
        RetryFollowsOn(env, c, c2, f.coord);
        var d := Tick(env, c, order);
        if d != f.coord && !d.world.stopSeen {
          assert d == Retry(env, c3);
          assert !d.hub.health.gateHealthy ==> RefusalRecorded(env, c3, d, Refusal(env(LookForStop(env, c3).world.instant).gate));
          if !d.hub.health.gateHealthy { ArmedEarlier(env, c.world.instant, f.coord.world.instant, d); }
        }
      }
    }
  }

  lemma {:induction false} WarnAllInstant(env: Environment, c: Coord, order: seq<TimerId>, now: nat)
    ensures c.world.instant <= WarnAll(env, c, order, now).world.instant
    decreases |order|
  {
    hide Commit, TellWarnings, CrossedBy, SecondsLeft, WarnEdit, Recompute;
    if order != [] { WarnAllInstant(env, c, order[..|order| - 1], now); }
  }

  // ---- when the retry is made ----------------------------------------------------------------------------

  ghost predicate RefusedAt(env: Environment, i: nat) { !Confirms(Blocked, env(i).gate) }

  /** A block was due and refused from `lo` on, and the next retry lies ahead, if there is to be one. */
  ghost predicate Postponed(env: Environment, lo: nat, d: Coord, calls: seq<Call>, now: nat) {
    && Gate(Blocked) in calls && (exists i: nat :: lo <= i < d.world.instant && RefusedAt(env, i))
    && (d.retryAt.Some? ==> now < d.retryAt.value)
  }

  lemma ArmedIsAhead(env: Environment, lo: nat, c: Coord, now: nat)
    requires Kind(env, lo, now) && Armed(env, lo, c.world.instant, c)
    ensures c.retryAt.Some? ==> now < c.retryAt.value
  {
    var i: nat, j: nat :| lo <= i <= j < c.world.instant && ArmedAt(env, i, j, c.mem.retry.value.attempts, c);
    assert env(j).mono >= now;
  }

  lemma FireBlockPostpones(env: Environment, c: Coord, id: TimerId, now: nat)
    requires UniqueActions(c.mem.actions) && Kind(env, c.world.instant, now)
    ensures var d := FireBlock(env, c, id);
      && (d.world.stopSeen || d.retryAt == c.retryAt || (id !in d.timers && Postponed(env, c.world.instant, d, [Gate(Blocked)], now)))
  {
    hide FireBlock, Refusal, Dropped, FailedFor, Confirms, Kind, Armed;
    var k, d := FindAction(c.mem.actions, id), FireBlock(env, c, id);
    if Starts(env, c, k) {
      var asked := BlockAsked(env, c, k);
      BlockDeadlineOutcome(env, c, k);
      AskedWithin(env, c, k);
      if !d.world.stopSeen && d.retryAt != c.retryAt {
        assert RefusedAt(env, asked.world.instant);
        ArmedIsAhead(env, c.world.instant, d, now);
      }
    } else {
      NotStartedAside(env, c, id);
    }
  }

  lemma {:induction false} FireAllPostpones(env: Environment, c: Coord, kinds: map<TimerId, Anchor>, due: seq<TimerId>, now: nat)
    requires Durable(c) && KindsMatch(c.mem.actions, kinds) && Distinct(due) && (forall id <- due :: id in kinds && id in c.timers)
    requires Kind(env, c.world.instant, now)
    ensures var d := FireAll(env, c, kinds, due).coord;
      && c.world.instant <= d.world.instant
      && (d.world.stopSeen || d.retryAt == c.retryAt || Postponed(env, c.world.instant, d, CallsOfGone(kinds, d.timers, due), now))
    decreases |due|
  {
    hide FireBlock, FireShutdown, Durable, Kind, RefusedAt;
    if due != [] {
      var front, id := due[..|due| - 1], due[|due| - 1];
      assert due == front + [id] && id !in front;
      FireAllPostpones(env, c, kinds, front, now);
      FireAllKeeps(env, c, kinds, front);
      FireAllAborts(env, c, kinds, front);
      FireAllCalls(env, c, kinds, front);
      var f := FireAll(env, c, kinds, front);
      var c1 := LookForStop(env, f.coord);
      var d := FireAll(env, c, kinds, due).coord;
      DurableIsUnique(f.coord);
      InstantGrows(env, c1, id);
      FireBlockCalls(env, c1, id);
      FireShutdownCalls(env, c1, id);
      KindLater(env, c.world.instant, c1.world.instant, now);
      FireBlockPostpones(env, c1, id, now);
      ShutdownAside(env, c1, id);
      CallsOfGoneSame(kinds, f.coord.timers, d.timers, front);
      if !d.world.stopSeen && d.retryAt != c.retryAt { PostponedOn(env, c, f.coord, c1, d, kinds, front, id, now); }
    }
  }

  lemma PostponedOn(env: Environment, b: Coord, c: Coord, c1: Coord, d: Coord, kinds: map<TimerId, Anchor>, front: seq<TimerId>, id: TimerId, now: nat)
    requires b.world.instant <= c.world.instant <= c1.world.instant <= d.world.instant && c1.retryAt == c.retryAt && d.retryAt != b.retryAt
    requires c.retryAt == b.retryAt || Postponed(env, b.world.instant, c, CallsOfGone(kinds, c.timers, front), now)
    requires CallsOfGone(kinds, c.timers, front) == CallsOfGone(kinds, d.timers, front)
    requires d.retryAt == c1.retryAt ||
      (id in kinds && kinds[id].kind.BlockInternet? && id !in d.timers && Postponed(env, c1.world.instant, d, [Gate(Blocked)], now))
    ensures Postponed(env, b.world.instant, d, CallsOfGone(kinds, d.timers, front + [id]), now)
  {
    hide RefusedAt;
    assert (front + [id])[..|front|] == front;
  }

  /** The calls of a tick, the retry included. */
  ghost predicate CalledWithRetry(env: Environment, c: Coord, d: Coord, calls: seq<Call>, now: nat) {
    var before, after := Calls(c.world.trace), Calls(d.world.trace);
    && (c.retryAt.None? || now < c.retryAt.value ==> after == before + calls)
    && (c.retryAt.Some? && c.retryAt.value <= now && c.hub.health.persistenceHealthy && c.pending.None? ==>
          || after == before + calls + [Gate(d.mem.desired)]
          || (after == before + calls && Gate(Blocked) in calls && exists i: nat :: c.world.instant <= i < d.world.instant && RefusedAt(env, i)))
  }

  lemma TickRetriesExactly(env: Environment, c: Coord, order: seq<TimerId>)
    requires Durable(c) && Timed(c) && Distinct(order) && Kind(env, c.world.instant, TickTime(env, c))
    ensures var d := Tick(env, c, order);
      d.world.stopSeen || CalledWithRetry(env, c, d, CallsOfGone(c.timers, d.timers, Expired(c.timers, order, TickTime(env, c))), TickTime(env, c))
  {
    hide WarnAll, FireAll, Retry, Expired, Calls, Durable, Timed, Kind, CallsOfGone, RefusedAt;
    var c0 := LookForStop(env, c);
    if !c0.world.stopSeen {
      var now, c1 := Mono(env, c0), Looked(c0);
      HushedKeeps(c, c1);
      WarnAllCalls(env, c1, order, now);
      WarnAllKeys(env, c1, order, now);
      WarnAllKeeps(env, c1, order, now);
      WarnAllAside(env, c1, order, now);
      WarnAllInstant(env, c1, order, now);
      KindLater(env, c.world.instant, c1.world.instant, now);
      var c2 := WarnAll(env, c1, order, now);
      KindLater(env, c.world.instant, c2.world.instant, now);
      var due := Expired(c.timers, order, now);
      ExpiredDistinct(c.timers, order, now);
      TimedKinds(c);
      KindsSurvive(c.mem.actions, c2.mem.actions, c.timers);
      FireAllCalls(env, c2, c.timers, due);
      FireAllPostpones(env, c2, c.timers, due, now);
      FireAllAborts(env, c2, c.timers, due);
      var f := FireAll(env, c2, c.timers, due);
      if Clean(c) {
        WarnAllStaysClean(env, c1, order, now);
        KindSaves(env, c2.world.instant, now);
        FireAllStaysClean(env, c2, c.timers, due);
      }
      FinishCalls(env, c, f.coord, CallsOfGone(c.timers, f.coord.timers, due), now, c2.world.instant);
      RetryTimers(env, f.coord.(retryAt := None));
    }
  }

  lemma KindSaves(env: Environment, from: nat, now: nat)
    requires Kind(env, from, now)
    ensures SavesFrom(env, from)
  {
  }

  lemma FinishCalls(env: Environment, c: Coord, f: Coord, calls: seq<Call>, now: nat, lo: nat)
    requires f.world.stopSeen || Calls(f.world.trace) == Calls(c.world.trace) + calls
    requires f.world.stopSeen || f.retryAt == c.retryAt || Postponed(env, lo, f, calls, now)
    requires c.world.instant <= lo <= f.world.instant && (Clean(c) ==> Clean(f))
    ensures var d := RetryIfDue(env, f, now);
      f.world.stopSeen || d.world.stopSeen || CalledWithRetry(env, c, d, calls, now)
    ensures f.world.stopSeen ==> RetryIfDue(env, f, now).world.stopSeen
  {
    hide Retry, Calls, RefusedAt;
    var c3 := f.(retryAt := None);
    RetryCalls(env, c3);
    RetryLatches(env, c3);
    RetryInstant(env, c3);
  }

  /** In every run: a tick in which saves succeed and no stop is seen asks for the retry of the gate not
      before its time, and at the first tick from then on, if nothing waits to be saved; unless a block of
      this tick was refused, and the retry is armed anew. */
  lemma RetryIsKept(env: Environment, m: Machine, steps: seq<Step>, order: seq<TimerId>)
    requires Installed(m) && Run(env, m, steps).Up? && Distinct(order)
    requires var c := Run(env, m, steps).coord; Kind(env, c.world.instant, TickTime(env, c))
    ensures var c := Run(env, m, steps).coord;
      var d, now := Tick(env, c, order), TickTime(env, c);
      d.world.stopSeen || CalledWithRetry(env, c, d, DueCalls(c.mem.actions, c.timers, order, now), now)
  {
    hide Run, Durable, Timed, Healed, Truthful, Kind, Tick, Calls, CallsOfGone, DueCalls, CalledWithRetry, Stale;
    RunIsSane(env, m, steps);
    var c := Run(env, m, steps).coord;
    TickRetriesExactly(env, c, order);
    ExpiredAreGone(env, c, order);
    if !Tick(env, c, order).world.stopSeen {
      GoneIsDue(c.mem.actions, c.timers, Tick(env, c, order).timers, order, TickTime(env, c));
    }
  }
}
