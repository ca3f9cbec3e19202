/** Deadlines are kept: what a tick asks of the gate and of the power controller is exactly what the
    expired timers of pending actions call for. */
module Liveness {
  import opened Domain
  import opened World
  import opened Subscribers
  import opened Runtime
  import opened Recovery
  import opened Safety
  import opened Durability
  import opened Edits
  import opened Preservation
  import opened Deadlines
  import opened Timers
  import opened Healing
  import opened Aggregate
  import opened Booting
  import opened Wake
  import opened Theorems

  datatype Call = Gate(target: DesiredInternet) | Power(id: TimerId)

  /** Everything asked of the gate and of the power controller, oldest first. */
  ghost function Calls(t: Trace): seq<Call> {
    match t
    case Start(_) => []
    case Then(past, GateCall(target)) => Calls(past) + [Gate(target)]
    case Then(past, PowerCall(id, _)) => Calls(past) + [Power(id)]
    case Then(past, _) => Calls(past)
  }

  function CallOf(kind: ActionKind, id: TimerId): Call {
    match kind
    case BlockInternet => Gate(Blocked)
    case ShutdownComputer => Power(id)
  }

  /** The calls of the timers of `due` that are in the table `before` but not in `after`. */
  ghost function CallsOfGone(before: map<TimerId, Anchor>, after: map<TimerId, Anchor>, due: seq<TimerId>): seq<Call> {
    if due == [] then []
    else
      var rest, id := CallsOfGone(before, after, due[..|due| - 1]), due[|due| - 1];
      if id in before && id !in after then rest + [CallOf(before[id].kind, id)] else rest
  }

  /** The calls the expired timers of pending actions are there for, in the order of the table. */
  ghost function DueCalls(actions: seq<Action>, timers: map<TimerId, Anchor>, order: seq<TimerId>, now: nat): seq<Call> {
    if order == [] then []
    else
      var rest, id := DueCalls(actions, timers, order[..|order| - 1], now), order[|order| - 1];
      if id in timers && timers[id].target <= now && !Stale(actions, id) then rest + [CallOf(timers[id].kind, id)] else rest
  }

  ghost predicate Distinct(ids: seq<TimerId>) {
    forall i, j :: 0 <= i < j < |ids| ==> ids[i] != ids[j]
  }

  // ---- what calls nothing --------------------------------------------------------------------------

  ghost predicate SameCalls(c: Coord, d: Coord) { Calls(d.world.trace) == Calls(c.world.trace) }

  lemma {:induction false} QuietCalls(t: Trace, u: Trace)
    requires Quiet(t, u)
    ensures Calls(u) == Calls(t)
  {
    if u != t { QuietCalls(t, u.past); }
  }

  lemma TellCalls(env: Environment, c: Coord, e: Event)
    ensures SameCalls(c, Tell(env, c, e))
  {
    EmitQuiet(env, c.hub, c.world, e);
    QuietCalls(c.world.Did(Broadcast(e)).trace, Tell(env, c, e).world.trace);
  }

  lemma HushedCalls(c: Coord, d: Coord)
    requires Hushed(c, d)
    ensures SameCalls(c, d)
  {
    QuietCalls(c.world.trace, d.world.trace);
  }

  lemma SavingCalls(env: Environment, c: Coord, after: PersistentState)
    ensures SameCalls(c, Commit(env, c, after)) && SameCalls(c, CommitPost(env, c, after))
  {
    hide MarkPersistence, Recompute;
    var ok := SaveOk(env, c);
    var b1, b2 := AfterSave(c, after, ok, false), AfterSave(c, after, ok, true);
    MarkPersistenceFacts(env, b1, ok);
    MarkPersistenceFacts(env, b2, ok);
    QuietCalls(b1.world.trace, Commit(env, c, after).world.trace);
    QuietCalls(b2.world.trace, CommitPost(env, c, after).world.trace);
  }

  lemma GateFailureCalls(env: Environment, c: Coord, edited: PersistentState)
    ensures SameCalls(c, RecordGateFailure(env, c, edited))
  {
    hide CommitPost, ScheduleRetry, Recompute;
    SavingCalls(env, c, edited);
    ScheduleRetryHushed(env, CommitPost(env, c, edited));
    HushedCalls(CommitPost(env, c, edited), RecordGateFailure(env, c, edited));
  }

  lemma {:induction false} TellWarningsCalls(env: Environment, c: Coord, a: Action, due: seq<Threshold>, utc: int)
    ensures SameCalls(c, TellWarnings(env, c, a, due, utc))
    decreases |due|
  {
    hide Tell;
    if due != [] {
      TellWarningsCalls(env, c, a, due[..|due| - 1], utc);
      TellCalls(env, TellWarnings(env, c, a, due[..|due| - 1], utc), WarningReached(a.id, a.kind, due[|due| - 1], a.deadline, utc));
    }
  }

  lemma WarnCalls(env: Environment, c: Coord, id: TimerId, now: nat)
    ensures SameCalls(c, Warn(env, c, id, now))
  {
    hide WarnCrossed, SecondsLeft, CrossedBy;
    if id in c.timers {
      var current := SecondsLeft(c.timers[id], now);
      WarnCrossedCalls(env, c, id, current, CrossedBy(c, id, c.timers[id].cursor, current));
    }
  }

  lemma WarnCrossedCalls(env: Environment, c: Coord, id: TimerId, current: nat, crossed: seq<Threshold>)
    requires id in c.timers
    ensures SameCalls(c, WarnCrossed(env, c, id, current, crossed))
  {
    hide Commit, TellWarnings, WarnEdit, Recompute;
    var k := FindAction(c.mem.actions, id);
    if k < |c.mem.actions| {
      var c1 := c.(world := c.world.Draw(|crossed|));
      var after := WarnEdit(c.mem, k, crossed, c.world.nextId);
      SavingCalls(env, c1, after);
      var described := c.mem.actions[k].(kind := c.timers[id].kind, deadline := c.timers[id].deadline);
      var c3 := SetCursor(Commit(env, c1, after), described.id, current);
      TellWarningsCalls(env, Looked(c3), described, crossed, Utc(env, c3));
    }
  }

  lemma {:induction false} WarnAllCalls(env: Environment, c: Coord, order: seq<TimerId>, now: nat)
    ensures SameCalls(c, WarnAll(env, c, order, now))
    decreases |order|
  {
    hide Warn;
    if order != [] {
      WarnAllCalls(env, c, order[..|order| - 1], now);
      WarnCalls(env, WarnAll(env, c, order[..|order| - 1], now), order[|order| - 1], now);
    }
  }

  // ---- deadlines ----------------------------------------------------------------------------------

  /** Unless a stop is seen, this one call was made from `c` to `d`. */
  ghost predicate Made(c: Coord, d: Coord, call: Call) {
    d.world.stopSeen || Calls(d.world.trace) == Calls(c.world.trace) + [call]
  }

  lemma FiredBlockCalls(env: Environment, before: Coord, c: Coord, id: TimerId)
    ensures Made(c, FiredBlock(env, before, c, id), Gate(Blocked))
  {
    hide Tell, TellPolicy, BlockOutcome;
    var c1 := c.(timers := c.timers - {id});
    TellCalls(env, c1, TimerExpired(id, BlockInternet));
    var c3 := LookForStop(env, Tell(env, c1, TimerExpired(id, BlockInternet)));
    var c4 := ApplyGate(env, c3, Blocked);
    TellPolicyHushed(env, c4, before.mem.desired, before.observed, TimerFired(id));
    var c5 := TellPolicy(env, c4, before.mem.desired, before.observed, TimerFired(id));
    HushedCalls(c4, c5);
    BlockOutcomeCalls(env, c5, id, GateError(Blocked, env(c3.world.instant).gate));
  }

  lemma BlockOutcomeCalls(env: Environment, c: Coord, id: TimerId, error: Option<string>)
    ensures SameCalls(c, BlockOutcome(env, c, id, error))
  {
    hide CommitPost, MarkGate, RecordGateFailure, CompleteEdit, FailEdit, Recompute;
    MarksHushed(env, c, error);
    var c1 := MarkGate(env, c, error);
    HushedCalls(c, c1);
    SavingCalls(env, c1, CompleteEdit(c.mem, id).(retry := None));
    if error.Some? {
      GateFailureCalls(env, c1.(world := c1.world.Draw(1)), RetryEdit(FailEdit(c.mem, id, error.value), error.value, c1.world.nextId));
    }
  }

  lemma FiredShutdownCalls(env: Environment, c: Coord, id: TimerId)
    ensures Made(c, FiredShutdown(env, c, id), Power(id))
  {
    hide Tell, PowerOutcome;
    var c1 := c.(timers := c.timers - {id});
    TellCalls(env, c1, TimerExpired(id, ShutdownComputer));
    var c3 := LookForStop(env, Tell(env, c1, TimerExpired(id, ShutdownComputer)));
    var outcome := env(c3.world.instant).power;
    PowerOutcomeCalls(env, c3.(world := c3.world.Did(PowerCall(id, outcome))), id, outcome);
  }

  lemma PowerOutcomeCalls(env: Environment, c: Coord, id: TimerId, outcome: Outcome)
    ensures SameCalls(c, PowerOutcome(env, c, id, outcome))
  {
    hide MarkPower, PowerAccepted, PowerRefused, Recompute;
    var error := match outcome case Success => None case Failure(reason) => Some(reason);
    MarksHushed(env, c, error);
    var c1 := MarkPower(env, c, error);
    HushedCalls(c, c1);
    PowerAcceptedCalls(env, c, c1, id);
    if outcome.Failure? { PowerRefusedCalls(env, c, c1, id, outcome.reason); }
  }

  lemma TellShutdownCalls(env: Environment, c: Coord, previous: ShutdownState, current: ShutdownState)
    ensures SameCalls(c, TellShutdown(env, c, previous, current))
  {
    hide Tell;
    TellCalls(env, c, ShutdownStateChanged(previous, current));
  }

  lemma PowerAcceptedCalls(env: Environment, c: Coord, c1: Coord, id: TimerId)
    ensures SameCalls(c1, PowerAccepted(env, c, c1, id))
  {
    hide CommitPost, TellShutdown, CompleteEdit, Recompute;
    var b := c1.(shutdown := InProgress);
    TellShutdownCalls(env, b, c.shutdown, InProgress);
    SavingCalls(env, TellShutdown(env, b, c.shutdown, InProgress), CompleteEdit(c.mem, id));
  }

  lemma PowerRefusedCalls(env: Environment, c: Coord, c1: Coord, id: TimerId, reason: string)
    ensures SameCalls(c1, PowerRefused(env, c, c1, id, reason))
  {
    hide CommitPost, TellShutdown, FailEdit, DeriveShutdown, Recompute;
    var failed := FailEdit(c.mem, id, reason);
    var edited := failed.(outbox := failed.outbox + [Notice(c1.world.nextId, reason)]);
    var current := DeriveShutdown(c.shutdown, edited.actions);
    var c2 := c1.(world := c1.world.Draw(1), shutdown := current);
    SavingCalls(env, c2, edited);
    TellShutdownCalls(env, CommitPost(env, c2, edited), c.shutdown, current);
  }

  /** A deadline makes its call exactly if it takes its timer out of the table, and touches no other. */
  lemma FireBlockCalls(env: Environment, c: Coord, id: TimerId)
    requires id in c.timers
    ensures var d := FireBlock(env, c, id);
      && (if id in d.timers then SameCalls(c, d) && d.timers == c.timers else Made(c, d, Gate(Blocked)) && d.timers == c.timers - {id})
  {
    hide Commit, FiredBlock, Recompute, Calls;
    var c0 := LookForStop(env, c);
    var k := FindAction(c.mem.actions, id);
    if k < |c.mem.actions| {
      var after := c.mem.(actions := SetExec(c.mem.actions, k, Executing), desired := Blocked);
      SavingCalls(env, c0, after);
      FiredBlockClears(env, c, Commit(env, c0, after), id);
      FiredBlockCalls(env, c, Commit(env, c0, after), id);
    }
  }

  lemma FireShutdownCalls(env: Environment, c: Coord, id: TimerId)
    requires id in c.timers
    ensures var d := FireShutdown(env, c, id);
      && (if id in d.timers then SameCalls(c, d) && d.timers == c.timers else Made(c, d, Power(id)) && d.timers == c.timers - {id})
  {
    hide Commit, FiredShutdown, Recompute, Calls;
    var c0 := LookForStop(env, c);
    var k := FindAction(c.mem.actions, id);
    if k < |c.mem.actions| {
      var after := c.mem.(actions := SetExec(c.mem.actions, k, Executing));
      SavingCalls(env, c0, after);
      FiredShutdownClears(env, Commit(env, c0, after), id);
      FiredShutdownCalls(env, Commit(env, c0, after), id);
    }
  }

  lemma {:induction false} CallsOfGoneSame(before: map<TimerId, Anchor>, after: map<TimerId, Anchor>, later: map<TimerId, Anchor>, due: seq<TimerId>)
    requires forall id <- due :: id in after <==> id in later
    ensures CallsOfGone(before, after, due) == CallsOfGone(before, later, due)
    decreases |due|
  {
    if due != [] {
      assert due == due[..|due| - 1] + [due[|due| - 1]];
      CallsOfGoneSame(before, after, later, due[..|due| - 1]);
    }
  }

  /** Over all deadlines of a tick. */
  lemma {:induction false} FireAllCalls(env: Environment, c: Coord, kinds: map<TimerId, Anchor>, due: seq<TimerId>)
    requires Distinct(due) && forall id <- due :: id in c.timers && id in kinds
    ensures var d := FireAll(env, c, kinds, due).coord;
      && (c.world.stopSeen ==> d.world.stopSeen)
      && (d.world.stopSeen || Calls(d.world.trace) == Calls(c.world.trace) + CallsOfGone(kinds, d.timers, due))
      && (forall x :: x !in due ==> (x in d.timers <==> x in c.timers))
    decreases |due|
  {
    hide FireBlock, FireShutdown, Calls;
    if due != [] {
      var front, id := due[..|due| - 1], due[|due| - 1];
      assert due == front + [id] && id !in front;
      FireAllCalls(env, c, kinds, front);
      var f := FireAll(env, c, kinds, front);
      var c1 := LookForStop(env, f.coord);
      InstantGrows(env, c1, id);
      FireBlockCalls(env, c1, id);
      FireShutdownCalls(env, c1, id);
      CallsOfGoneSame(kinds, f.coord.timers, FireAll(env, c, kinds, due).coord.timers, front);
    }
  }

  // ---- the tick -----------------------------------------------------------------------------------

  lemma RetryCalls(env: Environment, c: Coord)
    ensures Made(c, Retry(env, c), Gate(c.mem.desired)) && Retry(env, c).mem.desired == c.mem.desired
    ensures c.world.stopSeen ==> Retry(env, c).world.stopSeen
  {
    hide TellPolicy, RetryOutcome;
    RetryLatches(env, c);
    var c1 := LookForStop(env, c);
    var c2 := ApplyGate(env, c1, c.mem.desired);
    TellPolicyHushed(env, c2, c.mem.desired, c.observed, PlatformSync);
    var c3 := TellPolicy(env, c2, c.mem.desired, c.observed, PlatformSync);
    HushedCalls(c2, c3);
    RetryOutcomeCalls(env, c3, GateError(c.mem.desired, env(c1.world.instant).gate));
  }

  lemma RetryOutcomeCalls(env: Environment, c: Coord, error: Option<string>)
    ensures SameCalls(c, RetryOutcome(env, c, error)) && RetryOutcome(env, c, error).mem.desired == c.mem.desired
  {
    hide CommitPost, MarkGate, RecordGateFailure, ResolveBlocks, Recompute;
    MarksHushed(env, c, error);
    var c1 := MarkGate(env, c, error);
    HushedCalls(c, c1);
    SavingCalls(env, c1, RetryDoneEdit(c.mem));
    if error.Some? {
      GateFailureCalls(env, c1.(world := c1.world.Draw(1)), RetryEdit(c.mem, error.value, c1.world.nextId));
    }
  }

  lemma {:induction false} WarnAllKeys(env: Environment, c: Coord, order: seq<TimerId>, now: nat)
    ensures var d := WarnAll(env, c, order, now);
      d.timers.Keys == c.timers.Keys && d.world.stopSeen == c.world.stopSeen && d.mem.desired == c.mem.desired
    decreases |order|
  {
    hide Commit, TellWarnings, CrossedBy, SecondsLeft, WarnEdit, Recompute;
    if order != [] { WarnAllKeys(env, c, order[..|order| - 1], now); }
  }

  lemma {:induction false} ExpiredDistinct(timers: map<TimerId, Anchor>, order: seq<TimerId>, now: nat)
    requires Distinct(order)
    ensures Distinct(Expired(timers, order, now))
    ensures forall id <- Expired(timers, order, now) :: id in order && id in timers
    decreases |order|
  {
    if order != [] {
      var front, id := order[..|order| - 1], order[|order| - 1];
      assert order == front + [id] && id !in front;
      ExpiredDistinct(timers, front, now);
    }
  }

  /** At most one call of the gate for the policy on record. */
  ghost predicate IsRetry(calls: seq<Call>, desired: DesiredInternet) {
    calls == [] || calls == [Gate(desired)]
  }

  /** From `c` to `d` these calls were made, and after them at most a retry. */
  ghost predicate Called(c: Coord, d: Coord, calls: seq<Call>) {
    exists retry: seq<Call> :: IsRetry(retry, d.mem.desired) && Calls(d.world.trace) == Calls(c.world.trace) + calls + retry
  }

  /** Whatever fails: a tick in which no stop is seen asks exactly for what the timers it takes out of the
      table are there for, each once and in order, and at most once more for the gate, as a retry. */
  lemma TickCallsExactly(env: Environment, c: Coord, order: seq<TimerId>)
    requires Distinct(order)
    ensures var d := Tick(env, c, order);
      d.world.stopSeen || Called(c, d, CallsOfGone(c.timers, d.timers, Expired(c.timers, order, TickTime(env, c))))
  {
    hide WarnAll, FireAll, Retry, Expired, Calls;
    var c0 := LookForStop(env, c);
    if !c0.world.stopSeen {
      var now, c1 := Mono(env, c0), Looked(c0);
      WarnAllCalls(env, c1, order, now);
      WarnAllKeys(env, c1, order, now);
      var c2 := WarnAll(env, c1, order, now);
      var due := Expired(c.timers, order, now);
      ExpiredDistinct(c.timers, order, now);
      FireAllCalls(env, c2, c.timers, due);
      var f := FireAll(env, c2, c.timers, due);
      FireAllAborts(env, c2, c.timers, due);
      var c3 := f.coord.(retryAt := None);
      RetryCalls(env, c3);
      RetryTimers(env, c3);
      var d := Tick(env, c, order);
      var calls := CallsOfGone(c.timers, d.timers, due);
      if d == f.coord {
        assert Calls(c.world.trace) + calls + [] == Calls(c.world.trace) + calls;
        assert d.world.stopSeen || Called(c, d, calls) by { assert IsRetry([], d.mem.desired); }
      } else {
        assert d == Retry(env, c3);
        assert d.world.stopSeen || Called(c, d, calls) by { assert IsRetry([Gate(d.mem.desired)], d.mem.desired); }
      }
    }
  }

  lemma {:induction false} FireAllAborts(env: Environment, c: Coord, kinds: map<TimerId, Anchor>, due: seq<TimerId>)
    ensures var f := FireAll(env, c, kinds, due); f.aborted ==> f.coord.world.stopSeen
    decreases |due|
  {
    hide FireBlock, FireShutdown;
    if due != [] { FireAllAborts(env, c, kinds, due[..|due| - 1]); }
  }

  lemma {:induction false} GoneIsDue(actions: seq<Action>, before: map<TimerId, Anchor>, after: map<TimerId, Anchor>, order: seq<TimerId>, now: nat)
    requires forall id <- Expired(before, order, now) :: id in after <==> Stale(actions, id)
    ensures CallsOfGone(before, after, Expired(before, order, now)) == DueCalls(actions, before, order, now)
    decreases |order|
  {
    hide Stale;
    if order != [] {
      var front, id := order[..|order| - 1], order[|order| - 1];
      var rest := Expired(before, front, now);
      assert forall x <- rest :: x in Expired(before, order, now);
      GoneIsDue(actions, before, after, front, now);
      if id in before && now >= before[id].target {
        assert Expired(before, order, now) == rest + [id];
        assert (rest + [id])[..|rest|] == rest;
        assert id in Expired(before, order, now);
      }
    }
  }

  /** With saves that succeed, the timers a tick takes out are those of pending actions that have expired. */
  lemma ExpiredAreGone(env: Environment, c: Coord, order: seq<TimerId>)
    requires Durable(c) && Timed(c) && Kind(env, c.world.instant, TickTime(env, c))
    ensures var d := Tick(env, c, order);
      d.world.stopSeen || forall id <- Expired(c.timers, order, TickTime(env, c)) :: id in d.timers <==> Stale(c.mem.actions, id)
  {
    hide WarnAll, FireAll, Retry, Durable, Timed, Kind, Stale, Expired;
    var c0 := LookForStop(env, c);
    if !c0.world.stopSeen {
      var now, c1 := Mono(env, c0), Looked(c0);
      HushedKeeps(c, c1);
      KindLater(env, c.world.instant, c1.world.instant, now);
      var c2 := WarnAll(env, c1, order, now);
      WarnAllKeeps(env, c1, order, now);
      WarnAllUpdates(env, c1, order, now);
      TimedKinds(c);
      KindsSurvive(c.mem.actions, c2.mem.actions, c.timers);
      ExpiredFacts(c.timers, order, now);
      KindLater(env, c.world.instant, c2.world.instant, now);
      var due := Expired(c.timers, order, now);
      FireAllClears(env, c2, c.timers, due, now);
      var f := FireAll(env, c2, c.timers, due);
      forall x | x in due
        ensures Stale(c2.mem.actions, x) <==> Stale(c.mem.actions, x)
        ensures Stale(c.mem.actions, x) ==> x in f.coord.timers
      {
        WarnAllKeepsPending(env, c1, order, now, x);
        if Stale(c.mem.actions, x) {
          StaleLater(c.mem.actions, c2.mem.actions, x);
          FireAllSparesStale(env, c2, c.timers, due, x);
        }
      }
      RetryTimers(env, f.coord.(retryAt := None));
      RetryLatches(env, f.coord.(retryAt := None));
    }
  }

  /** In every run: a tick in which saves succeed and no stop is seen asks the gate for the block, or the
      power controller for the shutdown, once for every pending action whose timer has expired, in the order
      of the table, and for nothing else but at most one retry of the gate. */
  lemma DeadlinesAreKept(env: Environment, m: Machine, steps: seq<Step>, order: seq<TimerId>)
    requires Installed(m) && Run(env, m, steps).Up? && Distinct(order)
    requires var c := Run(env, m, steps).coord; Kind(env, c.world.instant, TickTime(env, c))
    ensures var c := Run(env, m, steps).coord;
      var d := Tick(env, c, order);
      d.world.stopSeen || Called(c, d, DueCalls(c.mem.actions, c.timers, order, TickTime(env, c)))
  {
    hide Run, Durable, Timed, Healed, Truthful, Kind, Tick, Calls, CallsOfGone, DueCalls, IsRetry, Stale, Called;
    RunIsSane(env, m, steps);
    var c := Run(env, m, steps).coord;
    TickCallsExactly(env, c, order);
    ExpiredAreGone(env, c, order);
    if !Tick(env, c, order).world.stopSeen {
      GoneIsDue(c.mem.actions, c.timers, Tick(env, c, order).timers, order, TickTime(env, c));
    }
  }
}
