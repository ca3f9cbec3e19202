/** What comes of asking the gate and the power controller: an answer settles the action it was asked
    for, and a refusal is recorded and arms a retry as the retry policy says. */
module Settling {
  import opened Domain
  import opened World
  import opened Subscribers
  import opened Runtime
  import opened Outcomes
  import opened Wake

  // ---- answers of the gate -----------------------------------------------------------------------

  function ShownAs(target: DesiredInternet): InternetState {
    match target
    case Blocked => ObservedBlocked
    case Unrestricted => ObservedUnrestricted
  }

  /** The gate has applied `target` and shows it. */
  predicate Confirms(target: DesiredInternet, a: GateAnswer) {
    a.applied.Success? && a.reading == Seen(ShownAs(target))
  }

  /** Why it has not: a failing call comes first, then a failing reading. */
  function Refusal(a: GateAnswer): string {
    if a.applied.Failure? then a.applied.reason else if a.reading.Unreadable? then a.reading.reason else MISMATCH
  }

  function ReadingOf(a: GateAnswer): InternetState {
    if a.reading.Seen? then a.reading.state else Unknown
  }

  lemma GateErrorExact(target: DesiredInternet, a: GateAnswer)
    ensures GateError(target, a) == if Confirms(target, a) then None else Some(Refusal(a))
  {
  }

  // ---- the retry ---------------------------------------------------------------------------------

  /** The policy was asked at instant `i` for the n-th attempt, and the clock was read at `j`. */
  ghost predicate ArmedAt(env: Environment, i: nat, j: nat, n: nat, c: Coord) {
    var delay := env(i).delay(n);
    if delay == 0 then c.retryAt == None && c.hub.retryPolicyError == Some(ZERO_DELAY)
    else i < j && c.retryAt == Some(env(j).mono + delay) && c.hub.retryPolicyError == None
  }

  /** The retry of the n-th attempt was armed between two instants. */
  ghost predicate ArmedFor(env: Environment, lo: nat, hi: nat, n: nat, c: Coord) {
    exists i: nat, j: nat :: lo <= i <= j < hi && ArmedAt(env, i, j, n, c)
  }

  /** The retry of the attempt on record was. */
  ghost predicate Armed(env: Environment, lo: nat, hi: nat, c: Coord) {
    c.mem.retry.Some? && ArmedFor(env, lo, hi, c.mem.retry.value.attempts, c)
  }

  /** From `c` to `d` a refusal was recorded: one attempt more, one notice, and a retry. */
  ghost predicate RefusalRecorded(env: Environment, c: Coord, d: Coord, reason: string) {
    && d.mem.retry == Some(InternetRetry((if c.mem.retry.Some? then c.mem.retry.value.attempts else 0) + 1, Some(reason)))
    && NoticesAdded(c.mem.outbox, d.mem.outbox, 1)
    && !d.hub.health.gateHealthy && d.hub.gateError == Some(reason)
    && Armed(env, c.world.instant, d.world.instant, d)
  }

  /** The first thing is to ask the policy, and the last to read the clock. */
  lemma ScheduleRetryArms(env: Environment, c: Coord)
    requires c.mem.retry.Some?
    ensures var d := ScheduleRetry(env, c);
      ArmedAt(env, c.world.instant, d.world.instant - 1, c.mem.retry.value.attempts, d) && c.world.instant < d.world.instant && d.hub.gateError == c.hub.gateError
  {
    hide MarkRetryPolicy, Recompute;
  }

  lemma RecordArms(env: Environment, c: Coord, edited: PersistentState)
    requires edited.retry.Some?
    ensures var d := RecordGateFailure(env, c, edited);
      d.mem == edited && Armed(env, c.world.instant, d.world.instant, d) && d.hub.gateError == c.hub.gateError
  {
    hide CommitPost, ScheduleRetry, Recompute, ArmedAt;
    var c1 := CommitPost(env, c, edited);
    ScheduleRetryArms(env, c1);
    var d := RecordGateFailure(env, c, edited);
    assert ArmedAt(env, c1.world.instant, d.world.instant - 1, edited.retry.value.attempts, d);
  }

  /** The record of a refusal on top of actions that may have changed. */
  lemma RefusalIsRecorded(env: Environment, c: Coord, c1: Coord, moved: PersistentState, reason: string)
    requires moved == c.mem.(actions := moved.actions)
    requires c.world.instant <= c1.world.instant && !c1.hub.health.gateHealthy && c1.hub.gateError == Some(reason)
    ensures var d := RecordGateFailure(env, c1.(world := c1.world.Draw(1)), RetryEdit(moved, reason, c1.world.nextId));
      && RefusalRecorded(env, c, d, reason)
      && d.mem == c.mem.(actions := moved.actions, retry := d.mem.retry, outbox := d.mem.outbox)
      && d.observed == c1.observed && d.timers == c1.timers && d.world.stopSeen == c1.world.stopSeen
  {
    hide RecordGateFailure, ArmedAt;
    var edited := RetryEdit(moved, reason, c1.world.nextId);
    var c2 := c1.(world := c1.world.Draw(1));
    RecordArms(env, c2, edited);
    ArmedEarlier(env, c.world.instant, c2.world.instant, RecordGateFailure(env, c2, edited));
  }

  lemma ArmedEarlier(env: Environment, lo: nat, from: nat, d: Coord)
    requires lo <= from && Armed(env, from, d.world.instant, d)
    ensures Armed(env, lo, d.world.instant, d)
  {
    hide ArmedAt;
  }

  // ---- policy commands ---------------------------------------------------------------------------

  /** The coordinator that would ask the gate next in a policy command. */
  ghost function GateAsked(env: Environment, c: Coord, target: DesiredInternet): Coord {
    LookForStop(env, Commit(env, c, c.mem.(desired := target)))
  }

  /** A policy command saves the policy first, and then asks the gate if and only if no stop is requested.
      The policy stays on disk whatever the gate answers; confirmation clears the retry metadata, a refusal
      is recorded. */
  lemma SetPolicyOutcome(env: Environment, c: Coord, target: DesiredInternet, reason: ChangeReason)
    ensures var r := SetPolicy(env, c, target, reason);
      var asked := GateAsked(env, c, target);
      var answer := env(asked.world.instant).gate;
      if !SaveOk(env, c) then r.reply == PersistenceError && SameCore(c, r.coord)
      else
        && r.coord.mem.desired == r.coord.world.disk.desired == target && r.coord.mem.actions == c.mem.actions
        && r.coord.timers == c.timers && (r.coord.pending.None? ==> r.coord.world.disk == r.coord.mem)
        && if asked.world.stopSeen then
             r.reply == StoppingError && r.coord.mem == c.mem.(desired := target) && r.coord.observed == c.observed
           else
             && r.coord.observed == ReadingOf(answer)
             && (r.reply == PersistenceError <==> r.coord.pending.Some?)
             && if Confirms(target, answer) then
                  && r.coord.mem == c.mem.(desired := target, retry := None)
                  && r.coord.hub.health.gateHealthy && r.coord.hub.gateError == None && r.coord.retryAt == c.retryAt
                  && r.reply in {Done, PersistenceError}
                else
                  RefusalRecorded(env, c, r.coord, Refusal(answer)) && r.reply in {PlatformError(Refusal(answer)), PersistenceError}
  {
    hide Commit, PolicyOutcome, TellPolicy, Recompute, Confirms, Refusal, RefusalRecorded;
    if SaveOk(env, c) {
      var c2 := GateAsked(env, c, target);
      var answer := env(c2.world.instant).gate;
      var c4 := TellPolicy(env, ApplyGate(env, c2, target), c.mem.desired, c.observed, reason);
      GateErrorExact(target, answer);
      if !c2.world.stopSeen {
        if Confirms(target, answer) {
          PolicyConfirmed(env, c4);
        } else {
          PolicyRefused(env, c4, Refusal(answer));
          RecordedEarlier(env, c, c4, SetPolicy(env, c, target, reason).coord, Refusal(answer));
        }
      }
    }
  }

  lemma RecordedEarlier(env: Environment, c: Coord, c1: Coord, d: Coord, reason: string)
    requires c1.mem.retry == c.mem.retry && c1.mem.outbox == c.mem.outbox && c.world.instant <= c1.world.instant
    requires RefusalRecorded(env, c1, d, reason)
    ensures RefusalRecorded(env, c, d, reason)
  {
    ArmedEarlier(env, c.world.instant, c1.world.instant, d);
  }

  lemma PolicyConfirmed(env: Environment, c: Coord)
    requires c.pending.None? && c.world.disk == c.mem
    ensures var r := PolicyOutcome(env, c, None);
      && r.coord.mem == c.mem.(retry := None) && r.coord.world.disk.desired == c.mem.desired
      && r.coord.hub.health.gateHealthy && r.coord.hub.gateError == None && r.coord.retryAt == c.retryAt
      && r.reply in {Done, PersistenceError} && (r.reply == PersistenceError <==> r.coord.pending.Some?)
      && (r.coord.pending.None? ==> r.coord.world.disk == r.coord.mem)
  {
    hide CommitPost, MarkGate, Recompute;
  }

  lemma PolicyRefused(env: Environment, c: Coord, reason: string)
    requires c.pending.None? && c.world.disk == c.mem
    ensures var r := PolicyOutcome(env, c, Some(reason));
      && RefusalRecorded(env, c, r.coord, reason)
      && r.coord.mem == c.mem.(retry := r.coord.mem.retry, outbox := r.coord.mem.outbox)
      && r.coord.world.disk.desired == c.mem.desired
      && r.reply in {PlatformError(reason), PersistenceError} && (r.reply == PersistenceError <==> r.coord.pending.Some?)
      && (r.coord.pending.None? ==> r.coord.world.disk == r.coord.mem)
  {
    hide CommitPost, MarkGate, Recompute, RecordGateFailure, RefusalRecorded;
    var c1 := MarkGate(env, c, Some(reason));
    RefusalIsRecorded(env, c, c1, c.mem, reason);
    RecordSaves(env, c1.(world := c1.world.Draw(1)), RetryEdit(c1.mem, reason, c1.world.nextId));
  }

  lemma RecordSaves(env: Environment, c: Coord, edited: PersistentState)
    ensures var d := RecordGateFailure(env, c, edited);
      && d.world.disk == (if SaveOk(env, c) then edited else c.world.disk)
      && d.pending == (if SaveOk(env, c) then None else Some(edited))
  {
    hide CommitPost, ScheduleRetry, Recompute;
  }

  // ---- deadlines -----------------------------------------------------------------------------------

  /** `rest` is `actions` without the one at `k`. */
  ghost predicate Dropped(actions: seq<Action>, k: nat, rest: seq<Action>) {
    k < |actions| && rest == actions[..k] + actions[k + 1..]
  }

  /** `rest` is `actions`, where the one at `k` has failed for this reason. */
  ghost predicate FailedFor(actions: seq<Action>, k: nat, reason: string, rest: seq<Action>) {
    k < |actions| && rest == actions[k := actions[k].(exec := Failed(reason))]
  }

  lemma SettledEdits(s: PersistentState, k: nat, reason: string)
    requires UniqueActions(s.actions) && k < |s.actions| && s.actions[k].exec.Executing?
    ensures CompleteEdit(s, s.actions[k].id) == s.(actions := s.actions[..k] + s.actions[k + 1..])
    ensures FailEdit(s, s.actions[k].id, reason) == s.(actions := s.actions[k := s.actions[k].(exec := Failed(reason))])
  {
    hide RemoveAction;
    FoundAt(s.actions, k);
    RemoveOne(s.actions, k);
  }

  lemma FoundAt(actions: seq<Action>, k: nat)
    requires UniqueActions(actions) && k < |actions|
    ensures FindAction(actions, actions[k].id) == k
  {
  }

  lemma StartedUnique(actions: seq<Action>, k: nat)
    requires UniqueActions(actions) && k < |actions|
    ensures UniqueActions(SetExec(actions, k, Executing)) && SetExec(actions, k, Executing)[k].id == actions[k].id
    ensures forall rest :: Dropped(SetExec(actions, k, Executing), k, rest) ==> Dropped(actions, k, rest)
    ensures forall rest, reason :: FailedFor(SetExec(actions, k, Executing), k, reason, rest) ==> FailedFor(actions, k, reason, rest)
  {
    var after := SetExec(actions, k, Executing);
    forall reason: string ensures after[k := after[k].(exec := Failed(reason))] == actions[k := actions[k].(exec := Failed(reason))] {
    }
  }

  /** From `c` to `d` the block at `k` was enforced or refused, as the gate has answered. */
  ghost predicate BlockSettled(env: Environment, c: Coord, d: Coord, k: nat, answer: GateAnswer) {
    && d.mem.desired == d.world.disk.desired == Blocked && d.observed == ReadingOf(answer)
    && if Confirms(Blocked, answer) then
         && Dropped(c.mem.actions, k, d.mem.actions) && d.mem.retry == None && d.mem.outbox == c.mem.outbox
         && d.hub.health.gateHealthy && d.hub.gateError == None && d.retryAt == c.retryAt
       else
         FailedFor(c.mem.actions, k, Refusal(answer), d.mem.actions) && RefusalRecorded(env, c, d, Refusal(answer))
  }

  /** From `c` to `d` the shutdown at `k` was accepted or refused, as the power controller has answered. */
  ghost predicate ShutdownSettled(c: Coord, d: Coord, k: nat, outcome: Outcome) {
    && d.mem == c.mem.(actions := d.mem.actions, outbox := d.mem.outbox)
    && d.observed == c.observed && d.retryAt == c.retryAt && d.hub.health.gateHealthy == c.hub.health.gateHealthy
    && match outcome
       case Success =>
         && Dropped(c.mem.actions, k, d.mem.actions) && d.mem.outbox == c.mem.outbox
         && d.shutdown == InProgress && d.hub.powerError == None
       case Failure(reason) =>
         && FailedFor(c.mem.actions, k, reason, d.mem.actions) && NoticesAdded(c.mem.outbox, d.mem.outbox, 1)
         && d.shutdown == DeriveShutdown(c.shutdown, d.mem.actions) && d.hub.powerError == Some(reason)
  }

  lemma BlockOutcomeFacts(env: Environment, c: Coord, k: nat, answer: GateAnswer)
    requires UniqueActions(c.mem.actions) && k < |c.mem.actions| && c.mem.actions[k].exec.Executing?
    requires c.mem.desired == c.world.disk.desired == Blocked && c.observed == ReadingOf(answer)
    ensures BlockSettled(env, c, BlockOutcome(env, c, c.mem.actions[k].id, GateError(Blocked, answer)), k, answer)
    ensures BlockOutcome(env, c, c.mem.actions[k].id, GateError(Blocked, answer)).timers == c.timers
  {
    hide CommitPost, MarkGate, Recompute, RecordGateFailure, CompleteEdit, FailEdit, RefusalRecorded, Confirms, Refusal;
    var reason := Refusal(answer);
    GateErrorExact(Blocked, answer);
    SettledEdits(c.mem, k, reason);
    if !Confirms(Blocked, answer) {
      var id := c.mem.actions[k].id;
      var c1 := MarkGate(env, c, Some(reason));
      RefusalIsRecorded(env, c, c1, FailEdit(c.mem, id, reason), reason);
      RecordSaves(env, c1.(world := c1.world.Draw(1)), RetryEdit(FailEdit(c.mem, id, reason), reason, c1.world.nextId));
    }
  }

  /** The coordinator that would ask the gate next for this block: its start is saved. */
  ghost function BlockAsked(env: Environment, c: Coord, k: nat): Coord
    requires k < |c.mem.actions|
  {
    var started := c.mem.(actions := SetExec(c.mem.actions, k, Executing), desired := Blocked);
    var c1 := Commit(env, LookForStop(env, c), started);
    LookForStop(env, Tell(env, c1.(timers := c1.timers - {c.mem.actions[k].id}), TimerExpired(c.mem.actions[k].id, BlockInternet)))
  }

  ghost function PowerAsked(env: Environment, c: Coord, k: nat): Coord
    requires k < |c.mem.actions|
  {
    var started := c.mem.(actions := SetExec(c.mem.actions, k, Executing));
    var c1 := Commit(env, LookForStop(env, c), started);
    LookForStop(env, Tell(env, c1.(timers := c1.timers - {c.mem.actions[k].id}), TimerExpired(c.mem.actions[k].id, ShutdownComputer)))
  }

  lemma StartHasId(env: Environment, c: Coord, id: TimerId)
    ensures Starts(env, c, FindAction(c.mem.actions, id)) ==> c.mem.actions[FindAction(c.mem.actions, id)].id == id
  {
  }

  /** A stop that comes between the start and the effect: nothing but the state of this action has changed. */
  ghost predicate LeftExecuting(c: Coord, d: Coord, k: nat) {
    && k < |c.mem.actions| && d.mem.actions == c.mem.actions[k := c.mem.actions[k].(exec := Executing)]
    && d.mem.outbox == c.mem.outbox && d.mem.retry == c.mem.retry
  }

  /** A pending action may start now: no stop is requested, and the start can be saved. */
  ghost predicate Starts(env: Environment, c: Coord, k: nat) {
    && k < |c.mem.actions| && c.mem.actions[k].exec.Pending?
    && !LookForStop(env, c).world.stopSeen && SaveOk(env, LookForStop(env, c))
  }

  /** The deadline of a block: with its start saved and no stop requested the gate is asked, and its answer
      settles the action. When it confirms, the action is gone; when it refuses, exactly this action has
      failed. All other actions stay as they are. */
  lemma BlockDeadlineOutcome(env: Environment, c: Coord, k: nat)
    requires UniqueActions(c.mem.actions) && Starts(env, c, k)
    ensures var d, asked := FireBlock(env, c, c.mem.actions[k].id), BlockAsked(env, c, k);
      && d.timers == c.timers - {c.mem.actions[k].id} && d.world.stopSeen == asked.world.stopSeen
      && (asked.world.stopSeen ==> d.mem == d.world.disk == asked.mem && LeftExecuting(c, d, k))
      && (!asked.world.stopSeen ==> BlockSettled(env, c, d, k, env(asked.world.instant).gate))
  {
    hide Commit, Tell, TellPolicy, BlockOutcome, Recompute, BlockSettled;
    var id, asked := c.mem.actions[k].id, BlockAsked(env, c, k);
    FoundAt(c.mem.actions, k);
    StartedUnique(c.mem.actions, k);
    var answer := env(asked.world.instant).gate;
    var c5 := TellPolicy(env, ApplyGate(env, asked, Blocked), c.mem.desired, c.observed, TimerFired(id));
    if !asked.world.stopSeen {
      BlockOutcomeFacts(env, c5, k, answer);
      BlockSettledEarlier(env, c, c5, FireBlock(env, c, id), k, answer);
      BlockOutcomeFlags(env, c5, id, GateError(Blocked, answer));
    }
  }

  lemma BlockOutcomeFlags(env: Environment, c: Coord, id: TimerId, error: Option<string>)
    ensures BlockOutcome(env, c, id, error).world.stopSeen == c.world.stopSeen
  {
    hide CommitPost, MarkGate, Recompute, RecordGateFailure, CompleteEdit, FailEdit;
  }

  lemma BlockSettledEarlier(env: Environment, c: Coord, c1: Coord, d: Coord, k: nat, answer: GateAnswer)
    requires UniqueActions(c.mem.actions) && k < |c.mem.actions|
    requires c1.mem == c.mem.(actions := SetExec(c.mem.actions, k, Executing), desired := Blocked)
    requires c.world.instant <= c1.world.instant && c1.retryAt == c.retryAt
    requires BlockSettled(env, c1, d, k, answer)
    ensures BlockSettled(env, c, d, k, answer)
  {
    hide RefusalRecorded, Dropped, FailedFor;
    StartedUnique(c.mem.actions, k);
    if !Confirms(Blocked, answer) { RecordedEarlier(env, c, c1, d, Refusal(answer)); }
  }

  /** The deadline of a shutdown likewise. */
  lemma ShutdownDeadlineOutcome(env: Environment, c: Coord, k: nat)
    requires UniqueActions(c.mem.actions) && Starts(env, c, k)
    ensures var d, asked := FireShutdown(env, c, c.mem.actions[k].id), PowerAsked(env, c, k);
      && d.timers == c.timers - {c.mem.actions[k].id} && d.world.stopSeen == asked.world.stopSeen
      && (asked.world.stopSeen ==> d.mem == d.world.disk == asked.mem && LeftExecuting(c, d, k))
      && (!asked.world.stopSeen ==> ShutdownSettled(c, d, k, env(asked.world.instant).power))
  {
    hide Commit, Tell, PowerOutcome, Recompute, ShutdownSettled;
    var id, asked := c.mem.actions[k].id, PowerAsked(env, c, k);
    FoundAt(c.mem.actions, k);
    StartedUnique(c.mem.actions, k);
    FoundAt(SetExec(c.mem.actions, k, Executing), k);
    var outcome := env(asked.world.instant).power;
    var c4 := asked.(world := asked.world.Did(PowerCall(id, outcome)));
    if !asked.world.stopSeen {
      PowerOutcomeFacts(env, c4, k, outcome);
      ShutdownSettledEarlier(c, c4, PowerOutcome(env, c4, id, outcome), k, outcome);
    }
  }

  lemma ShutdownSettledEarlier(c: Coord, c1: Coord, d: Coord, k: nat, outcome: Outcome)
    requires UniqueActions(c.mem.actions) && k < |c.mem.actions|
    requires c1.mem == c.mem.(actions := SetExec(c.mem.actions, k, Executing))
    requires c1.observed == c.observed && c1.retryAt == c.retryAt && c1.hub.health.gateHealthy == c.hub.health.gateHealthy
    requires c1.shutdown == c.shutdown && ShutdownSettled(c1, d, k, outcome)
    ensures ShutdownSettled(c, d, k, outcome)
  {
    hide Dropped, FailedFor;
    StartedUnique(c.mem.actions, k);
  }

  /** An accepted shutdown is gone from the actions; one that is refused has failed for the given reason, and
      one notice says so. No other action is touched. */
  lemma PowerOutcomeFacts(env: Environment, c: Coord, k: nat, outcome: Outcome)
    requires UniqueActions(c.mem.actions) && k < |c.mem.actions| && c.mem.actions[k].exec.Executing?
    ensures var d := PowerOutcome(env, c, c.mem.actions[k].id, outcome);
      ShutdownSettled(c, d, k, outcome) && d.timers == c.timers && d.world.stopSeen == c.world.stopSeen
  {
    hide CommitPost, MarkPower, TellShutdown, Recompute, DeriveShutdown, CompleteEdit, FailEdit;
    FoundAt(c.mem.actions, k);
    SettledEdits(c.mem, k, if outcome.Failure? then outcome.reason else "");
  }

  // ---- the retry of the gate -----------------------------------------------------------------------

  ghost predicate IsExecutingBlock(a: Action) { a.kind.BlockInternet? && a.exec.Executing? }

  lemma {:induction false} ResolveExact(actions: seq<Action>)
    ensures forall a :: a in ResolveBlocks(actions) <==> a in actions && !IsExecutingBlock(a)
    decreases |actions|
  {
    if actions != [] {
      assert actions == actions[..|actions| - 1] + [actions[|actions| - 1]];
      ResolveExact(actions[..|actions| - 1]);
    }
  }

  /** A retry asks the gate for the policy on record. Confirmation clears the metadata and, for a block,
      resolves the executing blocks; a refusal is recorded. Nothing else changes. */
  lemma RetryOutcomeFacts(env: Environment, c: Coord)
    ensures var d, asked := Retry(env, c), LookForStop(env, c);
      var answer := env(asked.world.instant).gate;
      if asked.world.stopSeen then d == asked
      else
        && d.mem == c.mem.(actions := d.mem.actions, retry := d.mem.retry, outbox := d.mem.outbox)
        && d.observed == ReadingOf(answer) && d.timers == c.timers && d.world.stopSeen == c.world.stopSeen
        && if Confirms(c.mem.desired, answer) then
             && d.mem.retry == None && d.mem.outbox == c.mem.outbox && d.hub.health.gateHealthy && d.retryAt == c.retryAt
             && (forall a :: a in d.mem.actions <==> a in c.mem.actions && !(c.mem.desired.Blocked? && IsExecutingBlock(a)))
           else
             d.mem.actions == c.mem.actions && RefusalRecorded(env, c, d, Refusal(answer))
  {
    hide CommitPost, MarkGate, Recompute, RecordGateFailure, TellPolicy, ResolveBlocks, RefusalRecorded, Confirms, Refusal;
    var asked := LookForStop(env, c);
    var answer := env(asked.world.instant).gate;
    var c2 := TellPolicy(env, ApplyGate(env, asked, c.mem.desired), c.mem.desired, c.observed, PlatformSync);
    GateErrorExact(c.mem.desired, answer);
    ResolveExact(c.mem.actions);
    if !asked.world.stopSeen && !Confirms(c.mem.desired, answer) {
      RefusalIsRecorded(env, c2, MarkGate(env, c2, Some(Refusal(answer))), c2.mem, Refusal(answer));
      RecordedEarlier(env, c, c2, Retry(env, c), Refusal(answer));
    }
  }

  // ---- other actions -------------------------------------------------------------------------------

  ghost predicate SameOthers(before: seq<Action>, after: seq<Action>, id: TimerId) {
    forall a: Action :: a.id != id ==> (a in after <==> a in before)
  }

  lemma SetKeepsOthers(before: seq<Action>, k: nat, after: seq<Action>)
    requires k < |before| && |after| == |before| && after[k].id == before[k].id && after == before[k := after[k]]
    ensures SameOthers(before, after, before[k].id)
  {
    forall a: Action | a.id != before[k].id ensures a in after <==> a in before {
      if a in before { var i :| 0 <= i < |before| && before[i] == a; assert after[i] == a; }
      if a in after { var i :| 0 <= i < |after| && after[i] == a; assert before[i] == a; }
    }
  }

  lemma DropKeepsOthers(before: seq<Action>, k: nat, after: seq<Action>)
    requires UniqueActions(before) && Dropped(before, k, after)
    ensures SameOthers(before, after, before[k].id)
    ensures forall a <- after :: a.id != before[k].id
  {
    assert before == before[..k] + [before[k]] + before[k + 1..];
    forall a | a in after ensures a.id != before[k].id {
      var i :| 0 <= i < |after| && after[i] == a;
      assert a == before[if i < k then i else i + 1];
    }
  }

  /** A deadline leaves all other actions as they are. */
  lemma FiringKeepsOthers(env: Environment, c: Coord, id: TimerId)
    requires UniqueActions(c.mem.actions)
    ensures SameOthers(c.mem.actions, FireBlock(env, c, id).mem.actions, id)
    ensures SameOthers(c.mem.actions, FireShutdown(env, c, id).mem.actions, id)
  {
    hide FireBlock, FireShutdown, SameOthers, RefusalRecorded;
    var k := FindAction(c.mem.actions, id);
    if Starts(env, c, k) {
      BlockDeadlineOutcome(env, c, k);
      ShutdownDeadlineOutcome(env, c, k);
      SettledKeepsOthers(c, FireBlock(env, c, id), k);
      SettledKeepsOthers(c, FireShutdown(env, c, id), k);
    } else {
      DeadlineNeedsItsSave(env, c, id);
      SameKeepsOthers(c.mem.actions, id);
    }
  }

  lemma SameKeepsOthers(actions: seq<Action>, id: TimerId)
    ensures SameOthers(actions, actions, id)
  {
  }

  lemma SettledKeepsOthers(c: Coord, d: Coord, k: nat)
    requires UniqueActions(c.mem.actions) && k < |c.mem.actions|
    requires LeftExecuting(c, d, k) || Dropped(c.mem.actions, k, d.mem.actions) || exists reason :: FailedFor(c.mem.actions, k, reason, d.mem.actions)
    ensures SameOthers(c.mem.actions, d.mem.actions, c.mem.actions[k].id)
  {
    hide SameOthers;
    if Dropped(c.mem.actions, k, d.mem.actions) {
      DropKeepsOthers(c.mem.actions, k, d.mem.actions);
    } else {
      SetKeepsOthers(c.mem.actions, k, d.mem.actions);
    }
  }
}
