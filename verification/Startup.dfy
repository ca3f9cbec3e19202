/** What a boot makes of the stored actions: each one gets exactly the time that is left to its deadline,
    or is settled at once. */
module Startup {
  import opened Domain
  import opened World
  import opened Subscribers
  import opened Runtime
  import opened Recovery
  import opened Safety
  import opened Durability
  import opened Edits
  import opened Timers
  import opened Booting
  import opened Outcomes
  import opened Wake
  import opened Settling
  import opened Idempotence

  // ---- clocks of a boot ------------------------------------------------------------------------------

  /** The answer of the monotonic clock in this boot. */
  function BootMono(env: Environment, w: World): nat { env(w.instant + 2).mono }

  // ---- anchors ---------------------------------------------------------------------------------------

  /** The timer fires exactly when the time left to the deadline has passed since the boot. */
  ghost predicate AnchoredAt(a: Action, n: Anchor, utc: int, mono: nat) {
    && n.kind == a.kind && n.deadline == a.deadline && n.start == mono
    && n.target == mono + (a.deadline - utc) * NANOS_PER_MILLI
    && 1000 * (n.original - 1) < a.deadline - utc <= 1000 * n.original
    && n.cursor == n.original
  }

  /** The anchors are those of the actions with their deadline ahead. */
  ghost predicate TimersRestored(actions: seq<Action>, timers: map<TimerId, Anchor>, utc: int, mono: nat) {
    && (forall a <- actions :: a.deadline > utc ==> a.id in timers && AnchoredAt(a, timers[a.id], utc, mono))
    && (forall id <- timers :: exists a <- actions :: a.id == id && a.deadline > utc)
  }

  lemma OverdueExactly(a: Action, utc: int)
    ensures IsOverdue(a, utc) <==> a.deadline <= utc
  {
    RemainingSecondsIsCeiling(a.deadline - utc);
  }

  lemma RecoveredAnchorExact(a: Action, utc: int, mono: nat)
    requires !IsOverdue(a, utc)
    ensures a.deadline > utc && AnchoredAt(a, RecoveredAnchor(a, utc, mono), utc, mono)
  {
    RemainingSecondsIsCeiling(a.deadline - utc);
  }

  lemma RecoverTimersExact(actions: seq<Action>, utc: int, mono: nat)
    requires UniqueActions(actions)
    ensures TimersRestored(actions, RecoverTimers(actions, utc, mono), utc, mono)
  {
    hide IsOverdue, RecoveredAnchor, AnchoredAt;
    var timers := RecoverTimers(actions, utc, mono);
    RecoverTimersFacts(actions, utc, mono);
    forall a | a in actions ensures a.deadline > utc ==> a.id in timers && AnchoredAt(a, timers[a.id], utc, mono) {
      OverdueExactly(a, utc);
      if a.deadline > utc { RecoveredAnchorExact(a, utc, mono); }
    }
    forall id | id in timers ensures exists a <- actions :: a.id == id && a.deadline > utc {
      var a :| a in actions && a.id == id && !IsOverdue(a, utc);
      OverdueExactly(a, utc);
    }
  }

  // ---- actions ---------------------------------------------------------------------------------------

  /** `b` is the action `a` with its old marks and those not below the time left. */
  ghost predicate MarkedAhead(a: Action, b: Action, utc: int) {
    && b == a.(emitted := b.emitted)
    && forall t: Threshold :: t in b.emitted <==> t in a.emitted || a.deadline - utc <= 1000 * t.Seconds()
  }

  ghost predicate Gone(actions: seq<Action>, id: TimerId) { forall b <- actions :: b.id != id }

  /** What has become of a stored action, when the gate has confirmed, or refused for a reason. */
  ghost predicate ActionRestored(a: Action, actions: seq<Action>, utc: int, refusal: Option<string>) {
    if a.deadline > utc then exists b <- actions :: MarkedAhead(a, b, utc)
    else if a.kind.ShutdownComputer? then Gone(actions, a.id)
    else if a.exec.Failed? then a in actions
    else match refusal
      case None => Gone(actions, a.id)
      case Some(reason) => a.(exec := Failed(reason)) in actions
  }

  /** All stored actions are accounted for, and there are no others. */
  ghost predicate ActionsRestored(stored: seq<Action>, actions: seq<Action>, utc: int, refusal: Option<string>) {
    && (forall a <- stored :: ActionRestored(a, actions, utc, refusal))
    && (forall b <- actions :: exists a <- stored :: a.id == b.id)
  }

  lemma RecoverOneMarks(a: Action, utc: int)
    requires a.deadline > utc
    ensures MarkedAhead(a, RecoverOne(a, utc), utc) && !IsMissed(a, utc)
  {
    RemainingSecondsIsCeiling(a.deadline - utc);
    AllThresholdsListed();
  }

  lemma RecoverOneOverdue(a: Action, utc: int)
    requires a.deadline <= utc && !a.exec.IsTerminal()
    ensures IsMissed(a, utc) <==> a.kind.ShutdownComputer?
    ensures IsOverdueBlock(a, utc) <==> a.kind.BlockInternet? && !a.exec.Failed?
    ensures a.kind.BlockInternet? ==> RecoverOne(a, utc) == if a.exec.Failed? then a else a.(exec := Executing)
  {
    OverdueExactly(a, utc);
  }

  lemma {:induction false} CompleteExact(actions: seq<Action>, ids: set<TimerId>)
    ensures forall a :: a in CompleteBlocks(actions, ids) <==> a in actions && !(a.id in ids && a.exec.Executing?)
    decreases |actions|
  {
    if actions != [] {
      assert actions == actions[..|actions| - 1] + [actions[|actions| - 1]];
      CompleteExact(actions[..|actions| - 1], ids);
    }
  }

  lemma FailExact(actions: seq<Action>, ids: set<TimerId>, reason: string)
    ensures forall a <- actions :: FailOne(a, ids, reason) in FailBlocks(actions, ids, reason)
    ensures forall b <- FailBlocks(actions, ids, reason) :: exists a <- actions :: b == FailOne(a, ids, reason)
  {
    FailDescends(actions, ids, reason);
    var after := FailBlocks(actions, ids, reason);
    forall a | a in actions ensures FailOne(a, ids, reason) in after {
      var i :| 0 <= i < |actions| && actions[i] == a;
      assert after[i] == FailOne(a, ids, reason);
    }
    forall b | b in after ensures exists a <- actions :: b == FailOne(a, ids, reason) {
      var i :| 0 <= i < |after| && after[i] == b;
      assert actions[i] in actions;
    }
  }

  /** One stored action, from the recovered list to the final one. */
  lemma OneRestored(stored: seq<Action>, a: Action, actions: seq<Action>, utc: int, refusal: Option<string>)
    requires UniqueActions(stored) && a in stored && !a.exec.IsTerminal()
    requires var mid, ids := RecoverActions(stored, utc), OverdueBlocks(stored, utc);
      actions == match refusal case None => CompleteBlocks(mid, ids) case Some(reason) => FailBlocks(mid, ids, reason)
    ensures ActionRestored(a, actions, utc, refusal)
  {
    hide RecoverActions, CompleteBlocks, FailBlocks, OverdueBlocks, IsMissed, RecoverOne, MarkedAhead, IsOverdueBlock;
    var mid, ids := RecoverActions(stored, utc), OverdueBlocks(stored, utc);
    RecoverDescends(stored, utc);
    CompleteExact(mid, ids);
    FailExact(mid, ids, if refusal.Some? then refusal.value else "");
    OverdueIs(stored, a, utc);
    RecoverOneEvolves(a, utc);
    forall b | b in mid && b.id == a.id ensures b == RecoverOne(a, utc) && !IsMissed(a, utc) {
      var x :| x in stored && !IsMissed(x, utc) && b == RecoverOne(x, utc);
      RecoverOneEvolves(x, utc);
      SameAction(stored, a, x);
    }
    if a.deadline > utc {
      RecoverOneMarks(a, utc);
      AheadIsNotOverdue(a, utc);
    } else {
      RecoverOneOverdue(a, utc);
    }
    assert !IsMissed(a, utc) ==> RecoverOne(a, utc) in mid;
  }

  lemma OverdueIs(stored: seq<Action>, a: Action, utc: int)
    requires UniqueActions(stored) && a in stored
    ensures a.id in OverdueBlocks(stored, utc) <==> IsOverdueBlock(a, utc)
  {
    hide IsOverdueBlock;
    if a.id in OverdueBlocks(stored, utc) {
      var x :| x in stored && IsOverdueBlock(x, utc) && x.id == a.id;
      SameAction(stored, a, x);
    }
  }

  lemma AheadIsNotOverdue(a: Action, utc: int)
    requires a.deadline > utc
    ensures !IsOverdueBlock(a, utc)
  {
    OverdueExactly(a, utc);
  }

  lemma AllRestored(stored: seq<Action>, actions: seq<Action>, utc: int, refusal: Option<string>)
    requires UniqueActions(stored) && forall a <- stored :: !a.exec.IsTerminal()
    requires var mid, ids := RecoverActions(stored, utc), OverdueBlocks(stored, utc);
      actions == match refusal case None => CompleteBlocks(mid, ids) case Some(reason) => FailBlocks(mid, ids, reason)
    ensures ActionsRestored(stored, actions, utc, refusal)
  {
    hide RecoverActions, CompleteBlocks, FailBlocks, OverdueBlocks, IsMissed, RecoverOne, ActionRestored;
    var mid, ids := RecoverActions(stored, utc), OverdueBlocks(stored, utc);
    RecoverDescends(stored, utc);
    CompleteExact(mid, ids);
    FailExact(mid, ids, if refusal.Some? then refusal.value else "");
    forall a | a in stored ensures ActionRestored(a, actions, utc, refusal) { OneRestored(stored, a, actions, utc, refusal); }
    forall b | b in actions ensures exists a <- stored :: a.id == b.id {
      var m :| m in mid && m.id == b.id;
      var a :| a in stored && m == RecoverOne(a, utc);
      RecoverOneEvolves(a, utc);
    }
  }

  // ---- the whole boot --------------------------------------------------------------------------------

  ghost predicate HasOverdueBlock(actions: seq<Action>, utc: int) {
    exists a <- actions :: a.kind.BlockInternet? && a.deadline <= utc && (a.exec.Pending? || a.exec.Executing?)
  }

  /** Where the shutdowns stand whose deadline has passed. */
  ghost function OverdueShutdowns(actions: seq<Action>, utc: int): set<nat> {
    set i | 0 <= i < |actions| && actions[i].kind.ShutdownComputer? && actions[i].deadline <= utc
  }

  /** Each of them leaves one notice. */
  lemma MissedAreOverdue(s: PersistentState, utc: int, first: EntryId)
    requires forall a <- s.actions :: !a.exec.IsTerminal()
    ensures NoticesAdded(s.outbox, RecoverState(s, utc, first).outbox, |OverdueShutdowns(s.actions, utc)|)
  {
    hide IsMissed, RecoverActions, OverdueBlocks;
    MissedCount(s.actions, utc);
    forall i | 0 <= i < |s.actions| ensures i in MissedShutdowns(s.actions, utc) <==> i in OverdueShutdowns(s.actions, utc) {
      if s.actions[i].deadline <= utc { RecoverOneOverdue(s.actions[i], utc); } else { AheadIsNotMissed(s.actions[i], utc); }
    }
    assert MissedShutdowns(s.actions, utc) == OverdueShutdowns(s.actions, utc);
  }

  lemma AheadIsNotMissed(a: Action, utc: int)
    requires a.deadline > utc
    ensures !IsMissed(a, utc)
  {
    OverdueExactly(a, utc);
  }

  /** From the snapshot `stored` to the coordinator `d`, when the gate has answered this. */
  ghost predicate BootRestored(env: Environment, stored: PersistentState, d: Coord, utc: int, mono: nat, answer: GateAnswer, lo: nat) {
    && TimersRestored(stored.actions, d.timers, utc, mono)
    && d.mem.desired == (if HasOverdueBlock(stored.actions, utc) then Blocked else stored.desired)
    && d.observed == ReadingOf(answer)
    && NoticesAdded(stored.outbox, d.mem.outbox, |OverdueShutdowns(stored.actions, utc)| + if Confirms(d.mem.desired, answer) then 0 else 1)
    && if Confirms(d.mem.desired, answer) then
         && ActionsRestored(stored.actions, d.mem.actions, utc, None)
         && d.mem.retry == None && d.hub.health.gateHealthy && d.hub.gateError == None && d.retryAt == None
       else
         && ActionsRestored(stored.actions, d.mem.actions, utc, Some(Refusal(answer)))
         && d.mem.retry == Some(InternetRetry((if stored.retry.Some? then stored.retry.value.attempts else 0) + 1, Some(Refusal(answer))))
         && !d.hub.health.gateHealthy && d.hub.gateError == Some(Refusal(answer))
         && Armed(env, lo, d.world.instant, d)
  }

  lemma RecoverMemory(env: Environment, w: World)
    ensures match Recover(env, w)
      case Up(c) =>
        && c.mem == RecoverState(w.disk, BootUtc(env, w), w.nextId) && c.pending.None? && c.world.disk == c.mem
        && c.timers == RecoverTimers(w.disk.actions, BootUtc(env, w), BootMono(env, w))
        && c.retryAt == None && w.instant <= c.world.instant
      case Down(_) => true
  {
    hide Commit, TellMissed, SyncShutdown, RecoverState, RecoverTimers, MissedActions, Recompute;
  }

  lemma RestoreOutcome(env: Environment, c: Coord, ids: set<TimerId>)
    requires Restore(env, c, ids).Up?
    ensures var d, answer := Restore(env, c, ids).coord, env(c.world.instant).gate;
      && d.timers == c.timers && d.mem.desired == c.mem.desired && d.observed == ReadingOf(answer)
      && c.world.instant < d.world.instant
      && if Confirms(c.mem.desired, answer) then
           d.mem == ReconciledState(c.mem, ids) && d.hub.health.gateHealthy && d.hub.gateError == None && d.retryAt == c.retryAt
         else
           d.mem.actions == FailBlocks(c.mem.actions, ids, Refusal(answer)) && RefusalRecorded(env, c, d, Refusal(answer))
  {
    hide CommitPost, MarkGate, TellPolicy, Recompute, CompleteBlocks, FailBlocks, RecordGateFailure, ScheduleRetry, Confirms, Refusal, RefusalRecorded;
    var answer := env(c.world.instant).gate;
    GateErrorExact(c.mem.desired, answer);
    var c2 := TellPolicy(env, ApplyGate(env, c, c.mem.desired), c.mem.desired, c.observed, StartupRestoration);
    if !Confirms(c.mem.desired, answer) {
      var reason := Refusal(answer);
      var c3 := MarkGate(env, c2, Some(reason));
      DegradeIsRefusal(env, c3, ids, reason);
      RefusalIsRecorded(env, c2, c3, c3.mem.(actions := FailBlocks(c3.mem.actions, ids, reason)), reason);
      RecordedEarlier(env, c, c2, Restore(env, c, ids).coord, reason);
    }
  }

  lemma DegradeIsRefusal(env: Environment, c: Coord, ids: set<TimerId>, reason: string)
    requires DegradeRestore(env, c, ids, reason).Up?
    ensures DegradeRestore(env, c, ids, reason).coord
      == RecordGateFailure(env, c.(world := c.world.Draw(1)), RetryEdit(c.mem.(actions := FailBlocks(c.mem.actions, ids, reason)), reason, c.world.nextId))
  {
    hide CommitPost, ScheduleRetry, FailBlocks, Recompute;
  }

  lemma DegradeArms(env: Environment, c: Coord, ids: set<TimerId>, reason: string)
    requires DegradeRestore(env, c, ids, reason).Up?
    ensures var d := DegradeRestore(env, c, ids, reason).coord;
      && d.mem.retry == Some(InternetRetry((if c.mem.retry.Some? then c.mem.retry.value.attempts else 0) + 1, Some(reason)))
      && Armed(env, c.world.instant, d.world.instant, d)
  {
    hide RecordGateFailure, FailBlocks, ArmedFor, CommitPost, ScheduleRetry, Recompute;
    DegradeIsRefusal(env, c, ids, reason);
    RecordArms(env, c.(world := c.world.Draw(1)), RetryEdit(c.mem.(actions := FailBlocks(c.mem.actions, ids, reason)), reason, c.world.nextId));
  }

  /** The instant at which the gate is asked in a boot. */
  ghost function GateInstant(env: Environment, w: World): nat {
    match Recover(env, w)
    case Up(c) => c.world.instant
    case Down(w1) => w1.instant
  }

  /** Every boot that succeeds restores exactly what was stored: each timer fires when the time left to its
      deadline, as of the clocks of this boot, has passed; each action still ahead has its old marks and
      those already passed; each one overdue is settled, missed or failed before. */
  lemma BootOutcome(env: Environment, w: World)
    requires Encodable(w.disk) && Boot(env, w).Up?
    ensures BootRestored(env, w.disk, Boot(env, w).coord, BootUtc(env, w), BootMono(env, w), env(GateInstant(env, w)).gate, w.instant)
  {
    hide Recover, Restore, RecoverTimers, TimersRestored, ActionsRestored, RefusalRecorded, Confirms, Refusal, RecoverActions;
    hide CompleteBlocks, FailBlocks, OverdueBlocks, HasOverdueBlock, ArmedFor, NoticesAdded, OverdueShutdowns;
    var utc := BootUtc(env, w);
    var c := Recover(env, w).coord;
    var ids := OverdueBlocks(w.disk.actions, utc);
    RecoverMemory(env, w);
    RestoreOutcome(env, c, ids);
    RecoverTimersExact(w.disk.actions, utc, BootMono(env, w));
    MissedAreOverdue(w.disk, utc, w.nextId);
    OverdueBlockExists(w.disk.actions, utc);
    var d, answer := Boot(env, w).coord, env(c.world.instant).gate;
    AllRestored(w.disk.actions, d.mem.actions, utc, if Confirms(d.mem.desired, answer) then None else Some(Refusal(answer)));
    if !Confirms(d.mem.desired, answer) {
      BootRefusal(env, w, c, d, Refusal(answer));
      NoticesOn(w.disk.outbox, c.mem.outbox, d.mem.outbox, |OverdueShutdowns(w.disk.actions, utc)|, 1);
    }
  }

  lemma BootRefusal(env: Environment, w: World, c: Coord, d: Coord, reason: string)
    requires RefusalRecorded(env, c, d, reason) && c.mem.retry == w.disk.retry && w.instant <= c.world.instant
    ensures d.mem.retry == Some(InternetRetry((if w.disk.retry.Some? then w.disk.retry.value.attempts else 0) + 1, Some(reason)))
    ensures !d.hub.health.gateHealthy && d.hub.gateError == Some(reason) && Armed(env, w.instant, d.world.instant, d)
    ensures NoticesAdded(c.mem.outbox, d.mem.outbox, 1)
  {
    ArmedEarlier(env, w.instant, c.world.instant, d);
  }

  lemma OverdueBlockExists(actions: seq<Action>, utc: int)
    ensures OverdueBlocks(actions, utc) != {} <==> HasOverdueBlock(actions, utc)
  {
    if HasOverdueBlock(actions, utc) {
      var a :| a in actions && a.kind.BlockInternet? && a.deadline <= utc && (a.exec.Pending? || a.exec.Executing?);
      OverdueExactly(a, utc);
      assert a.id in OverdueBlocks(actions, utc);
    }
    if OverdueBlocks(actions, utc) != {} {
      var id :| id in OverdueBlocks(actions, utc);
      var a :| a in actions && IsOverdueBlock(a, utc) && a.id == id;
      OverdueExactly(a, utc);
    }
  }
}
