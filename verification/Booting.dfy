/** A boot establishes every invariant of the coordinator from whatever a legal history left on
    disk, at any wall-clock time. */
module Booting {
  import opened Domain
  import opened World
  import opened Subscribers
  import opened Runtime
  import opened Recovery
  import opened Safety
  import opened Durability
  import opened Edits
  import opened Preservation
  import opened Deadlines
  import opened Timers
  import opened Healing
  import opened Aggregate

  /** What a process that is not running leaves behind. */
  ghost predicate WorldOk(w: World) {
    w.disk == DiskOf(w.trace) && SafeTrace(w.trace) && Below(w.trace, w.nextId)
  }

  // ---- crash ---------------------------------------------------------------------------------

  lemma {:induction false} RewindKeeps(t: Trace, lost: nat, n: nat)
    requires SafeTrace(t) && Below(t, n)
    ensures SafeTrace(Rewind(t, lost)) && Below(Rewind(t, lost), n)
  {
    if lost > 0 && t.Then? && !t.last.Booted? { RewindKeeps(t.past, lost - 1, n); }
  }

  lemma CrashedOk(w: World, lost: nat)
    requires WorldOk(w)
    ensures WorldOk(Crashed(w, lost))
  {
    RewindKeeps(w.trace, lost, w.nextId);
  }

  // ---- write-ahead ---------------------------------------------------------------------------

  lemma BlankIsDurable(w: World)
    requires WorldOk(w)
    ensures Durable(Blank(w.Did(Booted).(stopSeen := false)))
  {
    var t := w.trace;
    SafeDisk(t);
    BelowFacts(t, w.nextId);
    SavedFollowsItself(w.disk, t);
    var c := Blank(w.Did(Booted).(stopSeen := false));
    assert Known(c.world.trace) == Known(t) && Stored(c.world.trace) == Stored(t);
  }

  lemma {:induction false} TellMissedHushed(env: Environment, c: Coord, missed: seq<Action>)
    ensures Hushed(c, TellMissed(env, c, missed))
    decreases |missed|
  {
    if missed != [] {
      var before := TellMissed(env, c, missed[..|missed| - 1]);
      TellMissedHushed(env, c, missed[..|missed| - 1]);
      TellHushed(env, before, MissedDeadline(missed[|missed| - 1]));
      HushedTransitive(c, before, TellMissed(env, c, missed));
    }
  }

  lemma RecoverKeeps(env: Environment, w: World)
    requires WorldOk(w)
    ensures match Recover(env, w)
      case Up(c) => Durable(c) && c.pending.None?
      case Down(w1) => WorldOk(w1)
  {
    hide Commit, TellMissed, SyncShutdown, Durable, Edit, RecoverState, Blank;
    var c0 := Blank(w.Did(Booted).(stopSeen := false));
    BlankIsDurable(w);
    var utc, c2 := Utc(env, c0), Looked(Looked(c0));
    HushedKeeps(c0, c2);
    var mono := Mono(env, Looked(c0));
    var missed := MissedActions(w.disk.actions, utc);
    BlankFacts(w.Did(Booted).(stopSeen := false));
    var candidate := RecoverState(w.disk, utc, c2.world.nextId);
    DurableIsSound(c2);
    RecoverIsEdit(w.disk, utc, c2.world.nextId);
    DrawKeeps(c2, |missed|);
    SaveStep(env, c2, candidate, |missed|);
    var b := c2.(world := c2.world.Draw(|missed|));
    var c3 := b.(timers := RecoverTimers(w.disk.actions, utc, mono));
    CommitIgnoresTimers(env, b, candidate, c3.timers);
    HushedKeeps(b, c3);
    var c4 := if candidate != w.disk then Commit(env, c3, candidate) else c3;
    HushedKeeps(Commit(env, b, candidate), Commit(env, c3, candidate));
    DurableWorld(c4);
    TellMissedHushed(env, c4, missed);
    var c5 := TellMissed(env, c4, missed);
    HushedKeeps(c4, c5);
    SyncShutdownKeeps(env, c5);
  }

  lemma BlankFacts(w: World)
    ensures var c := Blank(w);
      c.mem == w.disk && c.world == w && c.pending.None? && c.bootId == w.nextId && c.timers == map[]
      && c.shutdown.Idle? && c.hub == InitialHub() && c.observed == Unknown && c.retryAt.None? && !c.stopping
  {
  }

  lemma CommitIgnoresTimers(env: Environment, c: Coord, after: PersistentState, timers: map<TimerId, Anchor>)
    ensures Commit(env, c.(timers := timers), after) == Commit(env, c, after).(timers := timers)
  {
  }

  lemma DurableWorld(c: Coord)
    requires Durable(c)
    ensures WorldOk(c.world)
    ensures c.pending.None? ==> c.mem == c.world.disk
  {
  }

  lemma RestoreKeeps(env: Environment, c: Coord, ids: set<TimerId>)
    requires Durable(c) && c.pending.None?
    ensures match Restore(env, c, ids)
      case Up(d) => Durable(d)
      case Down(w) => WorldOk(w)
  {
    hide CommitPost, MarkGate, TellPolicy, ScheduleRetry, Durable, Edit, ReconciledState, DegradedState;
    DurableWorld(c);
    var c1 := ApplyGate(env, c, c.mem.desired);
    ApplyGateKeeps(env, c, c.mem.desired);
    var c2 := TellPolicy(env, c1, c.mem.desired, c.observed, StartupRestoration);
    TellPolicyHushed(env, c1, c.mem.desired, c.observed, StartupRestoration);
    HushedKeeps(c1, c2);
    var error := GateError(c.mem.desired, env(c.world.instant).gate);
    var c3 := MarkGate(env, c2, error);
    MarkGateKeeps(env, c2, error);
    DurableIsSound(c3);
    if error.None? {
      ReconciledIsEdit(c3.mem, ids, c3.world.nextId);
      SaveStepNoDraw(env, c3, ReconciledState(c3.mem, ids));
      DurableWorld(CommitPost(env, c3, ReconciledState(c3.mem, ids)));
    } else {
      DegradedIsEdit(c3.mem, ids, error.value, c3.world.nextId);
      var c4 := c3.(world := c3.world.Draw(1));
      var update := DegradedState(c3.mem, ids, error.value, c3.world.nextId);
      SaveStep(env, c3, update, 1);
      var c5 := CommitPost(env, c4, update);
      DurableWorld(c5);
      ScheduleRetryHushed(env, c5);
      HushedKeeps(c5, ScheduleRetry(env, c5));
    }
  }

  // ---- timers --------------------------------------------------------------------------------

  lemma {:induction false} RecoverTimersFacts(actions: seq<Action>, utc: int, mono: nat)
    requires UniqueActions(actions)
    ensures var timers := RecoverTimers(actions, utc, mono);
      && (forall a <- actions :: a.id in timers <==> !IsOverdue(a, utc))
      && (forall a <- actions :: !IsOverdue(a, utc) ==> timers[a.id] == RecoveredAnchor(a, utc, mono))
      && (forall id <- timers :: exists a <- actions :: a.id == id && !IsOverdue(a, utc))
    decreases |actions|
  {
    if actions != [] {
      var front, a := actions[..|actions| - 1], actions[|actions| - 1];
      assert actions == front + [a];
      RecoverTimersFacts(front, utc, mono);
      forall x | x in front ensures x.id != a.id {
        var i :| 0 <= i < |front| && front[i] == x;
        assert actions[i].id != actions[|front|].id;
      }
      assert a.id !in RecoverTimers(front, utc, mono);
    }
  }

  lemma RecoveredShape(a: Action, utc: int, mono: nat)
    requires !IsOverdue(a, utc)
    ensures AnchorShape(RecoveredAnchor(a, utc, mono))
  {
  }

  lemma RecoveredFits(a: Action, utc: int, mono: nat, bootId: nat)
    requires !IsOverdue(a, utc) && a.id < bootId
    ensures AnchorFits(RecoverOne(a, utc), RecoveredAnchor(a, utc, mono), bootId)
  {
    AllThresholdsListed();
  }

  lemma RecoveredTimers(s: PersistentState, utc: int, mono: nat, first: EntryId, bootId: nat)
    requires Encodable(s) && IdsBelow(s, bootId)
    ensures forall nextId: nat :: nextId >= bootId ==>
      Anchored(RecoverState(s, utc, first).actions, RecoverTimers(s.actions, utc, mono), bootId, nextId)
  {
    var timers := RecoverTimers(s.actions, utc, mono);
    RecoverTimersFacts(s.actions, utc, mono);
    RecoverDescends(s.actions, utc);
    forall b | b in RecoverActions(s.actions, utc)
      ensures b.exec.Pending? ==> b.id in timers
      ensures b.id in timers ==> AnchorFits(b, timers[b.id], bootId)
    {
      var a :| a in s.actions && !IsMissed(a, utc) && b == RecoverOne(a, utc);
      if !IsOverdue(a, utc) { RecoveredFits(a, utc, mono, bootId); }
    }
    forall id | id in timers ensures AnchorShape(timers[id]) && id < bootId {
      var a :| a in s.actions && a.id == id && !IsOverdue(a, utc);
      RecoveredShape(a, utc, mono);
    }
  }

  /** The anchors are exactly those of the pending actions if and only if no other action has its
      deadline ahead at boot. */
  lemma RecoveredExact(s: PersistentState, utc: int, mono: nat)
    requires Encodable(s)
    ensures (forall id <- RecoverTimers(s.actions, utc, mono) ::
              exists b <- RecoverActions(s.actions, utc) :: b.id == id && b.exec.Pending?)
      <==> OnlyPendingAhead(s, utc)
  {
    hide RecoverOne, RecoverActions, RecoverTimers, IsOverdue;
    var timers, after := RecoverTimers(s.actions, utc, mono), RecoverActions(s.actions, utc);
    RecoverTimersFacts(s.actions, utc, mono);
    RecoverDescends(s.actions, utc);
    forall a | a in s.actions && !IsOverdue(a, utc)
      ensures a.exec.Pending? <==> exists b <- after :: b.id == a.id && b.exec.Pending?
    {
      AheadIsKept(a, utc);
      assert RecoverOne(a, utc) in after;
      forall b | b in after && b.id == a.id ensures b == RecoverOne(a, utc) {
        var x :| x in s.actions && !IsMissed(x, utc) && b == RecoverOne(x, utc);
        RecoverOneEvolves(x, utc);
        SameAction(s.actions, a, x);
      }
    }
  }

  lemma AheadIsKept(a: Action, utc: int)
    requires !IsOverdue(a, utc)
    ensures !IsMissed(a, utc) && RecoverOne(a, utc).id == a.id && RecoverOne(a, utc).exec == a.exec
  {
  }

  /** The memory of a machine that got past the recovery save. */
  lemma RecoverResult(env: Environment, w: World)
    requires WorldOk(w)
    ensures match Recover(env, w)
      case Up(c) =>
        && c.mem == RecoverState(w.disk, BootUtc(env, w), w.nextId)
        && (exists mono: nat :: c.timers == RecoverTimers(w.disk.actions, BootUtc(env, w), mono))
        && c.bootId == w.nextId && w.nextId <= c.world.nextId && !c.world.poweredDown
        && !c.stopping && c.retryAt.None? && c.hub.health.gateHealthy
      case Down(_) => true
  {
    hide Commit, TellMissed, SyncShutdown, RecoverState;
  }

  lemma RecoverTruthful(env: Environment, w: World)
    ensures match Recover(env, w)
      case Up(c) => Truthful(c)
      case Down(_) => true
  {
    hide Commit, TellMissed, SyncShutdown, RecoverState;
    var c0 := Blank(w.Did(Booted).(stopSeen := false));
    var utc, c2 := Utc(env, c0), Looked(Looked(c0));
    var mono := Mono(env, Looked(c0));
    var missed := MissedActions(w.disk.actions, utc);
    var candidate := RecoverState(w.disk, utc, c2.world.nextId);
    var c3 := c2.(timers := RecoverTimers(w.disk.actions, utc, mono), world := c2.world.Draw(|missed|));
    var c4 := if candidate != w.disk then Commit(env, c3, candidate) else c3;
    SyncIsTruthful(env, TellMissed(env, c4, missed));
  }

  // ---- reconciliation ------------------------------------------------------------------------

  lemma BlocksMove(c: Coord, d: Coord, ids: set<TimerId>, reason: string)
    requires d.mem.actions == c.mem.actions || d.mem.actions == CompleteBlocks(c.mem.actions, ids)
      || d.mem.actions == FailBlocks(c.mem.actions, ids, reason)
    requires d.timers == c.timers && d.bootId == c.bootId && c.world.nextId <= d.world.nextId
    ensures Moves(c, d)
  {
    hide CompleteBlocks, FailBlocks, Descends, Forwards;
    var s, s' := c.mem.actions, d.mem.actions;
    if s' == s {
      SubsetForwards(s, s');
    } else if s' == CompleteBlocks(s, ids) {
      CompleteDescends(s, ids);
      SubsetForwards(s, s');
    } else {
      FailDescends(s, ids, reason);
      FailForwards(s, s', ids, reason);
      forall a | a in s && a.exec.Pending? ensures a in s' {
        var i :| 0 <= i < |s| && s[i] == a;
        assert s'[i] == a;
      }
    }
  }

  lemma FailForwards(s: seq<Action>, s': seq<Action>, ids: set<TimerId>, reason: string)
    requires |s'| == |s| && forall i :: 0 <= i < |s| ==> s'[i] == FailOne(s[i], ids, reason)
    ensures Forwards(s, s')
  {
    forall b | b in s' ensures exists a <- s :: Forward(a, b) {
      var i :| 0 <= i < |s'| && s'[i] == b;
      assert s[i] in s && Forward(s[i], b);
    }
  }

  lemma RestoreMoves(env: Environment, c: Coord, ids: set<TimerId>)
    ensures var m := Restore(env, c, ids); m.Up? ==> Moves(c, m.coord)
  {
    hide CommitPost, MarkGate, TellPolicy, ScheduleRetry, Recompute, Moves, CompleteBlocks, FailBlocks;
    var m := Restore(env, c, ids);
    var error := GateError(c.mem.desired, env(c.world.instant).gate);
    if m.Up? { BlocksMove(c, m.coord, ids, if error.Some? then error.value else ""); }
  }

  lemma BlocksAggregate(actions: seq<Action>, ids: set<TimerId>, reason: string)
    requires forall a <- actions :: a.id in ids ==> a.kind.BlockInternet?
    ensures ActiveShutdown(CompleteBlocks(actions, ids)) == ActiveShutdown(actions)
    ensures ActiveShutdown(FailBlocks(actions, ids, reason)) == ActiveShutdown(actions)
  {
    hide CompleteBlocks, FailBlocks, Descends;
    CompleteDescends(actions, ids);
    FailDescends(actions, ids, reason);
    var after := FailBlocks(actions, ids, reason);
    if ActiveShutdown(actions) {
      var i :| 0 <= i < |actions| && actions[i].kind.ShutdownComputer? && (actions[i].exec.Pending? || actions[i].exec.Executing?);
      assert actions[i] in actions;
      assert after[i] in after;
    }
    if ActiveShutdown(after) {
      var i :| 0 <= i < |after| && after[i].kind.ShutdownComputer? && (after[i].exec.Pending? || after[i].exec.Executing?);
      assert actions[i] in actions;
    }
  }

  lemma RestoreTruthful(env: Environment, c: Coord, ids: set<TimerId>)
    requires Truthful(c) && (forall a <- c.mem.actions :: a.id in ids ==> a.kind.BlockInternet?)
    ensures var m := Restore(env, c, ids); m.Up? ==> Truthful(m.coord)
  {
    hide CommitPost, MarkGate, TellPolicy, ScheduleRetry, Recompute, CompleteBlocks, FailBlocks;
    var error := GateError(c.mem.desired, env(c.world.instant).gate);
    BlocksAggregate(c.mem.actions, ids, if error.Some? then error.value else "");
  }

  lemma RecoverOneEvolves(a: Action, utc: int)
    ensures Evolves(a, RecoverOne(a, utc))
  {
  }

  lemma OverdueAreBlocks(s: PersistentState, utc: int, first: EntryId)
    requires UniqueActions(s.actions)
    ensures forall b <- RecoverState(s, utc, first).actions :: b.id in OverdueBlocks(s.actions, utc) ==> b.kind.BlockInternet?
  {
    RecoverDescends(s.actions, utc);
    forall b | b in RecoverActions(s.actions, utc) && b.id in OverdueBlocks(s.actions, utc) ensures b.kind.BlockInternet? {
      var a :| a in s.actions && b == RecoverOne(a, utc);
      RecoverOneEvolves(a, utc);
      var x :| x in s.actions && IsOverdueBlock(x, utc) && x.id == b.id;
      SameAction(s.actions, a, x);
    }
  }

  // ---- boot ----------------------------------------------------------------------------------

  ghost predicate Sane(c: Coord) {
    Durable(c) && Timed(c) && Healed(c) && Truthful(c)
  }

  ghost predicate MachineOk(m: Machine) {
    match m
    case Up(c) => Sane(c)
    case Down(w) => WorldOk(w)
  }

  /** Every action that is not pending has its deadline behind it. */
  ghost predicate OnlyPendingAhead(s: PersistentState, utc: int) {
    forall a <- s.actions :: a.exec.Pending? || IsOverdue(a, utc)
  }

  /** Everything holds after a boot; and the anchors are exactly the pending actions if and only if
      no other action on disk had its deadline ahead. */
  lemma BootIsSane(env: Environment, w: World)
    requires WorldOk(w)
    ensures MachineOk(Boot(env, w))
    ensures Boot(env, w).Up? ==> (Exact(Boot(env, w).coord) <==> OnlyPendingAhead(w.disk, BootUtc(env, w)))
  {
    hide Recover, Restore, Durable, Timed, Healed, Truthful, Exact, Moves, RecoverState, WorldOk;
    RecoverKeeps(env, w);
    RecoverResult(env, w);
    RecoverTruthful(env, w);
    DiskFacts(w);
    var utc := BootUtc(env, w);
    match Recover(env, w) {
      case Down(_) =>
      case Up(c) =>
        var mono: nat :| c.timers == RecoverTimers(w.disk.actions, utc, mono);
        BootTimed(c, w, utc, mono);
        var ids := OverdueBlocks(w.disk.actions, utc);
        OverdueAreBlocks(w.disk, utc, w.nextId);
        RestoreKeeps(env, c, ids);
        RestoreTruthful(env, c, ids);
        RestoreHeals(env, c, ids);
        RestoreMoves(env, c, ids);
        var m := Restore(env, c, ids);
        if m.Up? {
          MovesKeepsTimed(c, m.coord);
          DurableWorld(m.coord);
          RestoreKeepsTimers(env, c, ids);
          if Exact(m.coord) { ExactBefore(c, m.coord); }
        }
    }
  }

  lemma DiskFacts(w: World)
    requires WorldOk(w)
    ensures Encodable(w.disk) && IdsBelow(w.disk, w.nextId)
  {
    SafeDisk(w.trace);
    BelowFacts(w.trace, w.nextId);
  }

  lemma BootTimed(c: Coord, w: World, utc: int, mono: nat)
    requires Encodable(w.disk) && IdsBelow(w.disk, w.nextId)
    requires c.mem == RecoverState(w.disk, utc, w.nextId) && c.timers == RecoverTimers(w.disk.actions, utc, mono)
    requires c.bootId == w.nextId && w.nextId <= c.world.nextId
    ensures Timed(c) && (Exact(c) <==> OnlyPendingAhead(w.disk, utc))
  {
    hide RecoverActions, RecoverTimers, OnlyPendingAhead;
    RecoveredTimers(w.disk, utc, mono, w.nextId, w.nextId);
    RecoveredExact(w.disk, utc, mono);
  }

  lemma RestoreKeepsTimers(env: Environment, c: Coord, ids: set<TimerId>)
    ensures var m := Restore(env, c, ids); m.Up? ==> m.coord.timers == c.timers
  {
    hide CommitPost, MarkGate, TellPolicy, ScheduleRetry, ReconciledState, DegradedState;
  }

  /** Actions only move forward, so what is pending now was pending before. */
  lemma ExactBefore(c: Coord, d: Coord)
    requires Moves(c, d) && d.timers == c.timers && Exact(d)
    ensures Exact(c)
  {
    forall id | id in c.timers ensures exists a <- c.mem.actions :: a.id == id && a.exec.Pending? {
      var b :| b in d.mem.actions && b.id == id && b.exec.Pending?;
      var a :| a in c.mem.actions && Forward(a, b);
    }
  }
}
