/** Startup recovery is idempotent under crashes: however often it is interrupted, and wherever,
    repeating it at the same time of day ends in the same durable state. */
module Idempotence {
  import opened Domain
  import opened World
  import opened Subscribers
  import opened Runtime
  import opened Recovery
  import opened Safety
  import opened Durability
  import opened Edits
  import opened Booting

  /** The durable state of an undisturbed boot whose gate call succeeds. */
  function Final(s: PersistentState, utc: int, first: EntryId): PersistentState {
    ReconciledState(RecoverState(s, utc, first), OverdueBlocks(s.actions, utc))
  }

  // ---- fixed points of recovery ----------------------------------------------------------------

  /** Recovery at this time has nothing to do for this action. */
  ghost predicate IsFixed(a: Action, utc: int) {
    !IsMissed(a, utc) && RecoverOne(a, utc) == a
  }

  lemma RecoveredIsFixed(a: Action, utc: int)
    requires !IsMissed(a, utc)
    ensures IsFixed(RecoverOne(a, utc), utc)
    ensures IsOverdueBlock(RecoverOne(a, utc), utc) <==> IsOverdueBlock(a, utc)
  {
    var b := RecoverOne(a, utc);
    if !IsOverdue(a, utc) {
      assert forall t: Threshold :: t in RecoveryPassed(Left(a, utc), a.emitted) ==> t in b.emitted;
      assert forall t: Threshold :: t !in RecoveryPassed(Left(b, utc), b.emitted);
      assert b.emitted + (set t <- RecoveryPassed(Left(b, utc), b.emitted)) == b.emitted;
    }
  }

  lemma {:induction false} FixedActions(actions: seq<Action>, utc: int)
    requires forall a <- actions :: IsFixed(a, utc)
    ensures RecoverActions(actions, utc) == actions
    ensures MissedActions(actions, utc) == []
    decreases |actions|
  {
    if actions != [] {
      var front, last := actions[..|actions| - 1], actions[|actions| - 1];
      assert actions == front + [last];
      assert IsFixed(last, utc);
      FixedActions(front, utc);
    }
  }

  lemma RecoveredActionsFixed(actions: seq<Action>, utc: int)
    ensures forall b <- RecoverActions(actions, utc) :: IsFixed(b, utc)
    ensures OverdueBlocks(RecoverActions(actions, utc), utc) == OverdueBlocks(actions, utc)
  {
    hide RecoverOne, RecoverActions, Descends;
    var after := RecoverActions(actions, utc);
    RecoverDescends(actions, utc);
    forall b | b in after ensures IsFixed(b, utc) {
      var a :| a in actions && !IsMissed(a, utc) && b == RecoverOne(a, utc);
      RecoveredIsFixed(a, utc);
    }
    forall a | a in actions && IsOverdueBlock(a, utc) ensures a.id in OverdueBlocks(after, utc) {
      RecoveredIsFixed(a, utc);
      RecoverOneEvolves(a, utc);
      assert RecoverOne(a, utc) in after;
    }
    forall b | b in after && IsOverdueBlock(b, utc) ensures b.id in OverdueBlocks(actions, utc) {
      var a :| a in actions && !IsMissed(a, utc) && b == RecoverOne(a, utc);
      RecoveredIsFixed(a, utc);
      RecoverOneEvolves(a, utc);
    }
  }

  /** Recovery of a recovered state changes nothing. */
  lemma RecoverTwice(s: PersistentState, utc: int, first: EntryId, second: EntryId)
    ensures RecoverState(RecoverState(s, utc, first), utc, second) == RecoverState(s, utc, first)
    ensures OverdueBlocks(RecoverState(s, utc, first).actions, utc) == OverdueBlocks(s.actions, utc)
  {
    hide RecoverActions, MissedActions, OverdueBlocks, IsFixed;
    var r := RecoverState(s, utc, first);
    RecoveredActionsFixed(s.actions, utc);
    FixedActions(r.actions, utc);
    assert r.outbox + Notices(second, 0, MISSED_TEXT) == r.outbox;
  }

  lemma {:induction false} CompleteNothing(actions: seq<Action>)
    ensures CompleteBlocks(actions, {}) == actions
    decreases |actions|
  {
    if actions != [] {
      assert actions == actions[..|actions| - 1] + [actions[|actions| - 1]];
      CompleteNothing(actions[..|actions| - 1]);
    }
  }

  lemma FinalLeavesNoBlocks(s: PersistentState, utc: int, first: EntryId)
    ensures var f := Final(s, utc, first);
      && (forall b <- f.actions :: IsFixed(b, utc))
      && OverdueBlocks(f.actions, utc) == {}
  {
    hide RecoverActions, CompleteBlocks, Descends;
    var r, ids := RecoverState(s, utc, first), OverdueBlocks(s.actions, utc);
    var f := Final(s, utc, first);
    RecoveredActionsFixed(s.actions, utc);
    CompleteDescends(r.actions, ids);
    forall b | b in f.actions ensures !IsOverdueBlock(b, utc) {
      assert b in r.actions;
      assert IsOverdueBlock(b, utc) ==> b.id in OverdueBlocks(r.actions, utc);
    }
  }

  /** A boot of a finished state has nothing to save. */
  lemma FinalIsFixed(s: PersistentState, utc: int, first: EntryId, second: EntryId)
    ensures var f := Final(s, utc, first);
      && RecoverState(f, utc, second) == f && Final(f, utc, second) == f
  {
    hide RecoverActions, MissedActions, OverdueBlocks, CompleteBlocks, IsFixed;
    var f := Final(s, utc, first);
    FinalLeavesNoBlocks(s, utc, first);
    FixedActions(f.actions, utc);
    CompleteNothing(f.actions);
    assert f.outbox + Notices(second, 0, MISSED_TEXT) == f.outbox;
  }

  // ---- stages of recovery ----------------------------------------------------------------------

  /** Equal but for the identifiers of outbox entries. */
  ghost predicate UpToIds(a: PersistentState, b: PersistentState) {
    && a.desired == b.desired && a.actions == b.actions && a.retry == b.retry
    && |a.outbox| == |b.outbox|
    && forall i :: 0 <= i < |a.outbox| ==> a.outbox[i].(id := 0) == b.outbox[i].(id := 0)
  }

  /** What the disk can hold while recovery of `s` at this time of day is under way. */
  ghost predicate Stage(s: PersistentState, utc: int, d: PersistentState) {
    || d == s
    || (exists first: EntryId :: d == RecoverState(s, utc, first))
    || (exists first: EntryId :: d == Final(s, utc, first))
  }

  lemma FinalUpToIds(s: PersistentState, utc: int, i: EntryId, j: EntryId)
    ensures UpToIds(Final(s, utc, i), Final(s, utc, j))
  {
    hide RecoverActions, MissedActions, OverdueBlocks, CompleteBlocks;
  }

  /** From every stage, recovery leads to the same final state. */
  lemma StageLeadsToFinal(s: PersistentState, utc: int, d: PersistentState, first: EntryId)
    requires Stage(s, utc, d)
    ensures Stage(s, utc, RecoverState(d, utc, first)) && Stage(s, utc, Final(d, utc, first))
    ensures exists i: EntryId :: Final(d, utc, first) == Final(s, utc, i)
    ensures RecoverState(d, utc, first).desired == Final(s, utc, 0).desired
  {
    hide RecoverState;
    if d != s {
      if exists i: EntryId :: d == RecoverState(s, utc, i) {
        var i: EntryId :| d == RecoverState(s, utc, i);
        RecoverTwice(s, utc, i, first);
        assert Final(d, utc, first) == Final(s, utc, i);
        SameDesired(s, utc, i);
      } else {
        var i: EntryId :| d == Final(s, utc, i);
        FinalIsFixed(s, utc, i, first);
        SameDesired(s, utc, i);
      }
    } else {
      SameDesired(s, utc, first);
    }
  }

  lemma SameDesired(s: PersistentState, utc: int, i: EntryId)
    ensures RecoverState(s, utc, i).desired == Final(s, utc, 0).desired == Final(s, utc, i).desired
  {
    hide RecoverActions, MissedActions, CompleteBlocks;
  }

  // ---- boots ---------------------------------------------------------------------------------

  /** Every durable state since the last boot began, that boot's start included, is a stage. */
  ghost predicate StagesOnly(t: Trace, s: PersistentState, utc: int) {
    match t
    case Start(d) => Stage(s, utc, d)
    case Then(past, Booted) => Stage(s, utc, DiskOf(past))
    case Then(past, Saved(d)) => Stage(s, utc, d) && StagesOnly(past, s, utc)
    case Then(past, _) => StagesOnly(past, s, utc)
  }

  lemma {:induction false} RewoundIsStage(t: Trace, s: PersistentState, utc: int, lost: nat)
    requires StagesOnly(t, s, utc)
    ensures Stage(s, utc, DiskOf(Rewind(t, lost)))
    decreases t
  {
    StagesDisk(t, s, utc);
    if lost > 0 && t.Then? && !t.last.Booted? { RewoundIsStage(t.past, s, utc, lost - 1); }
  }

  lemma {:induction false} StagesDisk(t: Trace, s: PersistentState, utc: int)
    requires StagesOnly(t, s, utc)
    ensures Stage(s, utc, DiskOf(t))
  {
    if t.Then? && !t.last.Booted? && !t.last.Saved? { StagesDisk(t.past, s, utc); }
  }

  lemma {:induction false} QuietStages(t: Trace, u: Trace, s: PersistentState, utc: int)
    requires Quiet(t, u) && StagesOnly(t, s, utc)
    ensures StagesOnly(u, s, utc)
  {
    if u != t { QuietStages(t, u.past, s, utc); }
  }

  lemma SavingStages(env: Environment, c: Coord, after: PersistentState, s: PersistentState, utc: int)
    requires StagesOnly(c.world.trace, s, utc) && Stage(s, utc, after)
    ensures StagesOnly(Commit(env, c, after).world.trace, s, utc)
    ensures StagesOnly(CommitPost(env, c, after).world.trace, s, utc)
  {
    var ok := SaveOk(env, c);
    var b1, b2 := AfterSave(c, after, ok, false), AfterSave(c, after, ok, true);
    MarkPersistenceFacts(env, b1, ok);
    MarkPersistenceFacts(env, b2, ok);
    QuietStages(b1.world.trace, MarkPersistence(env, b1, ok).world.trace, s, utc);
    QuietStages(b2.world.trace, MarkPersistence(env, b2, ok).world.trace, s, utc);
  }

  /** At every instant the gate would apply and confirm this policy. */
  ghost predicate GateObeys(env: Environment, target: DesiredInternet) {
    forall n: nat :: GateError(target, env(n).gate).None?
  }

  lemma RecoverStages(env: Environment, w: World, s: PersistentState, utc: int)
    requires WorldOk(w) && Stage(s, utc, w.disk) && BootUtc(env, w) == utc
    ensures StagesOnly(WorldOf(Recover(env, w)).trace, s, utc)
    ensures Recover(env, w).Up? ==> Recover(env, w).coord.mem == RecoverState(w.disk, utc, w.nextId)
  {
    hide Commit, TellMissed, SyncShutdown, RecoverState, Stage, StagesOnly;
    var c0 := Blank(w.Did(Booted).(stopSeen := false));
    BootedStages(w, s, utc);
    var c2 := Looked(Looked(c0));
    var mono := Mono(env, Looked(c0));
    var missed := MissedActions(w.disk.actions, utc);
    var candidate := RecoverState(w.disk, utc, c2.world.nextId);
    StageLeadsToFinal(s, utc, w.disk, c2.world.nextId);
    var c3 := c2.(timers := RecoverTimers(w.disk.actions, utc, mono), world := c2.world.Draw(|missed|));
    SavingStages(env, c3, candidate, s, utc);
    var c4 := if candidate != w.disk then Commit(env, c3, candidate) else c3;
    TellMissedHushed(env, c4, missed);
    var c5 := TellMissed(env, c4, missed);
    SyncShutdownHushed(env, c5);
    QuietStages(c4.world.trace, c5.world.trace, s, utc);
    QuietStages(c5.world.trace, SyncShutdown(env, c5).world.trace, s, utc);
    RecoverResult(env, w);
  }

  lemma BootedStages(w: World, s: PersistentState, utc: int)
    requires WorldOk(w) && Stage(s, utc, w.disk)
    ensures StagesOnly(w.Did(Booted).trace, s, utc)
  {
  }

  lemma RestoreStages(env: Environment, c: Coord, ids: set<TimerId>, s: PersistentState, utc: int)
    requires StagesOnly(c.world.trace, s, utc) && Stage(s, utc, ReconciledState(c.mem, ids))
    requires GateObeys(env, c.mem.desired) && c.mem == c.world.disk
    ensures var m := Restore(env, c, ids);
      && StagesOnly(WorldOf(m).trace, s, utc)
      && (m.Up? ==> m.coord.world.disk == m.coord.mem == ReconciledState(c.mem, ids))
      && (ReconciledState(c.mem, ids) == c.mem ==> m.Up? && Quiet(Then(c.world.trace, GateCall(c.mem.desired)), m.coord.world.trace))
  {
    hide CommitPost, MarkGate, TellPolicy, ReconciledState, Stage, Recompute;
    var c1 := ApplyGate(env, c, c.mem.desired);
    var c2 := TellPolicy(env, c1, c.mem.desired, c.observed, StartupRestoration);
    TellPolicyHushed(env, c1, c.mem.desired, c.observed, StartupRestoration);
    QuietStages(c1.world.trace, c2.world.trace, s, utc);
    var c3 := MarkGate(env, c2, None);
    MarksHushed(env, c2, None);
    QuietStages(c2.world.trace, c3.world.trace, s, utc);
    QuietTransitive(c1.world.trace, c2.world.trace, c3.world.trace);
    SavingStages(env, c3, ReconciledState(c3.mem, ids), s, utc);
    assert GateError(c.mem.desired, env(c.world.instant).gate).None?;
  }

  /** One boot attempt at this time of day, from any stage: wherever it is cut off, the disk holds a
      stage; if it succeeds, the disk holds the final state. */
  lemma BootStages(env: Environment, w: World, s: PersistentState, utc: int)
    requires WorldOk(w) && Stage(s, utc, w.disk) && BootUtc(env, w) == utc
    requires GateObeys(env, Final(s, utc, 0).desired)
    ensures var m := Boot(env, w);
      && StagesOnly(WorldOf(m).trace, s, utc)
      && (m.Up? ==> m.coord.world.disk == Final(w.disk, utc, w.nextId))
  {
    hide Recover, Restore, RecoverState, ReconciledState, Stage, StagesOnly, Durable, WorldOk, GateObeys;
    RecoverStages(env, w, s, utc);
    RecoverKeeps(env, w);
    StageLeadsToFinal(s, utc, w.disk, w.nextId);
    var m := Recover(env, w);
    if m.Up? {
      DurableWorld(m.coord);
      RestoreStages(env, m.coord, OverdueBlocks(w.disk.actions, utc), s, utc);
    }
  }

  // ---- main results --------------------------------------------------------------------------

  /** Boot attempts, each cut off after losing some of its latest effects. */
  ghost function Attempts(env: Environment, w: World, cuts: seq<nat>): World {
    if cuts == [] then w
    else Crashed(WorldOf(Boot(env, Attempts(env, w, cuts[..|cuts| - 1]))), cuts[|cuts| - 1])
  }

  /** All attempts see this time of day. */
  ghost predicate FrozenUtc(env: Environment, utc: int) {
    forall n: nat :: env(n).utc == utc
  }

  lemma {:induction false} AttemptsStage(env: Environment, w: World, cuts: seq<nat>, utc: int)
    requires WorldOk(w) && FrozenUtc(env, utc) && GateObeys(env, Final(w.disk, utc, 0).desired)
    ensures WorldOk(Attempts(env, w, cuts)) && Stage(w.disk, utc, Attempts(env, w, cuts).disk)
    decreases |cuts|
  {
    hide Boot, Stage, StagesOnly, WorldOk, GateObeys, Crashed, Durable, Final;
    if cuts == [] {
      StageStart(w.disk, utc);
    } else {
      var before := Attempts(env, w, cuts[..|cuts| - 1]);
      AttemptsStage(env, w, cuts[..|cuts| - 1], utc);
      BootStages(env, before, w.disk, utc);
      BootIsSane(env, before);
      var m := Boot(env, before);
      if m.Up? { DurableWorld(m.coord); }
      CrashedOk(WorldOf(m), cuts[|cuts| - 1]);
      RewoundIsStage(WorldOf(m).trace, w.disk, utc, cuts[|cuts| - 1]);
      CrashedDisk(WorldOf(m), cuts[|cuts| - 1]);
    }
  }

  lemma CrashedDisk(w: World, lost: nat)
    ensures Crashed(w, lost).disk == DiskOf(Rewind(w.trace, lost))
  {
  }

  lemma StageStart(s: PersistentState, utc: int)
    ensures Stage(s, utc, s)
  {
  }

  /** Main result: after any number of interrupted boots at the same time of day, cut off at any
      point or ended by a failing save, a boot that succeeds leaves the disk as one undisturbed boot
      would have, but for the identifiers its notices were given. */
  lemma RecoveryIsCrashIdempotent(env: Environment, w: World, cuts: seq<nat>, utc: int)
    requires WorldOk(w) && FrozenUtc(env, utc) && GateObeys(env, Final(w.disk, utc, 0).desired)
    ensures var m := Boot(env, Attempts(env, w, cuts));
      m.Up? ==>
        && (exists i: EntryId :: m.coord.world.disk == Final(w.disk, utc, i))
        && UpToIds(m.coord.world.disk, Final(w.disk, utc, w.nextId))
  {
    hide Boot, Stage, StagesOnly, WorldOk, GateObeys, Attempts, Final, UpToIds;
    AttemptsStage(env, w, cuts, utc);
    var v := Attempts(env, w, cuts);
    BootStages(env, v, w.disk, utc);
    StageLeadsToFinal(w.disk, utc, v.disk, v.nextId);
    var i: EntryId :| Final(v.disk, utc, v.nextId) == Final(w.disk, utc, i);
    FinalUpToIds(w.disk, utc, i, w.nextId);
  }

  /** Number of saves attempted since the last boot began. */
  ghost function SavesSinceBoot(t: Trace): nat {
    match t
    case Start(_) => 0
    case Then(_, Booted) => 0
    case Then(past, Saved(_)) => SavesSinceBoot(past) + 1
    case Then(past, SaveFailed(_)) => SavesSinceBoot(past) + 1
    case Then(past, _) => SavesSinceBoot(past)
  }

  lemma {:induction false} QuietSaves(t: Trace, u: Trace)
    requires Quiet(t, u)
    ensures SavesSinceBoot(u) == SavesSinceBoot(t)
  {
    if u != t { QuietSaves(t, u.past); }
  }

  /** Booting a finished state again at the same time of day succeeds and saves nothing. */
  lemma RebootSavesNothing(env: Environment, w: World, s: PersistentState, utc: int, first: EntryId)
    requires WorldOk(w) && BootUtc(env, w) == utc && w.disk == Final(s, utc, first)
    requires GateObeys(env, w.disk.desired)
    ensures var m := Boot(env, w);
      m.Up? && m.coord.world.disk == w.disk && SavesSinceBoot(m.coord.world.trace) == 0
  {
    hide Recover, Restore, Final, GateObeys;
    FixedRecoverySavesNothing(env, w, s, utc, first);
    var c := Recover(env, w).coord;
    FixedRestoreSavesNothing(env, c, OverdueBlocks(w.disk.actions, utc));
  }

  lemma FixedRecoverySavesNothing(env: Environment, w: World, s: PersistentState, utc: int, first: EntryId)
    requires WorldOk(w) && BootUtc(env, w) == utc && w.disk == Final(s, utc, first)
    ensures Recover(env, w).Up?
    ensures var c := Recover(env, w).coord;
      && c.mem == c.world.disk == w.disk && SavesSinceBoot(c.world.trace) == 0 && c.hub.health.persistenceHealthy
      && ReconciledState(c.mem, OverdueBlocks(w.disk.actions, utc)) == c.mem
  {
    hide TellMissed, SyncShutdown, RecoverState, ReconciledState, Final, Commit;
    FinalIsFixed(s, utc, first, w.nextId);
    FinalIsReconciled(w.disk, utc, w.nextId);
    var c0 := Blank(w.Did(Booted).(stopSeen := false));
    var c2 := Looked(Looked(c0));
    var missed := MissedActions(w.disk.actions, utc);
    var c3 := c2.(timers := RecoverTimers(w.disk.actions, utc, Mono(env, Looked(c0))), world := c2.world.Draw(|missed|));
    TellMissedHushed(env, c3, missed);
    var c5 := TellMissed(env, c3, missed);
    SyncShutdownHushed(env, c5);
    var c := SyncShutdown(env, c5);
    assert Recover(env, w) == Up(c);
    QuietSaves(c3.world.trace, c5.world.trace);
    QuietSaves(c5.world.trace, c.world.trace);
  }

  lemma FixedRestoreSavesNothing(env: Environment, c: Coord, ids: set<TimerId>)
    requires ReconciledState(c.mem, ids) == c.mem == c.world.disk && GateObeys(env, c.mem.desired)
    requires c.hub.health.persistenceHealthy && SavesSinceBoot(c.world.trace) == 0
    ensures var m := Restore(env, c, ids);
      && m.Up? && m.coord.world.disk == c.world.disk && SavesSinceBoot(m.coord.world.trace) == 0
      && !m.coord.hub.health.status.Critical?
  {
    hide TellPolicy, MarkGate, ReconciledState;
    assert GateError(c.mem.desired, env(c.world.instant).gate).None?;
    var c1 := ApplyGate(env, c, c.mem.desired);
    var c2 := TellPolicy(env, c1, c.mem.desired, c.observed, StartupRestoration);
    TellPolicyHushed(env, c1, c.mem.desired, c.observed, StartupRestoration);
    MarksHushed(env, c2, None);
    QuietSaves(c1.world.trace, c2.world.trace);
    QuietSaves(c2.world.trace, MarkGate(env, c2, None).world.trace);
  }

  /** And so after any number of interrupted boots: the boot after the one that succeeds saves nothing
      and leaves the disk alone. */
  lemma FurtherBootSavesNothing(env: Environment, w: World, cuts: seq<nat>, utc: int)
    requires WorldOk(w) && FrozenUtc(env, utc) && GateObeys(env, Final(w.disk, utc, 0).desired)
    requires Boot(env, Attempts(env, w, cuts)).Up?
    ensures var up := Boot(env, Attempts(env, w, cuts)).coord.world;
      var m := Boot(env, Crashed(up, 0));
      m.Up? && m.coord.world.disk == up.disk && SavesSinceBoot(m.coord.world.trace) == 0
  {
    hide Boot, Stage, WorldOk, GateObeys, Attempts, Final, UpToIds, Durable;
    RecoveryIsCrashIdempotent(env, w, cuts, utc);
    AttemptsStage(env, w, cuts, utc);
    BootIsSane(env, Attempts(env, w, cuts));
    var c := Boot(env, Attempts(env, w, cuts)).coord;
    DurableWorld(c);
    CrashedOk(c.world, 0);
    DiskIsTraced(c);
    var i: EntryId :| c.world.disk == Final(w.disk, utc, i);
    SameDesired(w.disk, utc, i);
    RebootSavesNothing(env, Crashed(c.world, 0), w.disk, utc, i);
  }

  lemma DiskIsTraced(c: Coord)
    requires Durable(c)
    ensures Crashed(c.world, 0).disk == c.world.disk
  {
  }

  lemma FinalIsReconciled(d: PersistentState, utc: int, first: EntryId)
    requires RecoverState(d, utc, first) == d && Final(d, utc, first) == d
    ensures ReconciledState(d, OverdueBlocks(d.actions, utc)) == d
  {
  }

  // ---- missed shutdowns ------------------------------------------------------------------------

  /** Where the shutdowns stand that recovery at this time declares missed. */
  ghost function MissedShutdowns(actions: seq<Action>, utc: int): set<nat> {
    set i | 0 <= i < |actions| && IsMissed(actions[i], utc)
  }

  /** Exactly one notice per missed shutdown stands behind the outbox of `s`, each with an identifier of
      its own. */
  ghost predicate NoticedOnce(s: PersistentState, utc: int, outbox: seq<OutboxEntry>, first: EntryId) {
    && s.outbox <= outbox && |outbox| == |s.outbox| + |MissedShutdowns(s.actions, utc)|
    && forall i :: |s.outbox| <= i < |outbox| ==> outbox[i] == Notice(first + (i - |s.outbox|), MISSED_TEXT)
  }

  lemma {:induction false} MissedFacts(actions: seq<Action>, utc: int)
    ensures forall x :: x in MissedActions(actions, utc) <==> exists a <- actions :: IsMissed(a, utc) && x == a.(exec := Missed)
    decreases |actions|
  {
    hide IsMissed;
    if actions != [] {
      assert actions == actions[..|actions| - 1] + [actions[|actions| - 1]];
      MissedFacts(actions[..|actions| - 1], utc);
    }
  }

  lemma {:induction false} MissedCount(actions: seq<Action>, utc: int)
    ensures |MissedActions(actions, utc)| == |MissedShutdowns(actions, utc)|
    decreases |actions|
  {
    hide IsMissed;
    if actions != [] {
      var front, last := actions[..|actions| - 1], actions[|actions| - 1];
      assert actions == front + [last];
      MissedCount(front, utc);
      assert MissedShutdowns(actions, utc) == MissedShutdowns(front, utc) + (if IsMissed(last, utc) then {|front|} else {});
    }
  }

  lemma {:induction false} MissedStayDistinct(actions: seq<Action>, utc: int)
    requires UniqueActions(actions)
    ensures UniqueActions(MissedActions(actions, utc))
    decreases |actions|
  {
    hide IsMissed;
    if actions != [] {
      var front, last := actions[..|actions| - 1], actions[|actions| - 1];
      assert actions == front + [last];
      MissedStayDistinct(front, utc);
      MissedFacts(front, utc);
      var before := MissedActions(front, utc);
      forall i | 0 <= i < |before| ensures before[i].id != last.id {
        assert before[i] in before;
        var x :| x in front && before[i] == x.(exec := Missed);
        var j :| 0 <= j < |front| && front[j] == x;
        assert actions[j].id != actions[|front|].id;
      }
    }
  }

  /** Recovery leaves exactly one notice per missed shutdown behind everything that was waiting,
      reports exactly the missed shutdowns, each once, and takes them out of the actions. */
  lemma OneNoticePerMissedShutdown(s: PersistentState, utc: int, first: EntryId)
    ensures NoticedOnce(s, utc, Final(s, utc, first).outbox, first)
    ensures |MissedActions(s.actions, utc)| == |MissedShutdowns(s.actions, utc)|
    ensures forall x :: x in MissedActions(s.actions, utc) <==> exists a <- s.actions :: IsMissed(a, utc) && x == a.(exec := Missed)
    ensures UniqueActions(s.actions) ==> UniqueActions(MissedActions(s.actions, utc))
    ensures UniqueActions(s.actions) ==> forall a <- s.actions :: IsMissed(a, utc) ==> a.id !in ActionIds(Final(s, utc, first).actions)
  {
    hide IsMissed, MissedActions, RecoverActions, CompleteBlocks;
    MissedFacts(s.actions, utc);
    MissedCount(s.actions, utc);
    if UniqueActions(s.actions) {
      MissedStayDistinct(s.actions, utc);
      MissedAreGone(s, utc, first);
    }
  }

  lemma MissedAreGone(s: PersistentState, utc: int, first: EntryId)
    requires UniqueActions(s.actions)
    ensures forall a <- s.actions :: IsMissed(a, utc) ==> a.id !in ActionIds(Final(s, utc, first).actions)
  {
    hide CompleteBlocks, Descends, IsMissed, RecoverOne;
    RecoverDescends(s.actions, utc);
    CompleteDescends(RecoverActions(s.actions, utc), OverdueBlocks(s.actions, utc));
    forall a, b | a in s.actions && IsMissed(a, utc) && b in RecoverActions(s.actions, utc) ensures b.id != a.id {
      var x :| x in s.actions && !IsMissed(x, utc) && b == RecoverOne(x, utc);
      RecoverOneEvolves(x, utc);
      if x.id == a.id { SameAction(s.actions, a, x); }
    }
  }

  /** The same after any number of interrupted boots. */
  lemma OneNoticeAcrossCrashes(env: Environment, w: World, cuts: seq<nat>, utc: int)
    requires WorldOk(w) && FrozenUtc(env, utc) && GateObeys(env, Final(w.disk, utc, 0).desired)
    ensures var m := Boot(env, Attempts(env, w, cuts));
      m.Up? ==> exists first: EntryId :: NoticedOnce(w.disk, utc, m.coord.world.disk.outbox, first)
  {
    hide Boot, WorldOk, GateObeys, Attempts, Final, UpToIds, NoticedOnce;
    RecoveryIsCrashIdempotent(env, w, cuts, utc);
    var m := Boot(env, Attempts(env, w, cuts));
    if m.Up? {
      var i: EntryId :| m.coord.world.disk == Final(w.disk, utc, i);
      OneNoticePerMissedShutdown(w.disk, utc, i);
    }
  }
}
