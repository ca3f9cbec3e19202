/** The clock tick keeps the write-ahead invariant: warnings, deadlines and gate retries. */
module Deadlines {
  import opened Domain
  import opened World
  import opened Subscribers
  import opened Runtime
  import opened Recovery
  import opened Safety
  import opened Durability
  import opened Edits
  import opened Preservation

  /** Every action of `after` is a later version of one in `before`. */
  ghost predicate Versions(before: seq<Action>, after: seq<Action>) {
    forall b <- after :: exists a <- before :: Evolves(a, b)
  }

  lemma VersionsReflexive(s: seq<Action>)
    ensures Versions(s, s)
  {
    forall b | b in s ensures exists a <- s :: Evolves(a, b) {
      assert Evolves(b, b);
    }
  }

  lemma VersionsTransitive(r: seq<Action>, s: seq<Action>, t: seq<Action>)
    requires Versions(r, s) && Versions(s, t)
    ensures Versions(r, t)
  {
    forall d | d in t ensures exists a <- r :: Evolves(a, d) {
      var b :| b in s && Evolves(b, d);
      var a :| a in r && Evolves(a, b);
      EvolvesTransitive(a, b, d);
    }
  }

  /** The anchors know the kinds of their actions. */
  ghost predicate KindsMatch(actions: seq<Action>, kinds: map<TimerId, Anchor>) {
    forall a <- actions :: a.id in kinds ==> kinds[a.id].kind == a.kind
  }

  lemma KindsSurvive(before: seq<Action>, after: seq<Action>, kinds: map<TimerId, Anchor>)
    requires Versions(before, after) && KindsMatch(before, kinds)
    ensures KindsMatch(after, kinds)
  {
    forall b | b in after && b.id in kinds ensures kinds[b.id].kind == b.kind {
      var a :| a in before && Evolves(a, b);
    }
  }

  lemma DescendsVersions(before: seq<Action>, after: seq<Action>)
    requires Descends(before, after)
    ensures Versions(before, after)
  {
    DescendsFacts(before, after);
  }

  // ---- warnings ------------------------------------------------------------------------------

  lemma WarnCrossedKeeps(env: Environment, c: Coord, id: TimerId, previous: nat, current: nat)
    requires Durable(c) && id in c.timers
    ensures var d := WarnCrossed(env, c, id, current, CrossedBy(c, id, previous, current));
      Durable(d) && Versions(c.mem.actions, d.mem.actions)
  {
    hide Commit, WarningsSaved, Durable, Crossed, Versions, WarnEdit;
    var crossed := CrossedBy(c, id, previous, current);
    var k := FindAction(c.mem.actions, id);
    VersionsReflexive(c.mem.actions);
    if k < |c.mem.actions| {
      var c1 := c.(world := c.world.Draw(|crossed|));
      var after := WarnEdit(c.mem, k, crossed, c.world.nextId);
      WarnSaveKeeps(env, c, k, crossed);
      if SaveOk(env, c1) {
        CrossedUnwarned(c, k, previous, current);
        CrossedDistinct(previous, current, c.mem.actions[k].emitted);
        var described := c.mem.actions[k].(kind := c.timers[id].kind, deadline := c.timers[id].deadline);
        WarningsSavedKeeps(env, Commit(env, c1, after), described, current, crossed);
      }
    }
  }

  lemma CrossedDistinct(previous: int, current: int, emitted: set<Threshold>)
    ensures Distinct(Crossed(previous, current, emitted))
  {
    SelectDistinct(ALL_THRESHOLDS, current, previous, emitted);
  }

  lemma WarnSaveKeeps(env: Environment, c: Coord, k: nat, crossed: seq<Threshold>)
    requires Durable(c) && k < |c.mem.actions|
    ensures var after := WarnEdit(c.mem, k, crossed, c.world.nextId);
      var d := Commit(env, c.(world := c.world.Draw(|crossed|)), after);
      && Durable(d) && Versions(c.mem.actions, after.actions)
      && Warned(d.world.trace) == Warned(c.world.trace)
      && (d.mem == after ==> forall t <- crossed :: HasEmitted(d.mem, c.mem.actions[k].id, t))
  {
    hide Commit, CommitPost, Durable, Versions, Edit;
    var after := WarnEdit(c.mem, k, crossed, c.world.nextId);
    DurableIsSound(c);
    WarnIsEdit(c.mem, k, crossed, c.world.nextId);
    PointwiseDescends(c.mem.actions, after.actions);
    DescendsVersions(c.mem.actions, after.actions);
    SaveStep(env, c, after, |crossed|);
    SavingFacts(env, c.(world := c.world.Draw(|crossed|)), after);
    assert after.actions[k] in after.actions;
  }

  lemma WarningsSavedKeeps(env: Environment, c: Coord, described: Action, current: nat, crossed: seq<Threshold>)
    requires Durable(c) && Distinct(crossed)
    requires forall t <- crossed :: (described.id, t) !in Warned(c.world.trace) && HasEmitted(c.world.disk, described.id, t)
    ensures Durable(WarningsSaved(env, c, described, current, crossed))
    ensures WarningsSaved(env, c, described, current, crossed).mem == c.mem
  {
    hide TellWarnings, Durable;
    var c1 := SetCursor(c, described.id, current);
    HushedKeeps(c, Looked(c1));
    TellWarningsKeep(env, Looked(c1), described, crossed, Utc(env, c1));
  }

  /** An action in memory whose identifier was ever on disk is still there, not ahead of it. */
  lemma MemoryFollowsDisk(c: Coord, a: Action)
    requires Durable(c) && a in c.mem.actions
    ensures SafeTrace(c.world.trace) && c.world.disk == DiskOf(c.world.trace)
    ensures a.id in Known(c.world.trace) ==>
      exists b <- c.world.disk.actions :: b.id == a.id && b.emitted <= a.emitted && (a.exec.Pending? ==> b.exec.Pending?)
  {
    if a.id in Known(c.world.trace) {
      var b :| b in c.world.disk.actions && Evolves(b, a);
    }
  }

  /** A crossed threshold is not emitted yet, so it was never sent. */
  lemma CrossedUnwarned(c: Coord, k: nat, previous: nat, current: nat)
    requires Durable(c) && k < |c.mem.actions|
    ensures forall t <- Crossed(previous, current, c.mem.actions[k].emitted) :: (c.mem.actions[k].id, t) !in Warned(c.world.trace)
  {
    hide Durable;
    var a := c.mem.actions[k];
    MemoryFollowsDisk(c, a);
    forall t | t in Crossed(previous, current, a.emitted) ensures (a.id, t) !in Warned(c.world.trace) {
      if (a.id, t) in Warned(c.world.trace) { WarnedIsRecorded(c.world.trace, a.id, t); }
    }
  }

  lemma WarnKeeps(env: Environment, c: Coord, id: TimerId, now: nat)
    requires Durable(c)
    ensures Durable(Warn(env, c, id, now)) && Versions(c.mem.actions, Warn(env, c, id, now).mem.actions)
  {
    hide WarnCrossed, Durable;
    VersionsReflexive(c.mem.actions);
    if id in c.timers && now < c.timers[id].target {
      var previous, current := c.timers[id].cursor, SecondsLeft(c.timers[id], now);
      HushedKeeps(c, SetCursor(c, id, current));
      WarnCrossedKeeps(env, c, id, previous, current);
    }
  }

  lemma {:induction false} WarnAllKeeps(env: Environment, c: Coord, order: seq<TimerId>, now: nat)
    requires Durable(c)
    ensures Durable(WarnAll(env, c, order, now))
    ensures Versions(c.mem.actions, WarnAll(env, c, order, now).mem.actions)
    decreases |order|
  {
    hide Warn, Durable;
    if order == [] {
      VersionsReflexive(c.mem.actions);
    } else {
      var before := WarnAll(env, c, order[..|order| - 1], now);
      WarnAllKeeps(env, c, order[..|order| - 1], now);
      WarnKeeps(env, before, order[|order| - 1], now);
      VersionsTransitive(c.mem.actions, before.mem.actions, WarnAll(env, c, order, now).mem.actions);
    }
  }

  // ---- Internet deadline ---------------------------------------------------------------------

  lemma GateFailureVersions(env: Environment, c: Coord, edited: PersistentState)
    ensures RecordGateFailure(env, c, edited).mem == edited
  {
  }

  lemma BlockOutcomeKeeps(env: Environment, c: Coord, id: TimerId, error: Option<string>)
    requires Durable(c)
    ensures Durable(BlockOutcome(env, c, id, error))
    ensures Versions(c.mem.actions, BlockOutcome(env, c, id, error).mem.actions)
  {
    hide Tell, Commit, CommitPost, MarkGate, MarkPower, Recompute, ScheduleRetry, CompleteEdit, FailEdit, Durable, Edit, Versions, Descends, Sound;
    var c1 := MarkGate(env, c, error);
    MarkGateKeeps(env, c, error);
    DurableIsSound(c1);
    if error.None? {
      var after := CompleteEdit(c.mem, id).(retry := None);
      CompleteIsEdit(c.mem, id);
      ForwardEdit(c.mem, after, c1.world.nextId);
      DescendsVersions(c.mem.actions, after.actions);
      SaveStepNoDraw(env, c1, after);
    } else {
      var moved := FailEdit(c.mem, id, error.value);
      FailIsEdit(c.mem, id, error.value);
      DescendsVersions(c.mem.actions, moved.actions);
      RetryIsEdit(c1.mem, moved, error.value, c1.world.nextId);
      RecordGateFailureKeeps(env, c1, RetryEdit(moved, error.value, c1.world.nextId));
      GateFailureVersions(env, c1.(world := c1.world.Draw(1)), RetryEdit(moved, error.value, c1.world.nextId));
    }
  }

  /** The durable transition to Executing. */
  lemma StartExecutingKeeps(env: Environment, c: Coord, after: PersistentState, k: nat)
    requires Durable(c) && k < |c.mem.actions| && c.mem.actions[k].exec.Pending?
    requires after.actions == SetExec(c.mem.actions, k, Executing) && after.outbox == c.mem.outbox
    ensures Durable(Commit(env, c, after)) && Versions(c.mem.actions, after.actions)
    ensures Powered(Commit(env, c, after).world.trace) == Powered(c.world.trace)
  {
    hide Commit, CommitPost, Durable, Edit, Versions;
    DurableIsSound(c);
    StartExecutingIsEdit(c.mem, after, k, c.world.nextId);
    SetExecDescends(c.mem.actions, k, Executing);
    DescendsVersions(c.mem.actions, after.actions);
    SaveStepNoDraw(env, c, after);
    SavingFacts(env, c, after);
  }

  lemma FireBlockKeeps(env: Environment, c: Coord, id: TimerId)
    requires Durable(c)
    ensures Durable(FireBlock(env, c, id)) && Versions(c.mem.actions, FireBlock(env, c, id).mem.actions)
  {
    hide Tell, Commit, CommitPost, MarkGate, MarkPower, Recompute, Reconcile, BlockOutcome, FiredBlock, Durable, Edit, Versions;
    VersionsReflexive(c.mem.actions);
    var c0 := LookForStop(env, c);
    HushedKeeps(c, c0);
    var k := FindAction(c.mem.actions, id);
    if k < |c.mem.actions| && c.mem.actions[k].exec.Pending? {
      var after := c.mem.(actions := SetExec(c.mem.actions, k, Executing), desired := Blocked);
      StartExecutingKeeps(env, c0, after, k);
      if SaveOk(env, c0) {
        FiredBlockKeeps(env, c, Commit(env, c0, after), id);
        if !c0.world.stopSeen {
          VersionsTransitive(c.mem.actions, after.actions, FireBlock(env, c, id).mem.actions);
        }
      }
    }
  }

  /** After the durable transition of an Internet deadline. */
  lemma FiredBlockKeeps(env: Environment, before: Coord, c: Coord, id: TimerId)
    requires Durable(c) && c.world.disk.desired == Blocked
    ensures var d := FiredBlock(env, before, c, id); Durable(d) && Versions(c.mem.actions, d.mem.actions)
  {
    hide Tell, Commit, CommitPost, MarkGate, MarkPower, Recompute, Reconcile, BlockOutcome, Durable, Versions;
    VersionsReflexive(c.mem.actions);
    var c1 := c.(timers := c.timers - {id});
    HushedKeeps(c, c1);
    var c2 := Tell(env, c1, TimerExpired(id, BlockInternet));
    TellHushed(env, c1, TimerExpired(id, BlockInternet));
    HushedKeeps(c1, c2);
    var c3 := LookForStop(env, c2);
    HushedKeeps(c2, c3);
    if !c3.world.stopSeen {
      var c4 := ApplyGate(env, c3, Blocked);
      ApplyGateKeeps(env, c3, Blocked);
      var c5 := TellPolicy(env, c4, before.mem.desired, before.observed, TimerFired(id));
      TellPolicyHushed(env, c4, before.mem.desired, before.observed, TimerFired(id));
      HushedKeeps(c4, c5);
      BlockOutcomeKeeps(env, c5, id, GateError(Blocked, env(c3.world.instant).gate));
    }
  }

  // ---- shutdown deadline ---------------------------------------------------------------------

  /** A pending shutdown was never handed to the power controller. */
  lemma PendingIsUnpowered(c: Coord, a: Action)
    requires Durable(c) && a in c.mem.actions && a.exec.Pending?
    ensures a.id !in Powered(c.world.trace)
  {
    hide Durable;
    MemoryFollowsDisk(c, a);
    if a.id in Powered(c.world.trace) { PoweredIsSpent(c.world.trace, a.id); }
  }

  lemma FireShutdownKeeps(env: Environment, c: Coord, id: TimerId)
    requires Durable(c) && (forall a <- c.mem.actions :: a.id == id ==> a.kind.ShutdownComputer?)
    ensures Durable(FireShutdown(env, c, id)) && Versions(c.mem.actions, FireShutdown(env, c, id).mem.actions)
  {
    hide Tell, Commit, CommitPost, MarkGate, MarkPower, Recompute, Reconcile, PowerOutcome, FiredShutdown, Durable, Edit, Versions;
    VersionsReflexive(c.mem.actions);
    var c0 := LookForStop(env, c);
    HushedKeeps(c, c0);
    var k := FindAction(c.mem.actions, id);
    if k < |c.mem.actions| && c.mem.actions[k].exec.Pending? {
      var after := c.mem.(actions := SetExec(c.mem.actions, k, Executing));
      StartExecutingKeeps(env, c0, after, k);
      PendingIsUnpowered(c, c.mem.actions[k]);
      if SaveOk(env, c0) {
        assert after.actions[k] in after.actions;
        assert HasExecutingShutdown(after, id);
        FiredShutdownKeeps(env, Commit(env, c0, after), id);
        if !c0.world.stopSeen {
          VersionsTransitive(c.mem.actions, after.actions, FireShutdown(env, c, id).mem.actions);
        }
      }
    }
  }

  /** After the durable transition of a shutdown deadline. */
  lemma FiredShutdownKeeps(env: Environment, c: Coord, id: TimerId)
    requires Durable(c) && HasExecutingShutdown(c.world.disk, id) && id !in Powered(c.world.trace)
    ensures var d := FiredShutdown(env, c, id); Durable(d) && Versions(c.mem.actions, d.mem.actions)
  {
    hide Tell, Commit, CommitPost, MarkGate, MarkPower, Recompute, Reconcile, PowerOutcome, Durable, Versions;
    VersionsReflexive(c.mem.actions);
    var c1 := c.(timers := c.timers - {id});
    HushedKeeps(c, c1);
    var c2 := Tell(env, c1, TimerExpired(id, ShutdownComputer));
    TellHushed(env, c1, TimerExpired(id, ShutdownComputer));
    HushedKeeps(c1, c2);
    var c3 := LookForStop(env, c2);
    HushedKeeps(c2, c3);
    if !c3.world.stopSeen {
      var outcome := env(c3.world.instant).power;
      PowerCallKeeps(c3, id, outcome);
      PowerOutcomeKeeps(env, c3.(world := c3.world.Did(PowerCall(id, outcome))), id, outcome);
    }
  }

  lemma PowerCallKeeps(c: Coord, id: TimerId, outcome: Outcome)
    requires Durable(c) && HasExecutingShutdown(c.world.disk, id) && id !in Powered(c.world.trace)
    ensures Durable(c.(world := c.world.Did(PowerCall(id, outcome))))
  {
    var d := c.(world := c.world.Did(PowerCall(id, outcome)));
    assert SafeStep(c.world.trace, PowerCall(id, outcome));
    assert Stored(d.world.trace) == Stored(c.world.trace) && Known(d.world.trace) == Known(c.world.trace);
  }

  lemma PowerOutcomeKeeps(env: Environment, c: Coord, id: TimerId, outcome: Outcome)
    requires Durable(c)
    ensures Durable(PowerOutcome(env, c, id, outcome))
    ensures Versions(c.mem.actions, PowerOutcome(env, c, id, outcome).mem.actions)
  {
    hide Tell, Commit, CommitPost, MarkGate, MarkPower, Recompute, Reconcile, Durable, Edit, Versions;
    VersionsReflexive(c.mem.actions);
    var error := match outcome case Success => None case Failure(reason) => Some(reason);
    var c1 := MarkPower(env, c, error);
    MarksHushed(env, c, error);
    HushedKeeps(c, c1);
    DurableIsSound(c1);
    if outcome.Success? {
      var c2 := TellShutdown(env, c1.(shutdown := InProgress), c.shutdown, InProgress);
      TellHushed(env, c1.(shutdown := InProgress), ShutdownStateChanged(c.shutdown, InProgress));
      HushedTransitive(c, c1, c1.(shutdown := InProgress));
      HushedKeeps(c1, c2);
      DurableIsSound(c2);
      var after := CompleteEdit(c.mem, id);
      CompleteIsEdit(c.mem, id);
      ForwardEdit(c.mem, after, c2.world.nextId);
      DescendsVersions(c.mem.actions, after.actions);
      SaveStepNoDraw(env, c2, after);
    } else {
      PowerRefusedKeeps(env, c, c1, id, outcome.reason);
    }
  }

  lemma PowerRefusedKeeps(env: Environment, c: Coord, c1: Coord, id: TimerId, reason: string)
    requires Durable(c1) && c1.mem == c.mem
    ensures var d := PowerRefused(env, c, c1, id, reason);
      Durable(d) && Versions(c.mem.actions, d.mem.actions)
  {
    hide Tell, Commit, CommitPost, MarkGate, MarkPower, Recompute, Reconcile, Durable, Edit, Versions;
    hide FailEdit, DeriveShutdown, Descends, Sound;
    var failed := FailEdit(c.mem, id, reason);
    var edited := failed.(outbox := failed.outbox + [Notice(c1.world.nextId, reason)]);
    var current := DeriveShutdown(c.shutdown, edited.actions);
    DurableIsSound(c1);
    DurableIsEncodable(c1);
    FailIsEdit(c.mem, id, reason);
    DescendsVersions(c.mem.actions, edited.actions);
    ProgressIsEdit(c.mem, edited, [Notice(c1.world.nextId, reason)], c1.world.nextId, c1.world.nextId + 1);
    var b := c1.(shutdown := current);
    HushedKeeps(c1, b);
    SaveStep(env, b, edited, 1);
    var c2 := b.(world := b.world.Draw(1));
    var c3 := CommitPost(env, c2, edited);
    TellHushed(env, c3, ShutdownStateChanged(c.shutdown, current));
    HushedKeeps(c3, Tell(env, c3, ShutdownStateChanged(c.shutdown, current)));
  }

  lemma {:induction false} FireAllKeeps(env: Environment, c: Coord, kinds: map<TimerId, Anchor>, due: seq<TimerId>)
    requires Durable(c) && KindsMatch(c.mem.actions, kinds)
    requires forall id <- due :: id in kinds
    ensures var f := FireAll(env, c, kinds, due);
      Durable(f.coord) && Versions(c.mem.actions, f.coord.mem.actions)
    decreases |due|
  {
    hide FireBlock, FireShutdown, Durable;
    if due == [] {
      VersionsReflexive(c.mem.actions);
    } else {
      var front, id := due[..|due| - 1], due[|due| - 1];
      FireAllKeeps(env, c, kinds, front);
      var f := FireAll(env, c, kinds, front);
      if !f.aborted {
        var c1 := LookForStop(env, f.coord);
        HushedKeeps(f.coord, c1);
        KindsSurvive(c.mem.actions, c1.mem.actions, kinds);
        FireBlockKeeps(env, c1, id);
        if kinds[id].kind.ShutdownComputer? { FireShutdownKeeps(env, c1, id); }
        VersionsReflexive(c1.mem.actions);
        VersionsTransitive(c.mem.actions, c1.mem.actions, FireAll(env, c, kinds, due).coord.mem.actions);
      }
    }
  }

  // ---- retry and tick ------------------------------------------------------------------------

  lemma RetryKeeps(env: Environment, c: Coord)
    requires Durable(c) && c.hub.health.persistenceHealthy
    ensures Durable(Retry(env, c))
  {
    hide Tell, Commit, CommitPost, MarkGate, MarkPower, Recompute, Reconcile, RetryOutcome;
    var c1 := LookForStop(env, c);
    HushedKeeps(c, c1);
    if !c1.world.stopSeen {
      var c2 := ApplyGate(env, c1, c.mem.desired);
      ApplyGateKeeps(env, c1, c.mem.desired);
      var c3 := TellPolicy(env, c2, c.mem.desired, c.observed, PlatformSync);
      TellPolicyHushed(env, c2, c.mem.desired, c.observed, PlatformSync);
      HushedKeeps(c2, c3);
      RetryOutcomeKeeps(env, c3, GateError(c.mem.desired, env(c1.world.instant).gate));
    }
  }

  lemma RetryOutcomeKeeps(env: Environment, c: Coord, error: Option<string>)
    requires Durable(c)
    ensures Durable(RetryOutcome(env, c, error))
  {
    hide Tell, Commit, CommitPost, MarkGate, MarkPower, Recompute, Reconcile, Durable, Edit;
    var c1 := MarkGate(env, c, error);
    MarkGateKeeps(env, c, error);
    DurableIsSound(c1);
    if error.None? {
      ResolveIsEdit(c1.mem, c1.world.nextId);
      SaveStepNoDraw(env, c1, RetryDoneEdit(c1.mem));
    } else {
      UnchangedDescends(c1.mem);
      DurableIsEncodable(c1);
      RetryIsEdit(c1.mem, c1.mem, error.value, c1.world.nextId);
      RecordGateFailureKeeps(env, c1, RetryEdit(c1.mem, error.value, c1.world.nextId));
    }
  }

  lemma DurableIsEncodable(c: Coord)
    requires Durable(c)
    ensures Encodable(c.mem)
  {
  }

  lemma {:induction false} ExpiredFacts(timers: map<TimerId, Anchor>, order: seq<TimerId>, now: nat)
    ensures forall id :: id in Expired(timers, order, now) <==> id in order && id in timers && now >= timers[id].target
    decreases |order|
  {
    if order != [] {
      var front := order[..|order| - 1];
      assert order == front + [order[|order| - 1]];
      ExpiredFacts(timers, front, now);
    }
  }

  lemma TickKeeps(env: Environment, c: Coord, order: seq<TimerId>)
    requires Durable(c) && KindsMatch(c.mem.actions, c.timers)
    ensures Durable(Tick(env, c, order))
  {
    hide WarnAll, FireAll, Retry, Durable;
    var c0 := LookForStop(env, c);
    HushedKeeps(c, c0);
    if !c0.world.stopSeen {
      var now, c1 := Mono(env, c0), Looked(c0);
      HushedKeeps(c0, c1);
      var c2 := WarnAll(env, c1, order, now);
      WarnAllKeeps(env, c1, order, now);
      KindsSurvive(c.mem.actions, c2.mem.actions, c.timers);
      ExpiredFacts(c.timers, order, now);
      FireAllKeeps(env, c2, c.timers, Expired(c.timers, order, now));
      var d := FireAll(env, c2, c.timers, Expired(c.timers, order, now)).coord;
      HushedKeeps(d, d.(retryAt := None));
      if d.hub.health.persistenceHealthy { RetryKeeps(env, d.(retryAt := None)); }
    }
  }
}
