/** What the loops of the coordinator have done after some turns: the facts its loop invariants
    rest on. */
module Loops {
  import opened Domain
  import opened World
  import opened Subscribers
  import opened Runtime
  import opened Recovery
  import opened Safety
  import opened Edits
  import opened Booting
  import opened Wake
  import opened CoreRules

  lemma InitialIsPassedOrDue(duration: nat, emitted: set<Threshold>, passed: set<Threshold>, due: seq<Threshold>)
    requires emitted == passed + (set t <- due) && forall t: Threshold :: t in passed <==> duration < t.Seconds()
    requires forall t: Threshold :: t in due <==> duration == t.Seconds()
    ensures emitted == InitialThresholds(duration)
  {
    AllThresholdsListed();
  }

  /** One subscriber after one attempt to send, if it is addressed. */
  function AfterSend(m: Moment, id: nat, s: Subscriber, e: Event, addressed: bool): Subscriber {
    if addressed && HasRoom(m, id, s) then s.(stream := s.stream + [e]) else s
  }

  /** The registry when everyone but `rest` has been served. */
  function Served(m: Moment, subs: map<nat, Subscriber>, e: Event, excluded: Option<nat>, rest: set<nat>): map<nat, Subscriber> {
    map id | id in subs :: AfterSend(m, id, subs[id], e, id !in rest && Addressed(id, excluded))
  }

  lemma ServeOne(m: Moment, subs: map<nat, Subscriber>, e: Event, excluded: Option<nat>, rest: set<nat>, id: nat)
    requires id in rest && rest <= subs.Keys
    ensures Served(m, subs, e, excluded, rest)[id] == subs[id]
    ensures Served(m, subs, e, excluded, rest - {id})
      == Served(m, subs, e, excluded, rest)[id := AfterSend(m, id, subs[id], e, Addressed(id, excluded))]
    ensures FailedSends(m, subs - (rest - {id}), excluded)
      == FailedSends(m, subs - rest, excluded) + (if Addressed(id, excluded) && !HasRoom(m, id, subs[id]) then {id} else {})
  {
    hide HasRoom;
  }

  lemma ServeStartAndEnd(m: Moment, subs: map<nat, Subscriber>, e: Event, excluded: Option<nat>)
    ensures Served(m, subs, e, excluded, subs.Keys) == subs && FailedSends(m, subs - subs.Keys, excluded) == {}
    ensures subs - {} == subs
    ensures Served(m, subs, e, excluded, {}) - FailedSends(m, subs, excluded) == Deliver(m, subs, e, excluded)
  {
    hide HasRoom;
  }

  /** One turn of the loop that re-announces the number of sessions. */
  lemma ReconcileStep(env: Environment, hub: Hub, w: World, excluded: Option<nat>)
    requires |hub.subs| <= U32_MAX && hub.health.sessions != |hub.subs|
    ensures var counted := hub.health.(sessions := |hub.subs|);
      var e, m := HealthUpdated(counted), env(w.instant);
      var after := hub.(health := counted, subs := Deliver(m, hub.subs, e, excluded));
      && Reconcile(env, hub, w, excluded) ==
           (if FailedSends(m, hub.subs, excluded) == {} then Sent(after, w.Did(Broadcast(e)), true)
            else Reconcile(env, after, w.Did(Broadcast(e)), excluded))
      && |after.subs| == |hub.subs| - |FailedSends(m, hub.subs, excluded)|
  {
    hide Deliver, FailedSends, HasRoom;
    DeliverKeys(env(w.instant), hub.subs, HealthUpdated(hub.health.(sessions := |hub.subs|)), excluded);
  }

  lemma ReconcileDone(env: Environment, hub: Hub, w: World, excluded: Option<nat>)
    requires |hub.subs| > U32_MAX || hub.health.sessions == |hub.subs|
    ensures Reconcile(env, hub, w, excluded) == Sent(hub, w, |hub.subs| <= U32_MAX)
  {
  }

  ghost predicate OnlyCursorsMoved(before: map<TimerId, Anchor>, after: map<TimerId, Anchor>) {
    && after.Keys == before.Keys
    && forall id <- before :: after[id] == before[id].(cursor := after[id].cursor)
  }

  /** The same identifiers, with the kinds the table gives them. */
  ghost predicate Lists(expired: seq<(TimerId, ActionKind)>, due: seq<TimerId>, table: map<TimerId, Anchor>) {
    && |expired| == |due|
    && forall i :: 0 <= i < |due| ==> due[i] in table && expired[i] == (due[i], table[due[i]].kind)
  }

  ghost predicate TimerInstant(c: Coord, id: TimerId, at: nat)
    requires id in c.timers
  {
    at == c.timers[id].target || WarningInstant(c.mem.actions, id, c.timers[id], at)
  }

  ghost predicate IsEarliestWake(c: Coord, at: nat) {
    WakeInstant(c, at) && forall b: nat :: WakeInstant(c, b) ==> at <= b
  }

  lemma WakeInstantSplits(c: Coord)
    ensures forall at: nat :: WakeInstant(c, at) <==>
      (exists id <- c.timers :: TimerInstant(c, id, at)) || c.retryAt == Some(at)
  {
  }

  lemma WarnSkips(env: Environment, c: Coord, id: TimerId, now: nat)
    ensures id !in c.timers || now >= c.timers[id].target ==> Warn(env, c, id, now) == c
  {
  }

  lemma {:induction false} FireAllStays(env: Environment, c: Coord, table: map<TimerId, Anchor>, due: seq<TimerId>, k: nat)
    requires k <= |due| && FireAll(env, c, table, due[..k]).aborted
    ensures FireAll(env, c, table, due) == FireAll(env, c, table, due[..k])
    decreases |due|
  {
    if k < |due| {
      assert due[..|due| - 1][..k] == due[..k];
      FireAllStays(env, c, table, due[..|due| - 1], k);
    } else {
      assert due[..k] == due;
    }
  }

  // ---- the recovery loop -----------------------------------------------------------------------

  /** `retain(|a| !ids.contains(a.id))`. */
  function Retain(actions: seq<Action>, ids: set<TimerId>): seq<Action> {
    if actions == [] then []
    else
      var rest, a := Retain(actions[..|actions| - 1], ids), actions[|actions| - 1];
      if a.id in ids then rest else rest + [a]
  }

  /** A stored action after its turn, before missed ones are taken out. */
  function MarkOne(a: Action, utc: int): Action {
    if IsMissed(a, utc) then a.(exec := Missed) else RecoverOne(a, utc)
  }

  ghost predicate ChangedBefore(actions: seq<Action>, utc: int, k: nat)
    requires k <= |actions|
  {
    exists j :: 0 <= j < k && !IsMissed(actions[j], utc) && RecoverOne(actions[j], utc) != actions[j]
  }

  /** The locals of the loop after `k` turns. */
  ghost predicate Progress(s: PersistentState, k: nat, utc: int,
      actions: seq<Action>, missed: seq<Action>, overdue: set<TimerId>, desired: DesiredInternet, needsCommit: bool)
  {
    && k <= |s.actions| == |actions|
    && (forall j :: 0 <= j < k ==> actions[j] == MarkOne(s.actions[j], utc))
    && (forall j :: k <= j < |actions| ==> actions[j] == s.actions[j])
    && missed == MissedActions(s.actions[..k], utc)
    && overdue == OverdueBlocks(s.actions[..k], utc)
    && desired == (if overdue != {} then Blocked else s.desired)
    && (needsCommit <==> missed != [] || desired != s.desired || ChangedBefore(s.actions, utc, k))
  }

  lemma ProgressStarts(s: PersistentState, utc: int, mono: nat)
    ensures Progress(s, 0, utc, s.actions, [], {}, s.desired, false)
    ensures RecoverTimers(s.actions[..0], utc, mono) == map[]
  {
    assert s.actions[..0] == [];
  }

  lemma Untouched(s: PersistentState, k: nat, utc: int,
      actions: seq<Action>, missed: seq<Action>, overdue: set<TimerId>, desired: DesiredInternet, needsCommit: bool)
    requires Progress(s, k, utc, actions, missed, overdue, desired, needsCommit) && k < |s.actions|
    ensures k < |actions| && actions[k] == s.actions[k]
  {
  }

  lemma RecoveryStep(actions: seq<Action>, k: nat, utc: int)
    requires k < |actions|
    ensures var a := actions[k];
      && MissedActions(actions[..k + 1], utc) ==
           MissedActions(actions[..k], utc) + (if IsMissed(a, utc) then [a.(exec := Missed)] else [])
      && OverdueBlocks(actions[..k + 1], utc) == OverdueBlocks(actions[..k], utc) + (if IsOverdueBlock(a, utc) then {a.id} else {})
      && (ChangedBefore(actions, utc, k + 1) <==>
            ChangedBefore(actions, utc, k) || (!IsMissed(a, utc) && RecoverOne(a, utc) != a))
  {
    hide IsMissed, IsOverdueBlock, RecoverOne;
    assert actions[..k + 1] == actions[..k] + [actions[k]] && actions[..k + 1][..k] == actions[..k];
  }

  lemma NoIds()
    ensures ActionIds([]) == {}
  {
  }

  lemma IdsGrow(actions: seq<Action>, a: Action)
    ensures ActionIds(actions + [a]) == ActionIds(actions) + {a.id}
  {
  }

  /** What one turn has to achieve. */
  lemma ProgressStep(s: PersistentState, k: nat, utc: int,
      actions: seq<Action>, missed: seq<Action>, overdue: set<TimerId>, desired: DesiredInternet, needsCommit: bool)
    requires Progress(s, k, utc, actions, missed, overdue, desired, needsCommit) && k < |s.actions|
    ensures var a := s.actions[k];
      && |actions| > k && actions[k := a] == actions
      && Progress(s, k + 1, utc, actions[k := MarkOne(a, utc)],
           missed + (if IsMissed(a, utc) then [a.(exec := Missed)] else []),
           overdue + (if IsOverdueBlock(a, utc) then {a.id} else {}),
           if IsOverdueBlock(a, utc) then Blocked else desired,
           needsCommit || IsMissed(a, utc) || (IsOverdueBlock(a, utc) && desired != Blocked) || RecoverOne(a, utc) != a)
  {
    hide IsMissed, IsOverdueBlock, RecoverOne, MissedActions, OverdueBlocks, MarkOne, ChangedBefore;
    RecoveryStep(s.actions, k, utc);
  }

  lemma ProgressEnds(s: PersistentState, utc: int,
      actions: seq<Action>, missed: seq<Action>, overdue: set<TimerId>, desired: DesiredInternet, needsCommit: bool)
    requires Progress(s, |s.actions|, utc, actions, missed, overdue, desired, needsCommit)
    ensures |actions| == |s.actions| && forall j :: 0 <= j < |actions| ==> actions[j] == MarkOne(s.actions[j], utc)
    ensures missed == MissedActions(s.actions, utc) && overdue == OverdueBlocks(s.actions, utc)
    ensures desired == if overdue != {} then Blocked else s.desired
    ensures needsCommit <==> missed != [] || desired != s.desired || ChangedBefore(s.actions, utc, |s.actions|)
  {
    assert s.actions[..|s.actions|] == s.actions;
  }

  lemma RecoverTimersStep(actions: seq<Action>, i: nat, utc: int, mono: nat)
    requires i < |actions|
    ensures var a, front, more := actions[i], actions[..i], actions[..i + 1];
      && RecoverTimers(more, utc, mono) ==
           (if RemainingSeconds(a.deadline - utc) <= 0 then RecoverTimers(front, utc, mono)
            else RecoverTimers(front, utc, mono)[a.id := RecoveredAnchor(a, utc, mono)])
  {
    assert actions[..i + 1][..i] == actions[..i];
  }

  lemma MarkCases(a: Action, utc: int)
    ensures IsOverdueBlock(a, utc) <==>
      RemainingSeconds(a.deadline - utc) <= 0 && a.kind.BlockInternet? && (a.exec.Pending? || a.exec.Executing?)
    ensures IsMissed(a, utc) <==>
      a.kind.ShutdownComputer? && RecoveryOverdueTransition(a.kind, a.exec, RemainingSeconds(a.deadline - utc)) == Some(Missed)
    ensures RemainingSeconds(a.deadline - utc) <= 0 ==>
      RecoverOne(a, utc) == if a.kind.BlockInternet? && a.exec.Pending? then a.(exec := Executing) else a
    ensures var passed := RecoveryPassed(RemainingSeconds(a.deadline - utc), a.emitted);
      RemainingSeconds(a.deadline - utc) > 0 ==>
        && !IsMissed(a, utc)
        && RecoverOne(a, utc) == a.(emitted := a.emitted + set t <- passed)
        && (RecoverOne(a, utc) == a <==> passed == [])
  {
    var passed := RecoveryPassed(RemainingSeconds(a.deadline - utc), a.emitted);
    if passed != [] { assert passed[0] in passed; }
  }

  lemma {:induction false} MissedIds(actions: seq<Action>, utc: int)
    ensures forall id :: id in ActionIds(MissedActions(actions, utc)) <==> exists a <- actions :: a.id == id && IsMissed(a, utc)
    decreases |actions|
  {
    hide IsMissed;
    if actions != [] {
      var front, last := actions[..|actions| - 1], actions[|actions| - 1];
      assert actions == front + [last];
      MissedIds(front, utc);
      var before, after := MissedActions(front, utc), MissedActions(actions, utc);
      assert forall id :: id in ActionIds(after) <==> id in ActionIds(before) || (IsMissed(last, utc) && id == last.id);
    }
  }

  lemma {:induction false} RetainPrefix(actions: seq<Action>, marked: seq<Action>, utc: int, ids: set<TimerId>)
    requires |marked| == |actions| && forall j :: 0 <= j < |actions| ==> marked[j] == MarkOne(actions[j], utc)
    requires forall a <- actions :: a.id in ids <==> IsMissed(a, utc)
    ensures Retain(marked, ids) == RecoverActions(actions, utc)
    decreases |actions|
  {
    hide IsMissed;
    if actions != [] {
      var front, last := actions[..|actions| - 1], actions[|actions| - 1];
      assert actions == front + [last];
      RetainPrefix(front, marked[..|marked| - 1], utc, ids);
      assert marked[|marked| - 1] == MarkOne(last, utc) && MarkOne(last, utc).id == last.id;
    }
  }

  /** Identifiers are unique, so taking out by identifier takes out exactly the missed ones. */
  lemma RetainRecovers(actions: seq<Action>, marked: seq<Action>, utc: int)
    requires UniqueActions(actions)
    requires |marked| == |actions| && forall j :: 0 <= j < |actions| ==> marked[j] == MarkOne(actions[j], utc)
    ensures Retain(marked, ActionIds(MissedActions(actions, utc))) == RecoverActions(actions, utc)
  {
    hide IsMissed, MarkOne, MissedActions;
    var ids := ActionIds(MissedActions(actions, utc));
    MissedIds(actions, utc);
    forall a | a in actions ensures a.id in ids <==> IsMissed(a, utc) {
      if a.id in ids {
        var b :| b in actions && b.id == a.id && IsMissed(b, utc);
        SameAction(actions, a, b);
      }
    }
    RetainPrefix(actions, marked, utc, ids);
  }

  lemma {:induction false} NothingMissed(actions: seq<Action>, utc: int)
    requires MissedActions(actions, utc) == []
    ensures |RecoverActions(actions, utc)| == |actions|
    ensures forall j :: 0 <= j < |actions| ==>
      !IsMissed(actions[j], utc) && RecoverActions(actions, utc)[j] == RecoverOne(actions[j], utc)
    decreases |actions|
  {
    hide IsMissed, RecoverOne;
    if actions != [] { NothingMissed(actions[..|actions| - 1], utc); }
  }

  /** The commit flag is exact: it is set if and only if recovery changes anything. */
  lemma RecoveryChanges(s: PersistentState, utc: int, first: EntryId)
    ensures RecoverState(s, utc, first) != s <==>
      MissedActions(s.actions, utc) != [] || RecoverState(s, utc, first).desired != s.desired
      || ChangedBefore(s.actions, utc, |s.actions|)
  {
    hide IsMissed, RecoverOne, RecoverActions, MissedActions, OverdueBlocks;
    var r := RecoverState(s, utc, first);
    if MissedActions(s.actions, utc) == [] {
      NothingMissed(s.actions, utc);
      assert r.outbox == s.outbox;
    } else {
      assert |r.outbox| > |s.outbox|;
    }
  }

  // ---- the first reconciliation ------------------------------------------------------------------

  /** Overdue blocks that are executing. */
  ghost function Completable(actions: seq<Action>, ids: set<TimerId>): set<TimerId> {
    set a <- actions | a.id in ids && ExecutionSuccessTransition(a.exec) == Some(Completed) :: a.id
  }

  lemma {:induction false} RetainPrefixCompletes(actions: seq<Action>, ids: set<TimerId>, completed: set<TimerId>)
    requires forall a <- actions :: a.id in completed <==> a.id in ids && ExecutionSuccessTransition(a.exec) == Some(Completed)
    ensures Retain(actions, completed) == CompleteBlocks(actions, ids)
    ensures |CompleteBlocks(actions, ids)| <= |actions|
    ensures CompleteBlocks(actions, ids) == actions <==> forall a <- actions :: a.id !in completed
    decreases |actions|
  {
    if actions != [] {
      var front, last := actions[..|actions| - 1], actions[|actions| - 1];
      assert actions == front + [last];
      RetainPrefixCompletes(front, ids, completed);
    }
  }

  lemma RetainCompletes(actions: seq<Action>, ids: set<TimerId>)
    requires UniqueActions(actions)
    ensures Retain(actions, Completable(actions, ids)) == CompleteBlocks(actions, ids)
    ensures CompleteBlocks(actions, ids) == actions <==> Completable(actions, ids) == {}
  {
    hide Retain, CompleteBlocks;
    var completed := Completable(actions, ids);
    forall a | a in actions
      ensures a.id in completed <==> a.id in ids && ExecutionSuccessTransition(a.exec) == Some(Completed)
    {
      if a.id in completed {
        var b :| b in actions && b.id == a.id && b.id in ids && ExecutionSuccessTransition(b.exec) == Some(Completed);
        SameAction(actions, a, b);
      }
    }
    RetainPrefixCompletes(actions, ids, completed);
  }

  /** After a successful recovery commit every overdue block is executing. */
  lemma RecoverUp(env: Environment, w: World, c: Coord)
    requires UniqueActions(w.disk.actions) && Recover(env, w) == Up(c)
    ensures UniqueActions(c.mem.actions)
    ensures forall a <- c.mem.actions :: a.id in OverdueBlocks(w.disk.actions, BootUtc(env, w)) ==> a.exec.Executing?
  {
    hide Commit, TellMissed, SyncShutdown, RecoverState, Recompute;
    var utc := BootUtc(env, w);
    assert c.mem == RecoverState(w.disk, utc, w.nextId);
    RecoveredBlocksExecute(w.disk, utc, w.nextId);
  }

  lemma RecoveredBlocksExecute(s: PersistentState, utc: int, first: EntryId)
    requires UniqueActions(s.actions)
    ensures var after := RecoverState(s, utc, first).actions;
      && UniqueActions(after)
      && forall b <- after :: b.id in OverdueBlocks(s.actions, utc) ==> b.exec.Executing?
  {
    hide RecoverOne, RecoverActions, IsMissed;
    RecoverDescends(s.actions, utc);
    DescendsFacts(s.actions, RecoverActions(s.actions, utc));
    forall b | b in RecoverActions(s.actions, utc) && b.id in OverdueBlocks(s.actions, utc) ensures b.exec.Executing? {
      var a :| a in s.actions && b == RecoverOne(a, utc);
      RecoverOneEvolves(a, utc);
      var x :| x in s.actions && IsOverdueBlock(x, utc) && x.id == b.id;
      SameAction(s.actions, a, x);
      MarkCases(a, utc);
    }
  }
}
