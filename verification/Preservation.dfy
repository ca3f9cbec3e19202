/** Every operation of the coordinator keeps the write-ahead invariant, whatever the ports
    answer. */
module Preservation {
  import opened Domain
  import opened World
  import opened Subscribers
  import opened Runtime
  import opened Recovery
  import opened Safety
  import opened Durability
  import opened Edits

  // ---- building blocks -----------------------------------------------------------------------

  lemma DurableIsSound(c: Coord)
    requires Durable(c)
    ensures Sound(c.mem, c.world.nextId)
  {
  }

  lemma DrawKeeps(c: Coord, n: nat)
    requires Durable(c)
    ensures Durable(c.(world := c.world.Draw(n)))
  {
    BelowGrows(c.world.trace, c.world.nextId, c.world.nextId + n);
  }

  /** Draw `n` identifiers for a candidate and save it, before or after an effect. */
  lemma SaveStep(env: Environment, c: Coord, after: PersistentState, n: nat)
    requires Durable(c)
    requires Edit(c.mem, after, c.world.nextId, c.world.nextId + n)
    ensures Durable(Commit(env, c.(world := c.world.Draw(n)), after))
    ensures Durable(CommitPost(env, c.(world := c.world.Draw(n)), after))
  {
    DrawKeeps(c, n);
    SavingKeeps(env, c.(world := c.world.Draw(n)), after, c.world.nextId);
  }

  lemma SaveStepNoDraw(env: Environment, c: Coord, after: PersistentState)
    requires Durable(c)
    requires Edit(c.mem, after, c.world.nextId, c.world.nextId)
    ensures Durable(Commit(env, c, after)) && Durable(CommitPost(env, c, after))
  {
    SavingKeeps(env, c, after, c.world.nextId);
  }

  lemma TellKeeps(env: Environment, c: Coord, e: Event)
    requires Durable(c) && !e.WarningReached?
    ensures Durable(Tell(env, c, e))
  {
    TellHushed(env, c, e);
    HushedKeeps(c, Tell(env, c, e));
  }

  lemma SyncShutdownKeeps(env: Environment, c: Coord)
    requires Durable(c)
    ensures Durable(SyncShutdown(env, c))
  {
    SyncShutdownHushed(env, c);
    HushedKeeps(c, SyncShutdown(env, c));
  }

  lemma MarkGateKeeps(env: Environment, c: Coord, error: Option<string>)
    requires Durable(c)
    ensures Durable(MarkGate(env, c, error)) && Hushed(c, MarkGate(env, c, error))
  {
    MarksHushed(env, c, error);
    HushedKeeps(c, MarkGate(env, c, error));
  }

  // ---- warnings ------------------------------------------------------------------------------

  ghost predicate Distinct(ts: seq<Threshold>) {
    forall i, j :: 0 <= i < j < |ts| ==> ts[i] != ts[j]
  }

  lemma {:induction false} SelectDistinct(ts: seq<Threshold>, low: int, high: int, emitted: set<Threshold>)
    requires Distinct(ts)
    ensures Distinct(SelectThresholds(ts, low, high, emitted))
    decreases |ts|
  {
    if ts != [] {
      var front, t := ts[..|ts| - 1], ts[|ts| - 1];
      SelectDistinct(front, low, high, emitted);
      var rest := SelectThresholds(front, low, high, emitted);
      assert forall i :: 0 <= i < |rest| ==> rest[i] in rest;
    }
  }

  ghost function WarningPairs(id: TimerId, due: seq<Threshold>): set<(TimerId, Threshold)> {
    set t <- due :: (id, t)
  }

  lemma TellWarningKeeps(env: Environment, c: Coord, a: Action, t: Threshold, utc: int)
    requires Durable(c) && (a.id, t) !in Warned(c.world.trace) && HasEmitted(c.world.disk, a.id, t)
    ensures var d := Tell(env, c, WarningReached(a.id, a.kind, t, a.deadline, utc));
      && Durable(d)
      && d == c.(hub := d.hub, world := d.world)
      && d.world.disk == c.world.disk
      && Warned(d.world.trace) == Warned(c.world.trace) + {(a.id, t)}
  {
    hide Durable, Emit, Warned;
    var e := WarningReached(a.id, a.kind, t, a.deadline, utc);
    WarningIsSafe(c, e);
    EmitQuiet(env, c.hub, c.world, e);
    HushedKeeps(c.(world := c.world.Did(Broadcast(e))), Tell(env, c, e));
  }

  /** A warning on record that was not sent yet may be sent. */
  lemma WarningIsSafe(c: Coord, e: Event)
    requires Durable(c) && e.WarningReached?
    requires (e.id, e.threshold) !in Warned(c.world.trace) && HasEmitted(c.world.disk, e.id, e.threshold)
    ensures var told := c.(world := c.world.Did(Broadcast(e)));
      Durable(told) && Warned(told.world.trace) == Warned(c.world.trace) + {(e.id, e.threshold)}
  {
    var t := Then(c.world.trace, Broadcast(e));
    assert SafeStep(c.world.trace, Broadcast(e));
    assert Stored(t) == Stored(c.world.trace) && Known(t) == Known(c.world.trace);
  }

  lemma {:induction false} TellWarningsKeep(env: Environment, c: Coord, a: Action, due: seq<Threshold>, utc: int)
    requires Durable(c) && Distinct(due)
    requires forall t <- due :: (a.id, t) !in Warned(c.world.trace) && HasEmitted(c.world.disk, a.id, t)
    ensures var d := TellWarnings(env, c, a, due, utc);
      && Durable(d)
      && d == c.(hub := d.hub, world := d.world)
      && d.world.disk == c.world.disk
      && Warned(d.world.trace) == Warned(c.world.trace) + WarningPairs(a.id, due)
    decreases |due|
  {
    hide Durable, Warned, HasEmitted, Tell;
    if due != [] {
      var front, t := due[..|due| - 1], due[|due| - 1];
      assert due == front + [t];
      TellWarningsKeep(env, c, a, front, utc);
      assert t !in front;
      TellWarningKeeps(env, TellWarnings(env, c, a, front, utc), a, t, utc);
    }
  }

  // ---- commands ------------------------------------------------------------------------------

  lemma ScheduleKeeps(env: Environment, c: Coord, kind: ActionKind, duration: nat, who: Initiator)
    requires Durable(c)
    ensures Durable(Schedule(env, c, kind, duration, who).coord)
  {
    hide Commit, Arm, Durable, CreationDue;
    var utc, c2 := Utc(env, c), Looked(Looked(c));
    var mono := Mono(env, Looked(c));
    var id, due := c.world.nextId, CreationDue(duration);
    var a := NewAction(id, kind, duration, who, utc);
    HushedKeeps(c, c2);
    ScheduleSaveKeeps(env, c2, a, due);
    var c3 := c2.(world := c2.world.Draw(1 + |due|));
    if SaveOk(env, c3) {
      var c4 := Commit(env, c3, ScheduleEdit(c.mem, a, Notices(id + 1, |due|, WARNING_TEXT)));
      FreshIsUnwarned(c2, id);
      ScheduledDue(c.mem, a, Notices(id + 1, |due|, WARNING_TEXT), duration);
      DueDistinct(duration);
      ArmKeeps(env, c4, a, Anchor(kind, a.deadline, mono + duration * NANOS_PER_SECOND, duration, mono, duration), due);
    }
  }

  lemma DueDistinct(duration: nat)
    ensures Distinct(CreationDue(duration))
  {
    SelectDistinct(ALL_THRESHOLDS, duration, duration + 1, {});
  }

  lemma ScheduleSaveKeeps(env: Environment, c: Coord, a: Action, due: seq<Threshold>)
    requires Durable(c) && a.id == c.world.nextId && a.exec.Pending?
    ensures var after := ScheduleEdit(c.mem, a, Notices(a.id + 1, |due|, WARNING_TEXT));
      var d := Commit(env, c.(world := c.world.Draw(1 + |due|)), after);
      Durable(d) && Warned(d.world.trace) == Warned(c.world.trace)
  {
    hide Commit, CommitPost, Durable, Edit, ScheduleEdit, Notices, Sound;
    var after := ScheduleEdit(c.mem, a, Notices(a.id + 1, |due|, WARNING_TEXT));
    DurableIsSound(c);
    ScheduleIsEdit(c.mem, a, |due|);
    SaveStep(env, c, after, 1 + |due|);
    SavingFacts(env, c.(world := c.world.Draw(1 + |due|)), after);
  }

  lemma FreshIsUnwarned(c: Coord, id: TimerId)
    requires Durable(c) && id >= c.world.nextId
    ensures forall t :: (id, t) !in Warned(c.world.trace)
  {
    BelowFacts(c.world.trace, c.world.nextId);
    forall t ensures (id, t) !in Warned(c.world.trace) {
      if (id, t) in Warned(c.world.trace) { WarnedIsRecorded(c.world.trace, id, t); }
    }
  }

  lemma ScheduledDue(s: PersistentState, a: Action, notices: seq<OutboxEntry>, duration: nat)
    requires a.emitted == InitialThresholds(duration)
    ensures forall t <- CreationDue(duration) :: HasEmitted(ScheduleEdit(s, a, notices), a.id, t)
  {
    assert a in ScheduleEdit(s, a, notices).actions;
  }

  lemma ArmKeeps(env: Environment, c: Coord, a: Action, anchor: Anchor, due: seq<Threshold>)
    requires Durable(c) && Distinct(due)
    requires forall t <- due :: (a.id, t) !in Warned(c.world.trace) && HasEmitted(c.world.disk, a.id, t)
    ensures Durable(Arm(env, c, a, anchor, due))
  {
    hide Tell, TellWarnings, SyncShutdown, Durable;
    var c1 := c.(timers := c.timers[a.id := anchor]);
    HushedKeeps(c, c1);
    var c2 := Tell(env, c1, TimerScheduled(a));
    TellKeeps(env, c1, TimerScheduled(a));
    TellHushed(env, c1, TimerScheduled(a));
    HushedKeeps(c1, c2);
    TellWarningsKeep(env, c2, a, due, a.createdAt);
    SyncShutdownKeeps(env, TellWarnings(env, c2, a, due, a.createdAt));
  }

  lemma CancelKeeps(env: Environment, c: Coord, id: TimerId, kind: ActionKind)
    requires Durable(c)
    ensures Durable(Cancel(env, c, id, kind).coord)
  {
    hide RemoveTimer, CancelBlocked, Durable;
    var c1 := Consulted(c, id, kind);
    HushedKeeps(c, c1);
    RemoveTimerKeeps(env, c1, id, kind);
  }

  lemma RemoveTimerKeeps(env: Environment, c: Coord, id: TimerId, kind: ActionKind)
    requires Durable(c)
    ensures Durable(RemoveTimer(env, c, id, kind).coord)
  {
    hide Commit, Disarm, RemoveAction, Recompute, Edit, Durable;
    var after := c.mem.(actions := RemoveAction(c.mem.actions, id));
    DurableIsSound(c);
    RemoveIsEdit(c.mem, id, c.world.nextId);
    SaveStepNoDraw(env, c, after);
    DisarmKeeps(env, Commit(env, c, after), id, kind);
  }

  lemma DisarmKeeps(env: Environment, c: Coord, id: TimerId, kind: ActionKind)
    requires Durable(c)
    ensures Durable(Disarm(env, c, id, kind))
  {
    var c1 := c.(timers := c.timers - {id});
    HushedKeeps(c, c1);
    TellKeeps(env, c1, TimerCancelled(id, kind));
    SyncShutdownKeeps(env, Tell(env, c1, TimerCancelled(id, kind)));
  }

  lemma SetPolicyKeeps(env: Environment, c: Coord, target: DesiredInternet, reason: ChangeReason)
    requires Durable(c)
    ensures Durable(SetPolicy(env, c, target, reason).coord)
  {
    hide Commit, CommitPost, PolicyOutcome, Tell, TellPolicy, Durable, Edit;
    var after := c.mem.(desired := target);
    DurableIsSound(c);
    SameListsEdit(c.mem, after, c.world.nextId, c.world.nextId);
    SaveStepNoDraw(env, c, after);
    SavingFacts(env, c, after);
    if SaveOk(env, c) {
      var c1 := Commit(env, c, after);
      var c2 := LookForStop(env, c1);
      HushedKeeps(c1, c2);
      if !c2.world.stopSeen {
        var c3 := ApplyGate(env, c2, target);
        ApplyGateKeeps(env, c2, target);
        var c4 := TellPolicy(env, c3, c.mem.desired, c.observed, reason);
        TellPolicyHushed(env, c3, c.mem.desired, c.observed, reason);
        HushedKeeps(c3, c4);
        PolicyOutcomeKeeps(env, c4, GateError(target, env(c2.world.instant).gate));
      }
    }
  }

  lemma RecordGateFailureKeeps(env: Environment, c: Coord, edited: PersistentState)
    requires Durable(c)
    requires Edit(c.mem, edited, c.world.nextId, c.world.nextId + 1)
    ensures Durable(RecordGateFailure(env, c.(world := c.world.Draw(1)), edited))
  {
    SaveStep(env, c, edited, 1);
    var d := CommitPost(env, c.(world := c.world.Draw(1)), edited);
    ScheduleRetryHushed(env, d);
    HushedKeeps(d, ScheduleRetry(env, d));
  }

  lemma PolicyOutcomeKeeps(env: Environment, c: Coord, error: Option<string>)
    requires Durable(c)
    ensures Durable(PolicyOutcome(env, c, error).coord)
  {
    var c1 := MarkGate(env, c, error);
    MarkGateKeeps(env, c, error);
    if error.None? {
      SameListsEdit(c1.mem, c1.mem.(retry := None), c1.world.nextId, c1.world.nextId);
      SaveStepNoDraw(env, c1, c1.mem.(retry := None));
    } else {
      UnchangedDescends(c1.mem);
      RetryIsEdit(c1.mem, c1.mem, error.value, c1.world.nextId);
      RecordGateFailureKeeps(env, c1, RetryEdit(c1.mem, error.value, c1.world.nextId));
    }
  }

  lemma {:induction false} WithoutOne(outbox: seq<OutboxEntry>, k: nat)
    requires UniqueEntries(outbox) && k < |outbox|
    ensures Without(outbox, {outbox[k].id}) == outbox[..k] + outbox[k + 1..]
    decreases |outbox|
  {
    var front, e := outbox[..|outbox| - 1], outbox[|outbox| - 1];
    if k < |front| {
      WithoutOne(front, k);
      assert front[..k] == outbox[..k] && front[k + 1..] + [e] == outbox[k + 1..];
    } else {
      forall x | x in front ensures x.id !in {e.id} {
        var i :| 0 <= i < |front| && front[i] == x;
        assert outbox[i].id != outbox[k].id;
      }
      WithoutOthers(front, {e.id});
      assert outbox[..k] == front && outbox[k + 1..] == [];
    }
  }

  /** Taking an entry out of memory takes it out of the disk, if it has got there. */
  lemma AckAppends(stored: set<EntryId>, disk: seq<OutboxEntry>, mem: seq<OutboxEntry>, k: nat)
    requires Appends(stored, disk, mem) && UniqueEntries(mem) && k < |mem|
    ensures Appends(stored, Without(disk, {mem[k].id}), mem[..k] + mem[k + 1..])
  {
    if k < |disk| { AckOnDisk(stored, disk, mem, k); } else { AckBehindDisk(stored, disk, mem, k); }
  }

  lemma AckOnDisk(stored: set<EntryId>, disk: seq<OutboxEntry>, mem: seq<OutboxEntry>, k: nat)
    requires Appends(stored, disk, mem) && UniqueEntries(mem) && k < |disk|
    ensures Appends(stored, Without(disk, {mem[k].id}), mem[..k] + mem[k + 1..])
  {
    hide Without, UniqueEntries;
    var more := mem[|disk|..];
    UniquePrefix(disk, mem);
    WithoutOne(disk, k);
    assert mem[..k] == disk[..k];
    assert mem[k + 1..] == disk[k + 1..] + more;
    assert mem[..k] + mem[k + 1..] == (disk[..k] + disk[k + 1..]) + more;
    AppendsMore(stored, disk[..k] + disk[k + 1..], more);
  }

  lemma UniquePrefix(outbox: seq<OutboxEntry>, longer: seq<OutboxEntry>)
    requires UniqueEntries(longer) && outbox <= longer
    ensures UniqueEntries(outbox)
  {
  }

  lemma AppendsMore(stored: set<EntryId>, outbox: seq<OutboxEntry>, more: seq<OutboxEntry>)
    requires forall i :: 0 <= i < |more| ==> more[i].id !in stored
    ensures Appends(stored, outbox, outbox + more)
  {
  }

  lemma AckBehindDisk(stored: set<EntryId>, disk: seq<OutboxEntry>, mem: seq<OutboxEntry>, k: nat)
    requires Appends(stored, disk, mem) && UniqueEntries(mem) && |disk| <= k < |mem|
    ensures Appends(stored, Without(disk, {mem[k].id}), mem[..k] + mem[k + 1..])
  {
    hide Without;
    var after := mem[..k] + mem[k + 1..];
    forall e | e in disk ensures e.id !in {mem[k].id} {
      var i :| 0 <= i < |disk| && disk[i] == e;
      assert mem[i].id != mem[k].id;
    }
    WithoutOthers(disk, {mem[k].id});
    assert forall i :: |disk| <= i < |after| ==> after[i] == mem[if i < k then i else i + 1];
  }

  lemma AckOfUnknownKeeps(c: Coord, id: EntryId)
    requires Durable(c) && forall e <- c.mem.outbox :: e.id != id
    ensures Durable(c.(world := c.world.Did(AckReceived(id))))
  {
    var t := Then(c.world.trace, AckReceived(id));
    assert Known(t) == Known(c.world.trace) && Stored(t) == Stored(c.world.trace);
  }

  /** The save of an acknowledgement takes exactly that entry off the disk. */
  lemma AckSavedKeeps(env: Environment, c: Coord, k: nat, after: PersistentState)
    requires Durable(c) && k < |c.mem.outbox|
    requires after == c.mem.(outbox := c.mem.outbox[..k] + c.mem.outbox[k + 1..])
    ensures var w := c.world.Did(AckReceived(c.mem.outbox[k].id)).Did(Saved(after));
      Durable(MarkPersistence(env, c.(mem := after, pending := None, world := w), true))
  {
    hide MarkPersistence, Without, Follows;
    var id := c.mem.outbox[k].id;
    var t := Then(c.world.trace, AckReceived(id));
    RestOk(c.mem.outbox, k, c.world.nextId);
    AckAppends(Stored(t), c.world.disk.outbox, c.mem.outbox, k);
    assert Known(t) == Known(c.world.trace) && SafeStep(t, Saved(after));
    var saved := c.(mem := after, pending := None, world := c.world.Did(AckReceived(id)).Did(Saved(after)));
    SavedFollowsItself(after, saved.world.trace);
    MarkPersistenceKeeps(env, saved, true);
  }

  /** If the save fails the entry stays. */
  lemma AckRefusedKeeps(env: Environment, c: Coord, id: EntryId, after: PersistentState)
    requires Durable(c) && Encodable(after)
    ensures Durable(MarkPersistence(env, c.(world := c.world.Did(AckReceived(id)).Did(SaveFailed(after))), false))
  {
    hide MarkPersistence, Follows;
    var failed := c.(world := c.world.Did(AckReceived(id)).Did(SaveFailed(after)));
    var t := Then(c.world.trace, AckReceived(id));
    assert Known(t) == Known(c.world.trace) && Stored(t) == Stored(c.world.trace) && SafeTrace(t);
    assert Known(failed.world.trace) == Known(t) && Stored(failed.world.trace) == Stored(t);
    MarkPersistenceKeeps(env, failed, false);
  }

  lemma AckSaveKeeps(env: Environment, c: Coord, k: nat)
    requires Durable(c) && k < |c.mem.outbox|
    ensures var after := c.mem.(outbox := c.mem.outbox[..k] + c.mem.outbox[k + 1..]);
      Durable(Commit(env, c.(world := c.world.Did(AckReceived(c.mem.outbox[k].id))), after))
  {
    hide Durable, MarkPersistence, Encodable;
    var after := c.mem.(outbox := c.mem.outbox[..k] + c.mem.outbox[k + 1..]);
    RestEncodes(c, k);
    AckSavedKeeps(env, c, k, after);
    AckRefusedKeeps(env, c, c.mem.outbox[k].id, after);
  }

  lemma RestEncodes(c: Coord, k: nat)
    requires Durable(c) && k < |c.mem.outbox|
    ensures Encodable(c.mem.(outbox := c.mem.outbox[..k] + c.mem.outbox[k + 1..]))
  {
    RestOk(c.mem.outbox, k, c.world.nextId);
  }

  lemma AckKeeps(env: Environment, c: Coord, id: EntryId)
    requires Durable(c)
    ensures Durable(Ack(env, c, id).coord)
  {
    hide Commit, Recompute, Durable;
    var k := FindEntry(c.mem.outbox, id);
    if k < |c.mem.outbox| {
      AckSaveKeeps(env, c, k);
    } else {
      AckOfUnknownKeeps(c, id);
    }
  }

  lemma ChildMessageKeeps(env: Environment, c: Coord, text: string)
    requires Durable(c)
    ensures Durable(ChildMessage(env, c, text).coord)
  {
    hide Commit, Recompute, Durable, ValidChat, OnlyTold, AfterSave, PersistenceMark, Looked, SendableEntry;
    if ValidChat(text) {
      var entry := OutboxEntry(c.world.nextId, Chat(ChatMessage(c.world.nextId, Child, text, Utc(env, c), AcceptedByService)), 0, None);
      ChatIsSendable(entry);
      QueueKeeps(env, c, entry);
    }
  }

  lemma ChatIsSendable(entry: OutboxEntry)
    requires entry.payload.Chat? && entry.payload.message.sender.Child? && entry.payload.message.status.AcceptedByService?
    ensures SendableEntry(entry)
  {
  }

  lemma QueueKeeps(env: Environment, c: Coord, entry: OutboxEntry)
    requires Durable(c) && entry.id == c.world.nextId && SendableEntry(entry)
    ensures Durable(Commit(env, Looked(c.(world := c.world.Draw(1))), c.mem.(outbox := c.mem.outbox + [entry])))
  {
    hide Commit, Recompute, Durable, Edit, OnlyTold, AfterSave, PersistenceMark, SendableEntry;
    QueueIsEdit(c, entry);
    LookedKeeps(c);
    SaveStep(env, Looked(c), c.mem.(outbox := c.mem.outbox + [entry]), 1);
  }

  lemma LookedKeeps(c: Coord)
    requires Durable(c)
    ensures Durable(Looked(c))
  {
    HushedKeeps(c, Looked(c));
  }

  lemma QueueIsEdit(c: Coord, entry: OutboxEntry)
    requires Durable(c) && entry.id == c.world.nextId && SendableEntry(entry)
    ensures Edit(c.mem, c.mem.(outbox := c.mem.outbox + [entry]), c.world.nextId, c.world.nextId + 1)
  {
    hide Edit, Durable;
    DurableIsSound(c);
    UnchangedDescends(c.mem);
    ProgressIsEdit(c.mem, c.mem.(outbox := c.mem.outbox + [entry]), [entry], entry.id, entry.id + 1);
  }

  lemma ReconciledKeeps(env: Environment, c: Coord, excluded: Option<nat>)
    requires Durable(c)
    ensures Durable(Reconciled(env, c, excluded))
    ensures Hushed(c, Reconciled(env, c, excluded))
  {
    ReconcileQuiet(env, c.hub, c.world, excluded);
    HushedKeeps(c, Reconciled(env, c, excluded));
  }

  lemma SubscribeKeeps(env: Environment, c: Coord)
    requires Durable(c)
    ensures Durable(Subscribe(env, c).coord)
  {
    hide Tell, Commit, CommitPost, MarkGate, MarkPower, Recompute, Reconcile, Edit, Durable;
    if c.hub.nextSub.Some? && c.hub.nextSub.value !in c.hub.subs && |c.hub.subs| + 1 <= U32_MAX {
      var id := c.hub.nextSub.value;
      var c1 := Enlist(c, id);
      HushedKeeps(c, c1);
      var c2 := Reconciled(env, c1, Some(id));
      ReconciledKeeps(env, c1, Some(id));
      var c3 := Looked(Register(c2, id));
      HushedKeeps(c2, c3);
      DropKeeps(env, c2, id);
      DropKeeps(env, c3, id);
    }
  }

  lemma DropKeeps(env: Environment, c: Coord, id: nat)
    requires Durable(c)
    ensures Durable(Drop(env, c, id))
  {
    var c1 := c.(hub := c.hub.(subs := c.hub.subs - {id}));
    HushedKeeps(c, c1);
    ReconciledKeeps(env, c1, None);
  }

  lemma StopKeeps(env: Environment, c: Coord)
    requires Durable(c)
    ensures Durable(Stop(env, c).coord)
    ensures Stop(env, c).reply.Stopped? ==> Stop(env, c).coord.mem == Stop(env, c).coord.world.disk
  {
    var c1 := if c.stopping then c
              else c.(stopping := true, hub := c.hub.(subs := map[], health := c.hub.health.(sessions := 0)));
    HushedKeeps(c, c1);
    if c1.pending.Some? {
      PendingIsEdit(c1);
      SaveStepNoDraw(env, c1, c1.mem);
      SavingFacts(env, c1, c1.mem);
      assert Flush(env, c1) == if SaveOk(env, c1) then Commit(env, c1, c1.mem) else Flush(env, c1);
      SaveRefusedKeeps(env, c1, c1.mem);
    }
  }

  lemma PendingIsEdit(c: Coord)
    requires Durable(c)
    ensures Edit(c.mem, c.mem, c.world.nextId, c.world.nextId)
  {
    SameListsEdit(c.mem, c.mem, c.world.nextId, c.world.nextId);
  }
}
