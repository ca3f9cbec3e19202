/** Snapshot plus stream replays the coordinator over whole runs. */
module ReplayRuns {
  import opened Domain
  import opened World
  import opened Subscribers
  import opened Runtime
  import opened Recovery
  import opened Safety
  import opened Durability
  import opened Edits
  import opened Preservation
  import opened Deadlines
  import opened Timers
  import opened Aggregate
  import opened Booting
  import opened Theorems
  import opened Replay

  /** The subscribers share the image `v`, and it is faithful. */
  ghost predicate Tracks(c: Coord, v: Image) {
    Shown(c, v) && Faithful(v, c)
  }

  // ---- commands ------------------------------------------------------------------------------

  lemma {:induction false} TellWarningsShown(env: Environment, c: Coord, v: Image, a: Action, due: seq<Threshold>, utc: int)
    requires Shown(c, v)
    ensures Shown(TellWarnings(env, c, a, due, utc), v.(pending := AddWarnings(v.pending, a.id, due)))
    decreases |due|
  {
    hide Shown, Tell;
    if due != [] {
      var front, t := due[..|due| - 1], due[|due| - 1];
      TellWarningsShown(env, c, v, a, front, utc);
      TellShown(env, TellWarnings(env, c, a, front, utc), v.(pending := AddWarnings(v.pending, a.id, front)),
        WarningReached(a.id, a.kind, t, a.deadline, utc));
    }
  }

  lemma SyncShutdownShown(env: Environment, c: Coord, v: Image) returns (u: Image)
    requires Shown(c, v) && (v.shutdown.Some? ==> v.shutdown.value == c.shutdown)
    ensures var d := SyncShutdown(env, c);
      Shown(d, u) && u == v.(shutdown := u.shutdown) && (u.shutdown.Some? ==> u.shutdown.value == d.shutdown)
  {
    hide Shown, TellShutdown;
    var current := DeriveShutdown(c.shutdown, c.mem.actions);
    var c1 := c.(shutdown := current);
    SilentShown(c, c1, v);
    TellShutdownShown(env, c1, v, c.shutdown, current);
    u := if c.shutdown == current then v else v.(shutdown := Some(current));
  }

  lemma ScheduleTracks(env: Environment, c: Coord, v: Image, kind: ActionKind, duration: nat, who: Initiator) returns (u: Image)
    requires Durable(c) && Tracks(c, v)
    ensures Tracks(Schedule(env, c, kind, duration, who).coord, u)
  {
    hide Tracks, Shown, Faithful, Commit, Arm, CreationDue, Recompute, Durable, Notices, InitialThresholds;
    DueIsInitial(duration);
    var utc, c2 := Utc(env, c), Looked(Looked(c));
    var mono := Mono(env, Looked(c));
    var id, due := c.world.nextId, CreationDue(duration);
    var a := NewAction(id, kind, duration, who, utc);
    var c3 := c2.(world := c2.world.Draw(1 + |due|));
    var after := ScheduleEdit(c.mem, a, Notices(id + 1, |due|, WARNING_TEXT));
    SavedTracks(env, c, c3, v, after);
    u := v;
    if SaveOk(env, c3) {
      u := ArmTracks(env, c, Commit(env, c3, after), v, a, Anchor(kind, a.deadline, mono + duration * NANOS_PER_SECOND, duration, mono, duration), due);
    }
  }

  lemma SavedTracks(env: Environment, c: Coord, b: Coord, v: Image, after: PersistentState)
    requires Tracks(c, v) && Silent(c, b)
    requires b.mem == c.mem && b.observed == c.observed && b.shutdown == c.shutdown && b.world.stopSeen == c.world.stopSeen
    ensures Faithful(v, c) && Shown(Commit(env, b, after), v)
    ensures !SaveOk(env, b) ==> Tracks(Commit(env, b, after), v)
  {
    hide Shown, Commit, Recompute, PendingTable;
    SilentShown(c, b, v);
    SavingShown(env, b, v, after);
  }

  lemma DueIsInitial(duration: nat)
    ensures forall t <- CreationDue(duration) :: t in InitialThresholds(duration)
  {
  }

  lemma ArmTracks(env: Environment, before: Coord, c: Coord, v: Image, a: Action, anchor: Anchor, due: seq<Threshold>) returns (u: Image)
    requires Shown(c, v) && Faithful(v, before) && a.exec.Pending?
    requires c.mem.actions == before.mem.actions + [a] && c.mem.desired == before.mem.desired && c.observed == before.observed
    requires c.shutdown == before.shutdown && c.world.stopSeen == before.world.stopSeen
    requires forall t <- due :: t in a.emitted
    ensures Tracks(Arm(env, c, a, anchor, due), u)
  {
    hide Shown, Tell, TellWarnings, SyncShutdown;
    var c1 := c.(timers := c.timers[a.id := anchor]);
    SilentShown(c, c1, v);
    TellShown(env, c1, v, TimerScheduled(a));
    var c2 := Tell(env, c1, TimerScheduled(a));
    var v2 := v.(pending := v.pending[a.id := a]);
    TellWarningsShown(env, c2, v2, a, due, a.createdAt);
    AddWarningsFacts(v2.pending, a.id, due);
    assert a.emitted + (set t <- due) == a.emitted;
    assert AddWarnings(v2.pending, a.id, due) == v2.pending;
    assert (before.mem.actions + [a])[..|before.mem.actions|] == before.mem.actions;
    u := v2;
    if a.kind.ShutdownComputer? { u := SyncShutdownShown(env, TellWarnings(env, c2, a, due, a.createdAt), v2); }
  }

  lemma CancelTracks(env: Environment, c: Coord, v: Image, id: TimerId, kind: ActionKind) returns (u: Image)
    requires Durable(c) && Tracks(c, v)
    ensures Tracks(Cancel(env, c, id, kind).coord, u)
  {
    hide Shown, RemoveTimer, FindAction, CancelBlocked, Durable, PendingTable;
    var c1 := Consulted(c, id, kind);
    SilentShown(c, c1, v);
    u := v;
    if Cancel(env, c, id, kind) == RemoveTimer(env, c1, id, kind) {
      DurableIsUnique(c);
      u := RemoveTimerTracks(env, c1, v, id, kind);
    }
  }

  lemma RemoveTimerTracks(env: Environment, c: Coord, v: Image, id: TimerId, kind: ActionKind) returns (u: Image)
    requires UniqueActions(c.mem.actions) && Tracks(c, v)
    ensures Tracks(RemoveTimer(env, c, id, kind).coord, u)
  {
    hide Shown, Commit, Disarm, RemoveAction, Recompute, PendingTable;
    var after := c.mem.(actions := RemoveAction(c.mem.actions, id));
    SavingShown(env, c, v, after);
    u := v;
    if RemoveTimer(env, c, id, kind).reply.Cancelled? {
      RemoveLoses(c.mem.actions, id);
      u := DisarmTracks(env, c, Commit(env, c, after), v, id, kind);
    }
  }

  lemma DisarmTracks(env: Environment, before: Coord, c: Coord, v: Image, id: TimerId, kind: ActionKind) returns (u: Image)
    requires Shown(c, v) && Faithful(v, before)
    requires PendingTable(c.mem.actions) == PendingTable(before.mem.actions) - {id}
    requires c.mem.desired == before.mem.desired && c.observed == before.observed
    requires c.shutdown == before.shutdown && c.world.stopSeen == before.world.stopSeen
    ensures Tracks(Disarm(env, c, id, kind), u)
  {
    hide Shown, Tell, SyncShutdown, PendingTable;
    var c1 := c.(timers := c.timers - {id});
    SilentShown(c, c1, v);
    TellShown(env, c1, v, TimerCancelled(id, kind));
    u := v.(pending := v.pending - {id});
    if kind.ShutdownComputer? { u := SyncShutdownShown(env, Tell(env, c1, TimerCancelled(id, kind)), u); }
  }

  /** The image a policy change ends with: unknown once the stop flag has been seen. */
  lemma SetPolicyTracks(env: Environment, c: Coord, v: Image, target: DesiredInternet, reason: ChangeReason) returns (u: Image)
    requires Tracks(c, v)
    ensures Tracks(SetPolicy(env, c, target, reason).coord, u)
  {
    hide Shown, Commit, PolicyOutcome, TellPolicy, GateError, Recompute, PendingTable;
    var after := c.mem.(desired := target);
    SavingShown(env, c, v, after);
    u := v;
    if SaveOk(env, c) {
      var c1 := Commit(env, c, after);
      var c2 := LookForStop(env, c1);
      SilentShown(c1, c2, v);
      if !c2.world.stopSeen {
        var c3 := ApplyGate(env, c2, target);
        SilentShown(c2, c3, v);
        TellPolicyShown(env, c3, v, c.mem.desired, c.observed, reason);
        u := v.(net := Some((c3.mem.desired, c3.observed)));
        PolicyOutcomeTracks(env, TellPolicy(env, c3, c.mem.desired, c.observed, reason), u, GateError(target, env(c2.world.instant).gate));
      }
    }
  }

  lemma PolicyOutcomeTracks(env: Environment, c: Coord, v: Image, error: Option<string>)
    requires Tracks(c, v)
    ensures Tracks(PolicyOutcome(env, c, error).coord, v)
  {
    hide Shown, CommitPost, MarkGate, RecordGateFailure, Recompute, PendingTable;
    MarksShown(env, c, v, true, error);
    var c1 := MarkGate(env, c, error);
    if error.None? {
      SavingShown(env, c1, v, c1.mem.(retry := None));
    } else {
      var c2 := c1.(world := c1.world.Draw(1));
      SilentShown(c1, c2, v);
      RecordGateFailureShown(env, c2, v, RetryEdit(c1.mem, error.value, c1.world.nextId));
    }
  }

  lemma AckTracks(env: Environment, c: Coord, v: Image, id: EntryId)
    requires Tracks(c, v)
    ensures Tracks(Ack(env, c, id).coord, v)
  {
    hide Shown, Commit, FindEntry, Recompute, PendingTable;
    var c1 := c.(world := c.world.Did(AckReceived(id)));
    SilentShown(c, c1, v);
    var k := FindEntry(c.mem.outbox, id);
    if k < |c.mem.outbox| {
      OutboxSavedTracks(env, c1, v, c.mem.(outbox := c.mem.outbox[..k] + c.mem.outbox[k + 1..]));
    }
  }

  lemma OutboxSavedTracks(env: Environment, c: Coord, v: Image, after: PersistentState)
    requires Tracks(c, v) && after == c.mem.(outbox := after.outbox)
    ensures Tracks(Commit(env, c, after), v)
  {
    hide Shown, Commit, Recompute, PendingTable;
    SavingShown(env, c, v, after);
  }

  lemma ChildMessageTracks(env: Environment, c: Coord, v: Image, text: string)
    requires Tracks(c, v)
    ensures Tracks(ChildMessage(env, c, text).coord, v)
  {
    hide Shown, Commit, Recompute, PendingTable, ValidChat;
    if ValidChat(text) {
      var c2 := Looked(c.(world := c.world.Draw(1)));
      SilentShown(c, c2, v);
      var entry := OutboxEntry(c.world.nextId, Chat(ChatMessage(c.world.nextId, Child, text, Utc(env, c), AcceptedByService)), 0, None);
      SavingShown(env, c2, v, c.mem.(outbox := c.mem.outbox + [entry]));
    }
  }

  lemma ParentMessageTracks(env: Environment, c: Coord, v: Image, message: ChatMessage)
    requires Tracks(c, v)
    ensures Tracks(ParentMessage(env, c, message).coord, v)
  {
    hide Shown, Tell, PendingTable;
    if message.sender.Parent? { TellShown(env, c, v, ChatReceived(message)); }
  }

  // ---- subscriptions -------------------------------------------------------------------------

  lemma DropShown(env: Environment, c: Coord, v: Image, id: nat)
    requires v.shutdown.None? ==> Lapsed(c.world.trace)
    requires |c.hub.subs| <= U32_MAX && id in c.hub.subs
    requires forall x <- c.hub.subs :: c.hub.nextSub.Some? ==> x < c.hub.nextSub.value
    requires c.hub.nextSub.Some? ==> c.hub.nextSub.value <= U64_MAX
    requires GapFree(c.hub.subs, c.world.trace, Some(id)) && AllAgree(c.hub.subs, v, c.hub.health, Some(id))
    ensures Shown(Drop(env, c, id), v)
  {
    hide Reconcile, Fold, Broadcasts, Agrees, Lapsed;
    var c1 := c.(hub := c.hub.(subs := c.hub.subs - {id}));
    ReconcileKeepsLapse(env, c1.hub, c1.world, None);
    DropSize(c.hub.subs, id);
    ReconcileStabilises(env, c1.hub, c1.world, None);
    ReconcileAgrees(env, c1.hub, c1.world, v, None);
  }

  lemma DropSize(subs: map<nat, Subscriber>, id: nat)
    requires id in subs
    ensures |subs - {id}| == |subs| - 1
  {
    assert (subs - {id}).Keys == subs.Keys - {id};
  }

  lemma EnlistSize(subs: map<nat, Subscriber>, id: nat, s: Subscriber)
    requires id !in subs
    ensures |subs[id := s]| == |subs| + 1
  {
    assert subs[id := s].Keys == subs.Keys + {id};
  }

  /** Registration: the newcomer is left out of the announcements until its snapshot is taken. */
  lemma EnlistShown(env: Environment, c: Coord, v: Image, id: nat)
    requires Shown(c, v) && c.hub.nextSub == Some(id) && id !in c.hub.subs && |c.hub.subs| + 1 <= U32_MAX
    ensures var d := Reconciled(env, Enlist(c, id), Some(id));
      && Reconcile(env, Enlist(c, id).hub, Enlist(c, id).world, Some(id)).ok
      && d.hub.health.sessions == |d.hub.subs| <= U32_MAX && id in d.hub.subs
      && (forall x <- d.hub.subs :: d.hub.nextSub.Some? ==> x < d.hub.nextSub.value)
      && (d.hub.nextSub.Some? ==> d.hub.nextSub.value <= U64_MAX)
      && GapFree(d.hub.subs, d.world.trace, Some(id)) && AllAgree(d.hub.subs, v, d.hub.health, Some(id))
      && (v.shutdown.None? ==> Lapsed(d.world.trace))
  {
    hide Reconcile, Fold, Broadcasts, Agrees, Lapsed;
    var c1 := Enlist(c, id);
    EnlistSize(c.hub.subs, id, c1.hub.subs[id]);
    ReconcileStabilises(env, c1.hub, c1.world, Some(id));
    ReconcileAgrees(env, c1.hub, c1.world, v, Some(id));
    ReconcileKeepsLapse(env, c1.hub, c1.world, Some(id));
  }

  /** A newcomer with an empty stream and an up-to-date snapshot agrees with everybody. */
  lemma JoinAgrees(subs: map<nat, Subscriber>, id: nat, s: Subscriber, t: Trace, v: Image, health: Health)
    requires GapFree(subs, t, Some(id)) && AllAgree(subs, v, health, Some(id))
    requires s.stream == [] && s.since == |Broadcasts(t)| && Agrees(FromSnapshot(s.snapshot), v, health)
    ensures GapFree(subs[id := s], t, None) && AllAgree(subs[id := s], v, health, None)
  {
    hide Agrees, FromSnapshot;
  }

  lemma RegisterShown(c: Coord, v: Image, id: nat)
    requires c.hub.health.sessions == |c.hub.subs| <= U32_MAX && id in c.hub.subs
    requires forall x <- c.hub.subs :: c.hub.nextSub.Some? ==> x < c.hub.nextSub.value
    requires c.hub.nextSub.Some? ==> c.hub.nextSub.value <= U64_MAX
    requires GapFree(c.hub.subs, c.world.trace, Some(id)) && AllAgree(c.hub.subs, v, c.hub.health, Some(id))
    requires v.shutdown.None? ==> Lapsed(c.world.trace)
    requires Agrees(FromSnapshot(StatusOf(c)), v, c.hub.health)
    ensures Shown(Register(c, id), v)
  {
    hide Agrees, FromSnapshot, GapFree, AllAgree, StatusOf;
    var d := Register(c, id);
    var s := d.hub.subs[id];
    assert d.hub.subs.Keys == c.hub.subs.Keys;
    assert |d.hub.subs| == |d.hub.subs.Keys| == |c.hub.subs|;
    JoinAgrees(c.hub.subs, id, s, c.world.trace, v, c.hub.health);
  }

  lemma SubscribeTracks(env: Environment, c: Coord, v: Image) returns (u: Image)
    requires Tracks(c, v)
    ensures Tracks(Subscribe(env, c).coord, u)
  {
    hide Shown, Reconcile, PendingTable, Fold, GapFree, AllAgree;
    u := v;
    if c.hub.nextSub.Some? && c.hub.nextSub.value !in c.hub.subs && |c.hub.subs| + 1 <= U32_MAX {
      var id := c.hub.nextSub.value;
      EnlistShown(env, c, v, id);
      var c2 := Reconciled(env, Enlist(c, id), Some(id));
      u := v.(net := if c.world.stopSeen then None else v.net);
      ForgetNet(c2.hub, v, u, id);
      RegisterShown(c2, u, id);
      var c3 := Register(c2, id);
      SilentShown(c3, Looked(c3), u);
      ShownParts(Looked(c3), u, id);
      DropShown(env, Looked(c3), u, id);
    }
  }

  lemma ForgetNet(hub: Hub, v: Image, u: Image, id: nat)
    requires AllAgree(hub.subs, v, hub.health, Some(id)) && u == v.(net := u.net) && (u.net == v.net || u.net.None?)
    ensures AllAgree(hub.subs, u, hub.health, Some(id))
  {
    hide Fold;
  }

  lemma ShownParts(c: Coord, v: Image, id: nat)
    requires Shown(c, v)
    ensures |c.hub.subs| <= U32_MAX
    ensures forall x <- c.hub.subs :: c.hub.nextSub.Some? ==> x < c.hub.nextSub.value
    ensures c.hub.nextSub.Some? ==> c.hub.nextSub.value <= U64_MAX
    ensures GapFree(c.hub.subs, c.world.trace, Some(id)) && AllAgree(c.hub.subs, v, c.hub.health, Some(id))
    ensures v.shutdown.None? ==> Lapsed(c.world.trace)
  {
    hide Fold, Broadcasts;
  }

  lemma UnsubscribeTracks(env: Environment, c: Coord, v: Image, id: nat)
    requires Tracks(c, v)
    ensures Tracks(Unsubscribe(env, c, id).coord, v)
  {
    hide Shown, Reconcile, PendingTable, Fold, GapFree, AllAgree;
    if id in c.hub.subs {
      ShownParts(c, v, id);
      DropShown(env, c, v, id);
    }
  }

  lemma ClosedShown(c: Coord, c1: Coord, v: Image)
    requires Shown(c, v)
    requires c1.hub == c.hub.(subs := map[], health := c.hub.health.(sessions := 0)) || c1.hub == c.hub
    requires c1.world == c.world
    ensures Shown(c1, v)
  {
  }

  lemma StopTracks(env: Environment, c: Coord, v: Image)
    requires Durable(c) && Tracks(c, v)
    ensures Tracks(Stop(env, c).coord, v)
  {
    hide MarkPersistence, PendingTable, Shown;
    var c1 := if c.stopping then c
              else c.(stopping := true, hub := c.hub.(subs := map[], health := c.hub.health.(sessions := 0)));
    ClosedShown(c, c1, v);
    if c1.pending.Some? {
      var b := AfterSave(c1, c1.pending.value, SaveOk(env, c1), false);
      SilentShown(c1, b, v);
      MarksShown(env, b, v, SaveOk(env, c1), None);
    }
  }

  // ---- warnings and deadlines ------------------------------------------------------------------

  lemma WarnTracks(env: Environment, c: Coord, v: Image, id: TimerId, now: nat) returns (u: Image)
    requires Durable(c) && Tracks(c, v)
    ensures Tracks(Warn(env, c, id, now), u)
  {
    hide Shown, WarnCrossed, Durable, PendingTable;
    u := v;
    if id in c.timers && now < c.timers[id].target {
      var previous, current := c.timers[id].cursor, SecondsLeft(c.timers[id], now);
      SilentShown(c, SetCursor(c, id, current), v);
      if previous > current && CrossedBy(c, id, previous, current) != [] {
        u := WarnCrossedTracks(env, c, v, id, current, CrossedBy(c, id, previous, current));
      }
    }
  }

  lemma WarnCrossedTracks(env: Environment, c: Coord, v: Image, id: TimerId, current: nat, crossed: seq<Threshold>) returns (u: Image)
    requires Durable(c) && Tracks(c, v) && id in c.timers
    ensures Tracks(WarnCrossed(env, c, id, current, crossed), u)
  {
    hide Tracks, Shown, Faithful, Commit, WarningsSaved, Durable, PendingTable, WarnEdit, Recompute;
    u := v;
    var k := FindAction(c.mem.actions, id);
    if k < |c.mem.actions| {
      var c1 := c.(world := c.world.Draw(|crossed|));
      var after := WarnEdit(c.mem, k, crossed, c.world.nextId);
      SavedTracks(env, c, c1, v, after);
      if SaveOk(env, c1) {
        DurableIsUnique(c);
        var described := c.mem.actions[k].(kind := c.timers[id].kind, deadline := c.timers[id].deadline);
        u := WarningsSavedTracks(env, c, Commit(env, c1, after), v, k, described, current, crossed);
      }
    }
  }

  lemma WarningsSavedTracks(env: Environment, before: Coord, c: Coord, v: Image, k: nat, described: Action, current: nat, crossed: seq<Threshold>)
    returns (u: Image)
    requires Faithful(v, before) && Shown(c, v) && UniqueActions(before.mem.actions)
    requires k < |before.mem.actions| && described.id == before.mem.actions[k].id
    requires c.mem == WarnEdit(before.mem, k, crossed, before.world.nextId)
    requires c.observed == before.observed && c.shutdown == before.shutdown && c.world.stopSeen == before.world.stopSeen
    ensures Tracks(WarningsSaved(env, c, described, current, crossed), u)
  {
    hide Shown, TellWarnings, PendingTable, Notices;
    var c1 := Looked(SetCursor(c, described.id, current));
    SilentShown(c, c1, v);
    TellWarningsShown(env, c1, v, described, crossed, Utc(env, SetCursor(c, described.id, current)));
    WarnTable(before.mem, k, crossed, before.world.nextId);
    u := v.(pending := AddWarnings(v.pending, described.id, crossed));
  }

  lemma {:induction false} WarnAllTracks(env: Environment, c: Coord, v: Image, order: seq<TimerId>, now: nat) returns (u: Image)
    requires Durable(c) && Tracks(c, v)
    ensures Tracks(WarnAll(env, c, order, now), u)
    decreases |order|
  {
    hide Tracks, Warn, Durable;
    u := v;
    if order != [] {
      var front := order[..|order| - 1];
      u := WarnAllTracks(env, c, v, front, now);
      WarnAllKeeps(env, c, front, now);
      u := WarnTracks(env, WarnAll(env, c, front, now), u, order[|order| - 1], now);
    }
  }

  lemma BlockOutcomeTracks(env: Environment, c: Coord, v: Image, id: TimerId, error: Option<string>)
    requires Tracks(c, v) && UniqueActions(c.mem.actions) && NonePending(c.mem.actions, id)
    ensures Tracks(BlockOutcome(env, c, id, error), v)
  {
    hide Shown, CommitPost, MarkGate, RecordGateFailure, Recompute, PendingTable, CompleteEdit, FailEdit;
    MarksShown(env, c, v, true, error);
    var c1 := MarkGate(env, c, error);
    EditsKeepRest(c.mem, id, if error.Some? then error.value else "");
    ResolvedTable(c.mem, id, if error.Some? then error.value else "");
    if error.None? {
      SavingShown(env, c1, v, CompleteEdit(c.mem, id).(retry := None));
    } else {
      var c2 := c1.(world := c1.world.Draw(1));
      SilentShown(c1, c2, v);
      RecordGateFailureShown(env, c2, v, RetryEdit(FailEdit(c.mem, id, error.value), error.value, c1.world.nextId));
    }
  }

  lemma EditsKeepRest(s: PersistentState, id: TimerId, reason: string)
    ensures CompleteEdit(s, id) == s.(actions := CompleteEdit(s, id).actions)
    ensures FailEdit(s, id, reason) == s.(actions := FailEdit(s, id, reason).actions)
  {
  }

  lemma FireBlockTracks(env: Environment, c: Coord, v: Image, id: TimerId) returns (u: Image)
    requires UniqueActions(c.mem.actions) && Tracks(c, v)
    ensures Tracks(FireBlock(env, c, id), u)
  {
    hide Shown, Commit, FiredBlock, PendingTable, Recompute;
    u := v;
    var c0 := LookForStop(env, c);
    SilentShown(c, c0, v);
    var k := FindAction(c.mem.actions, id);
    if k < |c.mem.actions| && c.mem.actions[k].exec.Pending? && !c0.world.stopSeen {
      var after := c.mem.(actions := SetExec(c.mem.actions, k, Executing), desired := Blocked);
      SavingShown(env, c0, v, after);
      if SaveOk(env, c0) {
        StartLoses(c.mem.actions, k);
        StartNonePending(c.mem.actions, k);
        u := FiredBlockTracks(env, c, Commit(env, c0, after), v, id);
      }
    }
  }

  lemma StartNonePending(actions: seq<Action>, k: nat)
    requires UniqueActions(actions) && k < |actions|
    ensures NonePending(SetExec(actions, k, Executing), actions[k].id)
  {
    assert forall i :: 0 <= i < |actions| && i != k ==> actions[i].id != actions[k].id;
  }

  lemma FiredBlockTracks(env: Environment, before: Coord, c: Coord, v: Image, id: TimerId) returns (u: Image)
    requires Faithful(v, before) && Shown(c, v) && UniqueActions(c.mem.actions) && NonePending(c.mem.actions, id)
    requires PendingTable(c.mem.actions) == PendingTable(before.mem.actions) - {id}
    requires c.shutdown == before.shutdown && c.world.stopSeen == before.world.stopSeen
    ensures Tracks(FiredBlock(env, before, c, id), u)
  {
    hide Shown, Tell, TellPolicy, BlockOutcome, PendingTable, NonePending;
    var c1 := c.(timers := c.timers - {id});
    SilentShown(c, c1, v);
    TellShown(env, c1, v, TimerExpired(id, BlockInternet));
    var c2 := Tell(env, c1, TimerExpired(id, BlockInternet));
    var v2 := v.(pending := v.pending - {id});
    var c3 := LookForStop(env, c2);
    SilentShown(c2, c3, v2);
    u := v2;
    if !c3.world.stopSeen {
      var c4 := ApplyGate(env, c3, Blocked);
      SilentShown(c3, c4, v2);
      TellPolicyShown(env, c4, v2, before.mem.desired, before.observed, TimerFired(id));
      u := v2.(net := Some((c4.mem.desired, c4.observed)));
      BlockOutcomeTracks(env, TellPolicy(env, c4, before.mem.desired, before.observed, TimerFired(id)), u, id,
        GateError(Blocked, env(c3.world.instant).gate));
    }
  }

  lemma FireShutdownTracks(env: Environment, c: Coord, v: Image, id: TimerId) returns (u: Image)
    requires UniqueActions(c.mem.actions) && Tracks(c, v)
    ensures Tracks(FireShutdown(env, c, id), u)
  {
    hide Shown, Commit, FiredShutdown, PendingTable, Recompute;
    u := v;
    var c0 := LookForStop(env, c);
    SilentShown(c, c0, v);
    var k := FindAction(c.mem.actions, id);
    if k < |c.mem.actions| && c.mem.actions[k].exec.Pending? && !c0.world.stopSeen {
      var after := c.mem.(actions := SetExec(c.mem.actions, k, Executing));
      SavingShown(env, c0, v, after);
      if SaveOk(env, c0) {
        StartLoses(c.mem.actions, k);
        StartNonePending(c.mem.actions, k);
        u := FiredShutdownTracks(env, c0, Commit(env, c0, after), v, id);
      }
    }
  }

  lemma FiredShutdownTracks(env: Environment, before: Coord, c: Coord, v: Image, id: TimerId) returns (u: Image)
    requires Faithful(v, before) && Shown(c, v) && UniqueActions(c.mem.actions) && NonePending(c.mem.actions, id)
    requires PendingTable(c.mem.actions) == PendingTable(before.mem.actions) - {id}
    requires c.mem.desired == before.mem.desired && c.observed == before.observed
    requires c.shutdown == before.shutdown && c.world.stopSeen == before.world.stopSeen
    ensures Tracks(FiredShutdown(env, c, id), u)
  {
    hide Shown, Tell, PowerOutcome, PendingTable, NonePending;
    var c1 := c.(timers := c.timers - {id});
    SilentShown(c, c1, v);
    TellShown(env, c1, v, TimerExpired(id, ShutdownComputer));
    var c2 := Tell(env, c1, TimerExpired(id, ShutdownComputer));
    u := v.(pending := v.pending - {id});
    var c3 := LookForStop(env, c2);
    SilentShown(c2, c3, u);
    if !c3.world.stopSeen {
      var outcome := env(c3.world.instant).power;
      var c4 := c3.(world := c3.world.Did(PowerCall(id, outcome)));
      SilentShown(c3, c4, u);
      u := PowerOutcomeTracks(env, c4, u, id, outcome);
    }
  }

  lemma PowerOutcomeTracks(env: Environment, c: Coord, v: Image, id: TimerId, outcome: Outcome) returns (u: Image)
    requires Tracks(c, v) && UniqueActions(c.mem.actions) && NonePending(c.mem.actions, id)
    requires c.world.trace.Then? && c.world.trace.last == PowerCall(id, outcome)
    ensures Tracks(PowerOutcome(env, c, id, outcome), u)
  {
    hide Shown, MarkPower, PowerAccepted, PowerRefused, Recompute, PendingTable, Quiet;
    var error := match outcome case Success => None case Failure(reason) => Some(reason);
    var c1 := MarkPower(env, c, error);
    MarksShown(env, c, v, true, error);
    u := v;
    if FindAction(c.mem.actions, id) < |c.mem.actions| {
      if outcome.Success? {
        u := PowerAcceptedTracks(env, c, c1, v, id);
      } else {
        MarksHushed(env, c, error);
        QuietKeepsRefusal(c.world.trace, c1.world.trace);
        u := PowerRefusedTracks(env, c, c1, v, id, outcome.reason);
      }
    }
  }

  lemma PowerAcceptedTracks(env: Environment, c: Coord, c1: Coord, v: Image, id: TimerId) returns (u: Image)
    requires Tracks(c, v) && UniqueActions(c.mem.actions) && NonePending(c.mem.actions, id)
    requires Shown(c1, v) && c1 == c.(hub := c1.hub, world := c1.world) && c1.world.stopSeen == c.world.stopSeen
    ensures Tracks(PowerAccepted(env, c, c1, id), u)
  {
    hide Shown, CommitPost, TellShutdown, Recompute, PendingTable, CompleteEdit;
    EditsKeepRest(c.mem, id, "");
    ResolvedTable(c.mem, id, "");
    var b := c1.(shutdown := InProgress);
    SilentShown(c1, b, v);
    TellShutdownShown(env, b, v, c.shutdown, InProgress);
    u := if c.shutdown == InProgress then v else v.(shutdown := Some(InProgress));
    SavingShown(env, TellShutdown(env, b, c.shutdown, InProgress), u, CompleteEdit(c.mem, id));
  }

  /** The announcement the failed save suppresses: the image of the shutdown state is then lost
      only if the state has changed. */
  lemma PowerRefusedTracks(env: Environment, c: Coord, c1: Coord, v: Image, id: TimerId, reason: string) returns (u: Image)
    requires Faithful(v, c) && Shown(c1, v) && UniqueActions(c.mem.actions) && NonePending(c.mem.actions, id)
    requires c1 == c.(hub := c1.hub, world := c1.world) && c1.world.stopSeen == c.world.stopSeen
    requires JustRefused(c1.world.trace)
    ensures Tracks(PowerRefused(env, c, c1, id, reason), u)
    ensures u == v.(shutdown := u.shutdown)
    ensures (u.shutdown.None? && v.shutdown.Some?) ==>
      !SaveOk(env, c1) && DeriveShutdown(c.shutdown, FailEdit(c.mem, id, reason).actions) != c.shutdown
  {
    hide Shown, CommitPost, TellShutdown, DeriveShutdown, Recompute, PendingTable, FailEdit, Lapsed, JustRefused;
    EditsKeepRest(c.mem, id, reason);
    ResolvedTable(c.mem, id, reason);
    var failed := FailEdit(c.mem, id, reason);
    var edited := failed.(outbox := failed.outbox + [Notice(c1.world.nextId, reason)]);
    var current := DeriveShutdown(c.shutdown, edited.actions);
    var c2 := c1.(world := c1.world.Draw(1), shutdown := current);
    SilentShown(c1, c2, v);
    SavingShown(env, c2, v, edited);
    var c3 := CommitPost(env, c2, edited);
    if SaveOk(env, c2) {
      TellShutdownShown(env, c3, v, c.shutdown, current);
      u := if c.shutdown == current then v else v.(shutdown := Some(current));
    } else {
      u := if c.shutdown == current then v else v.(shutdown := None);
      RefusalLapses(env, c2, v, u, edited);
    }
  }

  /** The save that failed marks the lapse. */
  lemma RefusalLapses(env: Environment, c: Coord, v: Image, u: Image, edited: PersistentState)
    requires Shown(c, v) && JustRefused(c.world.trace) && !SaveOk(env, c)
    requires u == v.(shutdown := u.shutdown) && (u.shutdown == v.shutdown || u.shutdown.None?)
    ensures Shown(CommitPost(env, c, edited), u)
  {
    hide Shown, MarkPersistence;
    var b := AfterSave(c, edited, false, true);
    SilentShown(c, b, v);
    ForgetShutdown(b, v, u);
    MarksShown(env, b, u, false, None);
  }

  lemma ForgetShutdown(c: Coord, v: Image, u: Image)
    requires Shown(c, v) && u == v.(shutdown := u.shutdown) && (u.shutdown == v.shutdown || u.shutdown.None?)
    requires u.shutdown.None? ==> Lapsed(c.world.trace)
    ensures Shown(c, u)
  {
    hide Fold, Broadcasts;
  }

  lemma {:induction false} FireAllTracks(env: Environment, c: Coord, v: Image, kinds: map<TimerId, Anchor>, due: seq<TimerId>) returns (u: Image)
    requires Durable(c) && Tracks(c, v) && KindsMatch(c.mem.actions, kinds) && (forall id <- due :: id in kinds)
    ensures Tracks(FireAll(env, c, kinds, due).coord, u)
    decreases |due|
  {
    hide Tracks, FireBlock, FireShutdown, Durable;
    u := v;
    if due != [] {
      var front, id := due[..|due| - 1], due[|due| - 1];
      u := FireAllTracks(env, c, v, kinds, front);
      FireAllKeeps(env, c, kinds, front);
      var f := FireAll(env, c, kinds, front);
      if !f.aborted {
        LookTracks(env, f.coord, u);
        var c1 := LookForStop(env, f.coord);
        DurableIsUnique(f.coord);
        if !c1.world.stopSeen {
          if kinds[id].kind.BlockInternet? {
            u := FireBlockTracks(env, c1, u, id);
          } else {
            u := FireShutdownTracks(env, c1, u, id);
          }
        }
      }
    }
  }

  lemma LookTracks(env: Environment, c: Coord, v: Image)
    requires Tracks(c, v)
    ensures Tracks(LookForStop(env, c), v) && Tracks(Looked(c), v)
    ensures Tracks(c.(retryAt := None), v)
  {
    hide Shown, PendingTable;
    SilentShown(c, LookForStop(env, c), v);
    SilentShown(c, Looked(c), v);
    SilentShown(c, c.(retryAt := None), v);
  }

  lemma RetryTracks(env: Environment, c: Coord, v: Image) returns (u: Image)
    requires UniqueActions(c.mem.actions) && Tracks(c, v)
    ensures Tracks(Retry(env, c), u)
  {
    hide Shown, TellPolicy, RetryOutcome, PendingTable;
    var c1 := LookForStop(env, c);
    LookTracks(env, c, v);
    u := v;
    if !c1.world.stopSeen {
      var c2 := ApplyGate(env, c1, c.mem.desired);
      SilentShown(c1, c2, v);
      TellPolicyShown(env, c2, v, c.mem.desired, c.observed, PlatformSync);
      u := v.(net := Some((c2.mem.desired, c2.observed)));
      RetryOutcomeTracks(env, TellPolicy(env, c2, c.mem.desired, c.observed, PlatformSync), u, GateError(c.mem.desired, env(c1.world.instant).gate));
    }
  }

  lemma RetryOutcomeTracks(env: Environment, c: Coord, v: Image, error: Option<string>)
    requires Tracks(c, v) && UniqueActions(c.mem.actions)
    ensures Tracks(RetryOutcome(env, c, error), v)
  {
    hide Shown, CommitPost, MarkGate, RecordGateFailure, Recompute, PendingTable, ResolveBlocks;
    MarksShown(env, c, v, true, error);
    var c1 := MarkGate(env, c, error);
    if error.None? {
      ResolveBlocksTable(c.mem.actions);
      SavingShown(env, c1, v, RetryDoneEdit(c.mem));
    } else {
      var c2 := c1.(world := c1.world.Draw(1));
      SilentShown(c1, c2, v);
      RecordGateFailureShown(env, c2, v, RetryEdit(c.mem, error.value, c1.world.nextId));
    }
  }

  lemma TickTracks(env: Environment, c: Coord, v: Image, order: seq<TimerId>) returns (u: Image)
    requires Durable(c) && Timed(c) && Tracks(c, v)
    ensures Tracks(Tick(env, c, order), u)
  {
    hide Tracks, WarnAll, FireAll, Retry, Durable, Timed;
    var c0 := LookForStop(env, c);
    LookTracks(env, c, v);
    u := v;
    if !c0.world.stopSeen {
      var now, c1 := Mono(env, c0), Looked(c0);
      LookTracks(env, c0, v);
      HushedKeeps(c, c1);
      u := WarnAllTracks(env, c1, v, order, now);
      WarnAllKeeps(env, c1, order, now);
      var c2 := WarnAll(env, c1, order, now);
      TimedKinds(c);
      KindsSurvive(c.mem.actions, c2.mem.actions, c.timers);
      ExpiredFacts(c.timers, order, now);
      u := FireAllTracks(env, c2, u, c.timers, Expired(c.timers, order, now));
      FireAllKeeps(env, c2, c.timers, Expired(c.timers, order, now));
      var f := FireAll(env, c2, c.timers, Expired(c.timers, order, now));
      LookTracks(env, f.coord, u);
      DurableIsUnique(f.coord);
      if !f.aborted && f.coord.retryAt.Some? && now >= f.coord.retryAt.value && f.coord.hub.health.persistenceHealthy {
        u := RetryTracks(env, f.coord.(retryAt := None), u);
      }
    }
  }

  // ---- runs ----------------------------------------------------------------------------------

  ghost predicate Empty(hub: Hub) {
    hub.subs == map[] && hub.health.sessions == 0 && hub.nextSub == Some(1)
  }

  lemma RecoverHasNoSubscribers(env: Environment, w: World)
    ensures var m := Recover(env, w); m.Up? ==> Empty(m.coord.hub)
  {
    hide Commit, TellMissed, SyncShutdown, RecoverState, RecoverTimers, MissedActions;
  }

  lemma RestoreKeepsEmpty(env: Environment, c: Coord, ids: set<TimerId>)
    requires Empty(c.hub)
    ensures var m := Restore(env, c, ids); m.Up? ==> Empty(m.coord.hub)
  {
    hide CommitPost, MarkGate, TellPolicy, ScheduleRetry, ReconciledState, DegradedState;
  }

  lemma BootHasNoSubscribers(env: Environment, w: World)
    ensures var m := Boot(env, w);
      m.Up? ==> Empty(m.coord.hub)
  {
    hide Recover, Restore, OverdueBlocks;
    match Recover(env, w) {
      case Up(c) =>
        RecoverHasNoSubscribers(env, w);
        RestoreKeepsEmpty(env, c, OverdueBlocks(w.disk.actions, BootUtc(env, w)));
      case Down(_) =>
    }
  }

  lemma BootTracks(env: Environment, w: World) returns (u: Image)
    ensures var m := Boot(env, w); m.Up? ==> Tracks(m.coord, u)
  {
    hide Boot, PendingTable;
    BootHasNoSubscribers(env, w);
    var m := Boot(env, w);
    u := Image(map[], None, None);
    if m.Up? { u := Image(PendingTable(m.coord.mem.actions), Some((m.coord.mem.desired, m.coord.observed)), Some(m.coord.shutdown)); }
  }

  lemma HandleTracks(env: Environment, c: Coord, v: Image, cmd: Command) returns (u: Image)
    requires Durable(c) && Tracks(c, v)
    ensures Tracks(Handle(env, c, cmd).coord, u)
  {
    hide Tracks, Durable, Schedule, Cancel, SetPolicy, Ack, ChildMessage, ParentMessage, Subscribe, Unsubscribe, Stop;
    u := v;
    if cmd.StopRuntime? {
      StopTracks(env, c, v);
    } else if !c.stopping {
      match cmd {
        case ScheduleAction(kind, duration, who) => u := ScheduleTracks(env, c, v, kind, duration, who);
        case CancelExactTimer(id, kind) => u := CancelTracks(env, c, v, id, kind);
        case ImmediateInternetBlock(who) => u := SetPolicyTracks(env, c, v, Blocked, ImmediateCommand(who));
        case RestoreInternet(who) => u := SetPolicyTracks(env, c, v, Unrestricted, ManualRestore(who));
        case AckTelegram(id) => AckTracks(env, c, v, id);
        case SendChildMessage(text) => ChildMessageTracks(env, c, v, text);
        case PublishParentMessage(message) => ParentMessageTracks(env, c, v, message);
        case SubscribeEvents => u := SubscribeTracks(env, c, v);
        case UnsubscribeEvents(id) => UnsubscribeTracks(env, c, v, id);
        case _ =>
      }
    }
  }

  /** Over any run, all registered subscribers share one image, and it is faithful. */
  lemma {:induction false} RunTracks(env: Environment, m: Machine, steps: seq<Step>) returns (u: Image)
    requires Installed(m)
    ensures var end := Run(env, m, steps); end.Up? ==> Tracks(end.coord, u)
    decreases |steps|
  {
    hide Tracks, Handle, Tick, Boot, Crashed, Durable, Timed;
    u := Image(map[], None, None);
    if steps != [] {
      var front, step := steps[..|steps| - 1], steps[|steps| - 1];
      u := RunTracks(env, m, front);
      RunIsSane(env, m, front);
      var before := Run(env, m, front);
      if step.CrashAndBoot? {
        u := BootTracks(env, Crashed(WorldOf(before), step.lost));
      } else if before.Up? {
        if step.Serve? {
          u := HandleTracks(env, before.coord, u, step.cmd);
        } else if !before.coord.stopping {
          u := TickTracks(env, before.coord, u, step.order);
        }
      }
    }
  }

  /** Main result: at the end of any run, whoever is still subscribed has received every broadcast
      since the registration exactly once and in order, and folding them over the initial snapshot
      gives the pending timers with their emitted thresholds, the health signature, as long as no stop
      was requested, the desired and the observed Internet state, and the shutdown state unless the
      failure of a refused shutdown could not be saved after that state was announced last. */
  lemma SubscriberReplaysCoordinator(env: Environment, m: Machine, steps: seq<Step>, id: nat)
    requires Installed(m) && Run(env, m, steps).Up? && id in Run(env, m, steps).coord.hub.subs
    ensures var c := Run(env, m, steps).coord;
      var sub := c.hub.subs[id];
      var replica := Fold(sub.snapshot, sub.stream);
      && sub.since <= |Broadcasts(c.world.trace)| && sub.stream == Broadcasts(c.world.trace)[sub.since..]
      && replica.pending == PendingTable(c.mem.actions)
      && replica.health == c.hub.health
      && c.hub.health.sessions == |c.hub.subs|
      && (!c.world.stopSeen ==> replica.desired == c.mem.desired && replica.observed == c.observed)
      && (!Lapsed(c.world.trace) ==> replica.shutdown == c.shutdown)
  {
    hide Run, Fold, PendingTable, Broadcasts;
    var u := RunTracks(env, m, steps);
  }

  // ---- the shutdown state --------------------------------------------------------------------

  /** Is the failure of a refused shutdown saved? */
  predicate RefusalSaved(env: Environment, c: Coord, reason: string) {
    SaveOk(env, MarkPower(env, c, Some(reason)))
  }

  ghost predicate AllShow(c: Coord, shutdown: ShutdownState) {
    forall sub <- c.hub.subs :: Fold(c.hub.subs[sub].snapshot, c.hub.subs[sub].stream).shutdown == shutdown
  }

  lemma ReplicasAgree(c: Coord, v: Image)
    requires Shown(c, v) && v.shutdown.Some?
    ensures AllShow(c, v.shutdown.value)
  {
    hide Fold, Broadcasts;
  }

  lemma RefusedReplay(env: Environment, c: Coord, c1: Coord, v: Image, id: TimerId, reason: string)
    requires Shown(c1, v) && v.shutdown == Some(c.shutdown)
    ensures var d := PowerRefused(env, c, c1, id, reason); AllShow(d, if SaveOk(env, c1) then d.shutdown else c.shutdown)
  {
    hide Shown, AllShow, CommitPost, TellShutdown, Recompute, FailEdit, DeriveShutdown;
    var failed := FailEdit(c.mem, id, reason);
    var edited := failed.(outbox := failed.outbox + [Notice(c1.world.nextId, reason)]);
    var current := DeriveShutdown(c.shutdown, edited.actions);
    var c2 := c1.(world := c1.world.Draw(1), shutdown := current);
    SilentShown(c1, c2, v);
    SavingShown(env, c2, v, edited);
    var c3 := CommitPost(env, c2, edited);
    if SaveOk(env, c2) {
      TellShutdownShown(env, c3, v, c.shutdown, current);
      ReplicasAgree(TellShutdown(env, c3, c.shutdown, current), if c.shutdown == current then v else v.(shutdown := Some(current)));
    } else {
      ReplicasAgree(c3, v);
    }
  }

  /** Does a shutdown other than this one wait, or run? */
  ghost predicate OtherShutdownActive(actions: seq<Action>, id: TimerId) {
    exists a <- actions :: a.id != id && a.kind.ShutdownComputer? && (a.exec.Pending? || a.exec.Executing?)
  }

  /** A failed shutdown is the end of the scheduled state unless there is another one. */
  lemma RefusedAggregate(c: Coord, id: TimerId, reason: string)
    requires UniqueActions(c.mem.actions) && HasExecutingShutdown(c.mem, id) && Truthful(c)
    ensures FindAction(c.mem.actions, id) < |c.mem.actions|
    ensures DeriveShutdown(c.shutdown, FailEdit(c.mem, id, reason).actions) == c.shutdown
      <==> c.shutdown.InProgress? || OtherShutdownActive(c.mem.actions, id)
  {
    var a :| a in c.mem.actions && a.id == id && a.kind.ShutdownComputer? && a.exec.Executing?;
    var k := FindAction(c.mem.actions, id);
    SameAction(c.mem.actions, a, c.mem.actions[k]);
    var after := SetExec(c.mem.actions, k, Failed(reason));
    assert FailEdit(c.mem, id, reason).actions == after;
    forall i | 0 <= i < |after| && i != k ensures after[i] == c.mem.actions[i] && after[i].id != id && after[i] in c.mem.actions {
      assert c.mem.actions[i].id != c.mem.actions[k].id;
    }
    forall x | x in c.mem.actions && x.id != id ensures x in after {
      var i :| 0 <= i < |after| && c.mem.actions[i] == x;
      assert after[i] == x;
    }
  }

  /** When the power controller refuses, the new shutdown state reaches the subscribers if and only if
      the failure can be saved, or the computer is already shutting down, or another shutdown waits. */
  lemma RefusedShutdownReachesSubscribers(env: Environment, c: Coord, v: Image, id: TimerId, reason: string)
    requires Shown(c, v) && v.shutdown == Some(c.shutdown) && Truthful(c)
    requires UniqueActions(c.mem.actions) && HasExecutingShutdown(c.mem, id)
    ensures var d := PowerOutcome(env, c, id, Failure(reason));
      forall sub <- d.hub.subs ::
        Fold(d.hub.subs[sub].snapshot, d.hub.subs[sub].stream).shutdown == d.shutdown
        <==> RefusalSaved(env, c, reason) || c.shutdown.InProgress? || OtherShutdownActive(c.mem.actions, id)
  {
    hide Shown, PowerRefused, MarkPower, Recompute, Fold, DeriveShutdown, OtherShutdownActive, Truthful, FailEdit, UniqueActions;
    RefusedAggregate(c, id, reason);
    MarksShown(env, c, v, true, Some(reason));
    var c1 := MarkPower(env, c, Some(reason));
    RefusedReplay(env, c, c1, v, id, reason);
    RefusedState(env, c, c1, id, reason);
  }

  lemma RefusedState(env: Environment, c: Coord, c1: Coord, id: TimerId, reason: string)
    ensures PowerRefused(env, c, c1, id, reason).shutdown == DeriveShutdown(c.shutdown, FailEdit(c.mem, id, reason).actions)
  {
    hide CommitPost, TellShutdown, DeriveShutdown, FailEdit, Recompute;
  }
}
