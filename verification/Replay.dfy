/** A subscriber that folds its events over its initial snapshot knows the coordinator: the
    pending timers with the warnings sent for them, the health, and the Internet policy. */
module Replay {
  import opened Domain
  import opened World
  import opened Subscribers
  import opened Runtime
  import opened Recovery
  import opened Safety
  import opened Durability
  import opened Edits
  import opened Deadlines
  import opened Timers

  // ---- the subscriber's side -------------------------------------------------------------------

  /** What a client reconstructs. */
  datatype Replica = Replica(
    pending: map<TimerId, Action>,
    health: Health,
    desired: DesiredInternet,
    observed: InternetState,
    shutdown: ShutdownState)

  ghost function PendingTable(actions: seq<Action>): map<TimerId, Action> {
    if actions == [] then map[]
    else
      var rest, a := PendingTable(actions[..|actions| - 1]), actions[|actions| - 1];
      if a.exec.Pending? then rest[a.id := a] else rest
  }

  ghost function FromSnapshot(s: Snapshot): Replica {
    Replica(PendingTable(s.actions), s.health, s.desired, s.observed, s.shutdown)
  }

  ghost function AddWarning(pending: map<TimerId, Action>, id: TimerId, t: Threshold): map<TimerId, Action> {
    if id in pending then pending[id := pending[id].(emitted := pending[id].emitted + {t})] else pending
  }

  ghost function Apply(r: Replica, e: Event): Replica {
    match e
    case TimerScheduled(a) => r.(pending := r.pending[a.id := a])
    case TimerCancelled(id, _) => r.(pending := r.pending - {id})
    case TimerExpired(id, _) => r.(pending := r.pending - {id})
    case WarningReached(id, _, t, _, _) => r.(pending := AddWarning(r.pending, id, t))
    case HealthUpdated(health) => r.(health := health)
    case InternetPolicyChanged(desired, observed, _) => r.(desired := desired, observed := observed)
    case ShutdownStateChanged(_, current) => r.(shutdown := current)
    case _ => r
  }

  ghost function Fold(snapshot: Snapshot, stream: seq<Event>): Replica {
    if stream == [] then FromSnapshot(snapshot)
    else Apply(Fold(snapshot, stream[..|stream| - 1]), stream[|stream| - 1])
  }

  lemma FoldOne(snapshot: Snapshot, stream: seq<Event>, e: Event)
    ensures Fold(snapshot, stream + [e]) == Apply(Fold(snapshot, stream), e)
  {
    assert (stream + [e])[..|stream|] == stream;
  }

  // ---- what all replicas have in common --------------------------------------------------------

  /** The knowledge every subscriber shares; None where they may differ. */
  datatype Image = Image(
    pending: map<TimerId, Action>,
    net: Option<(DesiredInternet, InternetState)>,
    shutdown: Option<ShutdownState>)

  ghost predicate Agrees(r: Replica, v: Image, health: Health) {
    && r.pending == v.pending && r.health == health
    && (v.net.Some? ==> v.net.value == (r.desired, r.observed))
    && (v.shutdown.Some? ==> v.shutdown.value == r.shutdown)
  }

  ghost function ApplyImage(v: Image, e: Event): Image {
    match e
    case TimerScheduled(a) => v.(pending := v.pending[a.id := a])
    case TimerCancelled(id, _) => v.(pending := v.pending - {id})
    case TimerExpired(id, _) => v.(pending := v.pending - {id})
    case WarningReached(id, _, t, _, _) => v.(pending := AddWarning(v.pending, id, t))
    case InternetPolicyChanged(desired, observed, _) => v.(net := Some((desired, observed)))
    case ShutdownStateChanged(_, current) => v.(shutdown := Some(current))
    case _ => v
  }

  ghost function HealthAfter(health: Health, e: Event): Health {
    if e.HealthUpdated? then e.health else health
  }

  ghost predicate AllAgree(subs: map<nat, Subscriber>, v: Image, health: Health, excluded: Option<nat>) {
    forall id <- subs :: Addressed(id, excluded) ==>
      Agrees(Fold(subs[id].snapshot, subs[id].stream), v, health)
  }

  lemma ApplyAgrees(r: Replica, v: Image, health: Health, e: Event)
    requires Agrees(r, v, health)
    ensures Agrees(Apply(r, e), ApplyImage(v, e), HealthAfter(health, e))
  {
  }

  lemma DeliverAgrees(m: Moment, subs: map<nat, Subscriber>, v: Image, health: Health, e: Event, excluded: Option<nat>)
    requires AllAgree(subs, v, health, excluded)
    ensures AllAgree(Deliver(m, subs, e, excluded), ApplyImage(v, e), HealthAfter(health, e), excluded)
  {
    hide Agrees, Fold, HasRoom;
    var after := Deliver(m, subs, e, excluded);
    forall id | id in after && Addressed(id, excluded)
      ensures Agrees(Fold(after[id].snapshot, after[id].stream), ApplyImage(v, e), HealthAfter(health, e))
    {
      FoldOne(subs[id].snapshot, subs[id].stream, e);
      ApplyAgrees(Fold(subs[id].snapshot, subs[id].stream), v, health, e);
    }
  }

  lemma {:induction false} ReconcileAgrees(env: Environment, hub: Hub, w: World, v: Image, excluded: Option<nat>)
    requires |hub.subs| <= U32_MAX
    requires AllAgree(hub.subs, v, hub.health, excluded)
    ensures var r := Reconcile(env, hub, w, excluded); AllAgree(r.hub.subs, v, r.hub.health, excluded)
    decreases |hub.subs|
  {
    hide AllAgree, Deliver, FailedSends, HasRoom;
    if hub.health.sessions != |hub.subs| {
      var counted := hub.health.(sessions := |hub.subs|);
      var m, e := env(w.instant), HealthUpdated(counted);
      DeliverKeys(m, hub.subs, e, excluded);
      DeliverAgrees(m, hub.subs, v, hub.health, e, excluded);
      var hub1 := hub.(health := counted, subs := Deliver(m, hub.subs, e, excluded));
      if FailedSends(m, hub.subs, excluded) != {} {
        ReconcileAgrees(env, hub1, w.Did(Broadcast(e)), v, excluded);
      }
    }
  }

  /** If the event brings the health up to date, everybody agrees afterwards. */
  lemma {:induction false} ReconcileCatchesUp(env: Environment, hub: Hub, w: World, v: Image, health: Health)
    requires |hub.subs| <= U32_MAX && hub.health.sessions != |hub.subs|
    requires AllAgree(hub.subs, v, health, None)
    ensures var r := Reconcile(env, hub, w, None); AllAgree(r.hub.subs, v, r.hub.health, None)
  {
    hide AllAgree, Deliver, FailedSends, HasRoom;
    var counted := hub.health.(sessions := |hub.subs|);
    var m, e := env(w.instant), HealthUpdated(counted);
    DeliverKeys(m, hub.subs, e, None);
    DeliverAgrees(m, hub.subs, v, health, e, None);
    var hub1 := hub.(health := counted, subs := Deliver(m, hub.subs, e, None));
    if FailedSends(m, hub.subs, None) != {} {
      ReconcileAgrees(env, hub1, w.Did(Broadcast(e)), v, None);
    }
  }

  lemma EmitAgrees(env: Environment, hub: Hub, w: World, v: Image, health: Health, e: Event)
    requires RegistryOk(hub) && AllAgree(hub.subs, v, health, None)
    requires HealthAfter(health, e) == hub.health
    ensures var r := Emit(env, hub, w, e); AllAgree(r.hub.subs, ApplyImage(v, e), r.hub.health, None)
  {
    hide AllAgree, Deliver, FailedSends, HasRoom;
    var m := env(w.instant);
    DeliverKeys(m, hub.subs, e, None);
    DeliverAgrees(m, hub.subs, v, health, e, None);
    var hub1 := hub.(subs := Deliver(m, hub.subs, e, None));
    if FailedSends(m, hub.subs, None) != {} {
      ReconcileCatchesUp(env, hub1, w.Did(Broadcast(e)), ApplyImage(v, e), hub.health);
    }
  }

  // ---- the coordinator's side ------------------------------------------------------------------

  /** A refusal of the power controller, and only broadcasts since. */
  ghost predicate JustRefused(t: Trace) {
    match t
    case Then(_, PowerCall(_, Failure(_))) => true
    case Then(past, Broadcast(_)) => JustRefused(past)
    case _ => false
  }

  /** Since the shutdown state was announced last, the failure of a refused shutdown could not be saved. */
  ghost predicate Lapsed(t: Trace) {
    match t
    case Start(_) => false
    case Then(_, Booted) => false
    case Then(_, Broadcast(ShutdownStateChanged(_, _))) => false
    case Then(past, SaveFailed(_)) => JustRefused(past) || Lapsed(past)
    case Then(past, _) => Lapsed(past)
  }

  /** Every registered subscriber has received all broadcasts since its registration, and folding
      them gives the image `v` and the current health; the shutdown state is known to all of them
      unless an announcement has lapsed. */
  ghost predicate Shown(c: Coord, v: Image) {
    && RegistryOk(c.hub) && GapFree(c.hub.subs, c.world.trace, None)
    && AllAgree(c.hub.subs, v, c.hub.health, None)
    && (v.shutdown.None? ==> Lapsed(c.world.trace))
  }

  lemma {:induction false} QuietKeepsRefusal(t: Trace, u: Trace)
    requires Quiet(t, u) && JustRefused(t)
    ensures JustRefused(u)
  {
    if u != t { QuietKeepsRefusal(t, u.past); }
  }

  lemma {:induction false} ReconcileKeepsLapse(env: Environment, hub: Hub, w: World, excluded: Option<nat>)
    ensures Lapsed(w.trace) ==> Lapsed(Reconcile(env, hub, w, excluded).world.trace)
    decreases |hub.subs|
  {
    if |hub.subs| <= U32_MAX && hub.health.sessions != |hub.subs| {
      var e := HealthUpdated(hub.health.(sessions := |hub.subs|));
      var m := env(w.instant);
      DeliverKeys(m, hub.subs, e, excluded);
      if FailedSends(m, hub.subs, excluded) != {} {
        ReconcileKeepsLapse(env, hub.(health := e.health, subs := Deliver(m, hub.subs, e, excluded)), w.Did(Broadcast(e)), excluded);
      }
    }
  }

  /** An announcement ends the lapse if it is one of the shutdown state. */
  lemma EmitKeepsLapse(env: Environment, hub: Hub, w: World, e: Event)
    ensures !e.ShutdownStateChanged? && Lapsed(w.trace) ==> Lapsed(Emit(env, hub, w, e).world.trace)
  {
    hide Deliver, FailedSends, Reconcile;
    ReconcileKeepsLapse(env, hub.(subs := Deliver(env(w.instant), hub.subs, e, None)), w.Did(Broadcast(e)), None);
  }

  /** The image tells the truth about the coordinator. */
  ghost predicate Faithful(v: Image, c: Coord) {
    && v.pending == PendingTable(c.mem.actions)
    && (!c.world.stopSeen ==> v.net == Some((c.mem.desired, c.observed)))
    && (v.shutdown.Some? ==> v.shutdown.value == c.shutdown)
  }

  /** A step that touches neither the registry nor the broadcasts. */
  ghost predicate Silent(c: Coord, d: Coord) {
    && d.hub.subs == c.hub.subs && d.hub.health == c.hub.health && d.hub.nextSub == c.hub.nextSub
    && Broadcasts(d.world.trace) == Broadcasts(c.world.trace)
    && (Lapsed(c.world.trace) ==> Lapsed(d.world.trace))
  }

  lemma SilentShown(c: Coord, d: Coord, v: Image)
    requires Silent(c, d) && Shown(c, v)
    ensures Shown(d, v)
  {
  }

  lemma TellShown(env: Environment, c: Coord, v: Image, e: Event)
    requires Shown(c, v) && !e.HealthUpdated?
    ensures Shown(Tell(env, c, e), ApplyImage(v, e))
  {
    hide Emit, Lapsed;
    EmitKeepsRegistry(env, c.hub, c.world, e);
    EmitAgrees(env, c.hub, c.world, v, c.hub.health, e);
    EmitKeepsLapse(env, c.hub, c.world, e);
  }

  lemma WithHubShown(env: Environment, c: Coord, v: Image, mutated: Hub)
    requires Shown(c, v)
    requires mutated.subs == c.hub.subs && mutated.nextSub == c.hub.nextSub
    requires mutated.health.sessions == c.hub.health.sessions
    ensures Shown(WithHub(env, c, mutated), v)
  {
    hide Emit, FailedSends, GapFree, AllAgree, Lapsed;
    var after := Recompute(mutated);
    if after.health != c.hub.health {
      var e := HealthUpdated(after.health);
      EmitKeepsRegistry(env, after, c.world, e);
      EmitAgrees(env, after, c.world, v, c.hub.health, e);
      EmitKeepsLapse(env, after, c.world, e);
    }
  }

  lemma MarksShown(env: Environment, c: Coord, v: Image, ok: bool, error: Option<string>)
    requires Shown(c, v)
    ensures Shown(MarkPersistence(env, c, ok), v)
    ensures Shown(MarkGate(env, c, error), v)
    ensures Shown(MarkPower(env, c, error), v)
    ensures Shown(MarkRetryPolicy(env, c, error), v)
  {
    hide Shown, WithHub;
    WithHubShown(env, c, v, PersistenceMark(c.hub, ok));
    WithHubShown(env, c, v, GateMark(c.hub, error));
    WithHubShown(env, c, v, c.hub.(powerError := error));
    WithHubShown(env, c, v, c.hub.(retryPolicyError := error));
  }

  lemma SavingShown(env: Environment, c: Coord, v: Image, after: PersistentState)
    requires Shown(c, v)
    ensures Shown(Commit(env, c, after), v) && Shown(CommitPost(env, c, after), v)
  {
    hide Shown, MarkPersistence;
    var ok := SaveOk(env, c);
    var b1, b2 := AfterSave(c, after, ok, false), AfterSave(c, after, ok, true);
    SilentShown(c, b1, v);
    SilentShown(c, b2, v);
    MarksShown(env, b1, v, ok, None);
    MarksShown(env, b2, v, ok, None);
  }

  lemma ScheduleRetryShown(env: Environment, c: Coord, v: Image)
    requires Shown(c, v)
    ensures Shown(ScheduleRetry(env, c), v)
  {
    hide Shown, MarkRetryPolicy;
    var c1 := Looked(c);
    SilentShown(c, c1, v);
    MarksShown(env, c1, v, true, Some(ZERO_DELAY));
    MarksShown(env, c1, v, true, None);
    var c2 := MarkRetryPolicy(env, c1, None);
    SilentShown(c2, ScheduleRetry(env, c).(world := Looked(c2).world, hub := c2.hub), v);
    var z := MarkRetryPolicy(env, c1, Some(ZERO_DELAY));
    SilentShown(z, z.(retryAt := None), v);
  }

  lemma RecordGateFailureShown(env: Environment, c: Coord, v: Image, edited: PersistentState)
    requires Shown(c, v)
    ensures Shown(RecordGateFailure(env, c, edited), v)
  {
    hide Shown, ScheduleRetry, CommitPost;
    SavingShown(env, c, v, edited);
    ScheduleRetryShown(env, CommitPost(env, c, edited), v);
  }

  lemma TellShutdownShown(env: Environment, c: Coord, v: Image, previous: ShutdownState, current: ShutdownState)
    requires Shown(c, v) && (v.shutdown.Some? ==> v.shutdown.value == previous)
    ensures var u := if previous == current then v else v.(shutdown := Some(current));
      Shown(TellShutdown(env, c, previous, current), u) && (u.shutdown.Some? ==> u.shutdown.value == current)
  {
    hide Shown, Tell;
    if previous != current { TellShown(env, c, v, ShutdownStateChanged(previous, current)); }
  }

  lemma TellPolicyShown(env: Environment, c: Coord, v: Image, desired: DesiredInternet, observed: InternetState, reason: ChangeReason)
    requires Shown(c, v) && v.net == Some((desired, observed))
    ensures Shown(TellPolicy(env, c, desired, observed, reason), v.(net := Some((c.mem.desired, c.observed))))
  {
    hide Shown, Tell;
    TellShown(env, c, v, InternetPolicyChanged(c.mem.desired, c.observed, reason));
  }

  // ---- tables of pending actions ---------------------------------------------------------------

  lemma {:induction false} TableFacts(actions: seq<Action>)
    requires UniqueActions(actions)
    ensures forall a <- actions :: a.exec.Pending? ==> a.id in PendingTable(actions) && PendingTable(actions)[a.id] == a
    ensures forall id <- PendingTable(actions) ::
      PendingTable(actions)[id] in actions && PendingTable(actions)[id].id == id && PendingTable(actions)[id].exec.Pending?
    decreases |actions|
  {
    if actions != [] {
      var front, a := actions[..|actions| - 1], actions[|actions| - 1];
      assert actions == front + [a];
      TableFacts(front);
      forall x | x in front ensures x.id != a.id {
        var i :| 0 <= i < |front| && front[i] == x;
        assert actions[i].id != actions[|front|].id;
      }
    }
  }

  /** The pending actions of `after` are those of `before` without `gone`. */
  ghost predicate LosesPending(before: seq<Action>, after: seq<Action>, gone: set<TimerId>) {
    forall a: Action :: a.exec.Pending? ==> (a in after <==> a in before && a.id !in gone)
  }

  lemma TableLoses(before: seq<Action>, after: seq<Action>, gone: set<TimerId>)
    requires UniqueActions(before) && UniqueActions(after) && LosesPending(before, after, gone)
    ensures PendingTable(after) == PendingTable(before) - gone
  {
    TableFacts(before);
    TableFacts(after);
    var p, q := PendingTable(before), PendingTable(after);
    forall id | id in q ensures id in p && id !in gone && q[id] == p[id] {
      assert q[id] in before;
    }
    forall id | id in p && id !in gone ensures id in q {
      assert p[id] in after;
    }
  }

  lemma RemoveLoses(actions: seq<Action>, id: TimerId)
    requires UniqueActions(actions)
    ensures PendingTable(RemoveAction(actions, id)) == PendingTable(actions) - {id}
  {
    RemoveDescends(actions, id);
    DescendsFacts(actions, RemoveAction(actions, id));
    TableLoses(actions, RemoveAction(actions, id), {id});
  }

  lemma StartLoses(actions: seq<Action>, k: nat)
    requires UniqueActions(actions) && k < |actions|
    ensures UniqueActions(SetExec(actions, k, Executing))
    ensures PendingTable(SetExec(actions, k, Executing)) == PendingTable(actions) - {actions[k].id}
  {
    SetExecLoses(actions, k, Executing, {actions[k].id});
  }

  lemma SetExecLoses(actions: seq<Action>, k: nat, exec: ExecutionState, gone: set<TimerId>)
    requires UniqueActions(actions) && k < |actions| && !exec.Pending?
    requires gone == {actions[k].id} || (gone == {} && !actions[k].exec.Pending?)
    ensures UniqueActions(SetExec(actions, k, exec))
    ensures PendingTable(SetExec(actions, k, exec)) == PendingTable(actions) - gone
  {
    var after := SetExec(actions, k, exec);
    forall a: Action | a.exec.Pending? ensures a in after <==> a in actions && a.id !in gone {
      if a in after {
        var i :| 0 <= i < |after| && after[i] == a;
        assert actions[i] == a;
      }
      if a in actions && a.id !in gone {
        var i :| 0 <= i < |actions| && actions[i] == a;
        assert after[i] == a;
      }
    }
    TableLoses(actions, after, gone);
  }

  /** Resolving actions that are not pending changes no table. */
  lemma ResolvedTable(s: PersistentState, id: TimerId, reason: string)
    requires UniqueActions(s.actions) && NonePending(s.actions, id)
    ensures PendingTable(CompleteEdit(s, id).actions) == PendingTable(s.actions)
    ensures PendingTable(FailEdit(s, id, reason).actions) == PendingTable(s.actions)
  {
    hide PendingTable, RemoveAction, UniqueActions;
    var k := FindAction(s.actions, id);
    TableFacts(s.actions);
    if k < |s.actions| && s.actions[k].exec.Executing? {
      RemoveLoses(s.actions, id);
      assert PendingTable(s.actions) - {id} == PendingTable(s.actions);
      SetExecLoses(s.actions, k, Failed(reason), {});
      assert PendingTable(s.actions) - {} == PendingTable(s.actions);
    }
  }

  lemma ResolveBlocksTable(actions: seq<Action>)
    requires UniqueActions(actions)
    ensures PendingTable(ResolveBlocks(actions)) == PendingTable(actions)
  {
    ResolveDescends(actions);
    DescendsFacts(actions, ResolveBlocks(actions));
    TableLoses(actions, ResolveBlocks(actions), {});
    assert PendingTable(actions) - {} == PendingTable(actions);
  }

  ghost function AddWarnings(pending: map<TimerId, Action>, id: TimerId, ts: seq<Threshold>): map<TimerId, Action> {
    if ts == [] then pending else AddWarning(AddWarnings(pending, id, ts[..|ts| - 1]), id, ts[|ts| - 1])
  }

  lemma {:induction false} AddWarningsFacts(pending: map<TimerId, Action>, id: TimerId, ts: seq<Threshold>)
    ensures id !in pending ==> AddWarnings(pending, id, ts) == pending
    ensures id in pending ==>
      AddWarnings(pending, id, ts) == pending[id := pending[id].(emitted := pending[id].emitted + (set t <- ts))]
    decreases |ts|
  {
    if ts == [] {
      if id in pending { assert pending[id].emitted + (set t <- ts) == pending[id].emitted; }
    } else {
      AddWarningsFacts(pending, id, ts[..|ts| - 1]);
      if id in pending { EmittedOneMore(pending[id].emitted, ts[..|ts| - 1], ts[|ts| - 1], ts); }
    }
  }

  lemma EmittedOneMore(emitted: set<Threshold>, front: seq<Threshold>, t: Threshold, ts: seq<Threshold>)
    requires |ts| == |front| + 1 && front == ts[..|front|] && t == ts[|front|]
    ensures emitted + (set x <- front) + {t} == emitted + (set x <- ts)
  {
    assert ts == front + [t];
  }

  lemma WarnTable(s: PersistentState, k: nat, crossed: seq<Threshold>, first: EntryId)
    requires UniqueActions(s.actions) && k < |s.actions|
    ensures PendingTable(WarnEdit(s, k, crossed, first).actions) == AddWarnings(PendingTable(s.actions), s.actions[k].id, crossed)
  {
    hide Notices;
    var before, after := s.actions, WarnEdit(s, k, crossed, first).actions;
    var a := before[k];
    TableFacts(before);
    AddWarningsFacts(PendingTable(before), a.id, crossed);
    UpdatedTable(before, k, after[k]);
    assert a.id in PendingTable(before) ==> PendingTable(before)[a.id] == a by {
      if a.id in PendingTable(before) { SameAction(before, PendingTable(before)[a.id], a); }
    }
  }

  /** A new version of one action with the same state replaces it in the table, if it is there. */
  lemma UpdatedTable(before: seq<Action>, k: nat, b: Action)
    requires UniqueActions(before) && k < |before| && b.id == before[k].id && b.exec == before[k].exec
    ensures PendingTable(before[k := b]) ==
      if b.exec.Pending? then PendingTable(before)[b.id := b] else PendingTable(before)
  {
    hide PendingTable;
    var after := before[k := b];
    TableFacts(before);
    TableFacts(after);
    var p, q := PendingTable(before), PendingTable(after);
    assert after[k] == b;
    forall id | id in p && id != b.id ensures id in q && q[id] == p[id] {
      var i :| 0 <= i < |before| && before[i] == p[id];
      assert after[i] in after;
    }
    forall id | id in q && id != b.id ensures id in p {
      var i :| 0 <= i < |after| && after[i] == q[id];
      assert before[i] in before;
    }
    if b.id in p { SameAction(before, p[b.id], before[k]); }
    if b.id in q { SameAction(after, q[b.id], b); }
  }
}
