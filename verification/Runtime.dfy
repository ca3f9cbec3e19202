/** Specification of the single-writer coordinator (crates/service/src/runtime.rs): every
    operation as a function from the state before and the answers of the environment to the
    state after and the reply. The class in Coordinator.dfy is proved equal to it. */
module Runtime {
  import opened Domain
  import opened World
  import opened Subscribers
  import opened Texts

  const NANOS_PER_SECOND: nat := 1_000_000_000
  const NANOS_PER_MILLI: nat := 1_000_000
  const MAX_CHAT_BYTES: nat := 4096

  /** Monotonic anchor of a timer. `cursor` is the last evaluated number of remaining seconds. */
  datatype Anchor = Anchor(
    kind: ActionKind,
    deadline: int,
    target: nat,
    original: nat,
    start: nat,
    cursor: nat)

  /** State of a running coordinator. `bootId` is the first identifier drawn after the boot. */
  datatype Coord = Coord(
    mem: PersistentState,
    pending: Option<PersistentState>,
    observed: InternetState,
    shutdown: ShutdownState,
    timers: map<TimerId, Anchor>,
    retryAt: Option<nat>,
    stopping: bool,
    hub: Hub,
    world: World,
    bootId: nat)

  datatype Reply =
    | ScheduledAs(id: TimerId)
    | Cancelled
    | AlreadyAbsent
    | KindMismatch
    | CancellationForbidden
    | Done
    | Acked(found: bool)
    | MessageAccepted(id: nat)
    | Subscribed(sub: nat, snapshot: Snapshot)
    | Unsubscribed(existed: bool)
    | Status(snapshot: Snapshot)
    | Stopped
    | PersistenceError
    | PlatformError(reason: string)
    | StoppingError
    | InvalidInput
    | SubscriptionIdExhausted
    | CapacityExhausted

  datatype Result = Result(coord: Coord, reply: Reply)

  /** What no step between two looks at the flag changes; identifiers are only ever drawn; and nobody
      is registered. */
  ghost predicate SameFlags(c: Coord, d: Coord) {
    && c.world.nextId <= d.world.nextId && c.world.instant <= d.world.instant
    && d.world.stopSeen == c.world.stopSeen && d.world.poweredDown == c.world.poweredDown
    && d.hub.nextSub == c.hub.nextSub
  }

  // ---- texts ------------------------------------------------------------------------------

  const SAVE_ERROR := "State store error"
  const ZERO_DELAY := "InternetRetryPolicy returned invalid zero delay"
  const MISMATCH := "Observed Internet state does not match desired state"
  const MISSED_TEXT := "Scheduled shutdown was missed while service was offline"
  const WARNING_TEXT := "Warning: scheduled action is approaching"

  function Notice(id: EntryId, text: string): OutboxEntry {
    OutboxEntry(id, Notification(text), 0, None)
  }

  /** `n` notices with the same text and successive fresh identifiers. */
  function Notices(first: EntryId, n: nat, text: string): (r: seq<OutboxEntry>)
    ensures |r| == n
    ensures forall i :: 0 <= i < n ==> r[i] == Notice(first + i, text)
  {
    if n == 0 then [] else Notices(first, n - 1, text) + [Notice(first + n - 1, text)]
  }

  // ---- events and health ------------------------------------------------------------------

  /** What an announcement may change: the history of broadcasts and the registry. */
  ghost predicate OnlyTold(c: Coord, d: Coord) {
    && d == c.(hub := d.hub, world := d.world)
    && d.world == c.world.(trace := d.world.trace, instant := d.world.instant) && c.world.instant <= d.world.instant
    && d.hub == c.hub.(health := c.hub.health.(sessions := d.hub.health.sessions), subs := d.hub.subs)
    && (c.hub.subs == map[] ==> d.hub == c.hub)
  }

  /** `emit_event`, with its error ignored as every caller does. */
  function Tell(env: Environment, c: Coord, e: Event): (d: Coord)
    ensures OnlyTold(c, d)
  {
    var r := Emit(env, c.hub, c.world, e);
    c.(hub := r.hub, world := r.world)
  }

  /** `mutate_health_and_maybe_emit`. */
  function WithHub(env: Environment, c: Coord, mutated: Hub): (d: Coord)
    ensures OnlyTold(c.(hub := Recompute(mutated)), d)
  {
    var r := Announce(env, c.hub.health, mutated, c.world);
    c.(hub := r.hub, world := r.world)
  }

  function MarkPersistence(env: Environment, c: Coord, ok: bool): (d: Coord)
    ensures OnlyTold(c.(hub := Recompute(PersistenceMark(c.hub, ok))), d)
  {
    WithHub(env, c, PersistenceMark(c.hub, ok))
  }

  function PersistenceMark(hub: Hub, ok: bool): Hub {
    hub.(health := hub.health.(persistenceHealthy := ok),
         persistenceError := if ok then None else Some(SAVE_ERROR))
  }

  function MarkGate(env: Environment, c: Coord, error: Option<string>): (d: Coord)
    ensures OnlyTold(c.(hub := Recompute(GateMark(c.hub, error))), d)
  {
    WithHub(env, c, GateMark(c.hub, error))
  }

  function GateMark(hub: Hub, error: Option<string>): Hub {
    hub.(health := hub.health.(gateHealthy := error.None?), gateError := error)
  }

  function MarkPower(env: Environment, c: Coord, error: Option<string>): (d: Coord)
    ensures OnlyTold(c.(hub := Recompute(c.hub.(powerError := error))), d)
  {
    WithHub(env, c, c.hub.(powerError := error))
  }

  function MarkRetryPolicy(env: Environment, c: Coord, error: Option<string>): (d: Coord)
    ensures OnlyTold(c.(hub := Recompute(c.hub.(retryPolicyError := error))), d)
  {
    WithHub(env, c, c.hub.(retryPolicyError := error))
  }

  function TellShutdown(env: Environment, c: Coord, previous: ShutdownState, current: ShutdownState): (d: Coord)
    ensures OnlyTold(c, d)
  {
    if previous != current then Tell(env, c, ShutdownStateChanged(previous, current)) else c
  }

  function SyncShutdown(env: Environment, c: Coord): (d: Coord)
    ensures OnlyTold(c.(shutdown := DeriveShutdown(c.shutdown, c.mem.actions)), d)
  {
    var current := DeriveShutdown(c.shutdown, c.mem.actions);
    TellShutdown(env, c.(shutdown := current), c.shutdown, current)
  }

  function TellPolicy(env: Environment, c: Coord, desired: DesiredInternet, observed: InternetState, reason: ChangeReason): (d: Coord)
    ensures OnlyTold(c, d)
  {
    if (desired, observed) != (c.mem.desired, c.observed)
    then Tell(env, c, InternetPolicyChanged(c.mem.desired, c.observed, reason))
    else c
  }

  // ---- saving -----------------------------------------------------------------------------

  /** Does the save made next succeed? */
  predicate SaveOk(env: Environment, c: Coord) {
    env(c.world.instant).saveOk
  }

  /** The state right after a save, before its outcome is announced. */
  function AfterSave(c: Coord, candidate: PersistentState, ok: bool, keep: bool): Coord {
    if ok then c.(mem := candidate, pending := None, world := c.world.Did(Saved(candidate)))
    else if keep then c.(mem := candidate, pending := Some(candidate), world := c.world.Did(SaveFailed(candidate)))
    else c.(world := c.world.Did(SaveFailed(candidate)))
  }

  /** `commit_authoritative_state`: memory changes only when the candidate is on disk. */
  function Commit(env: Environment, c: Coord, candidate: PersistentState): (d: Coord)
    ensures OnlyTold(AfterSave(c, candidate, SaveOk(env, c), false).(hub := Recompute(PersistenceMark(c.hub, SaveOk(env, c)))), d)
  {
    MarkPersistence(env, AfterSave(c, candidate, SaveOk(env, c), false), SaveOk(env, c))
  }

  /** `commit_post_side_effect_candidate`: memory changes in any case; what could not be saved
      is kept as the pending candidate. */
  function CommitPost(env: Environment, c: Coord, candidate: PersistentState): (d: Coord)
    ensures OnlyTold(AfterSave(c, candidate, SaveOk(env, c), true).(hub := Recompute(PersistenceMark(c.hub, SaveOk(env, c)))), d)
  {
    MarkPersistence(env, AfterSave(c, candidate, SaveOk(env, c), true), SaveOk(env, c))
  }

  /** `flush_pending_durable_candidate`. */
  function Flush(env: Environment, c: Coord): Coord {
    match c.pending
    case None => c
    case Some(p) => MarkPersistence(env, AfterSave(c, p, SaveOk(env, c), false), SaveOk(env, c))
  }

  // ---- clocks and flags -------------------------------------------------------------------

  function Mono(env: Environment, c: Coord): nat { env(c.world.instant).mono }

  function Utc(env: Environment, c: Coord): int { env(c.world.instant).utc }

  function Looked(c: Coord): Coord { c.(world := c.world.Read()) }

  /** `is_stop_requested`: the flag is never cleared. */
  function LookForStop(env: Environment, c: Coord): Coord {
    c.(world := c.world.Read().(stopSeen := c.world.stopSeen || env(c.world.instant).stopRequested))
  }

  // ---- the Internet gate ------------------------------------------------------------------

  function Matches(desired: DesiredInternet, state: InternetState): bool {
    match desired
    case Blocked => state.ObservedBlocked?
    case Unrestricted => state.ObservedUnrestricted?
  }

  /** None when the gate applied `target` and confirms it, else the reason. */
  function GateError(target: DesiredInternet, a: GateAnswer): Option<string> {
    match (a.applied, a.reading)
    case (Success, Seen(state)) => if Matches(target, state) then None else Some(MISMATCH)
    case (Failure(reason), _) => Some(reason)
    case (_, Unreadable(reason)) => Some(reason)
  }

  /** The gate call itself and the observation it leaves. */
  function ApplyGate(env: Environment, c: Coord, target: DesiredInternet): Coord {
    var reading := env(c.world.instant).gate.reading;
    c.(world := c.world.Did(GateCall(target)),
       observed := if reading.Seen? then reading.state else Unknown)
  }

  /** How often the gate has refused in a row. */
  function Attempts(retry: Option<InternetRetry>): nat {
    if retry.Some? then retry.value.attempts else 0
  }

  function NextAttempt(retry: Option<InternetRetry>): nat {
    if retry.Some? then retry.value.attempts + 1 else 1
  }

  /** `schedule_next_internet_retry`; the policy is asked for the attempt on record. */
  function ScheduleRetry(env: Environment, c: Coord): (d: Coord)
    ensures d == c.(hub := d.hub, world := d.world, retryAt := d.retryAt)
    ensures d.world == c.world.(trace := d.world.trace, instant := d.world.instant) && c.world.instant <= d.world.instant
    ensures d.hub.health.gateHealthy == c.hub.health.gateHealthy
    ensures d.hub.health.persistenceHealthy == c.hub.health.persistenceHealthy
    ensures d.retryAt.Some? || d.hub.retryPolicyError.Some?
    ensures d.hub.nextSub == c.hub.nextSub
    ensures c.hub.subs == map[] ==> d.hub.subs == map[] && d.hub.health.sessions == c.hub.health.sessions
  {
    var delay := env(c.world.instant).delay(Attempts(c.mem.retry));
    var c1 := Looked(c);
    if delay == 0 then MarkRetryPolicy(env, c1, Some(ZERO_DELAY)).(retryAt := None)
    else
      var c2 := MarkRetryPolicy(env, c1, None);
      Looked(c2).(retryAt := Some(Mono(env, c2) + delay))
  }

  /** Snapshot after a failed reconciliation of the gate. */
  function RetryEdit(s: PersistentState, reason: string, id: EntryId): PersistentState {
    s.(retry := Some(InternetRetry(NextAttempt(s.retry), Some(reason))),
       outbox := s.outbox + [Notice(id, reason)])
  }

  /** Bookkeeping after the gate refused: `edited` is the snapshot to record. */
  function RecordGateFailure(env: Environment, c: Coord, edited: PersistentState): (d: Coord)
    ensures d == c.(mem := edited, pending := d.pending, hub := d.hub, world := d.world, retryAt := d.retryAt)
    ensures d.hub.health.gateHealthy == c.hub.health.gateHealthy
    ensures SameFlags(c, d) && d.world.nextId == c.world.nextId
    ensures d.retryAt.Some? || d.hub.retryPolicyError.Some?
  {
    ScheduleRetry(env, CommitPost(env, c, edited))
  }

  // ---- commands ---------------------------------------------------------------------------

  function NewAction(id: TimerId, kind: ActionKind, duration: nat, who: Initiator, utc: int): Action {
    Action(id, kind, utc + duration * 1000, utc, who, InitialThresholds(duration), Pending)
  }

  /** Every threshold that is passed or due when the timer is created. */
  function InitialThresholds(duration: nat): set<Threshold> {
    set t <- ALL_THRESHOLDS | duration <= t.Seconds()
  }

  function ScheduleEdit(s: PersistentState, a: Action, notices: seq<OutboxEntry>): PersistentState {
    s.(actions := s.actions + [a], outbox := s.outbox + notices)
  }

  function TellWarnings(env: Environment, c: Coord, a: Action, due: seq<Threshold>, utc: int): (d: Coord)
    ensures OnlyTold(c, d)
    decreases |due|
  {
    if due == [] then c
    else
      var before := TellWarnings(env, c, a, due[..|due| - 1], utc);
      Tell(env, before, WarningReached(a.id, a.kind, due[|due| - 1], a.deadline, utc))
  }

  function Schedule(env: Environment, c: Coord, kind: ActionKind, duration: nat, who: Initiator): Result {
    var utc, c1 := Utc(env, c), Looked(c);
    var mono, c2 := Mono(env, c1), Looked(c1);
    var id := c2.world.nextId;
    var due := CreationDue(duration);
    var a := NewAction(id, kind, duration, who, utc);
    var notices := Notices(id + 1, |due|, WARNING_TEXT);
    var c3 := c2.(world := c2.world.Draw(1 + |due|));
    var c4 := Commit(env, c3, ScheduleEdit(c.mem, a, notices));
    if !SaveOk(env, c3) then Result(c4, PersistenceError)
    else
      var anchor := Anchor(kind, a.deadline, mono + duration * NANOS_PER_SECOND, duration, mono, duration);
      Result(Arm(env, c4, a, anchor, due), ScheduledAs(id))
  }

  /** After the save: the timer starts, and everybody is told. */
  function Arm(env: Environment, c: Coord, a: Action, anchor: Anchor, due: seq<Threshold>): Coord {
    var c1 := Tell(env, c.(timers := c.timers[a.id := anchor]), TimerScheduled(a));
    var c2 := TellWarnings(env, c1, a, due, a.createdAt);
    if a.kind.ShutdownComputer? then SyncShutdown(env, c2) else c2
  }

  /** Why a shutdown may not be cancelled any more: its anchor is gone, of another kind, or due. */
  predicate CancelBlocked(env: Environment, c: Coord, id: TimerId, kind: ActionKind) {
    kind.ShutdownComputer? && (id !in c.timers || c.timers[id].kind != kind || Mono(env, c) >= c.timers[id].target)
  }

  /** The clock is read only to compare it with the anchor of a shutdown. */
  function Consulted(c: Coord, id: TimerId, kind: ActionKind): Coord {
    if kind.ShutdownComputer? && id in c.timers && c.timers[id].kind == kind then Looked(c) else c
  }

  function Cancel(env: Environment, c: Coord, id: TimerId, kind: ActionKind): Result {
    var k := FindAction(c.mem.actions, id);
    if k == |c.mem.actions| then Result(c, AlreadyAbsent)
    else if c.mem.actions[k].kind != kind then Result(c, KindMismatch)
    else if !c.mem.actions[k].exec.Pending? then Result(c, CancellationForbidden)
    else if CancelBlocked(env, c, id, kind) then Result(Consulted(c, id, kind), CancellationForbidden)
    else RemoveTimer(env, Consulted(c, id, kind), id, kind)
  }

  function RemoveTimer(env: Environment, c: Coord, id: TimerId, kind: ActionKind): Result {
    var rest := RemoveAction(c.mem.actions, id);
    if |rest| + 1 != |c.mem.actions| then Result(c, CancellationForbidden)
    else
      var c1 := Commit(env, c, c.mem.(actions := rest));
      if SaveOk(env, c) then Result(Disarm(env, c1, id, kind), Cancelled) else Result(c1, PersistenceError)
  }

  function Disarm(env: Environment, c: Coord, id: TimerId, kind: ActionKind): Coord {
    var c1 := Tell(env, c.(timers := c.timers - {id}), TimerCancelled(id, kind));
    if kind.ShutdownComputer? then SyncShutdown(env, c1) else c1
  }

  /** `handle_immediate_block` and `handle_restore_internet`. */
  function SetPolicy(env: Environment, c: Coord, target: DesiredInternet, reason: ChangeReason): Result {
    var c1 := Commit(env, c, c.mem.(desired := target));
    if !SaveOk(env, c) then Result(c1, PersistenceError)
    else
      var c2 := LookForStop(env, c1);
      if c2.world.stopSeen then Result(c2, StoppingError)
      else
        var answer := env(c2.world.instant).gate;
        var c3 := ApplyGate(env, c2, target);
        var c4 := TellPolicy(env, c3, c.mem.desired, c.observed, reason);
        PolicyOutcome(env, c4, GateError(target, answer))
  }

  function PolicyOutcome(env: Environment, c: Coord, error: Option<string>): (r: Result)
    ensures r.coord == c.(mem := c.mem.(retry := r.coord.mem.retry, outbox := r.coord.mem.outbox),
      pending := r.coord.pending, hub := r.coord.hub, world := r.coord.world, retryAt := r.coord.retryAt)
    ensures SameFlags(c, r.coord)
  {
    var c1 := MarkGate(env, c, error);
    match error
    case None =>
      if c1.mem.retry.None? then Result(c1, Done)
      else
        var c2 := CommitPost(env, c1, c1.mem.(retry := None));
        Result(c2, if SaveOk(env, c1) then Done else PersistenceError)
    case Some(reason) =>
      var edited := RetryEdit(c1.mem, reason, c1.world.nextId);
      var c2 := c1.(world := c1.world.Draw(1));
      Result(RecordGateFailure(env, c2, edited), if SaveOk(env, c2) then PlatformError(reason) else PersistenceError)
  }

  /** Position of the first outbox entry with this identifier, or the length. */
  function FindEntry(outbox: seq<OutboxEntry>, id: EntryId): (k: nat)
    ensures k <= |outbox|
    ensures k < |outbox| ==> outbox[k].id == id
    ensures forall j :: 0 <= j < k ==> outbox[j].id != id
  {
    if outbox == [] then 0
    else if outbox[0].id == id then 0
    else
      var k := FindEntry(outbox[1..], id);
      assert forall j :: 0 < j < k + 1 ==> outbox[j] == outbox[1..][j - 1];
      k + 1
  }

  function Ack(env: Environment, c: Coord, id: EntryId): Result {
    var c1 := c.(world := c.world.Did(AckReceived(id)));
    var k := FindEntry(c.mem.outbox, id);
    if k == |c.mem.outbox| then Result(c1, Acked(false))
    else
      var c2 := Commit(env, c1, c.mem.(outbox := c.mem.outbox[..k] + c.mem.outbox[k + 1..]));
      Result(c2, if SaveOk(env, c1) then Acked(true) else PersistenceError)
  }

  /** Length of the UTF-8 encoding. */
  function Utf8Length(text: string): nat {
    if text == "" then 0
    else Utf8Length(text[..|text| - 1]) + CharWidth(text[|text| - 1])
  }

  function CharWidth(ch: char): nat {
    var n := ch as int;
    if n < 0x80 then 1 else if n < 0x800 then 2 else if n < 0x1_0000 then 3 else 4
  }

  predicate ValidChat(text: string) {
    1 <= Utf8Length(text) <= MAX_CHAT_BYTES && exists ch <- text :: !IsWhitespace(ch)
  }

  function ChildMessage(env: Environment, c: Coord, text: string): Result {
    if !ValidChat(text) then Result(c, InvalidInput)
    else
      var id, c1 := c.world.nextId, c.(world := c.world.Draw(1));
      var utc, c2 := Utc(env, c1), Looked(c1);
      var entry := OutboxEntry(id, Chat(ChatMessage(id, Child, text, utc, AcceptedByService)), 0, None);
      var c3 := Commit(env, c2, c.mem.(outbox := c.mem.outbox + [entry]));
      Result(c3, if SaveOk(env, c2) then MessageAccepted(id) else PersistenceError)
  }

  function ParentMessage(env: Environment, c: Coord, message: ChatMessage): Result {
    if !message.sender.Parent? then Result(c, InvalidInput)
    else Result(Tell(env, c, ChatReceived(message)), Done)
  }

  // ---- subscriptions ----------------------------------------------------------------------

  function StatusOf(c: Coord): Snapshot {
    Snapshot(c.mem.desired, c.observed, c.shutdown, c.mem.actions, c.hub.health)
  }

  function Reconciled(env: Environment, c: Coord, excluded: Option<nat>): Coord {
    var r := Reconcile(env, c.hub, c.world, excluded);
    c.(hub := r.hub, world := r.world)
  }

  function Drop(env: Environment, c: Coord, id: nat): Coord {
    Reconciled(env, c.(hub := c.hub.(subs := c.hub.subs - {id})), None)
  }

  function BroadcastCount(c: Coord): nat { |Broadcasts(c.world.trace)| }

  /** `handle_subscribe_events`. The receiver starts with the snapshot taken last. */
  function Subscribe(env: Environment, c: Coord): Result {
    if c.hub.nextSub.None? then Result(c, SubscriptionIdExhausted)
    else
      var id := c.hub.nextSub.value;
      if id in c.hub.subs then Result(c, SubscriptionIdExhausted)
      else if |c.hub.subs| + 1 > U32_MAX then Result(c, CapacityExhausted)
      else
        var c1 := Enlist(c, id);
        var c2 := Reconciled(env, c1, Some(id));
        if !Reconcile(env, c1.hub, c1.world, Some(id)).ok then Result(Drop(env, c2, id), CapacityExhausted)
        else Greet(env, c2, id)
  }

  /** The newcomer takes part from here on, unless nobody takes the reply. */
  function Greet(env: Environment, c: Coord, id: nat): Result {
    var taken := env(c.world.instant).replyTaken;
    var c1 := Looked(Register(c, id));
    if taken then Result(c1, Subscribed(id, StatusOf(c))) else Result(Drop(env, c1, id), Done)
  }

  /** The channel of the newcomer exists, but it does not take part in the reconciliation. */
  function Enlist(c: Coord, id: nat): Coord {
    c.(hub := c.hub.(subs := c.hub.subs[id := Subscriber(StatusOf(c), [], 0)],
                     nextSub := if id + 1 <= U64_MAX then Some(id + 1) else None))
  }

  function Register(c: Coord, id: nat): Coord {
    c.(hub := c.hub.(subs := c.hub.subs[id := Subscriber(StatusOf(c), [], BroadcastCount(c))]))
  }

  function Unsubscribe(env: Environment, c: Coord, id: nat): Result {
    if id !in c.hub.subs then Result(c, Unsubscribed(false))
    else
      var r := Reconcile(env, c.hub.(subs := c.hub.subs - {id}), c.world, None);
      Result(c.(hub := r.hub, world := r.world), if r.ok then Unsubscribed(true) else CapacityExhausted)
  }

  // ---- deadlines --------------------------------------------------------------------------

  function SetExec(actions: seq<Action>, k: nat, exec: ExecutionState): seq<Action>
    requires k < |actions|
  {
    actions[k := actions[k].(exec := exec)]
  }

  /** `execute_scheduled_internet_deadline`. */
  function FireBlock(env: Environment, c: Coord, id: TimerId): Coord {
    var c0 := LookForStop(env, c);
    var k := FindAction(c.mem.actions, id);
    if c0.world.stopSeen || k == |c.mem.actions| || RuntimeDeadlineTransition(c.mem.actions[k].exec, 0).None? then c0
    else
      var c1 := Commit(env, c0, c.mem.(actions := SetExec(c.mem.actions, k, Executing), desired := Blocked));
      if !SaveOk(env, c0) then c1 else FiredBlock(env, c, c1, id)
  }

  /** After the durable transition; `before` holds the policy reported last. */
  function FiredBlock(env: Environment, before: Coord, c: Coord, id: TimerId): Coord {
    var c2 := Tell(env, c.(timers := c.timers - {id}), TimerExpired(id, BlockInternet));
    var c3 := LookForStop(env, c2);
    if c3.world.stopSeen then c3
    else
      var answer := env(c3.world.instant).gate;
      var c4 := ApplyGate(env, c3, Blocked);
      var c5 := TellPolicy(env, c4, before.mem.desired, before.observed, TimerFired(id));
      BlockOutcome(env, c5, id, GateError(Blocked, answer))
  }

  function BlockOutcome(env: Environment, c: Coord, id: TimerId, error: Option<string>): Coord {
    var c1 := MarkGate(env, c, error);
    match error
    case None => CommitPost(env, c1, CompleteEdit(c.mem, id).(retry := None))
    case Some(reason) =>
      var edited := RetryEdit(FailEdit(c.mem, id, reason), reason, c1.world.nextId);
      RecordGateFailure(env, c1.(world := c1.world.Draw(1)), edited)
  }

  /** Success of an executing action removes it. */
  function CompleteEdit(s: PersistentState, id: TimerId): PersistentState {
    var k := FindAction(s.actions, id);
    if k < |s.actions| && ExecutionSuccessTransition(s.actions[k].exec) == Some(Completed)
    then s.(actions := RemoveAction(s.actions, id)) else s
  }

  function FailEdit(s: PersistentState, id: TimerId, reason: string): PersistentState {
    var k := FindAction(s.actions, id);
    if k < |s.actions| && ExecutionFailureTransition(s.actions[k].exec, reason).Some?
    then s.(actions := SetExec(s.actions, k, ExecutionFailureTransition(s.actions[k].exec, reason).value)) else s
  }

  /** `execute_scheduled_shutdown_deadline`. */
  function FireShutdown(env: Environment, c: Coord, id: TimerId): Coord {
    var c0 := LookForStop(env, c);
    var k := FindAction(c.mem.actions, id);
    if c0.world.stopSeen || k == |c.mem.actions| || RuntimeDeadlineTransition(c.mem.actions[k].exec, 0).None? then c0
    else
      var c1 := Commit(env, c0, c.mem.(actions := SetExec(c.mem.actions, k, Executing)));
      if !SaveOk(env, c0) then c1 else FiredShutdown(env, c1, id)
  }

  function FiredShutdown(env: Environment, c: Coord, id: TimerId): Coord {
    var c2 := Tell(env, c.(timers := c.timers - {id}), TimerExpired(id, ShutdownComputer));
    var c3 := LookForStop(env, c2);
    if c3.world.stopSeen then c3
    else
      var outcome := env(c3.world.instant).power;
      var c4 := c3.(world := c3.world.Did(PowerCall(id, outcome)));
      PowerOutcome(env, c4, id, outcome)
  }

  function PowerOutcome(env: Environment, c: Coord, id: TimerId, outcome: Outcome): Coord {
    if FindAction(c.mem.actions, id) == |c.mem.actions| then c
    else match outcome
      case Success => PowerAccepted(env, c, MarkPower(env, c, None), id)
      case Failure(reason) => PowerRefused(env, c, MarkPower(env, c, Some(reason)), id, reason)
  }

  function PowerAccepted(env: Environment, c: Coord, c1: Coord, id: TimerId): (d: Coord)
    ensures d == c1.(mem := c.mem.(actions := d.mem.actions),
      pending := d.pending, shutdown := d.shutdown, hub := d.hub, world := d.world)
    ensures SameFlags(c1, d) && d.hub.health.gateHealthy == c1.hub.health.gateHealthy
    ensures d.hub.retryPolicyError == c1.hub.retryPolicyError
  {
    var c2 := TellShutdown(env, c1.(shutdown := InProgress), c.shutdown, InProgress);
    CommitPost(env, c2, CompleteEdit(c.mem, id))
  }

  /** The aggregate is synchronised before the save, but announced only if the save succeeds. */
  function PowerRefused(env: Environment, c: Coord, c1: Coord, id: TimerId, reason: string): (d: Coord)
    ensures d == c1.(mem := c.mem.(actions := d.mem.actions, outbox := d.mem.outbox),
      pending := d.pending, shutdown := d.shutdown, hub := d.hub, world := d.world)
    ensures SameFlags(c1, d) && d.hub.health.gateHealthy == c1.hub.health.gateHealthy
    ensures d.hub.retryPolicyError == c1.hub.retryPolicyError
  {
    var failed := FailEdit(c.mem, id, reason);
    var edited := failed.(outbox := failed.outbox + [Notice(c1.world.nextId, reason)]);
    var current := DeriveShutdown(c.shutdown, edited.actions);
    var c2 := c1.(world := c1.world.Draw(1), shutdown := current);
    var c3 := CommitPost(env, c2, edited);
    if SaveOk(env, c2) then TellShutdown(env, c3, c.shutdown, current) else c3
  }

  // ---- retrying the gate ------------------------------------------------------------------

  /** Executing Internet blocks are resolved by a successful reconciliation. */
  function ResolveBlocks(actions: seq<Action>): seq<Action> {
    if actions == [] then []
    else
      var rest, a := ResolveBlocks(actions[..|actions| - 1]), actions[|actions| - 1];
      if a.kind.BlockInternet? && ExecutionSuccessTransition(a.exec) == Some(Completed) then rest else rest + [a]
  }

  function RetryDoneEdit(s: PersistentState): PersistentState {
    s.(retry := None, actions := if s.desired.Blocked? then ResolveBlocks(s.actions) else s.actions)
  }

  /** `process_internet_reconciliation_retry`. */
  function Retry(env: Environment, c: Coord): Coord {
    var c1 := LookForStop(env, c);
    if c1.world.stopSeen then c1
    else
      var answer := env(c1.world.instant).gate;
      var c2 := ApplyGate(env, c1, c.mem.desired);
      var c3 := TellPolicy(env, c2, c.mem.desired, c.observed, PlatformSync);
      RetryOutcome(env, c3, GateError(c.mem.desired, answer))
  }

  function RetryOutcome(env: Environment, c: Coord, error: Option<string>): Coord {
    var c1 := MarkGate(env, c, error);
    match error
    case None => CommitPost(env, c1, RetryDoneEdit(c.mem))
    case Some(reason) =>
      RecordGateFailure(env, c1.(world := c1.world.Draw(1)), RetryEdit(c.mem, reason, c1.world.nextId))
  }

  // ---- the clock tick ---------------------------------------------------------------------

  function ElapsedSeconds(start: nat, now: nat): nat {
    if now >= start then (now - start) / NANOS_PER_SECOND else 0
  }

  /** Whole seconds left, by floor of the elapsed time. */
  function SecondsLeft(a: Anchor, now: nat): nat {
    var elapsed := ElapsedSeconds(a.start, now);
    if elapsed <= a.original then a.original - elapsed else 0
  }

  function CrossedBy(c: Coord, id: TimerId, previous: nat, current: nat): seq<Threshold> {
    var k := FindAction(c.mem.actions, id);
    if k < |c.mem.actions| then Crossed(previous, current, c.mem.actions[k].emitted) else []
  }

  function WarnEdit(s: PersistentState, k: nat, crossed: seq<Threshold>, first: EntryId): PersistentState
    requires k < |s.actions|
  {
    s.(actions := s.actions[k := s.actions[k].(emitted := s.actions[k].emitted + (set t <- crossed))],
       outbox := s.outbox + Notices(first, |crossed|, WARNING_TEXT))
  }

  function SetCursor(c: Coord, id: TimerId, current: nat): Coord {
    if id in c.timers then c.(timers := c.timers[id := c.timers[id].(cursor := current)]) else c
  }

  /** Warning evaluation of one timer; an expired timer is left to the deadline phase. */
  function Warn(env: Environment, c: Coord, id: TimerId, now: nat): Coord {
    if id !in c.timers || now >= c.timers[id].target then c
    else
      var previous, current := c.timers[id].cursor, SecondsLeft(c.timers[id], now);
      if previous <= current then c
      else
        var crossed := CrossedBy(c, id, previous, current);
        if crossed == [] then SetCursor(c, id, current)
        else WarnCrossed(env, c, id, current, crossed)
  }

  function WarnCrossed(env: Environment, c: Coord, id: TimerId, current: nat, crossed: seq<Threshold>): (d: Coord)
    requires id in c.timers
    ensures d == c.(mem := c.mem.(actions := d.mem.actions, outbox := d.mem.outbox),
      pending := d.pending, timers := d.timers, hub := d.hub, world := d.world)
    ensures SameFlags(c, d) && d.hub.health.gateHealthy == c.hub.health.gateHealthy
    ensures d.hub.retryPolicyError == c.hub.retryPolicyError
  {
    var k := FindAction(c.mem.actions, id);
    if k == |c.mem.actions| then c
    else
      var c1 := c.(world := c.world.Draw(|crossed|));
      var c2 := Commit(env, c1, WarnEdit(c.mem, k, crossed, c.world.nextId));
      var described := c.mem.actions[k].(kind := c.timers[id].kind, deadline := c.timers[id].deadline);
      if !SaveOk(env, c1) then c2 else WarningsSaved(env, c2, described, current, crossed)
  }

  /** Only now does the cursor move and is anybody told. */
  function WarningsSaved(env: Environment, c: Coord, described: Action, current: nat, crossed: seq<Threshold>): Coord {
    var c1 := SetCursor(c, described.id, current);
    TellWarnings(env, Looked(c1), described, crossed, Utc(env, c1))
  }

  function WarnAll(env: Environment, c: Coord, order: seq<TimerId>, now: nat): Coord {
    if order == [] then c
    else Warn(env, WarnAll(env, c, order[..|order| - 1], now), order[|order| - 1], now)
  }

  /** The timers of `order` whose target has been reached. */
  function Expired(timers: map<TimerId, Anchor>, order: seq<TimerId>, now: nat): seq<TimerId> {
    if order == [] then []
    else
      var rest, id := Expired(timers, order[..|order| - 1], now), order[|order| - 1];
      if id in timers && now >= timers[id].target then rest + [id] else rest
  }

  /** Deadlines in order; `aborted` when the stop flag was found set before one of them. */
  datatype Firing = Firing(coord: Coord, aborted: bool)

  function FireAll(env: Environment, c: Coord, kinds: map<TimerId, Anchor>, due: seq<TimerId>): Firing {
    if due == [] then Firing(c, false)
    else
      var f, id := FireAll(env, c, kinds, due[..|due| - 1]), due[|due| - 1];
      if f.aborted then f
      else
        var c1 := LookForStop(env, f.coord);
        if c1.world.stopSeen then Firing(c1, true)
        else if id in kinds && kinds[id].kind.BlockInternet? then Firing(FireBlock(env, c1, id), false)
        else Firing(FireShutdown(env, c1, id), false)
  }

  function RetryIfDue(env: Environment, c: Coord, now: nat): Coord {
    if c.retryAt.None? || now < c.retryAt.value || !c.hub.health.persistenceHealthy then c
    else Retry(env, c.(retryAt := None))
  }

  /** `process_clock_and_events`, for one enumeration `order` of the timer table. */
  function Tick(env: Environment, c: Coord, order: seq<TimerId>): Coord {
    var c0 := LookForStop(env, c);
    if c0.world.stopSeen then c0
    else
      var now, c1 := Mono(env, c0), Looked(c0);
      var c2 := WarnAll(env, c1, order, now);
      var f := FireAll(env, c2, c.timers, Expired(c.timers, order, now));
      if f.aborted then f.coord else RetryIfDue(env, f.coord, now)
  }

  // ---- stop -------------------------------------------------------------------------------

  /** `Stop`, first or repeated: the outcome is Ok unless a pending candidate cannot be saved. */
  function Stop(env: Environment, c: Coord): Result {
    var c1 := if c.stopping then c
              else c.(stopping := true, hub := c.hub.(subs := map[], health := c.hub.health.(sessions := 0)));
    var c2 := Flush(env, c1);
    Result(c2, if c1.pending.Some? && !SaveOk(env, c1) then PersistenceError else Stopped)
  }
}
