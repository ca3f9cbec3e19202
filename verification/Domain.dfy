/** The vocabulary of the service: scheduled actions, their life cycle, the warning thresholds
    and the one durable snapshot the service owns (crates/core/src/lib.rs,
    crates/service/src/persistence.rs). */
module Domain {
  datatype Option<+T> = None | Some(value: T)

  datatype ActionKind = BlockInternet | ShutdownComputer

  datatype Threshold = M60 | M30 | M20 | M10 | M3
  {
    function Seconds(): nat {
      match this
      case M60 => 3600
      case M30 => 1800
      case M20 => 1200
      case M10 => 600
      case M3 => 180
    }
  }

  const ALL_THRESHOLDS: seq<Threshold> := [M60, M30, M20, M10, M3]

  datatype ExecutionState = Pending | Executing | Completed | Failed(reason: string) | Missed
  {
    predicate IsTerminal() { Completed? || Missed? }
  }

  datatype Initiator = ParentTelegram(userId: nat) | ParentLocalPin

  // Identifiers are opaque 128-bit values; only equality of identifiers is ever used.
  type TimerId = nat
  type EntryId = nat

  // UTC instants are milliseconds; they may lie before the epoch.
  datatype Action = Action(
    id: TimerId,
    kind: ActionKind,
    deadline: int,
    createdAt: int,
    createdBy: Initiator,
    emitted: set<Threshold>,
    exec: ExecutionState)

  datatype DesiredInternet = Unrestricted | Blocked

  datatype InternetState = ObservedUnrestricted | ObservedBlocked | Unknown

  datatype ShutdownState = Idle | Scheduled | InProgress

  datatype Sender = Parent | Child

  datatype DeliveryStatus =
    | Queued
    | AcceptedByService
    | AcceptedByTelegram
    | DeliveredToTray
    | Undelivered(reason: string)

  datatype ChatMessage = ChatMessage(
    id: nat,
    sender: Sender,
    text: string,
    timestamp: int,
    status: DeliveryStatus)

  datatype Payload = Chat(message: ChatMessage) | Notification(text: string)

  datatype OutboxEntry = OutboxEntry(
    id: EntryId,
    payload: Payload,
    attempts: nat,
    lastError: Option<string>)

  datatype InternetRetry = InternetRetry(attempts: nat, lastError: Option<string>)

  /** The single authoritative snapshot: everything that survives a crash. */
  datatype PersistentState = PersistentState(
    desired: DesiredInternet,
    actions: seq<Action>,
    retry: Option<InternetRetry>,
    outbox: seq<OutboxEntry>)

  // ---- identifiers and lookup -------------------------------------------------------------

  ghost function ActionIds(actions: seq<Action>): set<TimerId> {
    set a | a in actions :: a.id
  }

  ghost function EntryIds(outbox: seq<OutboxEntry>): set<EntryId> {
    set e | e in outbox :: e.id
  }

  ghost predicate UniqueActions(actions: seq<Action>) {
    forall i, j :: 0 <= i < j < |actions| ==> actions[i].id != actions[j].id
  }

  ghost predicate UniqueEntries(outbox: seq<OutboxEntry>) {
    forall i, j :: 0 <= i < j < |outbox| ==> outbox[i].id != outbox[j].id
  }

  /** Position of the first action with this identifier, or the length when there is none. */
  function FindAction(actions: seq<Action>, id: TimerId): (k: nat)
    ensures k <= |actions|
    ensures k < |actions| ==> actions[k].id == id
    ensures forall j :: 0 <= j < k ==> actions[j].id != id
  {
    if actions == [] then 0
    else if actions[0].id == id then 0
    else
      var k := FindAction(actions[1..], id);
      assert forall j :: 0 < j < k + 1 ==> actions[j] == actions[1..][j - 1];
      k + 1
  }

  /** `retain(|a| a.id != id)`. */
  function RemoveAction(actions: seq<Action>, id: TimerId): seq<Action> {
    if actions == [] then []
    else
      var rest := RemoveAction(actions[..|actions| - 1], id);
      if actions[|actions| - 1].id == id then rest else rest + [actions[|actions| - 1]]
  }

  /** What the codec accepts: unique identifiers, no terminal action, and only messages of the
      child that the service has accepted. */
  ghost predicate Encodable(s: PersistentState) {
    && UniqueActions(s.actions)
    && (forall a <- s.actions :: !a.exec.IsTerminal())
    && UniqueEntries(s.outbox)
    && (forall e <- s.outbox :: SendableEntry(e))
  }

  predicate SendableEntry(e: OutboxEntry) {
    e.payload.Chat? ==> e.payload.message.sender.Child? && e.payload.message.status.AcceptedByService?
  }

  // ---- warning thresholds -----------------------------------------------------------------

  /** The thresholds of `ts` inside `low..high` (upper bound exclusive) that are not emitted
      yet, in the order of `ts`. */
  function SelectThresholds(ts: seq<Threshold>, low: int, high: int, emitted: set<Threshold>): (r: seq<Threshold>)
    ensures forall t :: t in r <==> t in ts && low <= t.Seconds() < high && t !in emitted
  {
    if ts == [] then []
    else
      var rest := SelectThresholds(ts[..|ts| - 1], low, high, emitted);
      var t := ts[|ts| - 1];
      assert ts == ts[..|ts| - 1] + [t];
      if low <= t.Seconds() < high && t !in emitted then rest + [t] else rest
  }

  const NO_UPPER_BOUND: int := 3601

  /** Warnings crossed when the remaining time went from `previous` to `current` seconds. */
  function Crossed(previous: int, current: int, emitted: set<Threshold>): seq<Threshold> {
    if current <= 0 then [] else SelectThresholds(ALL_THRESHOLDS, current, previous, emitted)
  }

  /** Warnings that passed while the service was away. */
  function RecoveryPassed(current: int, emitted: set<Threshold>): seq<Threshold> {
    if current <= 0 then [] else SelectThresholds(ALL_THRESHOLDS, current, NO_UPPER_BOUND, emitted)
  }

  /** Warnings already in the past when a timer of this duration is created. */
  ghost function CreationPassed(duration: nat): set<Threshold> {
    set t: Threshold | duration < t.Seconds()
  }

  /** Warnings due at once when a timer of this duration is created. */
  function CreationDue(duration: nat): seq<Threshold> {
    SelectThresholds(ALL_THRESHOLDS, duration, duration + 1, {})
  }

  lemma AllThresholdsListed()
    ensures forall t: Threshold :: t in ALL_THRESHOLDS
  {
    forall t: Threshold ensures t in ALL_THRESHOLDS {
      var k := match t case M60 => 0 case M30 => 1 case M20 => 2 case M10 => 3 case M3 => 4;
      assert ALL_THRESHOLDS[k] == t;
    }
  }

  // ---- life cycle -------------------------------------------------------------------------

  function RuntimeDeadlineTransition(exec: ExecutionState, remaining: int): Option<ExecutionState> {
    if remaining <= 0 && exec.Pending? then Some(Executing) else None
  }

  function ExecutionSuccessTransition(exec: ExecutionState): Option<ExecutionState> {
    if exec.Executing? then Some(Completed) else None
  }

  function ExecutionFailureTransition(exec: ExecutionState, reason: string): Option<ExecutionState> {
    if exec.Executing? then Some(Failed(reason)) else None
  }

  function RecoveryOverdueTransition(kind: ActionKind, exec: ExecutionState, remaining: int): Option<ExecutionState> {
    if remaining > 0 then None
    else match (kind, exec)
      case (BlockInternet, Pending) => Some(Executing)
      case (BlockInternet, _) => None
      case (ShutdownComputer, Pending) => Some(Missed)
      case (ShutdownComputer, Executing) => Some(Missed)
      case (ShutdownComputer, Failed(_)) => Some(Missed)
      case (ShutdownComputer, _) => None
  }

  /** Rust division truncates toward zero. */
  function RemainingSeconds(deltaMs: int): int {
    if deltaMs > 0 then (deltaMs + 999) / 1000 else -((-deltaMs) / 1000)
  }

  /** In effect always the ceiling: a deadline ahead, however little, is never overdue. */
  lemma RemainingSecondsIsCeiling(deltaMs: int)
    ensures 1000 * (RemainingSeconds(deltaMs) - 1) < deltaMs <= 1000 * RemainingSeconds(deltaMs)
    ensures RemainingSeconds(deltaMs) > 0 <==> deltaMs > 0
  {
  }

  function DeriveShutdown(current: ShutdownState, actions: seq<Action>): ShutdownState {
    if current.InProgress? then InProgress
    else if exists a <- actions :: a.kind.ShutdownComputer? && (a.exec.Pending? || a.exec.Executing?) then Scheduled
    else Idle
  }
}
