/** The outside world of the coordinator: what the ports answer, and the history of everything
    the coordinator made happen. */
module World {
  import opened Domain

  // ---- answers of the ports ---------------------------------------------------------------

  datatype Outcome = Success | Failure(reason: string)

  datatype Reading = Seen(state: InternetState) | Unreadable(reason: string)

  /** `block_internet` or `unblock_internet`, followed by `current_state`. */
  datatype GateAnswer = GateAnswer(applied: Outcome, reading: Reading)

  /** State of the receiving end of one subscription: how many events it has taken out of its
      queue, and whether it still exists. */
  datatype Receiver = Receiver(taken: nat, alive: bool)

  /** Everything the ports would answer if they were asked at one instant. */
  datatype Moment = Moment(
    saveOk: bool,
    gate: GateAnswer,
    power: Outcome,
    stopRequested: bool,
    mono: nat,
    utc: int,
    delay: nat -> nat,
    receiver: nat -> Receiver,
    replyTaken: bool)

  /** Port calls are numbered; the n-th one is answered by moment n. Every property below is
      stated for every environment, so for every combination of answers. */
  type Environment = nat -> Moment

  // ---- events -----------------------------------------------------------------------------

  datatype HealthStatus = Healthy | Degraded | Critical

  datatype Health = Health(
    status: HealthStatus,
    gateHealthy: bool,
    persistenceHealthy: bool,
    telegramConnected: bool,
    sessions: nat,
    lastError: Option<string>)

  datatype ChangeReason =
    | TimerFired(id: TimerId)
    | ImmediateCommand(initiator: Initiator)
    | ManualRestore(initiator: Initiator)
    | StartupRestoration
    | PlatformSync

  datatype Event =
    | InternetPolicyChanged(desired: DesiredInternet, observed: InternetState, reason: ChangeReason)
    | ShutdownStateChanged(previous: ShutdownState, current: ShutdownState)
    | TimerScheduled(action: Action)
    | TimerCancelled(id: TimerId, kind: ActionKind)
    | TimerExpired(id: TimerId, kind: ActionKind)
    | WarningReached(id: TimerId, kind: ActionKind, threshold: Threshold, deadline: int, emittedAt: int)
    | MissedDeadline(action: Action)
    | ChatReceived(message: ChatMessage)
    | HealthUpdated(health: Health)

  // ---- history ----------------------------------------------------------------------------

  datatype Effect =
    | Saved(state: PersistentState)
    | SaveFailed(state: PersistentState)
    | GateCall(target: DesiredInternet)
    | PowerCall(id: TimerId, outcome: Outcome)
    | Broadcast(event: Event)
    | AckReceived(entry: EntryId)
    | Booted

  /** Everything that happened so far, latest first, on top of the snapshot found at the start. */
  datatype Trace = Start(disk: PersistentState) | Then(past: Trace, last: Effect)

  /** The durable snapshot after this history. */
  function DiskOf(t: Trace): PersistentState {
    match t
    case Start(s) => s
    case Then(past, Saved(s)) => s
    case Then(past, _) => DiskOf(past)
  }

  /** A crash loses the latest effects, but never reaches behind the last boot. */
  function Rewind(t: Trace, lost: nat): Trace {
    if lost == 0 || t.Start? || t.last.Booted? then t else Rewind(t.past, lost - 1)
  }

  datatype World = World(
    disk: PersistentState,
    trace: Trace,
    nextId: nat,
    instant: nat,
    stopSeen: bool,
    poweredDown: bool)
  {
    /** One port call whose result leaves a mark in the history. `poweredDown` records whether a
        power call has succeeded since the last boot. */
    function Did(e: Effect): World {
      this.(trace := Then(trace, e), instant := instant + 1,
        disk := if e.Saved? then e.state else disk,
        poweredDown := !e.Booted? && (poweredDown || (e.PowerCall? && e.outcome.Success?)))
    }

    /** One port call that only reads. */
    function Read(): World {
      this.(instant := instant + 1)
    }

    /** Draw `n` identifiers; identifiers are never drawn twice. */
    function Draw(n: nat): World {
      this.(nextId := nextId + n)
    }
  }
}
