/** Startup recovery, and runs of the whole machine: boots, commands, ticks, and crashes at any
    point of their history. */
module Recovery {
  import opened Domain
  import opened World
  import opened Subscribers
  import opened Runtime

  // ---- what recovery makes of the stored actions -------------------------------------------

  function Left(a: Action, utc: int): int { RemainingSeconds(a.deadline - utc) }

  predicate IsOverdue(a: Action, utc: int) { Left(a, utc) <= 0 }

  /** An overdue shutdown that is not terminal yet is missed. */
  predicate IsMissed(a: Action, utc: int) {
    a.kind.ShutdownComputer? && RecoveryOverdueTransition(a.kind, a.exec, Left(a, utc)) == Some(Missed)
  }

  /** An overdue Internet block that is still to be enforced. */
  predicate IsOverdueBlock(a: Action, utc: int) {
    a.kind.BlockInternet? && IsOverdue(a, utc) && (a.exec.Pending? || a.exec.Executing?)
  }

  /** A stored action after recovery, unless it is missed. */
  function RecoverOne(a: Action, utc: int): Action {
    if IsOverdue(a, utc)
    then (if a.kind.BlockInternet? && a.exec.Pending? then a.(exec := Executing) else a)
    else a.(emitted := a.emitted + (set t <- RecoveryPassed(Left(a, utc), a.emitted)))
  }

  function RecoverActions(actions: seq<Action>, utc: int): seq<Action> {
    if actions == [] then []
    else
      var rest, a := RecoverActions(actions[..|actions| - 1], utc), actions[|actions| - 1];
      if IsMissed(a, utc) then rest else rest + [RecoverOne(a, utc)]
  }

  function MissedActions(actions: seq<Action>, utc: int): seq<Action> {
    if actions == [] then []
    else
      var rest, a := MissedActions(actions[..|actions| - 1], utc), actions[|actions| - 1];
      if IsMissed(a, utc) then rest + [a.(exec := Missed)] else rest
  }

  function OverdueBlocks(actions: seq<Action>, utc: int): set<TimerId> {
    set a <- actions | IsOverdueBlock(a, utc) :: a.id
  }

  /** The recovery candidate; missed shutdowns leave one notice each. */
  function RecoverState(s: PersistentState, utc: int, first: EntryId): PersistentState {
    s.(desired := if OverdueBlocks(s.actions, utc) != {} then Blocked else s.desired,
       actions := RecoverActions(s.actions, utc),
       outbox := s.outbox + Notices(first, |MissedActions(s.actions, utc)|, MISSED_TEXT))
  }

  function RecoveredAnchor(a: Action, utc: int, mono: nat): Anchor
    requires !IsOverdue(a, utc)
  {
    Anchor(a.kind, a.deadline, mono + (a.deadline - utc) * NANOS_PER_MILLI, Left(a, utc), mono, Left(a, utc))
  }

  /** Every action whose deadline lies ahead is anchored, whatever its state. */
  function RecoverTimers(actions: seq<Action>, utc: int, mono: nat): map<TimerId, Anchor> {
    if actions == [] then map[]
    else
      var rest, a := RecoverTimers(actions[..|actions| - 1], utc, mono), actions[|actions| - 1];
      if IsOverdue(a, utc) then rest else rest[a.id := RecoveredAnchor(a, utc, mono)]
  }

  /** Overdue blocks the gate has enforced are completed, that is, removed. */
  function CompleteBlocks(actions: seq<Action>, ids: set<TimerId>): seq<Action> {
    if actions == [] then []
    else
      var rest, a := CompleteBlocks(actions[..|actions| - 1], ids), actions[|actions| - 1];
      if a.id in ids && ExecutionSuccessTransition(a.exec) == Some(Completed) then rest else rest + [a]
  }

  function ReconciledState(s: PersistentState, ids: set<TimerId>): PersistentState {
    s.(retry := None, actions := CompleteBlocks(s.actions, ids))
  }

  /** Overdue blocks the gate has refused fail. */
  function FailBlocks(actions: seq<Action>, ids: set<TimerId>, reason: string): seq<Action> {
    if actions == [] then []
    else
      var rest, a := FailBlocks(actions[..|actions| - 1], ids, reason), actions[|actions| - 1];
      rest + [if a.id in ids && ExecutionFailureTransition(a.exec, reason).Some?
              then a.(exec := ExecutionFailureTransition(a.exec, reason).value) else a]
  }

  function DegradedState(s: PersistentState, ids: set<TimerId>, reason: string, id: EntryId): PersistentState {
    RetryEdit(s.(actions := FailBlocks(s.actions, ids, reason)), reason, id)
  }

  // ---- perform_startup_recovery --------------------------------------------------------------

  datatype Machine = Up(coord: Coord) | Down(world: World)

  function InitialHub(): Hub {
    Hub(Health(Degraded, true, true, false, 0, None), None, None, None, None, map[], Some(1))
  }

  function Blank(w: World): Coord {
    Coord(w.disk, None, Unknown, Idle, map[], None, false, InitialHub(), w, w.nextId)
  }

  function TellMissed(env: Environment, c: Coord, missed: seq<Action>): (d: Coord)
    ensures OnlyTold(c, d)
    decreases |missed|
  {
    if missed == [] then c
    else Tell(env, TellMissed(env, c, missed[..|missed| - 1]), MissedDeadline(missed[|missed| - 1]))
  }

  /** The machine before the gate is touched: the recovery candidate is on disk. */
  function Recover(env: Environment, w: World): Machine {
    var c0 := Blank(w.Did(Booted).(stopSeen := false));
    var utc, c1 := Utc(env, c0), Looked(c0);
    var mono, c2 := Mono(env, c1), Looked(c1);
    var missed := MissedActions(w.disk.actions, utc);
    var candidate := RecoverState(w.disk, utc, c2.world.nextId);
    var c3 := c2.(timers := RecoverTimers(w.disk.actions, utc, mono), world := c2.world.Draw(|missed|));
    var c4 := if candidate != w.disk then Commit(env, c3, candidate) else c3;
    if candidate != w.disk && !SaveOk(env, c3) then Down(c4.world)
    else Up(SyncShutdown(env, TellMissed(env, c4, missed)))
  }

  function BootUtc(env: Environment, w: World): int { env(w.instant + 1).utc }

  /** First reconciliation of the gate with the durable policy. */
  function Restore(env: Environment, c: Coord, ids: set<TimerId>): Machine {
    var answer := env(c.world.instant).gate;
    var c1 := ApplyGate(env, c, c.mem.desired);
    var c2 := TellPolicy(env, c1, c.mem.desired, c.observed, StartupRestoration);
    var error := GateError(c.mem.desired, answer);
    var c3 := MarkGate(env, c2, error);
    if error.None? then FinishRestore(env, c3, ids) else DegradeRestore(env, c3, ids, error.value)
  }

  function FinishRestore(env: Environment, c: Coord, ids: set<TimerId>): Machine {
    var update := ReconciledState(c.mem, ids);
    if update == c.mem then Up(c)
    else
      var d := CommitPost(env, c, update);
      if SaveOk(env, c) then Up(d) else Down(d.world)
  }

  function DegradeRestore(env: Environment, c: Coord, ids: set<TimerId>, reason: string): Machine {
    var update := DegradedState(c.mem, ids, reason, c.world.nextId);
    var c1 := c.(world := c.world.Draw(1));
    var c2 := CommitPost(env, c1, update);
    if SaveOk(env, c1) then Up(ScheduleRetry(env, c2)) else Down(c2.world)
  }

  /** A boot succeeds unless a save fails or the health is critical. */
  function Boot(env: Environment, w: World): Machine {
    match Recover(env, w)
    case Down(w1) => Down(w1)
    case Up(c) =>
      match Restore(env, c, OverdueBlocks(w.disk.actions, BootUtc(env, w)))
      case Down(w2) => Down(w2)
      case Up(c1) => if c1.hub.health.status.Critical? then Down(c1.world) else Up(c1)
  }

  // ---- runs ----------------------------------------------------------------------------------

  datatype Command =
    | ScheduleAction(kind: ActionKind, duration: nat, initiator: Initiator)
    | CancelExactTimer(id: TimerId, kind: ActionKind)
    | ImmediateInternetBlock(initiator: Initiator)
    | RestoreInternet(initiator: Initiator)
    | AckTelegram(entry: EntryId)
    | SendChildMessage(text: string)
    | PublishParentMessage(message: ChatMessage)
    | QueryStatus
    | SubscribeEvents
    | UnsubscribeEvents(sub: nat)
    | StopRuntime

  /** `handle_command`. */
  function Handle(env: Environment, c: Coord, cmd: Command): Result {
    if cmd.QueryStatus? then Result(c, Status(StatusOf(c)))
    else if cmd.StopRuntime? then Stop(env, c)
    else if c.stopping then Result(c, StoppingError)
    else match cmd
      case ScheduleAction(kind, duration, who) => Schedule(env, c, kind, duration, who)
      case CancelExactTimer(id, kind) => Cancel(env, c, id, kind)
      case ImmediateInternetBlock(who) => SetPolicy(env, c, Blocked, ImmediateCommand(who))
      case RestoreInternet(who) => SetPolicy(env, c, Unrestricted, ManualRestore(who))
      case AckTelegram(id) => Ack(env, c, id)
      case SendChildMessage(text) => ChildMessage(env, c, text)
      case PublishParentMessage(message) => ParentMessage(env, c, message)
      case SubscribeEvents => Subscribe(env, c)
      case UnsubscribeEvents(id) => Unsubscribe(env, c, id)
  }

  datatype Step =
    | Serve(cmd: Command)
    | Clock(order: seq<TimerId>)
    | CrashAndBoot(lost: nat)

  function WorldOf(m: Machine): World {
    match m
    case Up(c) => c.world
    case Down(w) => w
  }

  /** After a crash only the disk is left, and the history up to the crash. */
  function Crashed(w: World, lost: nat): World {
    var t := Rewind(w.trace, lost);
    w.(trace := t, disk := DiskOf(t))
  }

  function Advance(env: Environment, m: Machine, step: Step): Machine {
    match step
    case CrashAndBoot(lost) => Boot(env, Crashed(WorldOf(m), lost))
    case Serve(cmd) => if m.Up? then Up(Handle(env, m.coord, cmd).coord) else m
    case Clock(order) => if m.Up? && !m.coord.stopping then Up(Tick(env, m.coord, order)) else m
  }

  function Run(env: Environment, m: Machine, steps: seq<Step>): Machine {
    if steps == [] then m else Advance(env, Run(env, m, steps[..|steps| - 1]), steps[|steps| - 1])
  }

  /** A machine that has never run, on a snapshot the codec has decoded; identifiers drawn later
      differ from all stored ones. */
  ghost predicate Installed(m: Machine) {
    && m.Down? && m.world.trace == Start(m.world.disk) && !m.world.stopSeen
    && Encodable(m.world.disk)
    && (forall a <- m.world.disk.actions :: a.id < m.world.nextId)
    && (forall e <- m.world.disk.outbox :: e.id < m.world.nextId)
  }
}
