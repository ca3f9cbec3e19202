/** Stopping under concurrency: any number of client threads, the thread that stops the service,
    and the worker, with the ingress lock, the effect lock and the command queue between them.
    Every interleaving of their steps is a run. */
module StopProtocol {
  import opened Domain

  datatype Thread = Client(id: nat) | Stopper | Worker

  datatype Message = Submitted(client: nat) | StopMessage

  datatype ClientPc = AtRest | WantsIngress | HoldsIngress | AwaitsReply

  /** Where the stopping thread is. It holds the ingress lock from `Entered` to `GateReleased` and
      the effect lock from `GateTaken` to `StopSent`. */
  datatype StopperPc =
    | NotStopping | WantsEntry | Entered | WantsGate | GateTaken | Requested | StopSent | GateReleased
    | AwaitsTeardown | Joining | Stopped

  datatype Job = Serving(client: nat) | Ticking

  /** `left` bounds how often the job still enters the effect gate. */
  datatype WorkerPc =
    | Waiting
    | Busy(job: Job, left: nat)
    | AtGate(job: Job, left: nat)
    | InGate(job: Job, left: nat)
    | InEffect(job: Job, left: nat)
    | Closing
    | Exited
  {
    predicate Serves(c: nat) {
      (Busy? || AtGate? || InGate? || InEffect?) && job == Serving(c)
    }
  }

  datatype Mark =
    | Accepted(client: nat)
    | Refused(client: nat)
    | Answered(client: nat)
    | EffectStarted
    | StopRequested
    | StopQueued
    | StopAnswered

  datatype System = System(
    clients: map<nat, ClientPc>,
    stopper: StopperPc,
    worker: WorkerPc,
    ingress: Option<Thread>,
    closed: bool,
    gate: Option<Thread>,
    stopRequested: bool,
    queue: seq<Message>,
    log: seq<Mark>)

  // ---- steps ---------------------------------------------------------------------------------

  datatype Step =
    | ClientCalls(client: nat)
    | ClientLocks(client: nat)
    | ClientSends(client: nat)
    | ClientIsRefused(client: nat)
    | StopCalls
    | StopLocksIngress
    | StopReturnsEarly
    | StopCloses
    | StopLocksGate
    | StopRequests
    | StopSends
    | StopReleasesGate
    | StopReleasesIngress
    | StopReceives
    | StopJoins
    | WorkerTakes(effect: bool)
    | WorkerTicks(effects: nat)
    | WorkerAsks
    | WorkerLocks
    | WorkerStarts
    | WorkerTurnsBack
    | WorkerEnds
    | WorkerFinishes
    | WorkerExits
  {
    predicate OfClient() { ClientCalls? || ClientLocks? || ClientSends? || ClientIsRefused? }

    predicate OfWorker() {
      || WorkerTakes? || WorkerTicks? || WorkerAsks? || WorkerLocks? || WorkerStarts? || WorkerTurnsBack?
      || WorkerEnds? || WorkerFinishes? || WorkerExits?
    }

    /** Starting something new: a call, or a tick. */
    predicate IsFresh() { ClientCalls? || StopCalls? || WorkerTicks? }
  }

  predicate Enabled(s: System, e: Step) {
    match e
    case ClientCalls(c) => c in s.clients && s.clients[c] == AtRest
    case ClientLocks(c) => c in s.clients && s.clients[c] == WantsIngress && s.ingress == None
    case ClientSends(c) => c in s.clients && s.clients[c] == HoldsIngress && !s.closed
    case ClientIsRefused(c) => c in s.clients && s.clients[c] == HoldsIngress && s.closed
    case StopCalls => s.stopper == NotStopping || s.stopper == Stopped
    case StopLocksIngress => s.stopper == WantsEntry && s.ingress == None
    case StopReturnsEarly => s.stopper == Entered && s.closed
    case StopCloses => s.stopper == Entered && !s.closed
    case StopLocksGate => s.stopper == WantsGate && s.gate == None
    case StopRequests => s.stopper == GateTaken
    case StopSends => s.stopper == Requested
    case StopReleasesGate => s.stopper == StopSent
    case StopReleasesIngress => s.stopper == GateReleased
    case StopReceives => s.stopper == AwaitsTeardown && StopAnswered in s.log
    case StopJoins => s.stopper == Joining && s.worker == Exited
    case WorkerTakes(_) => s.worker == Waiting && s.queue != []
    case WorkerTicks(_) => s.worker == Waiting && s.queue == []
    case WorkerAsks => s.worker.Busy? && s.worker.left > 0
    case WorkerLocks => s.worker.AtGate? && s.gate == None
    case WorkerStarts => s.worker.InGate? && !s.stopRequested
    case WorkerTurnsBack => s.worker.InGate? && s.stopRequested
    case WorkerEnds => s.worker.InEffect?
    case WorkerFinishes => s.worker.Busy?
    case WorkerExits => s.worker == Closing
  }

  function Marked(s: System, m: Mark): System { s.(log := s.log + [m]) }

  function Apply(s: System, e: Step): System
    requires Enabled(s, e)
  {
    match e
    case ClientCalls(c) => s.(clients := s.clients[c := WantsIngress])
    case ClientLocks(c) => s.(clients := s.clients[c := HoldsIngress], ingress := Some(Client(c)))
    case ClientSends(c) =>
      Marked(s.(clients := s.clients[c := AwaitsReply], ingress := None, queue := s.queue + [Submitted(c)]), Accepted(c))
    case ClientIsRefused(c) => Marked(s.(clients := s.clients[c := AtRest], ingress := None), Refused(c))
    case StopCalls => s.(stopper := WantsEntry)
    case StopLocksIngress => s.(stopper := Entered, ingress := Some(Stopper))
    case StopReturnsEarly => s.(stopper := Stopped, ingress := None)
    case StopCloses => s.(stopper := WantsGate, closed := true)
    case StopLocksGate => s.(stopper := GateTaken, gate := Some(Stopper))
    case StopRequests => Marked(s.(stopper := Requested, stopRequested := true), StopRequested)
    case StopSends => Marked(s.(stopper := StopSent, queue := s.queue + [StopMessage]), StopQueued)
    case StopReleasesGate => s.(stopper := GateReleased, gate := None)
    case StopReleasesIngress => s.(stopper := AwaitsTeardown, ingress := None)
    case StopReceives => s.(stopper := Joining)
    case StopJoins => s.(stopper := Stopped)
    case WorkerTakes(effect) =>
      s.(queue := s.queue[1..],
         worker := match s.queue[0]
           case Submitted(c) => Busy(Serving(c), if effect then 1 else 0)
           case StopMessage => Closing)
    case WorkerTicks(effects) => s.(worker := Busy(Ticking, effects))
    case WorkerAsks => s.(worker := AtGate(s.worker.job, s.worker.left - 1))
    case WorkerLocks => s.(worker := InGate(s.worker.job, s.worker.left), gate := Some(Worker))
    case WorkerStarts => Marked(s.(worker := InEffect(s.worker.job, s.worker.left)), EffectStarted)
    case WorkerTurnsBack => s.(worker := Busy(s.worker.job, 0), gate := None)
    case WorkerEnds => s.(worker := Busy(s.worker.job, s.worker.left), gate := None)
    case WorkerFinishes =>
      (match s.worker.job
       case Serving(c) => Marked(s.(worker := Waiting, clients := s.clients[c := AtRest]), Answered(c))
       case Ticking => s.(worker := Waiting))
    case WorkerExits => Marked(s.(worker := Exited), StopAnswered)
  }

  ghost predicate Initial(s: System) {
    && (forall c <- s.clients :: s.clients[c] == AtRest)
    && s.stopper == NotStopping && s.worker == Waiting && s.ingress == None && !s.closed
    && s.gate == None && !s.stopRequested && s.queue == [] && s.log == []
  }

  ghost predicate IsRun(s: System, steps: seq<Step>)
    decreases |steps|
  {
    steps == [] || (Enabled(s, steps[0]) && IsRun(Apply(s, steps[0]), steps[1..]))
  }

  ghost function RunFrom(s: System, steps: seq<Step>): System
    requires IsRun(s, steps)
    decreases |steps|
  {
    if steps == [] then s else RunFrom(Apply(s, steps[0]), steps[1..])
  }

  // ---- the invariant -------------------------------------------------------------------------

  predicate HasIngress(p: StopperPc) {
    p == Entered || p == WantsGate || p == GateTaken || p == Requested || p == StopSent || p == GateReleased
  }

  predicate HasGate(p: StopperPc) { p == GateTaken || p == Requested || p == StopSent }

  /** Who holds which lock. The worker never holds the ingress lock, no client the effect lock. */
  ghost predicate LocksOk(s: System) {
    && (forall c <- s.clients :: s.clients[c] == HoldsIngress <==> s.ingress == Some(Client(c)))
    && (forall c: nat :: s.ingress == Some(Client(c)) ==> c in s.clients)
    && (HasIngress(s.stopper) <==> s.ingress == Some(Stopper))
    && s.ingress != Some(Worker)
    && (HasGate(s.stopper) <==> s.gate == Some(Stopper))
    && (s.worker.InGate? || s.worker.InEffect? <==> s.gate == Some(Worker))
    && (s.gate.Some? ==> !s.gate.value.Client?)
  }

  /** The flags and the progress of the stopping thread. */
  ghost predicate FlagsOk(s: System) {
    && (s.stopRequested <==> StopRequested in s.log)
    && (StopQueued in s.log ==> s.stopRequested) && (s.stopRequested ==> s.closed)
    && (s.closed && !s.stopRequested ==> s.stopper == WantsGate || s.stopper == GateTaken)
    && (s.stopRequested && StopQueued !in s.log ==> s.stopper == Requested)
    && (s.stopper == WantsGate || s.stopper == GateTaken ==> s.closed && !s.stopRequested)
    && (s.stopper == Requested ==> s.stopRequested && StopQueued !in s.log)
    && (s.stopper == StopSent || s.stopper == GateReleased || s.stopper == AwaitsTeardown || s.stopper == Joining ==> StopQueued in s.log)
    && (StopAnswered in s.log <==> s.worker == Exited)
    && (s.worker.InEffect? ==> !s.stopRequested)
  }

  /** No message twice, and the stop last. */
  ghost predicate Orderly(queue: seq<Message>) {
    && (forall i, j :: 0 <= i < j < |queue| ==> queue[i] != queue[j])
    && (forall i :: 0 <= i < |queue| && queue[i] == StopMessage ==> i == |queue| - 1)
  }

  /** The queue holds the accepted commands not answered yet, each once, and the stop last. */
  ghost predicate QueueOk(s: System) {
    && Orderly(s.queue)
    && (StopQueued in s.log <==> StopMessage in s.queue || s.worker == Closing || s.worker == Exited)
    && (s.worker == Closing || s.worker == Exited ==> s.queue == [])
    && (forall c: nat :: Submitted(c) in s.queue || s.worker.Serves(c) ==> c in s.clients)
    && (forall c <- s.clients :: s.clients[c] == AwaitsReply <==> Submitted(c) in s.queue || s.worker.Serves(c))
    && (forall c: nat :: s.worker.Serves(c) ==> Submitted(c) !in s.queue)
  }

  function Count(log: seq<Mark>, m: Mark): nat {
    if log == [] then 0 else Count(log[..|log| - 1], m) + (if log[|log| - 1] == m then 1 else 0)
  }

  ghost predicate Balanced(log: seq<Mark>) {
    forall c: nat :: Count(log, Accepted(c)) == Count(log, Answered(c))
  }

  ghost predicate NeverAfter(log: seq<Mark>, first: Mark, second: Mark) {
    forall i, j :: 0 <= i < j < |log| && log[i] == first ==> log[j] != second
  }

  /** What the log promises. */
  ghost predicate LogOk(log: seq<Mark>) {
    && NeverAfter(log, StopRequested, EffectStarted)
    && (forall c: nat :: NeverAfter(log, StopQueued, Accepted(c)))
    && (forall i :: 0 <= i < |log| && log[i] == StopAnswered ==> Balanced(log[..i]))
  }

  predicate AwaitsAnswer(s: System, c: nat) {
    c in s.clients && s.clients[c] == AwaitsReply
  }

  /** Accepted and not answered are exactly those that wait. */
  ghost predicate Counted(s: System) {
    forall c: nat :: Count(s.log, Accepted(c)) == Count(s.log, Answered(c)) + (if AwaitsAnswer(s, c) then 1 else 0)
  }

  ghost predicate Inv(s: System) {
    LocksOk(s) && FlagsOk(s) && QueueOk(s) && LogOk(s.log) && Counted(s)
  }

  // ---- every step keeps it -------------------------------------------------------------------

  lemma ClientLocksOk(s: System, e: Step)
    requires LocksOk(s) && Enabled(s, e) && e.OfClient()
    ensures LocksOk(Apply(s, e))
  {
  }

  lemma WorkerLocksOk(s: System, e: Step)
    requires LocksOk(s) && QueueOk(s) && Enabled(s, e) && e.OfWorker()
    ensures LocksOk(Apply(s, e))
  {
    if e.WorkerFinishes? && s.worker.job.Serving? {
      assert s.worker.Serves(s.worker.job.client);
    }
  }

  lemma StopperLocksOk(s: System, e: Step)
    requires LocksOk(s) && FlagsOk(s) && Enabled(s, e) && !e.OfClient() && !e.OfWorker()
    ensures LocksOk(Apply(s, e))
  {
  }

  lemma ClientFlagsOk(s: System, e: Step)
    requires FlagsOk(s) && Enabled(s, e) && e.OfClient()
    ensures FlagsOk(Apply(s, e))
  {
  }

  lemma WorkerFlagsOk(s: System, e: Step)
    requires FlagsOk(s) && Enabled(s, e) && e.OfWorker()
    ensures FlagsOk(Apply(s, e))
  {
    var d := Apply(s, e);
    assert forall m: Mark :: m in d.log <==> m in s.log || (d.log != s.log && m == d.log[|s.log|]);
  }

  lemma StopperFlagsOk(s: System, e: Step)
    requires LocksOk(s) && FlagsOk(s) && Enabled(s, e) && !e.OfClient() && !e.OfWorker()
    ensures FlagsOk(Apply(s, e))
  {
    var d := Apply(s, e);
    assert forall m: Mark :: m in d.log <==> m in s.log || (d.log != s.log && m == d.log[|s.log|]);
  }

  lemma ClientQueueOk(s: System, e: Step)
    requires LocksOk(s) && FlagsOk(s) && QueueOk(s) && Enabled(s, e) && e.OfClient()
    ensures QueueOk(Apply(s, e))
  {
    hide LocksOk;
    var d := Apply(s, e);
    if e.ClientSends? {
      assert Submitted(e.client) !in s.queue;
      assert forall m: Message :: m in d.queue <==> m in s.queue || m == Submitted(e.client);
    }
  }

  lemma StopperQueueOk(s: System, e: Step)
    requires LocksOk(s) && FlagsOk(s) && QueueOk(s) && Enabled(s, e) && !e.OfClient() && !e.OfWorker()
    ensures QueueOk(Apply(s, e))
  {
    hide LocksOk;
    var d := Apply(s, e);
    if e.StopSends? {
      assert StopMessage !in s.queue;
      assert forall m: Message :: m in d.queue <==> m in s.queue || m == StopMessage;
    }
  }

  lemma TakeQueueOk(s: System, e: Step)
    requires QueueOk(s) && Enabled(s, e) && e.WorkerTakes?
    ensures QueueOk(Apply(s, e))
  {
    hide Orderly;
    HeadLeaves(s.queue);
  }

  lemma HeadLeaves(queue: seq<Message>)
    requires Orderly(queue) && queue != []
    ensures Orderly(queue[1..]) && queue[0] !in queue[1..]
    ensures forall m: Message :: m in queue <==> m == queue[0] || m in queue[1..]
    ensures queue[0] == StopMessage ==> queue[1..] == []
  {
    assert queue == [queue[0]] + queue[1..];
  }

  lemma FinishQueueOk(s: System, e: Step)
    requires QueueOk(s) && Enabled(s, e) && e.WorkerFinishes?
    ensures QueueOk(Apply(s, e))
  {
    if s.worker.job.Serving? {
      assert s.worker.Serves(s.worker.job.client);
    }
  }

  lemma WorkerQueueOk(s: System, e: Step)
    requires QueueOk(s) && Enabled(s, e) && e.OfWorker() && !e.WorkerTakes? && !e.WorkerFinishes?
    ensures QueueOk(Apply(s, e))
  {
    var d := Apply(s, e);
    assert forall c: nat :: d.worker.Serves(c) <==> s.worker.Serves(c);
    assert d.queue == s.queue && d.clients == s.clients;
  }

  lemma LogGrows(log: seq<Mark>, m: Mark)
    requires LogOk(log)
    requires m == EffectStarted ==> StopRequested !in log
    requires m.Accepted? ==> StopQueued !in log
    requires m == StopAnswered ==> Balanced(log)
    ensures LogOk(log + [m])
  {
    hide Balanced;
    forall i | 0 <= i < |log + [m]| && (log + [m])[i] == StopAnswered ensures Balanced((log + [m])[..i]) {
      assert (log + [m])[..i] == log[..i];
      assert log[..|log|] == log;
    }
  }

  lemma StepLog(s: System, e: Step)
    requires Inv(s) && Enabled(s, e)
    ensures LogOk(Apply(s, e).log)
  {
    hide LogOk, LocksOk, Count;
    var d := Apply(s, e);
    if d.log != s.log { LogGrows(s.log, d.log[|s.log|]); }
  }

  lemma CountGrows(log: seq<Mark>, m: Mark, x: Mark)
    ensures Count(log + [m], x) == Count(log, x) + if x == m then 1 else 0
  {
    assert (log + [m])[..|log|] == log;
  }

  /** Who waits changes only where a command is accepted or answered. */
  lemma StepWaiting(s: System, e: Step, c: nat)
    requires QueueOk(s) && Enabled(s, e)
    ensures var d := Apply(s, e);
      && (d.log == s.log || (|d.log| > |s.log| && d.log == s.log + [d.log[|s.log|]]))
      && (AwaitsAnswer(d, c) <==>
           (AwaitsAnswer(s, c) && !(d.log != s.log && d.log[|s.log|] == Answered(c)))
           || (d.log != s.log && d.log[|s.log|] == Accepted(c)))
      && (d.log != s.log && d.log[|s.log|] == Answered(c) ==> AwaitsAnswer(s, c))
      && (d.log != s.log && d.log[|s.log|] == Accepted(c) ==> !AwaitsAnswer(s, c))
  {
    if e.WorkerFinishes? && s.worker.job.Serving? {
      assert s.worker.Serves(s.worker.job.client);
    }
  }

  lemma StepCounts(s: System, e: Step)
    requires LocksOk(s) && QueueOk(s) && Counted(s) && Enabled(s, e)
    ensures Counted(Apply(s, e))
  {
    hide LocksOk, QueueOk, Count, Enabled, Apply, AwaitsAnswer;
    var d := Apply(s, e);
    forall c: nat ensures Count(d.log, Accepted(c)) == Count(d.log, Answered(c)) + (if AwaitsAnswer(d, c) then 1 else 0) {
      StepWaiting(s, e, c);
      if d.log != s.log {
        CountGrows(s.log, d.log[|s.log|], Accepted(c));
        CountGrows(s.log, d.log[|s.log|], Answered(c));
      }
    }
  }

  lemma StepKeeps(s: System, e: Step)
    requires Inv(s) && Enabled(s, e)
    ensures Inv(Apply(s, e))
  {
    hide Apply, LocksOk, FlagsOk, QueueOk, LogOk, Counted;
    if e.OfClient() {
      ClientLocksOk(s, e);
      ClientFlagsOk(s, e);
      ClientQueueOk(s, e);
    } else if e.OfWorker() {
      WorkerLocksOk(s, e);
      WorkerFlagsOk(s, e);
      if e.WorkerTakes? {
        TakeQueueOk(s, e);
      } else if e.WorkerFinishes? {
        FinishQueueOk(s, e);
      } else {
        WorkerQueueOk(s, e);
      }
    } else {
      StopperLocksOk(s, e);
      StopperFlagsOk(s, e);
      StopperQueueOk(s, e);
    }
    StepLog(s, e);
    StepCounts(s, e);
  }

  lemma {:induction false} RunKeeps(s: System, steps: seq<Step>)
    requires Inv(s) && IsRun(s, steps)
    ensures Inv(RunFrom(s, steps))
    decreases |steps|
  {
    hide Inv, Enabled, Apply;
    if steps != [] {
      StepKeeps(s, steps[0]);
      RunKeeps(Apply(s, steps[0]), steps[1..]);
    }
  }

  lemma InitialInv(s: System)
    requires Initial(s)
    ensures Inv(s)
  {
  }

  // ---- safety --------------------------------------------------------------------------------

  /** In every interleaving: no platform effect starts after the stop was requested; no command is
      accepted after the stop was queued; and when the stop is answered, every accepted command has
      been answered before. */
  lemma StopIsClean(s: System, steps: seq<Step>)
    requires Initial(s) && IsRun(s, steps)
    ensures var log := RunFrom(s, steps).log;
      && NeverAfter(log, StopRequested, EffectStarted)
      && (forall c: nat :: NeverAfter(log, StopQueued, Accepted(c)))
      && (forall i :: 0 <= i < |log| && log[i] == StopAnswered ==>
            forall c: nat :: Count(log[..i], Accepted(c)) == Count(log[..i], Answered(c)))
  {
    hide Count;
    InitialInv(s);
    RunKeeps(s, steps);
  }

  lemma {:induction false} ClosedForever(s: System, steps: seq<Step>)
    requires s.closed && IsRun(s, steps)
    ensures RunFrom(s, steps).closed
    decreases |steps|
  {
    if steps != [] { ClosedForever(Apply(s, steps[0]), steps[1..]); }
  }

  /** Once the stopping thread has closed the ingress, every later call is refused. */
  lemma LaterCallsAreRefused(s: System, steps: seq<Step>, c: nat)
    requires s.closed && IsRun(s, steps)
    ensures var d := RunFrom(s, steps);
      !Enabled(d, ClientSends(c)) && (c in d.clients && d.clients[c] == HoldsIngress ==> Enabled(d, ClientIsRefused(c)))
  {
    ClosedForever(s, steps);
  }

  // ---- no deadlock -----------------------------------------------------------------------------

  /** Nothing is going on: no thread is inside an operation and no message is waiting. */
  ghost predicate Quiescent(s: System) {
    && (forall c <- s.clients :: s.clients[c] == AtRest)
    && (s.stopper == NotStopping || s.stopper == Stopped)
    && (s.worker == Exited || (s.worker == Waiting && s.queue == []))
  }

  /** The thread that can go on when nobody needs anything new. */
  function Runnable(s: System): Step {
    match s.worker
    case Waiting => if s.queue != [] then WorkerTakes(false) else StopperRunnable(s)
    case Busy(_, _) => WorkerFinishes
    case AtGate(_, _) => if s.gate == None then WorkerLocks else StopperRunnable(s)
    case InGate(_, _) => if s.stopRequested then WorkerTurnsBack else WorkerStarts
    case InEffect(_, _) => WorkerEnds
    case Closing => WorkerExits
    case Exited => StopperRunnable(s)
  }

  function StopperRunnable(s: System): Step {
    match s.stopper
    case Entered => if s.closed then StopReturnsEarly else StopCloses
    case WantsGate => StopLocksGate
    case GateTaken => StopRequests
    case Requested => StopSends
    case StopSent => StopReleasesGate
    case GateReleased => StopReleasesIngress
    case AwaitsTeardown => StopReceives
    case Joining => StopJoins
    case _ => ClientRunnable(s)
  }

  function ClientRunnable(s: System): Step {
    match s.ingress
    case Some(Client(c)) => if s.closed then ClientIsRefused(c) else ClientSends(c)
    case _ => if s.stopper == WantsEntry then StopLocksIngress else StopCalls
  }

  /** No reachable state is stuck: unless everything is at rest, some step other than a new call or
      a tick is possible. Lock order and the early release before waiting see to that. */
  lemma NeverStuck(s: System)
    requires Inv(s) && !Quiescent(s)
    ensures exists e: Step :: Enabled(s, e) && !e.IsFresh()
  {
    hide LogOk, Counted;
    if c: nat :| c in s.clients && s.clients[c] == WantsIngress && s.ingress == None {
      assert Enabled(s, ClientLocks(c));
    } else {
      assert Enabled(s, Runnable(s)) && !Runnable(s).IsFresh();
    }
  }

  // ---- stopping ends ---------------------------------------------------------------------------

  /** The stop is queued and the stopping thread has not returned yet. */
  predicate UnderWay(s: System) {
    s.stopper == StopSent || s.stopper == GateReleased || s.stopper == AwaitsTeardown || s.stopper == Joining
  }

  function StopperRank(p: StopperPc): nat {
    match p
    case StopSent => 4
    case GateReleased => 3
    case AwaitsTeardown => 2
    case Joining => 1
    case _ => 0
  }

  function WorkerRank(p: WorkerPc): nat {
    match p
    case Waiting => 0
    case Busy(_, left) => 4 * left + 1
    case AtGate(_, left) => 4 * left + 4
    case InGate(_, left) => 4 * left + 3
    case InEffect(_, left) => 4 * left + 2
    case Closing => 1
    case Exited => 0
  }

  /** A bound on the steps of worker and stopping thread until the stop returns. */
  function Rank(s: System): nat {
    StopperRank(s.stopper) + WorkerRank(s.worker) + 6 * |s.queue|
  }

  /** Every step of the worker or the stopping thread brings the stop closer to its end, and no
      client can push it back. */
  lemma StopAdvances(s: System, e: Step)
    requires Inv(s) && UnderWay(s) && Enabled(s, e)
    ensures var d := Apply(s, e);
      && (UnderWay(d) || d.stopper == Stopped)
      && (if e.OfClient() then Rank(d) == Rank(s) else Rank(d) < Rank(s))
  {
    hide LocksOk, LogOk, Counted;
  }

  /** And one of the two can always step. */
  lemma StopGoesOn(s: System)
    requires Inv(s) && UnderWay(s)
    ensures exists e: Step :: Enabled(s, e) && !e.OfClient()
  {
    hide LogOk, Counted;
    assert Enabled(s, Runnable(s)) && !Runnable(s).OfClient();
  }

  function OwnSteps(steps: seq<Step>): nat {
    if steps == [] then 0 else (if steps[0].OfClient() then 0 else 1) + OwnSteps(steps[1..])
  }

  /** The stopping thread returns at some point of the run. */
  ghost predicate Returns(s: System, steps: seq<Step>)
    requires IsRun(s, steps)
    decreases |steps|
  {
    s.stopper == Stopped || (steps != [] && Returns(Apply(s, steps[0]), steps[1..]))
  }

  /** However clients interleave: as soon as worker and stopping thread have made `Rank` steps
      between them, the stop has returned. */
  lemma {:induction false} StopReturns(s: System, steps: seq<Step>)
    requires Inv(s) && UnderWay(s) && IsRun(s, steps) && OwnSteps(steps) >= Rank(s)
    ensures Returns(s, steps)
    decreases |steps|
  {
    hide Inv, Enabled, Apply, Rank;
    RankIsPositive(s);
    assert steps != [];
    var d := Apply(s, steps[0]);
    StepKeeps(s, steps[0]);
    StopAdvances(s, steps[0]);
    if d.stopper != Stopped { StopReturns(d, steps[1..]); }
  }

  lemma RankIsPositive(s: System)
    requires UnderWay(s)
    ensures Rank(s) > 0
  {
  }

  /** The same for every reachable state. */
  lemma NoDeadlock(s: System, steps: seq<Step>)
    requires Initial(s) && IsRun(s, steps)
    ensures var d := RunFrom(s, steps);
      Quiescent(d) || exists e: Step :: Enabled(d, e) && !e.IsFresh()
  {
    hide Inv, Initial, Quiescent, Enabled;
    InitialInv(s);
    RunKeeps(s, steps);
    if !Quiescent(RunFrom(s, steps)) { NeverStuck(RunFrom(s, steps)); }
  }

  lemma StopCompletes(s: System, before: seq<Step>, after: seq<Step>)
    requires Initial(s) && IsRun(s, before) && UnderWay(RunFrom(s, before))
    requires IsRun(RunFrom(s, before), after) && OwnSteps(after) >= Rank(RunFrom(s, before))
    ensures Returns(RunFrom(s, before), after)
    ensures exists e: Step :: Enabled(RunFrom(s, before), e) && !e.OfClient()
  {
    hide Inv, Initial, Enabled, UnderWay, Rank;
    InitialInv(s);
    RunKeeps(s, before);
    StopReturns(RunFrom(s, before), after);
    StopGoesOn(RunFrom(s, before));
  }
}
