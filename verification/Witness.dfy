/** Two short runs of a machine installed with an ordinary snapshot that show what the code does not
    promise: an announcement that never comes, and a worker that is woken at once. */
module Witnesses {
  import opened Domain
  import opened World
  import opened Subscribers
  import opened Runtime
  import opened Recovery
  import opened Safety
  import opened Aggregate
  import opened Wake
  import opened Replay
  import opened Theorems

  function Fresh(disk: PersistentState, nextId: nat): Machine {
    Down(World(disk, Start(disk), nextId, 0, false, false))
  }

  /** The gate obeys, the power controller refuses, saves succeed before instant 20, and the monotonic
      clock jumps by a second at the instant `jump`. */
  function StubbornWorld(jump: nat): Environment {
    (n: nat) => Moment(n < 20, GateAnswer(Success, Seen(ObservedUnrestricted)), Failure("refused"), false,
                       if n < jump then 0 else NANOS_PER_SECOND, 0, (attempt: nat) => 1, (sub: nat) => Receiver(0, true), true)
  }

  // ---- announcements ---------------------------------------------------------------------------

  lemma TellNobody(env: Environment, c: Coord, e: Event)
    requires c.hub.subs == map[]
    ensures Tell(env, c, e) == c.(world := c.world.Did(Broadcast(e)))
  {
    assert FailedSends(env(c.world.instant), map[], None) == {};
  }

  /** The registry of one subscriber with this stream. */
  function One(s: Subscriber): map<nat, Subscriber> { map[1 := s] }

  lemma EmitToOne(env: Environment, hub: Hub, w: World, s: Subscriber, e: Event, excluded: Option<nat>)
    requires hub.subs == One(s) && |s.stream| < QUEUE_CAPACITY && env(w.instant).receiver(1) == Receiver(0, true)
    ensures FailedSends(env(w.instant), hub.subs, excluded) == {}
    ensures Deliver(env(w.instant), hub.subs, e, None) == One(s.(stream := s.stream + [e]))
    ensures Emit(env, hub, w, e) == Sent(hub.(subs := One(s.(stream := s.stream + [e]))), w.Did(Broadcast(e)), true)
  {
  }

  // ---- the boot ----------------------------------------------------------------------------------

  /** Recovery at time 0 has nothing to do. */
  ghost predicate Restful(disk: PersistentState, nextId: nat) {
    && disk.desired.Unrestricted? && disk.retry.None?
    && RecoverState(disk, 0, nextId) == disk && MissedActions(disk.actions, 0) == []
    && ReconciledState(disk, OverdueBlocks(disk.actions, 0)) == disk
    && DeriveShutdown(Idle, disk.actions) == Idle
  }

  ghost predicate JustBooted(c: Coord, disk: PersistentState, nextId: nat) {
    c == Coord(disk, None, ObservedUnrestricted, Idle, RecoverTimers(disk.actions, 0, 0), None, false, InitialHub(),
               World(disk, c.world.trace, nextId, 5, false, false), nextId)
  }

  lemma FreshBoot(disk: PersistentState, nextId: nat, jump: nat)
    requires jump >= 5 && Restful(disk, nextId)
    ensures var m := Advance(StubbornWorld(jump), Fresh(disk, nextId), CrashAndBoot(0)); m.Up? && JustBooted(m.coord, disk, nextId)
  {
    hide RecoverState, MissedActions, OverdueBlocks, RecoverTimers, ReconciledState, DeriveShutdown, Tell;
    var env, w := StubbornWorld(jump), Fresh(disk, nextId).world;
    assert Crashed(w, 0) == w;
    var m := Recover(env, w);
    assert m.Up? && m.coord.mem == disk && m.coord.world.instant == 3;
    var c1 := ApplyGate(env, m.coord, Unrestricted);
    TellNobody(env, c1, InternetPolicyChanged(Unrestricted, ObservedUnrestricted, StartupRestoration));
  }

  lemma RunOne(env: Environment, m: Machine, steps: seq<Step>, step: Step)
    ensures Run(env, m, steps + [step]) == Advance(env, Run(env, m, steps), step)
    ensures Run(env, m, [step]) == Advance(env, m, step)
  {
    hide Advance;
    assert (steps + [step])[..|steps|] == steps;
    assert [step][..0] == [];
  }

  // ---- a worker that spins -----------------------------------------------------------------------

  /** A block has failed, and its deadline is still a millisecond ahead: the wall clock was set back. */
  function FailedBlock(): PersistentState {
    PersistentState(Unrestricted, [Action(1, BlockInternet, 1, 0, ParentLocalPin, {M60, M30, M20, M10, M3}, Failed("refused"))], None, [])
  }

  lemma FailedBlockRests()
    ensures Installed(Fresh(FailedBlock(), 2)) && Restful(FailedBlock(), 2)
    ensures RecoverTimers(FailedBlock().actions, 0, 0) == map[1 := Anchor(BlockInternet, 1, NANOS_PER_MILLI, 1, 0, 1)]
  {
    hide RecoverState, RecoverTimers, MissedActions, OverdueBlocks, ReconciledState, DeriveShutdown, Installed;
    FailedBlockRecovers();
    FailedBlockStays();
  }

  lemma FailedBlockRecovers()
    ensures var s := FailedBlock(); RecoverState(s, 0, 2) == s && MissedActions(s.actions, 0) == [] && OverdueBlocks(s.actions, 0) == {}
    ensures RecoverTimers(FailedBlock().actions, 0, 0) == map[1 := Anchor(BlockInternet, 1, NANOS_PER_MILLI, 1, 0, 1)]
  {
    var s := FailedBlock();
    var a := s.actions[0];
    AllThresholdsListed();
    assert s.actions == [a] && [a][..0] == [];
    assert !IsOverdue(a, 0);
    assert OverdueBlocks(s.actions, 0) == {};
    assert a.emitted + (set t <- RecoveryPassed(1, a.emitted)) == a.emitted;
    assert RecoverOne(a, 0) == a;
    assert RecoverActions(s.actions, 0) == [a];
  }

  lemma FailedBlockStays()
    ensures var s := FailedBlock(); ReconciledState(s, {}) == s && DeriveShutdown(Idle, s.actions) == Idle
    ensures Installed(Fresh(FailedBlock(), 2))
  {
    var s := FailedBlock();
    assert s.actions == [s.actions[0]] && [s.actions[0]][..0] == [];
    assert CompleteBlocks(s.actions, {}) == [s.actions[0]];
  }

  /** This run of two steps, a boot and a tick after the deadline, ends with the worker woken at the
      instant of the tick, although no save has failed and no stop was requested. */
  lemma StaleAnchorSpins()
    ensures Installed(Fresh(FailedBlock(), 2))
    ensures var end := Run(StubbornWorld(5), Fresh(FailedBlock(), 2), [CrashAndBoot(0), Clock([1])]);
      && end.Up? && end.coord.hub.health.persistenceHealthy && !end.coord.world.stopSeen
      && DueAt(end.coord, NANOS_PER_SECOND)
  {
    hide Installed, Restful, FailedBlock, Tick, RecoverTimers, DueAt, Boot, Crashed, Run;
    var env, m := StubbornWorld(5), Fresh(FailedBlock(), 2);
    FailedBlockRests();
    FreshBoot(FailedBlock(), 2, 5);
    RunOne(env, m, [], CrashAndBoot(0));
    RunOne(env, m, [CrashAndBoot(0)], Clock([1]));
    assert [CrashAndBoot(0)] + [Clock([1])] == [CrashAndBoot(0), Clock([1])];
    var c := Run(env, m, [CrashAndBoot(0)]).coord;
    StaleTick(c);
    IsDue(Tick(env, c, [1]), 1, NANOS_PER_SECOND);
  }

  lemma IsDue(c: Coord, id: TimerId, now: nat)
    requires id in c.timers && c.timers[id].target <= now
    ensures DueAt(c, now)
  {
    assert WakeInstant(c, c.timers[id].target);
  }

  lemma StaleTick(c: Coord)
    requires JustBooted(c, FailedBlock(), 2)
    requires c.timers == map[1 := Anchor(BlockInternet, 1, NANOS_PER_MILLI, 1, 0, 1)]
    ensures var d := Tick(StubbornWorld(5), c, [1]);
      d.timers == c.timers && d.hub == c.hub && !d.world.stopSeen && TickTime(StubbornWorld(5), c) == NANOS_PER_SECOND
  {
    hide FireBlock, FireShutdown, RecoverTimers;
    var env := StubbornWorld(5);
    assert [1][..0] == [];
    var c1 := Looked(LookForStop(env, c));
    assert WarnAll(env, c1, [1], NANOS_PER_SECOND) == c1;
    assert Expired(c.timers, [1], NANOS_PER_SECOND) == [1];
    var c2 := LookForStop(env, c1);
    NotFired(env, c2, 1);
    assert FireAll(env, c1, c.timers, [1]) == Firing(LookForStop(env, c2), false);
  }

  lemma NotFired(env: Environment, c: Coord, id: TimerId)
    requires |c.mem.actions| == 1 && c.mem.actions[0].id == id && !c.mem.actions[0].exec.Pending?
    ensures FireBlock(env, c, id) == LookForStop(env, c)
  {
    hide Commit, FiredBlock;
  }

  // ---- an announcement that never comes --------------------------------------------------------

  function Nothing(): PersistentState { PersistentState(Unrestricted, [], None, []) }

  /** The shutdown scheduled in this run, and its snapshot. */
  function TheShutdown(exec: ExecutionState): PersistentState {
    PersistentState(Unrestricted, [NewAction(1, ShutdownComputer, 1, ParentLocalPin, 0).(exec := exec)], None, [])
  }

  function TheAnchor(): Anchor { Anchor(ShutdownComputer, 1000, NANOS_PER_SECOND, 1, 0, 1) }

  ghost predicate JustScheduled(c: Coord) {
    c == Coord(TheShutdown(Pending), None, ObservedUnrestricted, Scheduled, map[1 := TheAnchor()], None, false, InitialHub(),
               World(TheShutdown(Pending), c.world.trace, 2, 10, false, false), 1)
  }

  function OneSession(): Health { InitialHub().health.(sessions := 1) }

  function Newcomer(stream: seq<Event>, since: nat): Subscriber {
    Subscriber(Snapshot(Unrestricted, ObservedUnrestricted, Scheduled, TheShutdown(Pending).actions, OneSession()), stream, since)
  }

  ghost predicate JustSubscribed(c: Coord, since: nat) {
    c == Coord(TheShutdown(Pending), None, ObservedUnrestricted, Scheduled, map[1 := TheAnchor()], None, false,
               InitialHub().(health := OneSession(), subs := One(Newcomer([], since)), nextSub := Some(2)),
               World(TheShutdown(Pending), c.world.trace, 2, 12, false, false), 1)
  }

  lemma ScheduleStep(c: Coord)
    requires JustBooted(c, Nothing(), 1)
    ensures JustScheduled(Schedule(StubbornWorld(12), c, ShutdownComputer, 1, ParentLocalPin).coord)
  {
    hide Tell;
    var env := StubbornWorld(12);
    var c2 := Looked(Looked(c));
    NothingSelected(ALL_THRESHOLDS);
    assert CreationDue(1) == [];
    var after := TheShutdown(Pending);
    var a := after.actions[0];
    var c4 := Commit(env, c2.(world := c2.world.Draw(1)), after);
    assert ScheduleEdit(c.mem, a, []) == after;
    var c5 := c4.(timers := c4.timers[1 := TheAnchor()]);
    TellNobody(env, c5, TimerScheduled(a));
    var c6 := Tell(env, c5, TimerScheduled(a));
    var c7 := c6.(shutdown := Scheduled);
    TellNobody(env, c7, ShutdownStateChanged(Idle, Scheduled));
  }

  lemma {:induction false} NothingSelected(ts: seq<Threshold>)
    ensures SelectThresholds(ts, 1, 2, {}) == []
    decreases |ts|
  {
    if ts != [] { NothingSelected(ts[..|ts| - 1]); }
  }

  lemma SubscribeStep(c: Coord) returns (since: nat)
    requires JustScheduled(c)
    ensures JustSubscribed(Subscribe(StubbornWorld(12), c).coord, since)
  {
    hide NewAction;
    var env := StubbornWorld(12);
    var c1 := Enlist(c, 1);
    var first := Subscriber(StatusOf(c), [], 0);
    assert c1.hub.subs == One(first) && |c1.hub.subs| == 1;
    var counted := c1.hub.health.(sessions := 1);
    assert FailedSends(env(10), One(first), Some(1)) == {};
    assert Deliver(env(10), One(first), HealthUpdated(counted), Some(1)) == One(first);
    var c2 := Reconciled(env, c1, Some(1));
    assert c2.hub == c1.hub.(health := counted);
    since := BroadcastCount(c2);
    assert Register(c2, 1).hub.subs == One(Newcomer([], since));
  }

  /** What the tick has done up to the point where the power controller has answered. */
  ghost predicate JustRefusing(c: Coord, since: nat) {
    c == Coord(TheShutdown(Executing), None, ObservedUnrestricted, Scheduled, map[], None, false,
               InitialHub().(health := OneSession(), subs := One(Newcomer([TimerExpired(1, ShutdownComputer)], since)), nextSub := Some(2)),
               World(TheShutdown(Executing), c.world.trace, 2, 20, false, false), 1)
  }

  /** The start of the shutdown is on disk. */
  ghost predicate JustStarted(c: Coord, since: nat) {
    c == Coord(TheShutdown(Executing), None, ObservedUnrestricted, Scheduled, map[1 := TheAnchor()], None, false,
               InitialHub().(health := OneSession(), subs := One(Newcomer([], since)), nextSub := Some(2)),
               World(TheShutdown(Executing), c.world.trace, 2, 17, false, false), 1)
  }

  lemma StartStep(c: Coord, since: nat) returns (d: Coord)
    requires JustSubscribed(c, since)
    ensures var env := StubbornWorld(12); JustStarted(d, since) && Tick(env, c, [1]) == FiredShutdown(env, d, 1)
  {
    hide NewAction, FiredShutdown, FireShutdown, FireBlock, InitialHub, Commit;
    var env := StubbornWorld(12);
    var c1 := Looked(LookForStop(env, c));
    assert [1][..0] == [];
    assert WarnAll(env, c1, [1], NANOS_PER_SECOND) == c1;
    assert Expired(c.timers, [1], NANOS_PER_SECOND) == [1];
    var c2 := LookForStop(env, c1);
    StartSaved(c2, since);
    d := Commit(env, LookForStop(env, c2), TheShutdown(Executing));
    assert FireAll(env, c1, c.timers, []) == Firing(c1, false);
    var f := FireAll(env, c1, c.timers, [1]);
    assert !c2.world.stopSeen && c.timers[1].kind.ShutdownComputer?;
    assert f == Firing(FireShutdown(env, c2, 1), false);
    assert f.coord == FiredShutdown(env, d, 1);
    FiredKeepsRetry(env, d, 1);
  }

  lemma StartSaved(c: Coord, since: nat)
    requires JustSubscribed(c.(world := c.world.(instant := 12)), since) && c.world.instant == 15
    ensures var env := StubbornWorld(12);
      var d := Commit(env, LookForStop(env, c), TheShutdown(Executing));
      JustStarted(d, since) && FireShutdown(env, c, 1) == FiredShutdown(env, d, 1)
  {
    hide FiredShutdown, Emit;
    assert SetExec(c.mem.actions, 0, Executing) == TheShutdown(Executing).actions;
  }

  lemma RefusalStep(c: Coord, since: nat) returns (d: Coord)
    requires JustStarted(c, since)
    ensures var env := StubbornWorld(12); JustRefusing(d, since) && FiredShutdown(env, c, 1) == PowerOutcome(env, d, 1, Failure("refused"))
  {
    hide Emit, PowerOutcome, TheShutdown;
    var env := StubbornWorld(12);
    var c1 := c.(timers := c.timers - {1});
    assert c1.timers == map[];
    EmitToOne(env, c1.hub, c1.world, Newcomer([], since), TimerExpired(1, ShutdownComputer), None);
    assert [] + [TimerExpired(1, ShutdownComputer)] == [TimerExpired(1, ShutdownComputer)];
    var c2 := LookForStop(env, Tell(env, c1, TimerExpired(1, ShutdownComputer)));
    d := c2.(world := c2.world.Did(PowerCall(1, Failure("refused"))));
  }

  lemma FiredKeepsRetry(env: Environment, c: Coord, id: TimerId)
    ensures FiredShutdown(env, c, id).retryAt == c.retryAt
  {
    hide Tell, MarkPower, PowerAccepted, PowerRefused, Recompute;
  }

  /** Nobody is told: the failure cannot be saved. */
  lemma SuppressedStep(c: Coord, since: nat)
    requires JustRefusing(c, since)
    ensures var d := PowerOutcome(StubbornWorld(12), c, 1, Failure("refused"));
      && d.shutdown == Idle && 1 in d.hub.subs
      && Fold(d.hub.subs[1].snapshot, d.hub.subs[1].stream).shutdown == Scheduled
  {
    hide NewAction, Emit, Fold, FailEdit, DeriveShutdown;
    var env := StubbornWorld(12);
    var expired := TimerExpired(1, ShutdownComputer);
    var c1 := MarkPower(env, c, Some("refused"));
    var hub1 := Recompute(c.hub.(powerError := Some("refused")));
    var e1 := HealthUpdated(hub1.health);
    EmitToOne(env, hub1, c.world, Newcomer([expired], since), e1, None);
    assert [expired] + [e1] == [expired, e1];
    assert c1.hub.subs == One(Newcomer([expired, e1], since));
    Failing(c);
    var failed := FailEdit(c.mem, 1, "refused");
    var edited := failed.(outbox := failed.outbox + [Notice(2, "refused")]);
    var c2 := c1.(world := c1.world.Draw(1), shutdown := Idle);
    var b := AfterSave(c2, edited, false, true);
    var hub2 := Recompute(PersistenceMark(b.hub, false));
    var e2 := HealthUpdated(hub2.health);
    EmitToOne(env, hub2, b.world, Newcomer([expired, e1], since), e2, None);
    assert [expired, e1] + [e2] == [expired, e1, e2];
    var d := PowerOutcome(env, c, 1, Failure("refused"));
    assert edited.actions == failed.actions && !SaveOk(env, c2);
    assert d == PowerRefused(env, c, c1, 1, "refused") == CommitPost(env, c2, edited);
    assert d.hub.subs == One(Newcomer([expired, e1, e2], since));
    FoldKeepsShutdown(Newcomer([expired, e1, e2], since));
  }

  lemma Failing(c: Coord)
    requires c.mem == TheShutdown(Executing)
    ensures FindAction(c.mem.actions, 1) == 0
    ensures var f := FailEdit(c.mem, 1, "refused"); f.outbox == [] && DeriveShutdown(Scheduled, f.actions) == Idle
  {
  }

  lemma {:induction false} FoldKeepsShutdown(s: Subscriber)
    requires forall e <- s.stream :: !e.ShutdownStateChanged?
    ensures Fold(s.snapshot, s.stream).shutdown == s.snapshot.shutdown
    decreases |s.stream|
  {
    hide PendingTable, AddWarning;
    if s.stream != [] { FoldKeepsShutdown(s.(stream := s.stream[..|s.stream| - 1])); }
  }

  /** This run, in which the power controller refuses the shutdown and the failure cannot be saved,
      leaves a registered subscriber with a shutdown state the coordinator has given up. */
  lemma ShutdownEventIsSuppressed()
    ensures Installed(Fresh(Nothing(), 1))
    ensures var steps := [CrashAndBoot(0), Serve(ScheduleAction(ShutdownComputer, 1, ParentLocalPin)), Serve(SubscribeEvents), Clock([1])];
      var end := Run(StubbornWorld(12), Fresh(Nothing(), 1), steps);
      && end.Up? && end.coord.shutdown == Idle && 1 in end.coord.hub.subs
      && Fold(end.coord.hub.subs[1].snapshot, end.coord.hub.subs[1].stream).shutdown == Scheduled
  {
    hide Boot, Crashed, Run, Schedule, Subscribe, Tick, PowerOutcome, Fold, Nothing, StubbornWorld;
    var env, m := StubbornWorld(12), Fresh(Nothing(), 1);
    var s1, s2, s3, s4 := CrashAndBoot(0), Serve(ScheduleAction(ShutdownComputer, 1, ParentLocalPin)), Serve(SubscribeEvents), Clock([1]);
    NothingRests();
    FreshBoot(Nothing(), 1, 12);
    RunOne(env, m, [], s1);
    RunOne(env, m, [s1], s2);
    RunOne(env, m, [s1, s2], s3);
    RunOne(env, m, [s1, s2, s3], s4);
    assert [s1] + [s2] == [s1, s2] && [s1, s2] + [s3] == [s1, s2, s3] && [s1, s2, s3] + [s4] == [s1, s2, s3, s4];
    ScheduleStep(Run(env, m, [s1]).coord);
    var since := SubscribeStep(Run(env, m, [s1, s2]).coord);
    var c := Run(env, m, [s1, s2, s3]).coord;
    var d := StartStep(c, since);
    d := RefusalStep(d, since);
    SuppressedStep(d, since);
  }

  lemma NothingRests()
    ensures Installed(Fresh(Nothing(), 1)) && Restful(Nothing(), 1)
  {
  }
}
