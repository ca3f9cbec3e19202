/** The retry clock: whenever the gate does not enforce the policy, the next attempt is armed exactly as
    the retry policy has answered for it. */
module Retrying {
  import opened Domain
  import opened World
  import opened Subscribers
  import opened Runtime
  import opened Recovery
  import opened Durability
  import opened Timers
  import opened Healing
  import opened Aggregate
  import opened Booting
  import opened Outcomes
  import opened Wake
  import opened Theorems
  import opened Settling
  import opened Ticks
  import opened Effects
  import opened Startup

  /** As long as no stop was requested: metadata are on record exactly if the gate has refused last, and then
      the retry of the attempt on record is armed, or known to have got a zero delay. */
  ghost predicate RetryTold(env: Environment, c: Coord) {
    !c.world.stopSeen ==>
      && (c.mem.retry.None? <==> c.hub.health.gateHealthy)
      && (c.mem.retry.Some? ==> Armed(env, 0, c.world.instant, c))
  }

  lemma FollowsKeepsTold(env: Environment, c: Coord, d: Coord)
    requires RetryTold(env, c) && (c.world.stopSeen ==> d.world.stopSeen) && c.world.instant <= d.world.instant
    requires d.world.stopSeen || RetryFollows(env, c, d)
    ensures RetryTold(env, d)
  {
    hide ArmedFor;
    if !d.world.stopSeen && d.mem.retry.Some? {
      if GateAside(c, d) { ArmedStays(env, 0, c, d); } else { ArmedEarlier(env, 0, c.world.instant, d); }
    }
  }

  // ---- commands ----------------------------------------------------------------------------------------

  lemma SetPolicyFollows(env: Environment, c: Coord, target: DesiredInternet, reason: ChangeReason)
    ensures var d := SetPolicy(env, c, target, reason).coord;
      && c.world.instant <= d.world.instant && (c.world.stopSeen ==> d.world.stopSeen)
      && (d.world.stopSeen || RetryFollows(env, c, d))
  {
    hide SetPolicy, Commit, ArmedFor, Confirms, Refusal;
    SetPolicyOutcome(env, c, target, reason);
    SetPolicyFlags(env, c, target, reason);
  }

  lemma SetPolicyFlags(env: Environment, c: Coord, target: DesiredInternet, reason: ChangeReason)
    ensures var d := SetPolicy(env, c, target, reason).coord;
      && c.world.instant <= d.world.instant && (c.world.stopSeen ==> d.world.stopSeen)
      && (SaveOk(env, c) ==> d.world.stopSeen == GateAsked(env, c, target).world.stopSeen)
      && (!SaveOk(env, c) ==> GateAside(c, d))
  {
    hide Commit, PolicyOutcome, TellPolicy, Recompute;
  }

  lemma HandleKeepsTold(env: Environment, c: Coord, cmd: Command)
    requires Durable(c) && RetryTold(env, c)
    ensures RetryTold(env, Handle(env, c, cmd).coord)
  {
    hide Durable, RetryTold, RetryFollows, SetPolicy;
    match cmd
    case ImmediateInternetBlock(who) =>
      SetPolicyFollows(env, c, Blocked, ImmediateCommand(who));
      if !c.stopping { FollowsKeepsTold(env, c, SetPolicy(env, c, Blocked, ImmediateCommand(who)).coord); }
    case RestoreInternet(who) =>
      SetPolicyFollows(env, c, Unrestricted, ManualRestore(who));
      if !c.stopping { FollowsKeepsTold(env, c, SetPolicy(env, c, Unrestricted, ManualRestore(who)).coord); }
    case _ => AsideKeepsTold(env, c, cmd);
  }

  lemma AsideKeepsTold(env: Environment, c: Coord, cmd: Command)
    requires Durable(c) && RetryTold(env, c) && !cmd.ImmediateInternetBlock? && !cmd.RestoreInternet?
    ensures RetryTold(env, Handle(env, c, cmd).coord)
  {
    hide Durable, RetryTold, Handle, Armed;
    AsideCommands(env, c, cmd);
    HandleInstant(env, c, cmd);
    FollowsKeepsTold(env, c, Handle(env, c, cmd).coord);
  }

  // ---- ticks and boots -----------------------------------------------------------------------------------

  lemma TickInstant(env: Environment, c: Coord, order: seq<TimerId>)
    ensures c.world.instant <= Tick(env, c, order).world.instant && (c.world.stopSeen ==> Tick(env, c, order).world.stopSeen)
  {
    hide WarnAll, FireAll, Retry, Expired;
    var c0 := LookForStop(env, c);
    if !c0.world.stopSeen {
      var now, c1 := Mono(env, c0), Looked(c0);
      WarnAllInstant(env, c1, order, now);
      var c2 := WarnAll(env, c1, order, now);
      FireAllInstant(env, c2, c.timers, Expired(c.timers, order, now));
      RetryInstant(env, FireAll(env, c2, c.timers, Expired(c.timers, order, now)).coord.(retryAt := None));
    }
  }

  lemma {:induction false} FireAllInstant(env: Environment, c: Coord, kinds: map<TimerId, Anchor>, due: seq<TimerId>)
    ensures c.world.instant <= FireAll(env, c, kinds, due).coord.world.instant
    decreases |due|
  {
    hide FireBlock, FireShutdown;
    if due != [] {
      FireAllInstant(env, c, kinds, due[..|due| - 1]);
      InstantGrows(env, LookForStop(env, FireAll(env, c, kinds, due[..|due| - 1]).coord), due[|due| - 1]);
    }
  }

  lemma BootTold(env: Environment, w: World)
    requires WorldOk(w)
    ensures var m := Boot(env, w); m.Up? ==> RetryTold(env, m.coord)
  {
    hide Boot, WorldOk, TimersRestored, ActionsRestored, ArmedFor, Confirms, Refusal;
    DiskFacts(w);
    var m := Boot(env, w);
    if m.Up? {
      BootOutcome(env, w);
      if m.coord.mem.retry.Some? { ArmedEarlier(env, 0, w.instant, m.coord); }
    }
  }

  lemma {:induction false} RunTold(env: Environment, m: Machine, steps: seq<Step>)
    requires Installed(m)
    ensures var end := Run(env, m, steps); end.Up? ==> RetryTold(env, end.coord)
    decreases |steps|
  {
    hide Handle, Tick, Boot, Crashed, RetryTold, Durable, Timed, Healed, Truthful, RetryFollows, WorldOk;
    if steps != [] {
      var before, step := Run(env, m, steps[..|steps| - 1]), steps[|steps| - 1];
      RunTold(env, m, steps[..|steps| - 1]);
      RunIsSane(env, m, steps[..|steps| - 1]);
      match step
      case CrashAndBoot(lost) =>
        if before.Up? { DurableWorld(before.coord); }
        CrashedOk(WorldOf(before), lost);
        BootTold(env, Crashed(WorldOf(before), lost));
      case Serve(cmd) => if before.Up? { HandleKeepsTold(env, before.coord, cmd); }
      case Clock(order) =>
        if before.Up? {
          TickRetry(env, before.coord, order);
          TickInstant(env, before.coord, order);
          FollowsKeepsTold(env, before.coord, Tick(env, before.coord, order));
        }
    }
  }

  /** At the end of every run, as long as no stop was requested: a gate that has refused last leaves the
      number of refusals in a row on record, and the next attempt is due when the delay the policy has given
      for that number has passed since the clock was read then; a policy that answers zero is on record as
      broken, and no attempt is due. */
  lemma RetryIsArmed(env: Environment, m: Machine, steps: seq<Step>)
    requires Installed(m) && Run(env, m, steps).Up?
    ensures var c := Run(env, m, steps).coord;
      c.mem.retry.Some? && !c.world.stopSeen ==>
        exists i: nat, j: nat :: i <= j < c.world.instant && ArmedAt(env, i, j, c.mem.retry.value.attempts, c)
  {
    hide Run, ArmedAt;
    RunTold(env, m, steps);
  }
}
