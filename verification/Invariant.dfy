/** Everything that holds of a coordinator between two steps. */
module Invariants {
  import opened Domain
  import opened World
  import opened Subscribers
  import opened Runtime
  import opened Recovery
  import opened Durability
  import opened Timers
  import opened Healing
  import opened Aggregate
  import opened Booting
  import opened Theorems
  import opened Replay
  import opened ReplayRuns
  import opened Reporting

  /** Durable, timed, healed and truthful; the health up to date; and every subscriber following. */
  ghost predicate Good(c: Coord) {
    Sane(c) && Reports(c.hub) && exists v: Image :: Tracks(c, v)
  }

  lemma HandleKeepsGood(env: Environment, c: Coord, cmd: Command)
    requires Good(c)
    ensures Good(Handle(env, c, cmd).coord)
  {
    hide Handle, Durable, Timed, Healed, Truthful, Reports, Tracks;
    HandleKeepsSane(env, c, cmd);
    HandleReports(env, c, cmd);
    var v: Image :| Tracks(c, v);
    var _ := HandleTracks(env, c, v, cmd);
  }

  lemma TickKeepsGood(env: Environment, c: Coord, order: seq<TimerId>)
    requires Good(c)
    ensures Good(Tick(env, c, order))
  {
    hide Tick, Durable, Timed, Healed, Truthful, Reports, Tracks;
    TickKeepsSane(env, c, order);
    TickReports(env, c, order);
    var v: Image :| Tracks(c, v);
    var _ := TickTracks(env, c, v, order);
  }

  lemma BootIsGood(env: Environment, w: World)
    requires WorldOk(w)
    ensures match Boot(env, w)
      case Up(c) => Good(c)
      case Down(w1) => WorldOk(w1)
  {
    hide Boot, Durable, Timed, Healed, Truthful, Reports, Tracks, WorldOk;
    BootIsSane(env, w);
    BootReports(env, w);
    var _ := BootTracks(env, w);
  }

  lemma GoodFacts(c: Coord)
    requires Good(c)
    ensures Durable(c) && Agreement(c) && UniqueActions(c.mem.actions) && UniqueEntries(c.mem.outbox)
    ensures RegistryOk(c.hub) && GapFree(c.hub.subs, c.world.trace, None)
  {
    hide GapFree, RegistryOk, AllAgree, Timed, Healed, Truthful, Reports, Faithful;
  }

  /** All invariants at the end of every run. */
  lemma {:induction false} RunIsGood(env: Environment, m: Machine, steps: seq<Step>)
    requires Installed(m)
    ensures match Run(env, m, steps)
      case Up(c) => Good(c)
      case Down(w) => WorldOk(w)
    decreases |steps|
  {
    hide Handle, Tick, Boot, Crashed, Good, WorldOk;
    if steps == [] {
      InstalledIsOk(m);
    } else {
      var before, step := Run(env, m, steps[..|steps| - 1]), steps[|steps| - 1];
      RunIsGood(env, m, steps[..|steps| - 1]);
      match step
      case CrashAndBoot(lost) =>
        if before.Up? { GoodWorld(before.coord); }
        CrashedOk(WorldOf(before), lost);
        BootIsGood(env, Crashed(WorldOf(before), lost));
      case Serve(cmd) => if before.Up? { HandleKeepsGood(env, before.coord, cmd); }
      case Clock(order) => if before.Up? && !before.coord.stopping { TickKeepsGood(env, before.coord, order); }
    }
  }

  lemma GoodWorld(c: Coord)
    requires Good(c)
    ensures WorldOk(c.world)
  {
    hide Durable, WorldOk, Timed, Healed, Truthful, Reports, Tracks;
    DurableWorld(c);
  }
}
