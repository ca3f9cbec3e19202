/** All that a tick promises, in one place. */
module Ticking {
  import opened Domain
  import opened World
  import opened Runtime
  import opened Recovery
  import opened Durability
  import opened Timers
  import opened Booting
  import opened Wake
  import opened Settling
  import opened Liveness
  import opened Ticks
  import opened Restarts
  import opened Warnings
  import opened Invariants

  /** A pending action in one tick: served if its time has come, and otherwise marked as far as it has passed
      its thresholds. */
  ghost predicate ActionServed(env: Environment, c: Coord, d: Coord, a: Action, now: nat) {
    && a.id in c.timers && ServedAt(env, c, d, a, c.timers[a.id].target, now)
    && (now < c.timers[a.id].target ==> HasMarked(d.mem.actions, a, c.timers[a.id], now))
  }

  /** From `c` to `d`, when no stop is seen: the retry follows the answers of the gate; and with saves that
      succeed exactly what is due is asked for, and every pending action is served. */
  ghost predicate TickServed(env: Environment, c: Coord, order: seq<TimerId>, d: Coord) {
    var now := TickTime(env, c);
    && RetryFollows(env, c, d)
    && (NothingDue(c, now) ==> NoticePerMark(c, d))
    && (Distinct(order) && Kind(env, c.world.instant, now) ==>
          && CalledWithRetry(env, c, d, DueCalls(c.mem.actions, c.timers, order, now), now)
          && forall a <- c.mem.actions :: a.exec.Pending? && a.id in order ==> ActionServed(env, c, d, a, now))
  }

  lemma TickIsServed(env: Environment, c: Coord, order: seq<TimerId>)
    requires Good(c)
    ensures Tick(env, c, order).world.stopSeen || TickServed(env, c, order, Tick(env, c, order))
  {
    hide Good, Durable, Timed, Tick, RetryFollows, NoticePerMark, NothingDue, Kind, CalledWithRetry, ActionServed, DueCalls, Distinct;
    var d, now := Tick(env, c, order), TickTime(env, c);
    GoodFacts(c);
    GoodIsTimed(c);
    TickRetry(env, c, order);
    NoticesOfTick(env, c, order);
    if Distinct(order) && Kind(env, c.world.instant, now) && !d.world.stopSeen {
      TickRetriesExactly(env, c, order);
      ExpiredAreGone(env, c, order);
      GoneIsDue(c.mem.actions, c.timers, d.timers, order, now);
      forall a | a in c.mem.actions && a.exec.Pending? && a.id in order ensures ActionServed(env, c, d, a, now) {
        OneIsServed(env, c, order, a);
      }
    }
  }

  lemma GoodIsTimed(c: Coord)
    requires Good(c)
    ensures Timed(c)
  {
  }

  lemma OneIsServed(env: Environment, c: Coord, order: seq<TimerId>, a: Action)
    requires Durable(c) && Timed(c) && Distinct(order) && Kind(env, c.world.instant, TickTime(env, c))
    requires a in c.mem.actions && a.exec.Pending? && a.id in order && !Tick(env, c, order).world.stopSeen
    ensures ActionServed(env, c, Tick(env, c, order), a, TickTime(env, c))
  {
    hide Durable, Timed, Tick, Kind, ServedAt, HasMarked, Distinct;
    PendingHasAnchor(c, a);
    TickServes(env, c, order, a);
    if TickTime(env, c) < c.timers[a.id].target { TickMarks(env, c, order, a); }
  }
}
