/** The write-ahead discipline: how memory, disk and history of a running coordinator agree, and
    that saving, telling and calling the gate keep it so. */
module Durability {
  import opened Domain
  import opened World
  import opened Subscribers
  import opened Runtime
  import opened Safety

  /** Without a pending candidate the disk equals memory; with one, memory equals the candidate
      and the persistence is marked unhealthy. */
  ghost predicate Agreement(c: Coord) {
    match c.pending
    case None => c.mem == c.world.disk
    case Some(p) => c.mem == p && !c.hub.health.persistenceHealthy
  }

  ghost predicate Durable(c: Coord) {
    && Agreement(c)
    && c.world.disk == DiskOf(c.world.trace)
    && SafeTrace(c.world.trace)
    && Below(c.world.trace, c.world.nextId)
    && Encodable(c.mem) && IdsBelow(c.mem, c.world.nextId)
    && Follows(c.world.disk.actions, c.mem.actions, Known(c.world.trace))
    && Appends(Stored(c.world.trace), c.world.disk.outbox, c.mem.outbox)
    && Settled(c.world.trace)
  }

  // ---- quiet steps ---------------------------------------------------------------------------

  /** From `c` to `d` nothing durable happened, only broadcasts other than warnings. */
  ghost predicate Hushed(c: Coord, d: Coord) {
    && d.mem == c.mem && d.pending == c.pending
    && d.hub.health.persistenceHealthy == c.hub.health.persistenceHealthy
    && d.world.disk == c.world.disk
    && c.world.nextId <= d.world.nextId
    && Quiet(c.world.trace, d.world.trace)
  }

  lemma HushedKeeps(c: Coord, d: Coord)
    requires Hushed(c, d)
    ensures Durable(c) ==> Durable(d)
    ensures DiskOf(d.world.trace) == DiskOf(c.world.trace) && Known(d.world.trace) == Known(c.world.trace)
    ensures Powered(d.world.trace) == Powered(c.world.trace) && Warned(d.world.trace) == Warned(c.world.trace)
    ensures Stored(d.world.trace) == Stored(c.world.trace)
    ensures SafeTrace(c.world.trace) ==> SafeTrace(d.world.trace)
    ensures forall n: nat :: Below(c.world.trace, n) ==> Below(d.world.trace, n)
  {
    QuietFacts(c.world.trace, d.world.trace);
    if Durable(c) { BelowGrows(d.world.trace, c.world.nextId, d.world.nextId); }
  }

  lemma HushedTransitive(b: Coord, c: Coord, d: Coord)
    requires Hushed(b, c) && Hushed(c, d)
    ensures Hushed(b, d)
  {
    QuietTransitive(b.world.trace, c.world.trace, d.world.trace);
  }

  lemma TellHushed(env: Environment, c: Coord, e: Event)
    requires !e.WarningReached?
    ensures Hushed(c, Tell(env, c, e))
  {
    EmitQuiet(env, c.hub, c.world, e);
  }

  /** Marking an error or clearing it. */
  lemma WithHubQuiet(env: Environment, c: Coord, mutated: Hub)
    ensures var d := WithHub(env, c, mutated);
      && d == c.(hub := d.hub, world := d.world)
      && d.world == c.world.(trace := d.world.trace, instant := d.world.instant)
      && d.hub.health.persistenceHealthy == mutated.health.persistenceHealthy
      && Quiet(c.world.trace, d.world.trace)
  {
    var announced := Recompute(mutated);
    EmitQuiet(env, announced, c.world, HealthUpdated(announced.health));
  }

  lemma MarksHushed(env: Environment, c: Coord, error: Option<string>)
    ensures Hushed(c, MarkGate(env, c, error))
    ensures Hushed(c, MarkPower(env, c, error))
    ensures Hushed(c, MarkRetryPolicy(env, c, error))
  {
    WithHubQuiet(env, c, c.hub.(health := c.hub.health.(gateHealthy := error.None?), gateError := error));
    WithHubQuiet(env, c, c.hub.(powerError := error));
    WithHubQuiet(env, c, c.hub.(retryPolicyError := error));
  }

  lemma ScheduleRetryHushed(env: Environment, c: Coord)
    ensures Hushed(c, ScheduleRetry(env, c))
  {
    MarksHushed(env, Looked(c), Some(ZERO_DELAY));
    MarksHushed(env, Looked(c), None);
  }

  lemma SyncShutdownHushed(env: Environment, c: Coord)
    ensures Hushed(c, SyncShutdown(env, c))
  {
    var current := DeriveShutdown(c.shutdown, c.mem.actions);
    TellHushed(env, c.(shutdown := current), ShutdownStateChanged(c.shutdown, current));
  }

  lemma TellPolicyHushed(env: Environment, c: Coord, desired: DesiredInternet, observed: InternetState, reason: ChangeReason)
    ensures Hushed(c, TellPolicy(env, c, desired, observed, reason))
  {
    TellHushed(env, c, InternetPolicyChanged(c.mem.desired, c.observed, reason));
  }

  // ---- saving --------------------------------------------------------------------------------

  /** `later` is `earlier` with entries behind it whose identifiers start at `lo`. */
  ghost predicate GrowsFrom(lo: nat, earlier: seq<OutboxEntry>, later: seq<OutboxEntry>) {
    earlier <= later && forall i :: |earlier| <= i < |later| ==> later[i].id >= lo
  }

  /** `after` is a legal successor of the snapshot `before`: new identifiers start at `lo` and
      end before `hi`, and the outbox only grows at its end. */
  ghost predicate Edit(before: PersistentState, after: PersistentState, lo: nat, hi: nat) {
    && Encodable(after) && IdsBelow(after, hi)
    && (forall b <- after.actions :: b.id >= lo || exists a <- before.actions :: Evolves(a, b))
    && GrowsFrom(lo, before.outbox, after.outbox)
  }

  lemma EvolvesTransitive(a: Action, b: Action, d: Action)
    requires Evolves(a, b) && Evolves(b, d)
    ensures Evolves(a, d)
  {
  }

  lemma {:induction false} WithoutOthers(outbox: seq<OutboxEntry>, ids: set<EntryId>)
    requires forall e <- outbox :: e.id !in ids
    ensures Without(outbox, ids) == outbox
    decreases |outbox|
  {
    if outbox != [] {
      assert outbox == outbox[..|outbox| - 1] + [outbox[|outbox| - 1]];
      WithoutOthers(outbox[..|outbox| - 1], ids);
    }
  }

  lemma EditFollows(c: Coord, after: PersistentState, lo: nat)
    requires Durable(c) && Below(c.world.trace, lo)
    requires Edit(c.mem, after, lo, c.world.nextId)
    ensures Follows(c.world.disk.actions, after.actions, Known(c.world.trace))
    ensures Appends(Stored(c.world.trace), c.world.disk.outbox, after.outbox)
    ensures Appends(Stored(c.world.trace), Without(c.world.disk.outbox, AckedBy(c.world.trace)), after.outbox)
  {
    WithoutOthers(c.world.disk.outbox, AckedBy(c.world.trace));
    BelowFacts(c.world.trace, lo);
    forall d | d in after.actions && d.id in Known(c.world.trace)
      ensures exists a <- c.world.disk.actions :: Evolves(a, d)
    {
      var b :| b in c.mem.actions && Evolves(b, d);
      var a :| a in c.world.disk.actions && Evolves(a, b);
      EvolvesTransitive(a, b, d);
    }
  }

  /** A successful save, with its announcement. */
  lemma SavedKeeps(env: Environment, c: Coord, after: PersistentState, lo: nat)
    requires Durable(c) && Below(c.world.trace, lo)
    requires Edit(c.mem, after, lo, c.world.nextId)
    ensures Durable(MarkPersistence(env, c.(mem := after, pending := None, world := c.world.Did(Saved(after))), true))
  {
    EditFollows(c, after, lo);
    var saved := c.(mem := after, pending := None, world := c.world.Did(Saved(after)));
    SavedFollowsItself(after, saved.world.trace);
    assert SafeStep(c.world.trace, Saved(after));
    assert saved.world.disk == DiskOf(saved.world.trace) == after;
    MarkPersistenceKeeps(env, saved, true);
  }

  /** A failed save, with its announcement, whether memory has moved on or not. */
  lemma SaveFailedKeeps(env: Environment, c: Coord, after: PersistentState, lo: nat)
    requires Durable(c) && Below(c.world.trace, lo)
    requires Edit(c.mem, after, lo, c.world.nextId)
    ensures Durable(MarkPersistence(env, c.(mem := after, pending := Some(after), world := c.world.Did(SaveFailed(after))), false))
  {
    EditFollows(c, after, lo);
    var kept := c.(mem := after, pending := Some(after), world := c.world.Did(SaveFailed(after)));
    assert Stored(kept.world.trace) == Stored(c.world.trace) && Known(kept.world.trace) == Known(c.world.trace);
    MarkPersistenceKeeps(env, kept, false);
  }

  lemma SaveRefusedKeeps(env: Environment, c: Coord, after: PersistentState)
    requires Durable(c) && Encodable(after)
    ensures Durable(MarkPersistence(env, c.(world := c.world.Did(SaveFailed(after))), false))
  {
    var failed := c.(world := c.world.Did(SaveFailed(after)));
    assert Stored(failed.world.trace) == Stored(c.world.trace) && Known(failed.world.trace) == Known(c.world.trace);
    MarkPersistenceKeeps(env, failed, false);
  }

  lemma SavingKeeps(env: Environment, c: Coord, after: PersistentState, lo: nat)
    requires Durable(c) && Below(c.world.trace, lo)
    requires Edit(c.mem, after, lo, c.world.nextId)
    ensures Durable(Commit(env, c, after)) && Durable(CommitPost(env, c, after))
  {
    if SaveOk(env, c) {
      SavedKeeps(env, c, after, lo);
    } else {
      SaveFailedKeeps(env, c, after, lo);
      SaveRefusedKeeps(env, c, after);
    }
  }

  lemma SavedFollowsItself(s: PersistentState, t: Trace)
    ensures Follows(s.actions, s.actions, Known(t))
  {
    forall b | b in s.actions ensures exists a <- s.actions :: Evolves(a, b) {
      assert Evolves(b, b);
    }
  }

  /** All of `Durable` but the health mark. */
  ghost predicate DurableButHealth(c: Coord) {
    Durable(c.(hub := c.hub.(health := c.hub.health.(persistenceHealthy := false))))
  }

  lemma MarkPersistenceKeeps(env: Environment, c: Coord, ok: bool)
    requires DurableButHealth(c) && (ok ==> c.pending.None?)
    ensures Durable(MarkPersistence(env, c, ok))
    ensures Quiet(c.world.trace, MarkPersistence(env, c, ok).world.trace)
  {
    var mutated := c.hub.(
      health := c.hub.health.(persistenceHealthy := ok),
      persistenceError := if ok then None else Some(SAVE_ERROR));
    WithHubQuiet(env, c, mutated);
    QuietFacts(c.world.trace, MarkPersistence(env, c, ok).world.trace);
  }

  /** What saving leaves alone, and what is on disk after a save that succeeded. */
  lemma SavingFacts(env: Environment, c: Coord, after: PersistentState)
    ensures forall d | d == Commit(env, c, after) || d == CommitPost(env, c, after) ::
      && Powered(d.world.trace) == Powered(c.world.trace)
      && Warned(d.world.trace) == Warned(c.world.trace)
      && d.world.nextId == c.world.nextId && d.world.stopSeen == c.world.stopSeen
      && (SaveOk(env, c) ==> d.mem == d.world.disk == after && d.pending.None? && d.hub.health.persistenceHealthy)
      && (!SaveOk(env, c) ==> d.world.disk == c.world.disk && !d.hub.health.persistenceHealthy)
    ensures !SaveOk(env, c) ==> Commit(env, c, after).mem == c.mem && Commit(env, c, after).pending == c.pending
    ensures CommitPost(env, c, after).mem == after
  {
    var saved := c.(mem := after, pending := None, world := c.world.Did(Saved(after)));
    var kept := c.(mem := after, pending := Some(after), world := c.world.Did(SaveFailed(after)));
    var failed := c.(world := c.world.Did(SaveFailed(after)));
    MarkPersistenceFacts(env, saved, true);
    MarkPersistenceFacts(env, kept, false);
    MarkPersistenceFacts(env, failed, false);
  }

  lemma MarkPersistenceFacts(env: Environment, c: Coord, ok: bool)
    ensures var d := MarkPersistence(env, c, ok);
      && d == c.(hub := d.hub, world := d.world)
      && d.world == c.world.(trace := d.world.trace, instant := d.world.instant)
      && d.hub.health.persistenceHealthy == ok
      && Quiet(c.world.trace, d.world.trace)
      && Powered(d.world.trace) == Powered(c.world.trace)
      && Warned(d.world.trace) == Warned(c.world.trace)
      && Stored(d.world.trace) == Stored(c.world.trace)
      && Known(d.world.trace) == Known(c.world.trace)
      && DiskOf(d.world.trace) == DiskOf(c.world.trace)
  {
    WithHubQuiet(env, c, c.hub.(
      health := c.hub.health.(persistenceHealthy := ok),
      persistenceError := if ok then None else Some(SAVE_ERROR)));
    QuietFacts(c.world.trace, MarkPersistence(env, c, ok).world.trace);
  }

  // ---- port calls ----------------------------------------------------------------------------

  /** The gate is asked for the policy on disk. */
  lemma ApplyGateKeeps(env: Environment, c: Coord, target: DesiredInternet)
    requires Durable(c) && c.world.disk.desired == target
    ensures Durable(ApplyGate(env, c, target))
  {
  }
}
