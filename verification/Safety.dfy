/** What every history of the machine satisfies, and the invariant that keeps it so. */
module Safety {
  import opened Domain
  import opened World
  import opened Subscribers
  import opened Runtime

  // ---- reading a history -------------------------------------------------------------------

  /** Every action identifier that was ever on disk. */
  ghost function Known(t: Trace): set<TimerId> {
    match t
    case Start(s) => ActionIds(s.actions)
    case Then(past, Saved(s)) => Known(past) + ActionIds(s.actions)
    case Then(past, _) => Known(past)
  }

  /** Shutdowns handed to the power controller. */
  ghost function Powered(t: Trace): set<TimerId> {
    match t
    case Start(_) => {}
    case Then(past, PowerCall(id, _)) => Powered(past) + {id}
    case Then(past, _) => Powered(past)
  }

  /** Warnings broadcast. */
  ghost function Warned(t: Trace): set<(TimerId, Threshold)> {
    match t
    case Start(_) => {}
    case Then(past, Broadcast(WarningReached(id, _, threshold, _, _))) => Warned(past) + {(id, threshold)}
    case Then(past, _) => Warned(past)
  }

  /** Every outbox identifier that was ever on disk. */
  ghost function Stored(t: Trace): set<EntryId> {
    match t
    case Start(s) => EntryIds(s.outbox)
    case Then(past, Saved(s)) => Stored(past) + EntryIds(s.outbox)
    case Then(past, _) => Stored(past)
  }

  /** The outbox without the entries of these identifiers, in order. */
  ghost function Without(outbox: seq<OutboxEntry>, ids: set<EntryId>): seq<OutboxEntry> {
    if outbox == [] then []
    else
      var rest, e := Without(outbox[..|outbox| - 1], ids), outbox[|outbox| - 1];
      if e.id in ids then rest else rest + [e]
  }

  // ---- legal histories ---------------------------------------------------------------------

  function Rank(exec: ExecutionState): nat {
    match exec
    case Pending => 0
    case Executing => 1
    case _ => 2
  }

  /** `b` is a later version of the action `a`: same identity, no warning forgotten, life cycle
      never back. */
  ghost predicate Evolves(a: Action, b: Action) {
    && b == a.(emitted := b.emitted, exec := b.exec)
    && a.emitted <= b.emitted
    && Rank(a.exec) <= Rank(b.exec)
  }

  /** Every action of `later` is a later version of one in `earlier`, or was never known before. */
  ghost predicate Follows(earlier: seq<Action>, later: seq<Action>, known: set<TimerId>) {
    forall b <- later :: b.id !in known || exists a <- earlier :: Evolves(a, b)
  }

  ghost predicate HasExecutingShutdown(s: PersistentState, id: TimerId) {
    exists a <- s.actions :: a.id == id && a.kind.ShutdownComputer? && a.exec.Executing?
  }

  ghost predicate HasEmitted(s: PersistentState, id: TimerId, t: Threshold) {
    exists a <- s.actions :: a.id == id && t in a.emitted
  }

  /** `later` is `earlier` with entries behind it whose identifiers were never on disk. */
  ghost predicate Appends(stored: set<EntryId>, earlier: seq<OutboxEntry>, later: seq<OutboxEntry>) {
    earlier <= later && forall i :: |earlier| <= i < |later| ==> later[i].id !in stored
  }

  /** The entry a save made now would take off the disk: the one just acknowledged, if it is there. */
  ghost function AckedBy(past: Trace): set<EntryId> {
    if past.Then? && past.last.AckReceived? then {past.last.entry} else {}
  }

  /** No acknowledgement of an entry on disk waits for its save. */
  ghost predicate Settled(t: Trace) {
    AckedBy(t) !! EntryIds(DiskOf(t).outbox)
  }

  /** What one more effect has to satisfy. */
  ghost predicate SafeStep(past: Trace, e: Effect) {
    match e
    case Saved(s) =>
      && Encodable(s)
      && Follows(DiskOf(past).actions, s.actions, Known(past))
      && Appends(Stored(past), Without(DiskOf(past).outbox, AckedBy(past)), s.outbox)
    case SaveFailed(s) => Encodable(s)
    case PowerCall(id, _) => id !in Powered(past) && HasExecutingShutdown(DiskOf(past), id)
    case GateCall(target) => DiskOf(past).desired == target
    case Broadcast(WarningReached(id, _, threshold, _, _)) =>
      (id, threshold) !in Warned(past) && HasEmitted(DiskOf(past), id, threshold)
    case _ => true
  }

  ghost predicate SafeTrace(t: Trace) {
    match t
    case Start(s) => Encodable(s)
    case Then(past, e) => SafeTrace(past) && SafeStep(past, e)
  }

  /** Every snapshot of the history uses identifiers below `n` only. */
  ghost predicate Below(t: Trace, n: nat) {
    match t
    case Start(s) => IdsBelow(s, n)
    case Then(past, Saved(s)) => Below(past, n) && IdsBelow(s, n)
    case Then(past, _) => Below(past, n)
  }

  ghost predicate IdsBelow(s: PersistentState, n: nat) {
    (forall a <- s.actions :: a.id < n) && (forall e <- s.outbox :: e.id < n)
  }

  lemma {:induction false} BelowGrows(t: Trace, n: nat, m: nat)
    requires Below(t, n) && n <= m
    ensures Below(t, m)
  {
    if t.Then? { BelowGrows(t.past, n, m); }
  }

  lemma {:induction false} BelowFacts(t: Trace, n: nat)
    requires Below(t, n)
    ensures IdsBelow(DiskOf(t), n)
    ensures forall id <- Known(t) :: id < n
    ensures forall id <- Stored(t) :: id < n
  {
    if t.Then? { BelowFacts(t.past, n); }
  }

  lemma {:induction false} DiskIsKnown(t: Trace)
    ensures ActionIds(DiskOf(t).actions) <= Known(t)
  {
    if t.Then? { DiskIsKnown(t.past); }
  }

  // ---- consequences of legality --------------------------------------------------------------

  ghost predicate NotPending(s: PersistentState, id: TimerId) {
    forall a <- s.actions :: a.id == id ==> !a.exec.Pending?
  }

  ghost predicate EmittedIn(s: PersistentState, id: TimerId, t: Threshold) {
    forall a <- s.actions :: a.id == id ==> t in a.emitted
  }

  lemma SameAction(actions: seq<Action>, a: Action, b: Action)
    requires UniqueActions(actions) && a in actions && b in actions && a.id == b.id
    ensures a == b
  {
    var i :| 0 <= i < |actions| && actions[i] == a;
    var j :| 0 <= j < |actions| && actions[j] == b;
    assert !(i < j) && !(j < i);
  }

  lemma {:induction false} SafeDisk(t: Trace)
    requires SafeTrace(t)
    ensures Encodable(DiskOf(t))
  {
    if t.Then? { SafeDisk(t.past); }
  }

  /** A shutdown once executed is never pending again. */
  lemma {:induction false} PoweredIsSpent(t: Trace, id: TimerId)
    requires SafeTrace(t) && id in Powered(t)
    ensures id in Known(t) && NotPending(DiskOf(t), id)
  {
    var past := t.past;
    SafeDisk(past);
    if id in Powered(past) {
      PoweredIsSpent(past, id);
    } else {
      var a :| a in DiskOf(past).actions && a.id == id && a.exec.Executing?;
      DiskIsKnown(past);
      assert a.id in ActionIds(DiskOf(past).actions);
      forall b | b in DiskOf(past).actions && b.id == id ensures !b.exec.Pending? {
        SameAction(DiskOf(past).actions, a, b);
      }
    }
  }

  /** A warning once sent stays recorded. */
  lemma {:induction false} WarnedIsRecorded(t: Trace, id: TimerId, threshold: Threshold)
    requires SafeTrace(t) && (id, threshold) in Warned(t)
    ensures id in Known(t) && EmittedIn(DiskOf(t), id, threshold)
  {
    var past := t.past;
    SafeDisk(past);
    if (id, threshold) in Warned(past) {
      WarnedIsRecorded(past, id, threshold);
    } else {
      var a :| a in DiskOf(past).actions && a.id == id && threshold in a.emitted;
      DiskIsKnown(past);
      assert a.id in ActionIds(DiskOf(past).actions);
      forall b | b in DiskOf(past).actions && b.id == id ensures threshold in b.emitted {
        SameAction(DiskOf(past).actions, a, b);
      }
    }
  }

  // ---- quiet extensions ----------------------------------------------------------------------

  /** Only broadcasts other than warnings were added. */
  ghost predicate Quiet(t: Trace, u: Trace) {
    u == t || (u.Then? && u.last.Broadcast? && !u.last.event.WarningReached? && Quiet(t, u.past))
  }

  lemma {:induction false} QuietFacts(t: Trace, u: Trace)
    requires Quiet(t, u)
    ensures DiskOf(u) == DiskOf(t) && Known(u) == Known(t) && Powered(u) == Powered(t)
    ensures Warned(u) == Warned(t) && Stored(u) == Stored(t)
    ensures Settled(t) ==> Settled(u)
    ensures SafeTrace(t) ==> SafeTrace(u)
    ensures forall n: nat :: Below(t, n) ==> Below(u, n)
  {
    if u != t { QuietFacts(t, u.past); }
  }

  lemma {:induction false} QuietTransitive(t: Trace, u: Trace, v: Trace)
    requires Quiet(t, u) && Quiet(u, v)
    ensures Quiet(t, v)
  {
    if v != u { QuietTransitive(t, u, v.past); }
  }

  lemma {:induction false} ReconcileQuiet(env: Environment, hub: Hub, w: World, excluded: Option<nat>)
    ensures Quiet(w.trace, Reconcile(env, hub, w, excluded).world.trace)
    decreases |hub.subs|
  {
    if |hub.subs| <= U32_MAX && hub.health.sessions != |hub.subs| {
      var counted := hub.health.(sessions := |hub.subs|);
      var m := env(w.instant);
      var e := HealthUpdated(counted);
      DeliverKeys(m, hub.subs, e, excluded);
      var w1 := w.Did(Broadcast(e));
      assert Quiet(w.trace, w1.trace);
      if FailedSends(m, hub.subs, excluded) != {} {
        var hub1 := hub.(health := counted, subs := Deliver(m, hub.subs, e, excluded));
        ReconcileQuiet(env, hub1, w1, excluded);
        QuietTransitive(w.trace, w1.trace, Reconcile(env, hub1, w1, excluded).world.trace);
      }
    }
  }

  lemma EmitQuiet(env: Environment, hub: Hub, w: World, e: Event)
    ensures Quiet(w.Did(Broadcast(e)).trace, Emit(env, hub, w, e).world.trace)
    ensures !e.WarningReached? ==> Quiet(w.trace, Emit(env, hub, w, e).world.trace)
  {
    var m := env(w.instant);
    var w1 := w.Did(Broadcast(e));
    if FailedSends(m, hub.subs, None) != {} {
      ReconcileQuiet(env, hub.(subs := Deliver(m, hub.subs, e, None)), w1, None);
    }
    if !e.WarningReached? {
      assert Quiet(w.trace, w1.trace);
      QuietTransitive(w.trace, w1.trace, Emit(env, hub, w, e).world.trace);
    }
  }
}
