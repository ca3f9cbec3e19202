/** What each operation does, seen from outside: when it succeeds, what it changes, and that it
    changes nothing else. */
module Outcomes {
  import opened Domain
  import opened World
  import opened Subscribers
  import opened Runtime
  import opened Recovery
  import opened Safety
  import opened Durability
  import opened Timers
  import opened CoreRules
  import opened Texts

  /** Only the health, the subscribers and the history may differ. */
  ghost predicate SameCore(c: Coord, d: Coord) {
    d == c.(hub := d.hub, world := d.world) && d.world.disk == c.world.disk
  }

  ghost predicate IsNotice(e: OutboxEntry) {
    e.payload.Notification? && e.attempts == 0 && e.lastError == None
  }

  /** `later` is `earlier` with `n` notices behind it. */
  ghost predicate NoticesAdded(earlier: seq<OutboxEntry>, later: seq<OutboxEntry>, n: nat) {
    |later| == |earlier| + n && earlier <= later && forall i :: |earlier| <= i < |later| ==> IsNotice(later[i])
  }

  lemma NoticesOn(a: seq<OutboxEntry>, b: seq<OutboxEntry>, d: seq<OutboxEntry>, m: nat, n: nat)
    requires NoticesAdded(a, b, m) && NoticesAdded(b, d, n)
    ensures NoticesAdded(a, d, m + n)
  {
    hide IsNotice;
    forall i | |a| <= i < |d| ensures IsNotice(d[i]) {
      if i < |b| { assert d[i] == b[i]; }
    }
  }

  // ---- scheduling ----------------------------------------------------------------------------

  /** A timer is scheduled if and only if it is saved; its identifier was never on disk before. */
  lemma ScheduleOutcome(env: Environment, c: Coord, kind: ActionKind, duration: nat, who: Initiator)
    requires Durable(c)
    ensures var r := Schedule(env, c, kind, duration, who);
      var d, saved := r.coord, env(c.world.instant + 2).saveOk;
      if !saved then r.reply == PersistenceError && SameCore(c, d)
      else
        && r.reply == ScheduledAs(c.world.nextId) && c.world.nextId !in Known(c.world.trace)
        && Scheduled(env, c, d, kind, duration, who)
  {
    hide Durable, Arm, Commit, Notices, CreationDue, InitialThresholds, Recompute, OnlyTold, AfterSave, PersistenceMark;
    DurableBelow(c);
    var c2 := Looked(Looked(c));
    var due, a := CreationDue(duration), NewAction(c.world.nextId, kind, duration, who, Utc(env, c));
    var c3 := c2.(world := c2.world.Draw(1 + |due|));
    var c4 := Commit(env, c3, ScheduleEdit(c.mem, a, Notices(c.world.nextId + 1, |due|, WARNING_TEXT)));
    CommitCore(env, c3, ScheduleEdit(c.mem, a, Notices(c.world.nextId + 1, |due|, WARNING_TEXT)));
    var mono := Mono(env, Looked(c));
    ArmFrame(env, c4, a, Anchor(kind, a.deadline, mono + duration * NANOS_PER_SECOND, duration, mono, duration), due);
    DueCount(duration);
    InitialExact(duration);
  }

  lemma CommitCore(env: Environment, c: Coord, after: PersistentState)
    ensures var d := Commit(env, c, after);
      if SaveOk(env, c) then d == c.(mem := after, pending := None, hub := d.hub, world := d.world) && d.world.disk == after
      else SameCore(c, d)
  {
  }

  /** The new action, its anchor, and nothing else. */
  ghost predicate Scheduled(env: Environment, c: Coord, d: Coord, kind: ActionKind, duration: nat, who: Initiator) {
    var id := c.world.nextId;
    var utc, mono := Utc(env, c), Mono(env, Looked(c));
    && d.mem == c.mem.(actions := d.mem.actions, outbox := d.mem.outbox)
    && |d.mem.actions| == |c.mem.actions| + 1 && c.mem.actions <= d.mem.actions
    && (var a := d.mem.actions[|c.mem.actions|];
        && a == Action(id, kind, utc + 1000 * duration, utc, who, a.emitted, Pending)
        && forall t: Threshold :: t in a.emitted <==> t.Seconds() >= duration)
    && NoticesAdded(c.mem.outbox, d.mem.outbox, if exists t: Threshold :: t.Seconds() == duration then 1 else 0)
    && d.timers == c.timers[id := Anchor(kind, utc + 1000 * duration, mono + duration * NANOS_PER_SECOND, duration, mono, duration)]
    && d.world.disk == d.mem && d.pending.None? && d.observed == c.observed && d.retryAt == c.retryAt
  }

  lemma ArmFrame(env: Environment, c: Coord, a: Action, anchor: Anchor, due: seq<Threshold>)
    ensures var d := Arm(env, c, a, anchor, due);
      && d.mem == c.mem && d.timers == c.timers[a.id := anchor] && d.world.disk == c.world.disk
      && d.pending == c.pending && d.observed == c.observed && d.retryAt == c.retryAt
  {
    hide Tell, TellWarnings, SyncShutdown;
  }

  lemma DurableBelow(c: Coord)
    requires Durable(c)
    ensures c.world.nextId !in Known(c.world.trace)
  {
    BelowFacts(c.world.trace, c.world.nextId);
  }

  lemma DueCount(duration: nat)
    ensures |CreationDue(duration)| == if exists t: Threshold :: t.Seconds() == duration then 1 else 0
  {
    var due := CreationDue(duration);
    AllThresholdsListed();
    if exists t: Threshold :: t.Seconds() == duration {
      var t: Threshold :| t.Seconds() == duration;
      assert t in due;
    }
    DueAtMostOne(duration);
    assert |due| > 0 ==> due[0] in due;
  }

  lemma InitialExact(duration: nat)
    ensures forall t: Threshold :: t in InitialThresholds(duration) <==> t.Seconds() >= duration
  {
    AllThresholdsListed();
  }

  // ---- cancelling ----------------------------------------------------------------------------

  /** May this timer be cancelled now? A shutdown only before its deadline. */
  ghost predicate MayCancel(env: Environment, c: Coord, id: TimerId, kind: ActionKind) {
    && (exists a <- c.mem.actions :: a.id == id && a.kind == kind && a.exec.Pending?)
    && (kind.ShutdownComputer? ==> id in c.timers && c.timers[id].kind == kind && Mono(env, c) < c.timers[id].target)
  }

  /** A timer is cancelled if and only if it may be cancelled and the cancellation is saved; then
      exactly its action and its anchor are gone. */
  lemma CancelOutcome(env: Environment, c: Coord, id: TimerId, kind: ActionKind)
    requires UniqueActions(c.mem.actions)
    ensures var r := Cancel(env, c, id, kind);
      var k := FindAction(c.mem.actions, id);
      && (r.reply == AlreadyAbsent <==> forall a <- c.mem.actions :: a.id != id)
      && (r.reply == KindMismatch <==> exists a <- c.mem.actions :: a.id == id && a.kind != kind)
      && (r.reply == Cancelled <==> MayCancel(env, c, id, kind) && SaveOk(env, Consulted(c, id, kind)))
      && (r.reply == PersistenceError <==> MayCancel(env, c, id, kind) && !SaveOk(env, Consulted(c, id, kind)))
      && (if r.reply == Cancelled
          then k < |c.mem.actions| && r.coord.mem == c.mem.(actions := c.mem.actions[..k] + c.mem.actions[k + 1..])
            && r.coord.timers == c.timers - {id} && r.coord.world.disk == r.coord.mem
          else SameCore(c, r.coord))
  {
    hide Commit, Tell, SyncShutdown, RemoveAction, Recompute;
    var k := FindAction(c.mem.actions, id);
    if k < |c.mem.actions| {
      RemoveOne(c.mem.actions, k);
      forall a | a in c.mem.actions && a.id == id ensures a == c.mem.actions[k] {
        SameAction(c.mem.actions, a, c.mem.actions[k]);
      }
    }
  }

  lemma {:induction false} RemoveOne(actions: seq<Action>, k: nat)
    requires UniqueActions(actions) && k < |actions|
    ensures RemoveAction(actions, actions[k].id) == actions[..k] + actions[k + 1..]
    decreases |actions|
  {
    var front, last := actions[..|actions| - 1], actions[|actions| - 1];
    if k < |front| {
      RemoveOne(front, k);
      assert front[..k] == actions[..k] && front[k + 1..] + [last] == actions[k + 1..];
    } else {
      NoneRemoved(front, last.id);
      assert actions[..k] == front && actions[k + 1..] == [];
    }
  }

  lemma {:induction false} NoneRemoved(actions: seq<Action>, id: TimerId)
    requires forall i :: 0 <= i < |actions| ==> actions[i].id != id
    ensures RemoveAction(actions, id) == actions
    decreases |actions|
  {
    if actions != [] { NoneRemoved(actions[..|actions| - 1], id); }
  }

  // ---- the outbox ----------------------------------------------------------------------------

  /** An acknowledgement takes out exactly the entry with its identifier, if that is saved. */
  lemma AckOutcome(env: Environment, c: Coord, id: EntryId)
    requires UniqueEntries(c.mem.outbox)
    ensures var r := Ack(env, c, id);
      var saved := env(c.world.instant + 1).saveOk;
      && (r.reply == Acked(false) <==> forall e <- c.mem.outbox :: e.id != id)
      && (r.reply == Acked(true) <==> saved && exists e <- c.mem.outbox :: e.id == id)
      && (r.reply != Acked(true) ==> SameCore(c, r.coord))
      && (r.reply == Acked(true) ==>
            && r.coord.mem == c.mem.(outbox := r.coord.mem.outbox) && r.coord.world.disk == r.coord.mem
            && |r.coord.mem.outbox| + 1 == |c.mem.outbox|
            && (forall e :: e in r.coord.mem.outbox <==> e in c.mem.outbox && e.id != id))
  {
    hide Commit, Recompute;
    var k := FindEntry(c.mem.outbox, id);
    if k < |c.mem.outbox| {
      var rest := c.mem.outbox[..k] + c.mem.outbox[k + 1..];
      forall e ensures e in rest <==> e in c.mem.outbox && e.id != id {
        if e in c.mem.outbox && e.id != id {
          var i :| 0 <= i < |c.mem.outbox| && c.mem.outbox[i] == e;
          assert rest[if i < k then i else i - 1] == e;
        }
      }
    }
  }

  /** The bytes of a character in UTF-8, section 3 of RFC 3629. */
  function Utf8(ch: char): seq<bv8> {
    var n := ch as int;
    if n < 0x80 then [n as bv8]
    else if n < 0x800 then [0xC0 | (n / 0x40) as bv8, Continuation(n)]
    else if n < 0x1_0000 then [0xE0 | (n / 0x1000) as bv8, Continuation(n / 0x40), Continuation(n)]
    else [0xF0 | (n / 0x4_0000) as bv8, Continuation(n / 0x1000), Continuation(n / 0x40), Continuation(n)]
  }

  function Continuation(n: nat): bv8 { 0x80 | (n % 0x40) as bv8 }

  function Utf8Text(text: string): seq<bv8> {
    if text == "" then [] else Utf8Text(text[..|text| - 1]) + Utf8(text[|text| - 1])
  }

  lemma {:induction false} Utf8LengthExact(text: string)
    ensures Utf8Length(text) == |Utf8Text(text)|
    decreases |text|
  {
    hide Utf8;
    if text != "" {
      Utf8LengthExact(text[..|text| - 1]);
      CharWidthExact(text[|text| - 1]);
    }
  }

  lemma CharWidthExact(ch: char)
    ensures |Utf8(ch)| == CharWidth(ch)
  {
  }

  /** A message is accepted exactly if it has 1 to 4096 bytes and is not blank. */
  lemma ValidChatExact(text: string)
    ensures ValidChat(text) <==> 1 <= |Utf8Text(text)| <= 4096 && Trim(text) != ""
  {
    Utf8LengthExact(text);
    TrimExact(text, Trim(text));
    if Trim(text) != "" { assert exists ch <- text :: !IsWhitespace(ch) by { TrimmedIsInside(text); } }
  }

  lemma TrimmedIsInside(text: string)
    requires Trim(text) != ""
    ensures exists ch <- text :: !IsWhitespace(ch)
  {
    TrimExact(text, Trim(text));
    var front: string, back: string :| IsBlank(front) && IsBlank(back) && text == front + Trim(text) + back;
    assert text[|front|] == Trim(text)[0];
  }

  /** A message of the child is queued, last, if and only if it is valid and saved. */
  lemma ChildMessageOutcome(env: Environment, c: Coord, text: string)
    ensures var r := ChildMessage(env, c, text);
      var saved := env(c.world.instant + 1).saveOk;
      && (r.reply == InvalidInput <==> !ValidChat(text))
      && (r.reply == MessageAccepted(c.world.nextId) <==> ValidChat(text) && saved)
      && (!ValidChat(text) ==> r.coord == c)
      && (ValidChat(text) && !saved ==> r.reply == PersistenceError && SameCore(c, r.coord))
      && (ValidChat(text) && saved ==>
            r.coord.world.disk == r.coord.mem
              == c.mem.(outbox := c.mem.outbox
                   + [OutboxEntry(c.world.nextId, Chat(ChatMessage(c.world.nextId, Child, text, Utc(env, c), AcceptedByService)), 0, None)]))
  {
    hide Commit, ValidChat, Recompute;
  }

  /** A message of the parent is broadcast, and nothing else happens; one of anybody else is refused. */
  lemma ParentMessageOutcome(env: Environment, c: Coord, message: ChatMessage)
    ensures var r := ParentMessage(env, c, message);
      && (!message.sender.Parent? ==> r.reply == InvalidInput && r.coord == c)
      && (message.sender.Parent? ==>
            && r.reply == Done && SameCore(c, r.coord) && r.coord.world.nextId == c.world.nextId
            && Broadcasts(c.world.trace) + [ChatReceived(message)] <= Broadcasts(r.coord.world.trace)
            && r.coord.hub.subs.Keys <= c.hub.subs.Keys)
  {
    EmitIsFirst(env, c.hub, c.world, ChatReceived(message));
  }

  lemma EmitIsFirst(env: Environment, hub: Hub, w: World, e: Event)
    ensures var r := Emit(env, hub, w, e);
      Broadcasts(w.trace) + [e] <= Broadcasts(r.world.trace) && r.hub.subs.Keys <= hub.subs.Keys
  {
    hide Deliver, FailedSends, Reconcile;
    var m := env(w.instant);
    DeliverKeys(m, hub.subs, e, None);
    ReconcileShrinks(env, hub.(subs := Deliver(m, hub.subs, e, None)), w.Did(Broadcast(e)), None);
  }

  // ---- subscriptions and the stop ----------------------------------------------------------------

  /** A newcomer starts with the status as it is when it is let in, an empty stream, and the broadcasts made
      from then on; in a registry with room for it nobody is ever refused for want of capacity. */
  lemma SubscribeOutcome(env: Environment, c: Coord)
    requires RegistryOk(c.hub) && GapFree(c.hub.subs, c.world.trace, None)
    ensures var r := Subscribe(env, c);
      && SameCore(c, r.coord)
      && (r.reply == SubscriptionIdExhausted <==> c.hub.nextSub.None?)
      && (r.reply == CapacityExhausted <==> c.hub.nextSub.Some? && |c.hub.subs| == U32_MAX)
      && (r.reply.Subscribed? ==>
            && r.reply.sub in r.coord.hub.subs && r.reply.snapshot == StatusOf(r.coord)
            && r.coord.hub.subs[r.reply.sub] == Subscriber(r.reply.snapshot, [], |Broadcasts(r.coord.world.trace)|))
      && (!r.reply.Subscribed? ==> r.coord.hub.subs.Keys <= c.hub.subs.Keys)
  {
    hide Reconcile, Broadcasts;
    if c.hub.nextSub.Some? && |c.hub.subs| < U32_MAX {
      var id := c.hub.nextSub.value;
      var c1 := Enlist(c, id);
      assert c1.hub.subs.Keys == c.hub.subs.Keys + {id};
      assert |c1.hub.subs| == |c1.hub.subs.Keys| == |c.hub.subs| + 1;
      ReconcileStabilises(env, c1.hub, c1.world, Some(id));
      var c3 := Looked(Register(Reconciled(env, c1, Some(id)), id));
      ReconcileShrinks(env, c3.hub.(subs := c3.hub.subs - {id}), c3.world, None);
    }
  }

  /** Whoever leaves is gone; the answer says whether there was such a subscription. */
  lemma UnsubscribeOutcome(env: Environment, c: Coord, id: nat)
    requires RegistryOk(c.hub) && GapFree(c.hub.subs, c.world.trace, None)
    ensures var r := Unsubscribe(env, c, id);
      r.reply == Unsubscribed(id in c.hub.subs) && id !in r.coord.hub.subs && SameCore(c, r.coord)
  {
    hide Reconcile, Broadcasts;
    if id in c.hub.subs {
      var hub := c.hub.(subs := c.hub.subs - {id});
      assert hub.subs.Keys == c.hub.subs.Keys - {id};
      assert |hub.subs| == |hub.subs.Keys| == |c.hub.subs| - 1;
      ReconcileStabilises(env, hub, c.world, None);
    }
  }

  /** A stop succeeds if and only if nothing is pending or the pending candidate can be saved; then memory
      is on disk. In any case no command but a repeated stop is served any more, and a first stop leaves no
      subscriber. */
  lemma StopOutcome(env: Environment, c: Coord)
    requires Agreement(c)
    ensures var r := Stop(env, c);
      && r.coord.stopping && r.coord.mem == c.mem && r.coord.timers == c.timers
      && (r.reply == Stopped <==> c.pending.None? || SaveOk(env, c))
      && (if r.reply == Stopped then r.coord.pending.None? && r.coord.mem == r.coord.world.disk
          else r.reply == PersistenceError && r.coord.pending == c.pending && r.coord.world.disk == c.world.disk)
      && (!c.stopping ==> r.coord.hub.subs == map[])
      && (forall cmd: Command :: !cmd.QueryStatus? && !cmd.StopRuntime? ==> Handle(env, r.coord, cmd) == Result(r.coord, StoppingError))
  {
    hide MarkPersistence, Recompute;
  }

  // ---- deadlines -----------------------------------------------------------------------------

  ghost predicate IsPendingOf(actions: seq<Action>, id: TimerId) {
    FindAction(actions, id) < |actions| && actions[FindAction(actions, id)].exec.Pending?
  }

  /** A deadline does nothing unless the action is pending and no stop was requested, and at most
      reports a failing save unless its start is saved. */
  lemma DeadlineNeedsItsSave(env: Environment, c: Coord, id: TimerId)
    requires LookForStop(env, c).world.stopSeen || !IsPendingOf(c.mem.actions, id) || !SaveOk(env, LookForStop(env, c))
    ensures SameCore(c, FireBlock(env, c, id)) && SameCore(c, FireShutdown(env, c, id))
  {
    hide Commit, FiredBlock, FiredShutdown, Recompute;
  }
}
