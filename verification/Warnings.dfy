/** The warnings of a tick: a threshold that is passed is marked, put into the outbox and told together,
    once its save succeeds. */
module Warnings {
  import opened Domain
  import opened World
  import opened Subscribers
  import opened Runtime
  import opened Recovery
  import opened Safety
  import opened Durability
  import opened Edits
  import opened Deadlines
  import opened Timers
  import opened Healing
  import opened Aggregate
  import opened Booting
  import opened CoreRules
  import opened Outcomes
  import opened Wake
  import opened Theorems
  import opened Settling
  import opened Announcements
  import opened Ticks
  import opened Restarts

  // ---- one timer ---------------------------------------------------------------------------------------

  /** The marks of this action that `after` has and `before` has not. */
  ghost function NewMarks(before: seq<Action>, after: seq<Action>, k: nat): set<Threshold>
    requires k < |before| && k < |after|
  {
    after[k].emitted - before[k].emitted
  }

  /** `n` notices stand behind `earlier`, and their identifiers are `first` and the following. */
  ghost predicate NoticesFrom(first: EntryId, earlier: seq<OutboxEntry>, later: seq<OutboxEntry>, n: nat) {
    NoticesAdded(earlier, later, n) && forall i :: |earlier| <= i < |later| ==> later[i].id == first + (i - |earlier|)
  }

  /** From `c` to `d` only this action has new marks, with one notice each, all on disk. */
  ghost predicate MarkedWithNotices(c: Coord, d: Coord, k: nat) {
    && k < |c.mem.actions| && |d.mem.actions| == |c.mem.actions| && c.mem.actions[k].emitted <= d.mem.actions[k].emitted
    && d.mem.actions == c.mem.actions[k := c.mem.actions[k].(emitted := d.mem.actions[k].emitted)]
    && d.mem == c.mem.(actions := d.mem.actions, outbox := d.mem.outbox) && d.world.disk == d.mem && d.pending.None?
    && NoticesFrom(c.world.nextId, c.mem.outbox, d.mem.outbox, |NewMarks(c.mem.actions, d.mem.actions, k)|)
    && d.world.nextId == c.world.nextId + |NewMarks(c.mem.actions, d.mem.actions, k)|
  }

  ghost function MarksOf(ts: seq<Threshold>): set<Threshold> { set t <- ts }

  lemma {:induction false} DistinctCount(ts: seq<Threshold>)
    requires forall i, j :: 0 <= i < j < |ts| ==> ts[i] != ts[j]
    ensures |MarksOf(ts)| == |ts|
    decreases |ts|
  {
    if ts != [] {
      var front, t := ts[..|ts| - 1], ts[|ts| - 1];
      DistinctCount(front);
      assert t !in front;
      assert MarksOf(ts) == MarksOf(front) + {t};
    }
  }

  lemma CrossedCount(previous: nat, current: nat, emitted: set<Threshold>)
    ensures var crossed := Crossed(previous, current, emitted);
      && |MarksOf(crossed)| == |crossed|
      && MarksOf(crossed) !! emitted
      && (forall t: Threshold :: t in crossed <==> 0 < current <= t.Seconds() < previous && t !in emitted)
  {
    var crossed := Crossed(previous, current, emitted);
    CrossedDistinct(previous, current, emitted);
    DistinctCount(crossed);
    AllThresholdsListed();
  }

  /** Does this timer have a warning to send now? */
  ghost predicate HasWarning(c: Coord, id: TimerId, now: nat) {
    && id in c.timers && now < c.timers[id].target && FindAction(c.mem.actions, id) < |c.mem.actions|
    && exists t: Threshold :: 0 < SecondsLeft(c.timers[id], now) <= t.Seconds() < c.timers[id].cursor
         && t !in c.mem.actions[FindAction(c.mem.actions, id)].emitted
  }

  /** The warning phase of one timer. With nothing to send, or a save that is refused, no action is marked, no
      notice is queued and nothing is told. Otherwise exactly the thresholds between the time left and the
      cursor are marked, one notice each stands at the end of the outbox, and one warning each is told, with
      the kind and the deadline of the timer and the time of day. */
  lemma WarnOutcome(env: Environment, c: Coord, id: TimerId, now: nat)
    ensures var d, k := Warn(env, c, id, now), FindAction(c.mem.actions, id);
      if !HasWarning(c, id, now) || !SaveOk(env, c) then
        d.mem == c.mem && d.world.disk == c.world.disk && d.pending == c.pending && Told(c, d, [])
      else
        && MarkedWithNotices(c, d, k)
        && (forall t: Threshold :: t in NewMarks(c.mem.actions, d.mem.actions, k) <==>
              t !in c.mem.actions[k].emitted && SecondsLeft(c.timers[id], now) <= t.Seconds() < c.timers[id].cursor)
        && (exists due: seq<Threshold>, at: nat :: c.world.instant <= at < d.world.instant
              && MarksOf(due) == NewMarks(c.mem.actions, d.mem.actions, k) && |due| == |NewMarks(c.mem.actions, d.mem.actions, k)|
              && Told(c, d, WarningNews(id, c.timers[id].kind, c.timers[id].deadline, due, env(at).utc)))
  {
    hide Commit, WarningsSaved, Crossed, Notices, Recompute, Told, SecondsLeft, MarkedWithNotices, WarningNews;
    if id in c.timers && now < c.timers[id].target {
      var k := FindAction(c.mem.actions, id);
      var previous, current := c.timers[id].cursor, SecondsLeft(c.timers[id], now);
      CursorTells(c, id, current);
      if k < |c.mem.actions| {
        CrossedCount(previous, current, c.mem.actions[k].emitted);
        var crossed := CrossedBy(c, id, previous, current);
        HasWarningExactly(c, id, now, crossed);
        if previous > current && crossed != [] { WarnCrossedOutcome(env, c, id, current, crossed); }
      }
    } else {
      CursorTells(c, id, 0);
    }
  }

  lemma HasWarningExactly(c: Coord, id: TimerId, now: nat, crossed: seq<Threshold>)
    requires id in c.timers && now < c.timers[id].target && FindAction(c.mem.actions, id) < |c.mem.actions|
    requires forall t: Threshold :: t in crossed <==>
      0 < SecondsLeft(c.timers[id], now) <= t.Seconds() < c.timers[id].cursor && t !in c.mem.actions[FindAction(c.mem.actions, id)].emitted
    ensures HasWarning(c, id, now) <==> crossed != []
    ensures crossed != [] ==> c.timers[id].cursor > SecondsLeft(c.timers[id], now)
  {
    hide SecondsLeft;
    if HasWarning(c, id, now) {
      var t: Threshold :| 0 < SecondsLeft(c.timers[id], now) <= t.Seconds() < c.timers[id].cursor
        && t !in c.mem.actions[FindAction(c.mem.actions, id)].emitted;
      assert t in crossed;
    }
    assert crossed != [] ==> crossed[0] in crossed;
  }

  lemma CursorTells(c: Coord, id: TimerId, current: nat)
    ensures Told(c, SetCursor(c, id, current), []) && Told(c, c, [])
  {
  }

  lemma WarnCrossedOutcome(env: Environment, c: Coord, id: TimerId, current: nat, crossed: seq<Threshold>)
    requires id in c.timers && FindAction(c.mem.actions, id) < |c.mem.actions|
    requires |MarksOf(crossed)| == |crossed| && MarksOf(crossed) !! c.mem.actions[FindAction(c.mem.actions, id)].emitted
    ensures var d, k := WarnCrossed(env, c, id, current, crossed), FindAction(c.mem.actions, id);
      if !SaveOk(env, c) then d.mem == c.mem && d.world.disk == c.world.disk && d.pending == c.pending && Told(c, d, [])
      else
        && MarkedWithNotices(c, d, k) && NewMarks(c.mem.actions, d.mem.actions, k) == MarksOf(crossed)
        && exists at: nat :: c.world.instant <= at < d.world.instant
             && Told(c, d, WarningNews(id, c.timers[id].kind, c.timers[id].deadline, crossed, env(at).utc))
  {
    hide WarnCrossed, Told, WarningNews, Notices, MarkedWithNotices, NewMarks;
    WarnCrossedMarks(env, c, id, current, crossed);
    WarnCrossedTells(env, c, id, current, crossed);
  }

  lemma WarnCrossedMarks(env: Environment, c: Coord, id: TimerId, current: nat, crossed: seq<Threshold>)
    requires id in c.timers && FindAction(c.mem.actions, id) < |c.mem.actions|
    requires |MarksOf(crossed)| == |crossed| && MarksOf(crossed) !! c.mem.actions[FindAction(c.mem.actions, id)].emitted
    ensures var d, k := WarnCrossed(env, c, id, current, crossed), FindAction(c.mem.actions, id);
      if !SaveOk(env, c) then d.mem == c.mem && d.world.disk == c.world.disk && d.pending == c.pending
      else MarkedWithNotices(c, d, k) && NewMarks(c.mem.actions, d.mem.actions, k) == MarksOf(crossed)
  {
    hide Commit, TellWarnings, Recompute;
    var k := FindAction(c.mem.actions, id);
    var after := WarnEdit(c.mem, k, crossed, c.world.nextId);
    assert after.actions[k].emitted - c.mem.actions[k].emitted == MarksOf(crossed);
  }

  lemma WarnCrossedTells(env: Environment, c: Coord, id: TimerId, current: nat, crossed: seq<Threshold>)
    requires id in c.timers && FindAction(c.mem.actions, id) < |c.mem.actions|
    ensures var d := WarnCrossed(env, c, id, current, crossed);
      if !SaveOk(env, c) then Told(c, d, [])
      else exists at: nat :: c.world.instant <= at < d.world.instant
             && Told(c, d, WarningNews(id, c.timers[id].kind, c.timers[id].deadline, crossed, env(at).utc))
  {
    hide Commit, TellWarnings, Recompute, Told, WarningNews, WarnEdit;
    var k := FindAction(c.mem.actions, id);
    var c1 := c.(world := c.world.Draw(|crossed|));
    var after := WarnEdit(c.mem, k, crossed, c.world.nextId);
    SavingTells(env, c1, after);
    ToldAlike(c, c1, Commit(env, c1, after), []);
    if SaveOk(env, c1) {
      var described := c.mem.actions[k].(kind := c.timers[id].kind, deadline := c.timers[id].deadline);
      var c3 := SetCursor(Commit(env, c1, after), id, current);
      var utc := Utc(env, c3);
      var news := WarningNews(id, described.kind, described.deadline, crossed, utc);
      var d := TellWarnings(env, Looked(c3), described, crossed, utc);
      TellWarningsTells(env, Looked(c3), described, crossed, utc);
      ToldAlike(Commit(env, c1, after), Looked(c3), d, news);
      ToldOn(c, Commit(env, c1, after), d, [], news);
      assert [] + news == news;
      assert env(c3.world.instant).utc == utc;
      assert c.world.instant <= c3.world.instant < d.world.instant;
    }
  }

  // ---- the whole pass ------------------------------------------------------------------------------------

  /** Every pair of action and threshold that is marked. */
  ghost function Marks(actions: seq<Action>): set<(TimerId, Threshold)> {
    set a <- actions, t <- a.emitted :: (a.id, t)
  }

  /** From `c` to `d` one notice was queued for every new mark, and none for anything else. */
  ghost predicate NoticePerMark(c: Coord, d: Coord) {
    && Marks(c.mem.actions) <= Marks(d.mem.actions)
    && NoticesAdded(c.mem.outbox, d.mem.outbox, |Marks(d.mem.actions) - Marks(c.mem.actions)|)
  }

  lemma {:induction false} PairCount(id: TimerId, ts: set<Threshold>, pairs: set<(TimerId, Threshold)>)
    requires pairs == set t <- ts :: (id, t)
    ensures |pairs| == |ts|
    decreases |ts|
  {
    if ts != {} {
      var t :| t in ts;
      PairCount(id, ts - {t}, pairs - {(id, t)});
    } else {
      assert pairs == {};
    }
  }

  lemma MarkedIsPerMark(c: Coord, d: Coord, k: nat)
    requires UniqueActions(c.mem.actions) && MarkedWithNotices(c, d, k)
    ensures NoticePerMark(c, d)
  {
    var before, after := c.mem.actions, d.mem.actions;
    var added, id := NewMarks(before, after, k), before[k].id;
    var pairs := set t <- added :: (id, t);
    PairCount(id, added, pairs);
    forall p | p in Marks(before) ensures p in Marks(after) {
      var i :| 0 <= i < |before| && before[i].id == p.0 && p.1 in before[i].emitted;
      assert after[i] in after && p.1 in after[i].emitted;
    }
    forall a | a in before && a.id == id ensures a == before[k] { SameAction(before, a, before[k]); }
    forall a | a in after ensures a in before || a == after[k] {
      var i :| 0 <= i < |after| && after[i] == a;
      assert i != k ==> before[i] == a;
    }
    assert after[k] in after && before[k] in before;
    assert Marks(after) - Marks(before) == pairs;
  }

  lemma PerMarkOn(b: Coord, c: Coord, d: Coord)
    requires NoticePerMark(b, c) && NoticePerMark(c, d)
    ensures NoticePerMark(b, d)
  {
    hide IsNotice;
    var x, y, z := Marks(b.mem.actions), Marks(c.mem.actions), Marks(d.mem.actions);
    assert z - x == (z - y) + (y - x);
    NoticesOn(b.mem.outbox, c.mem.outbox, d.mem.outbox, |y - x|, |z - y|);
  }

  lemma SamePerMark(c: Coord, d: Coord)
    requires d.mem == c.mem
    ensures NoticePerMark(c, d)
  {
    assert Marks(d.mem.actions) - Marks(c.mem.actions) == {};
  }

  /** The warning phase queues exactly one notice for every pair of timer and threshold it marks. */
  lemma {:induction false} WarnAllOutcome(env: Environment, c: Coord, order: seq<TimerId>, now: nat)
    requires Durable(c)
    ensures NoticePerMark(c, WarnAll(env, c, order, now))
    decreases |order|
  {
    hide Warn, Durable, NoticePerMark, HasWarning, Told, MarkedWithNotices;
    if order == [] {
      SamePerMark(c, c);
    } else {
      var front, id := order[..|order| - 1], order[|order| - 1];
      WarnAllOutcome(env, c, front, now);
      WarnAllKeeps(env, c, front, now);
      var before := WarnAll(env, c, front, now);
      DurableIsUnique(before);
      WarnOutcome(env, before, id, now);
      var d := Warn(env, before, id, now);
      if MarkedWithNotices(before, d, FindAction(before.mem.actions, id)) {
        MarkedIsPerMark(before, d, FindAction(before.mem.actions, id));
      } else {
        SamePerMark(before, d);
      }
      PerMarkOn(c, before, d);
    }
  }

  // ---- which warnings are sent -------------------------------------------------------------------------

  /** `b` is the action `a` with more marks, all of thresholds not below the time left. */
  ghost predicate MarkedUntil(a: Action, b: Action, n: Anchor, now: nat) {
    && b == a.(emitted := b.emitted) && a.emitted <= b.emitted
    && forall t <- b.emitted :: t in a.emitted || SecondsLeft(n, now) <= t.Seconds()
  }

  lemma WarnMarksUntil(env: Environment, c: Coord, id: TimerId, now: nat, a: Action)
    requires UniqueActions(c.mem.actions) && a in c.mem.actions && a.id in c.timers
    ensures exists b <- Warn(env, c, id, now).mem.actions :: MarkedUntil(a, b, c.timers[a.id], now)
  {
    hide Warn, SecondsLeft, Told, HasWarning;
    WarnOutcome(env, c, id, now);
    var d, k := Warn(env, c, id, now), FindAction(c.mem.actions, id);
    var i :| 0 <= i < |c.mem.actions| && c.mem.actions[i] == a;
    assert MarkedUntil(a, a, c.timers[a.id], now);
    if MarkedWithNotices(c, d, k) {
      assert d.mem.actions[i] in d.mem.actions;
      assert i == k ==> MarkedUntil(a, d.mem.actions[i], c.timers[a.id], now);
      assert i != k ==> d.mem.actions[i] == a;
    }
  }

  lemma {:induction false} WarnAllMarksUntil(env: Environment, c: Coord, order: seq<TimerId>, now: nat, a: Action)
    requires Durable(c) && Kind(env, c.world.instant, now) && a in c.mem.actions && a.id in c.timers
    ensures exists b <- WarnAll(env, c, order, now).mem.actions :: MarkedUntil(a, b, c.timers[a.id], now)
    decreases |order|
  {
    hide Warn, Durable, Kind;
    if order == [] {
      assert MarkedUntil(a, a, c.timers[a.id], now);
    } else {
      var front := order[..|order| - 1];
      WarnAllMarksUntil(env, c, front, now, a);
      WarnAllKeeps(env, c, front, now);
      WarnAllUpdates(env, c, front, now);
      var before := WarnAll(env, c, front, now);
      DurableIsUnique(before);
      var b :| b in before.mem.actions && MarkedUntil(a, b, c.timers[a.id], now);
      WarnMarksUntil(env, before, order[|order| - 1], now, b);
      var d := WarnAll(env, c, order, now);
      var e :| e in d.mem.actions && MarkedUntil(b, e, before.timers[a.id], now);
      assert MarkedUntil(a, e, c.timers[a.id], now);
    }
  }

  /** The time left until the end of the timer is not above this threshold. */
  ghost predicate Passed(n: Anchor, t: Threshold, now: nat) {
    n.start + n.original * NANOS_PER_SECOND <= now + t.Seconds() * NANOS_PER_SECOND
  }

  /** `b` is the action `a` with its old marks and those of the thresholds passed. */
  ghost predicate MarkedExactly(a: Action, b: Action, n: Anchor, now: nat) {
    && b == a.(emitted := b.emitted)
    && forall t: Threshold :: t in b.emitted <==> t in a.emitted || Passed(n, t, now)
  }

  ghost predicate HasMarked(actions: seq<Action>, a: Action, n: Anchor, now: nat) {
    exists b <- actions :: MarkedExactly(a, b, n, now)
  }

  lemma PassedExactly(n: Anchor, t: Threshold, now: nat)
    requires t.Seconds() < n.original
    ensures SecondsLeft(n, now) <= t.Seconds() <==> Passed(n, t, now)
  {
  }

  /** In every run: after a tick in which saves succeed and no stop is seen, a pending action whose time has
      not come has exactly its old marks and those of the thresholds it has passed. */
  lemma PassedWarningsAreMarked(env: Environment, m: Machine, steps: seq<Step>, order: seq<TimerId>, a: Action)
    requires Installed(m) && Run(env, m, steps).Up?
    requires var c := Run(env, m, steps).coord; Kind(env, c.world.instant, TickTime(env, c))
    requires a in Run(env, m, steps).coord.mem.actions && a.exec.Pending? && a.id in order
    ensures var c := Run(env, m, steps).coord;
      var d, now := Tick(env, c, order), TickTime(env, c);
      && a.id in c.timers
      && (c.timers[a.id].target > now ==> d.world.stopSeen || HasMarked(d.mem.actions, a, c.timers[a.id], now))
  {
    hide Run, Durable, Healed, Truthful, Kind, Tick, HasMarked;
    RunIsSane(env, m, steps);
    var c := Run(env, m, steps).coord;
    if c.timers[a.id].target > TickTime(env, c) { TickMarks(env, c, order, a); }
  }

  lemma TickMarks(env: Environment, c: Coord, order: seq<TimerId>, a: Action)
    requires Durable(c) && Timed(c) && Kind(env, c.world.instant, TickTime(env, c))
    requires a in c.mem.actions && a.exec.Pending? && a.id in order && a.id in c.timers && c.timers[a.id].target > TickTime(env, c)
    ensures var d, now := Tick(env, c, order), TickTime(env, c);
      d.world.stopSeen || HasMarked(d.mem.actions, a, c.timers[a.id], now)
  {
    hide WarnAll, FireAll, Retry, Durable, Timed, Kind, Expired, MarkedExactly, Moves;
    var c0 := LookForStop(env, c);
    if !c0.world.stopSeen {
      var now, c1 := Mono(env, c0), Looked(c0);
      HushedKeeps(c, c1);
      SameActionsMove(c, c1);
      MovesKeepsTimed(c, c1);
      KindLater(env, c.world.instant, c1.world.instant, now);
      var c2 := WarnAll(env, c1, order, now);
      WarnAllKeeps(env, c1, order, now);
      var b := WarnAllMarksExactly(env, c1, order, now, a);
      TimedKinds(c);
      KindsSurvive(c.mem.actions, c2.mem.actions, c.timers);
      ExpiredFacts(c.timers, order, now);
      ExpiredHas(c.timers, order, now, a.id);
      var due := Expired(c.timers, order, now);
      FireAllKeepsOthers(env, c2, c.timers, due, b);
      RetryKeepsPending(env, FireAll(env, c2, c.timers, due).coord.(retryAt := None), b);
    }
  }

  lemma WarnAllMarksExactly(env: Environment, c: Coord, order: seq<TimerId>, now: nat, a: Action) returns (b: Action)
    requires Durable(c) && Timed(c) && Kind(env, c.world.instant, now)
    requires a in c.mem.actions && a.id in order && a.id in c.timers && c.timers[a.id].target > now
    ensures b in WarnAll(env, c, order, now).mem.actions && MarkedExactly(a, b, c.timers[a.id], now)
    ensures b.id == a.id && b.exec == a.exec
  {
    hide WarnAll, Durable, Timed, Kind, Passed, SecondsLeft;
    WarnAllKeepsTimed(env, c, order, now);
    WarnAllUpdates(env, c, order, now);
    WarnAllMarksUntil(env, c, order, now, a);
    b :| b in WarnAll(env, c, order, now).mem.actions && MarkedUntil(a, b, c.timers[a.id], now);
    MarksExactly(c, WarnAll(env, c, order, now), a, b, now);
  }

  lemma MarksExactly(c: Coord, c2: Coord, a: Action, b: Action, now: nat)
    requires Timed(c) && Timed(c2) && a in c.mem.actions && a.id in c.timers && a.id in c2.timers
    requires b in c2.mem.actions && MarkedUntil(a, b, c.timers[a.id], now)
    requires c2.timers[a.id] == c.timers[a.id].(cursor := c2.timers[a.id].cursor)
    requires UpToDate(c2.timers[a.id], now) && now < c.timers[a.id].target
    ensures MarkedExactly(a, b, c.timers[a.id], now)
  {
    hide Passed, SecondsLeft;
    var n := c.timers[a.id];
    assert AnchorFits(a, n, c.bootId) && AnchorFits(b, c2.timers[a.id], c2.bootId) && AnchorShape(n);
    forall t: Threshold ensures t in b.emitted <==> t in a.emitted || Passed(n, t, now) {
      if t.Seconds() < n.original {
        PassedExactly(n, t, now);
        SameTimeLeft(n, c2.timers[a.id], now);
      }
    }
  }

  lemma SameTimeLeft(n: Anchor, other: Anchor, now: nat)
    requires other == n.(cursor := other.cursor)
    ensures SecondsLeft(other, now) == SecondsLeft(n, now)
  {
  }

  /** Neither a deadline nor the retry is due. */
  ghost predicate NothingDue(c: Coord, now: nat) {
    && (forall id <- c.timers :: now < c.timers[id].target)
    && (c.retryAt.Some? ==> now < c.retryAt.value)
  }

  /** The law of the notices in every run, also with saves that fail: what a tick queues before its deadlines
      is one notice for every pair of timer and threshold it marks, and if nothing is due then, that is all. */
  lemma TickQueuesWhatItMarks(env: Environment, m: Machine, steps: seq<Step>, order: seq<TimerId>)
    requires Installed(m) && Run(env, m, steps).Up?
    ensures var c := Run(env, m, steps).coord;
      && NoticePerMark(c, WarnAll(env, Looked(LookForStop(env, c)), order, TickTime(env, c)))
      && (NothingDue(c, TickTime(env, c)) ==> NoticePerMark(c, Tick(env, c, order)))
  {
    hide Run, Durable, Timed, Healed, Truthful, NoticePerMark, NothingDue, WarnAll, Tick;
    RunIsSane(env, m, steps);
    NoticesOfTick(env, Run(env, m, steps).coord, order);
  }

  lemma NoticesOfTick(env: Environment, c: Coord, order: seq<TimerId>)
    requires Durable(c)
    ensures NoticePerMark(c, WarnAll(env, Looked(LookForStop(env, c)), order, TickTime(env, c)))
    ensures NothingDue(c, TickTime(env, c)) ==> NoticePerMark(c, Tick(env, c, order))
  {
    hide Durable, NoticePerMark, WarnAll;
    SamePerMark(c, LookForStop(env, c));
    var c1 := Looked(LookForStop(env, c));
    HushedKeeps(c, c1);
    var now := TickTime(env, c);
    WarnAllOutcome(env, c1, order, now);
    SamePerMark(c, c1);
    PerMarkOn(c, c1, WarnAll(env, c1, order, now));
    if NothingDue(c, now) {
      NoneExpired(c.timers, order, now);
      WarnAllRetry(env, c1, order, now);
    }
  }

  lemma WarnAllRetry(env: Environment, c: Coord, order: seq<TimerId>, now: nat)
    ensures WarnAll(env, c, order, now).retryAt == c.retryAt
  {
    hide WarnAll;
    WarnAllAside(env, c, order, now);
  }
}
