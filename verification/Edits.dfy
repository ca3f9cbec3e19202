/** Every snapshot the coordinator ever tries to save is a legal successor of the one in memory:
    it encodes, actions only move forward, and the outbox only loses acknowledged entries. */
module Edits {
  import opened Domain
  import opened World
  import opened Subscribers
  import opened Runtime
  import opened Recovery
  import opened Safety
  import opened Durability

  // ---- actions -------------------------------------------------------------------------------

  /** `after` keeps some of the actions of `before`, in order, each in a later version. */
  ghost predicate Descends(before: seq<Action>, after: seq<Action>)
    decreases |before|
  {
    if before == [] then after == []
    else
      var front, a := before[..|before| - 1], before[|before| - 1];
      || Descends(front, after)
      || (after != [] && Evolves(a, after[|after| - 1]) && Descends(front, after[..|after| - 1]))
  }

  lemma {:induction false} DescendsFacts(before: seq<Action>, after: seq<Action>)
    requires Descends(before, after)
    ensures forall b <- after :: exists a <- before :: Evolves(a, b)
    ensures UniqueActions(before) ==> UniqueActions(after)
    decreases |before|
  {
    if before != [] {
      var front, a := before[..|before| - 1], before[|before| - 1];
      assert before == front + [a];
      if Descends(front, after) {
        DescendsFacts(front, after);
      } else {
        var rest, b := after[..|after| - 1], after[|after| - 1];
        assert after == rest + [b];
        DescendsFacts(front, rest);
        if UniqueActions(before) {
          forall i | 0 <= i < |rest| ensures rest[i].id != b.id {
            assert rest[i] in rest;
            var x :| x in front && Evolves(x, rest[i]);
            var j :| 0 <= j < |front| && front[j] == x;
            assert before[j].id != before[|front|].id;
          }
        }
      }
    }
  }

  lemma {:induction false} PointwiseDescends(before: seq<Action>, after: seq<Action>)
    requires |before| == |after|
    requires forall i :: 0 <= i < |before| ==> Evolves(before[i], after[i])
    ensures Descends(before, after)
    decreases |before|
  {
    if before != [] {
      PointwiseDescends(before[..|before| - 1], after[..|after| - 1]);
    }
  }

  lemma {:induction false} RemoveDescends(actions: seq<Action>, id: TimerId)
    ensures Descends(actions, RemoveAction(actions, id))
    ensures forall a :: a in RemoveAction(actions, id) <==> a in actions && a.id != id
    decreases |actions|
  {
    if actions != [] {
      var front, a := actions[..|actions| - 1], actions[|actions| - 1];
      assert actions == front + [a];
      RemoveDescends(front, id);
      assert RemoveAction(front, id) == (RemoveAction(front, id) + [a])[..|RemoveAction(front, id)|];
    }
  }

  lemma {:induction false} ResolveDescends(actions: seq<Action>)
    ensures Descends(actions, ResolveBlocks(actions))
    ensures forall a :: a in ResolveBlocks(actions) <==> a in actions && !(a.kind.BlockInternet? && a.exec.Executing?)
    decreases |actions|
  {
    if actions != [] {
      var front, a := actions[..|actions| - 1], actions[|actions| - 1];
      assert actions == front + [a];
      ResolveDescends(front);
      assert ResolveBlocks(front) == (ResolveBlocks(front) + [a])[..|ResolveBlocks(front)|];
    }
  }

  lemma {:induction false} CompleteDescends(actions: seq<Action>, ids: set<TimerId>)
    ensures Descends(actions, CompleteBlocks(actions, ids))
    ensures forall a :: a in CompleteBlocks(actions, ids) <==> a in actions && !(a.id in ids && a.exec.Executing?)
    decreases |actions|
  {
    if actions != [] {
      var front, a := actions[..|actions| - 1], actions[|actions| - 1];
      assert actions == front + [a];
      CompleteDescends(front, ids);
      assert CompleteBlocks(front, ids) == (CompleteBlocks(front, ids) + [a])[..|CompleteBlocks(front, ids)|];
    }
  }

  function FailOne(a: Action, ids: set<TimerId>, reason: string): Action {
    if a.id in ids && a.exec.Executing? then a.(exec := Failed(reason)) else a
  }

  lemma {:induction false} FailDescends(actions: seq<Action>, ids: set<TimerId>, reason: string)
    ensures |FailBlocks(actions, ids, reason)| == |actions|
    ensures forall i :: 0 <= i < |actions| ==> FailBlocks(actions, ids, reason)[i] == FailOne(actions[i], ids, reason)
    ensures Descends(actions, FailBlocks(actions, ids, reason))
    decreases |actions|
  {
    if actions != [] {
      FailDescends(actions[..|actions| - 1], ids, reason);
    }
    var after := FailBlocks(actions, ids, reason);
    PointwiseDescends(actions, after);
  }

  lemma {:induction false} RecoverDescends(actions: seq<Action>, utc: int)
    ensures Descends(actions, RecoverActions(actions, utc))
    ensures forall b :: b in RecoverActions(actions, utc) <==> exists a <- actions :: !IsMissed(a, utc) && b == RecoverOne(a, utc)
    decreases |actions|
  {
    if actions != [] {
      var front, a := actions[..|actions| - 1], actions[|actions| - 1];
      assert actions == front + [a];
      RecoverDescends(front, utc);
      var rest, b := RecoverActions(front, utc), RecoverOne(a, utc);
      assert rest == (rest + [b])[..|rest|];
      assert Evolves(a, b);
    }
  }

  lemma SetExecDescends(actions: seq<Action>, k: nat, exec: ExecutionState)
    requires k < |actions| && Rank(actions[k].exec) <= Rank(exec)
    ensures Descends(actions, SetExec(actions, k, exec))
  {
    PointwiseDescends(actions, SetExec(actions, k, exec));
  }

  // ---- outbox --------------------------------------------------------------------------------

  ghost predicate OutboxOk(outbox: seq<OutboxEntry>, n: nat) {
    UniqueEntries(outbox) && (forall e <- outbox :: SendableEntry(e) && e.id < n)
  }

  lemma AppendOutbox(outbox: seq<OutboxEntry>, more: seq<OutboxEntry>, lo: nat, hi: nat)
    requires OutboxOk(outbox, lo) && OutboxOk(more, hi) && lo <= hi
    requires forall e <- more :: e.id >= lo
    ensures OutboxOk(outbox + more, hi)
    ensures GrowsFrom(lo, outbox, outbox + more)
  {
  }

  lemma NoticesOk(first: EntryId, n: nat, text: string)
    ensures OutboxOk(Notices(first, n, text), first + n)
    ensures forall e <- Notices(first, n, text) :: first <= e.id
  {
  }

  lemma RestOk(outbox: seq<OutboxEntry>, k: nat, n: nat)
    requires k < |outbox| && OutboxOk(outbox, n)
    ensures OutboxOk(outbox[..k] + outbox[k + 1..], n)
  {
    var rest := outbox[..k] + outbox[k + 1..];
    assert forall i :: 0 <= i < |rest| ==> rest[i] == outbox[if i < k then i else i + 1];
  }

  // ---- snapshots -----------------------------------------------------------------------------

  ghost predicate NoneTerminal(actions: seq<Action>) {
    forall a <- actions :: !a.exec.IsTerminal()
  }

  /** The premises every operation starts from. */
  ghost predicate Sound(s: PersistentState, n: nat) {
    Encodable(s) && IdsBelow(s, n)
  }

  lemma DescendingEdit(s: PersistentState, after: PersistentState, lo: nat, hi: nat)
    requires Sound(s, lo) && lo <= hi
    requires Descends(s.actions, after.actions) && NoneTerminal(after.actions)
    requires OutboxOk(after.outbox, hi) && GrowsFrom(lo, s.outbox, after.outbox)
    ensures Edit(s, after, lo, hi)
  {
    DescendsFacts(s.actions, after.actions);
    forall b | b in after.actions ensures b.id < hi {
      var a :| a in s.actions && Evolves(a, b);
    }
  }

  /** Actions move forward, the outbox stays. */
  lemma ForwardEdit(s: PersistentState, after: PersistentState, lo: nat)
    requires Sound(s, lo) && after.outbox == s.outbox
    requires Descends(s.actions, after.actions) && NoneTerminal(after.actions)
    ensures Edit(s, after, lo, lo)
  {
    DescendingEdit(s, after, lo, lo);
  }

  /** Only the policy or the retry record changes. */
  lemma SameListsEdit(s: PersistentState, after: PersistentState, lo: nat, hi: nat)
    requires Sound(s, lo) && lo <= hi && after.actions == s.actions && after.outbox == s.outbox
    ensures Edit(s, after, lo, hi)
  {
    PointwiseDescends(s.actions, s.actions);
    DescendingEdit(s, after, lo, hi);
  }

  lemma ScheduleIsEdit(s: PersistentState, a: Action, n: nat)
    requires Sound(s, a.id) && a.exec.Pending?
    ensures Edit(s, ScheduleEdit(s, a, Notices(a.id + 1, n, WARNING_TEXT)), a.id, a.id + 1 + n)
  {
    var notices := Notices(a.id + 1, n, WARNING_TEXT);
    NoticesOk(a.id + 1, n, WARNING_TEXT);
    AppendOutbox(s.outbox, notices, a.id, a.id + 1 + n);
    forall b | b in s.actions + [a] && b.id < a.id ensures exists x <- s.actions :: Evolves(x, b) {
      assert Evolves(b, b);
    }
  }

  lemma RemoveIsEdit(s: PersistentState, id: TimerId, lo: nat)
    requires Sound(s, lo)
    ensures Edit(s, s.(actions := RemoveAction(s.actions, id)), lo, lo)
  {
    RemoveDescends(s.actions, id);
    DescendingEdit(s, s.(actions := RemoveAction(s.actions, id)), lo, lo);
  }

  /** Actions move forward and some entries with fresh identifiers are appended. */
  lemma ProgressIsEdit(s: PersistentState, after: PersistentState, more: seq<OutboxEntry>, lo: nat, hi: nat)
    requires Sound(s, lo) && lo <= hi
    requires Descends(s.actions, after.actions) && NoneTerminal(after.actions)
    requires OutboxOk(more, hi) && (forall e <- more :: e.id >= lo)
    requires after.outbox == s.outbox + more
    ensures Edit(s, after, lo, hi)
  {
    AppendOutbox(s.outbox, more, lo, hi);
    DescendingEdit(s, after, lo, hi);
  }

  /** The record of a gate failure, on top of actions that only moved forward. */
  lemma RetryIsEdit(s: PersistentState, moved: PersistentState, reason: string, lo: nat)
    requires Sound(s, lo) && moved.outbox == s.outbox
    requires Descends(s.actions, moved.actions) && NoneTerminal(moved.actions)
    ensures Edit(s, RetryEdit(moved, reason, lo), lo, lo + 1)
  {
    ProgressIsEdit(s, RetryEdit(moved, reason, lo), [Notice(lo, reason)], lo, lo + 1);
  }

  lemma UnchangedDescends(s: PersistentState)
    ensures Descends(s.actions, s.actions)
  {
    PointwiseDescends(s.actions, s.actions);
  }

  lemma CompleteIsEdit(s: PersistentState, id: TimerId)
    requires Encodable(s)
    ensures Descends(s.actions, CompleteEdit(s, id).actions)
    ensures NoneTerminal(CompleteEdit(s, id).actions)
    ensures CompleteEdit(s, id) == s.(actions := CompleteEdit(s, id).actions)
  {
    RemoveDescends(s.actions, id);
    UnchangedDescends(s);
  }

  lemma FailIsEdit(s: PersistentState, id: TimerId, reason: string)
    requires Encodable(s)
    ensures Descends(s.actions, FailEdit(s, id, reason).actions)
    ensures NoneTerminal(FailEdit(s, id, reason).actions)
    ensures FailEdit(s, id, reason) == s.(actions := FailEdit(s, id, reason).actions)
  {
    UnchangedDescends(s);
    var k := FindAction(s.actions, id);
    if k < |s.actions| && s.actions[k].exec.Executing? { SetExecDescends(s.actions, k, Failed(reason)); }
  }

  lemma WarnIsEdit(s: PersistentState, k: nat, crossed: seq<Threshold>, lo: nat)
    requires Sound(s, lo) && k < |s.actions|
    ensures Edit(s, WarnEdit(s, k, crossed, lo), lo, lo + |crossed|)
  {
    var after := WarnEdit(s, k, crossed, lo);
    PointwiseDescends(s.actions, after.actions);
    NoticesOk(lo, |crossed|, WARNING_TEXT);
    ProgressIsEdit(s, after, Notices(lo, |crossed|, WARNING_TEXT), lo, lo + |crossed|);
  }

  lemma StartExecutingIsEdit(s: PersistentState, after: PersistentState, k: nat, lo: nat)
    requires Sound(s, lo) && k < |s.actions| && s.actions[k].exec.Pending?
    requires after.actions == SetExec(s.actions, k, Executing) && after.outbox == s.outbox
    ensures Edit(s, after, lo, lo)
  {
    SetExecDescends(s.actions, k, Executing);
    DescendingEdit(s, after, lo, lo);
  }

  lemma ResolveIsEdit(s: PersistentState, lo: nat)
    requires Sound(s, lo)
    ensures Edit(s, RetryDoneEdit(s), lo, lo)
  {
    ResolveDescends(s.actions);
    UnchangedDescends(s);
    DescendingEdit(s, RetryDoneEdit(s), lo, lo);
  }

  lemma RecoverIsEdit(s: PersistentState, utc: int, lo: nat)
    requires Sound(s, lo)
    ensures Edit(s, RecoverState(s, utc, lo), lo, lo + |MissedActions(s.actions, utc)|)
  {
    var n := |MissedActions(s.actions, utc)|;
    RecoverDescends(s.actions, utc);
    NoticesOk(lo, n, MISSED_TEXT);
    ProgressIsEdit(s, RecoverState(s, utc, lo), Notices(lo, n, MISSED_TEXT), lo, lo + n);
  }

  lemma ReconciledIsEdit(s: PersistentState, ids: set<TimerId>, lo: nat)
    requires Sound(s, lo)
    ensures Edit(s, ReconciledState(s, ids), lo, lo)
  {
    CompleteDescends(s.actions, ids);
    DescendingEdit(s, ReconciledState(s, ids), lo, lo);
  }

  lemma DegradedIsEdit(s: PersistentState, ids: set<TimerId>, reason: string, lo: nat)
    requires Sound(s, lo)
    ensures Edit(s, DegradedState(s, ids, reason, lo), lo, lo + 1)
  {
    FailDescends(s.actions, ids, reason);
    RetryIsEdit(s, s.(actions := FailBlocks(s.actions, ids, reason)), reason, lo);
  }
}
