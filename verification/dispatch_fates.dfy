/** What becomes of notifications that are not delivered: the other members of a digest batch,
    and the ids on a digest list that no task will drain. */
module DispatchFates {
  import opened Common
  import opened Workflows
  import opened Dispatch
  import opened DispatchAlways
  import opened DispatchProofs
  import opened DispatchSafety
  import opened DispatchLimits

  // ---------------------------------------------------------------------------------
  // Rows of steps that were never started
  // ---------------------------------------------------------------------------------

  /** Every delivery task was started. */
  ghost predicate Started(s: State) {
    forall h :: h in s.pool && s.pool[h].DeliveryTask? ==> (s.pool[h].notif, s.pool[h].step) in s.enqueued
  }

  /** The row of a step that was never started is pending. */
  ghost predicate UnstartedPending(defs: Definitions, s: State) {
    forall n, k: nat :: n in s.notifs && OwnsChannel(defs, s.notifs[n].wf, k) && (n, k) !in s.enqueued ==>
      PendingFor(s.notifs[n].rows, StepsOf(defs, s.notifs[n].wf)[k].kind)
  }

  lemma StartedAfter(s: State, h: Handle, f: Handle, e: Effect)
    requires h in s.pool && f !in s.pool && Started(s) && Starts(s, s.pool[h], e)
    ensures Started(e.rest.(pool := Install(s.pool, h, f, e)))
    ensures forall x :: x in s.enqueued ==> x in e.rest.enqueued
  {
  }

  lemma RowStillPending(defs: Definitions, s: State, h: Handle, e: Effect, n: NotifId, k: nat)
    requires Always(defs, s) && Started(s) && UnstartedPending(defs, s) && h in s.pool
    requires Touches(defs, s, s.pool[h], e, n) && n in e.rest.notifs
    requires OwnsChannel(defs, e.rest.notifs[n].wf, k) && (n, k) !in s.enqueued
    ensures PendingFor(e.rest.notifs[n].rows, StepsOf(defs, e.rest.notifs[n].wf)[k].kind)
  {
    hide PendingFor, SetStatus, CollectorsAlone, TriggersOk, UniqueOk, RowsFit;
    var x := e.rest.notifs[n];
    if n in s.notifs && x == s.notifs[n] {
    } else if x.rows == PendingRows(StepsOf(defs, x.wf)) {
      AllPending(x.rows, StepsOf(defs, x.wf));
    } else {
      BornNow(defs, s, n);
      OneFits(defs, s, h);
      OtherRowsStay(defs, s, s.pool[h], x.rows, n, k);
    }
  }

  lemma StepKeepsPending(defs: Definitions, s: State, a: Action)
    requires Always(defs, s) && Started(s) && UnstartedPending(defs, s)
    ensures Started(Do(defs, s, a)) && UnstartedPending(defs, Do(defs, s, a))
  {
    hide React, Always, Touches, Starts, PendingFor, OwnsChannel;
    if a.Act? {
      if a.h in s.pool && a.slot !in s.pool {
        var it := s.pool[a.h];
        var e := React(defs, s, it, a.move);
        ReactionStarts(defs, s, it, a.move);
        StartedAfter(s, a.h, a.slot, e);
        forall n, k: nat | n in e.rest.notifs && OwnsChannel(defs, e.rest.notifs[n].wf, k) && (n, k) !in e.rest.enqueued
          ensures k < |StepsOf(defs, e.rest.notifs[n].wf)|
          ensures PendingFor(e.rest.notifs[n].rows, StepsOf(defs, e.rest.notifs[n].wf)[k].kind)
        {
          OwnedChannel(defs, e.rest.notifs[n].wf, k);
          ReactionTouches(defs, s, it, a.move, n);
          RowStillPending(defs, s, a.h, e, n, k);
        }
      }
    } else {
      OtherLessens(defs, s, a);
      LessPending(defs, s, Do(defs, s, a));
    }
  }

  lemma LessPending(defs: Definitions, s: State, t: State)
    requires Started(s) && UnstartedPending(defs, s) && Lessens(s, t)
    ensures Started(t) && UnstartedPending(defs, t)
  {
    hide PendingFor, DistinctChannels;
  }

  lemma {:induction false} RunKeepsPending(defs: Definitions, actions: seq<Action>)
    ensures Started(Run(defs, actions)) && UnstartedPending(defs, Run(defs, actions))
  {
    hide Do, Always;
    if actions != [] {
      hide Started, UnstartedPending;
      var n := |actions| - 1;
      RunKeepsPending(defs, actions[..n]);
      RunKeepsAlways(defs, actions[..n]);
      StepKeepsPending(defs, Run(defs, actions[..n]), actions[n]);
    }
  }

  /** In every run, with distinct channels, the row of a step that was never started for a
      notification is pending. */
  lemma UnstartedRowsArePending(defs: Definitions, actions: seq<Action>, n: NotifId, k: nat)
    requires n in Run(defs, actions).notifs && OwnsChannel(defs, Run(defs, actions).notifs[n].wf, k)
    requires (n, k) !in Run(defs, actions).enqueued
    ensures PendingFor(Run(defs, actions).notifs[n].rows, StepsOf(defs, Run(defs, actions).notifs[n].wf)[k].kind)
  {
    RunKeepsPending(defs, actions);
  }

  // ---------------------------------------------------------------------------------
  // The other members of a batch
  // ---------------------------------------------------------------------------------

  /** Nobody has the right to start step k of notification n. */
  ghost predicate Unclaimed(s: State, n: NotifId, k: nat) {
    n in s.born && forall h :: h in s.pool ==> !Claims(s.lists, s.pool[h], n, k)
  }

  lemma StaysUnclaimed(defs: Definitions, s: State, a: Action, n: NotifId, k: nat)
    requires Inv(defs, s) && Steady(a) && Unclaimed(s, n, k)
    ensures Unclaimed(Do(defs, s, a), n, k)
    ensures (n, k) in Do(defs, s, a).enqueued ==> (n, k) in s.enqueued
  {
    hide React, Claims, Inv, Starts;
    if a.Act? {
      if a.h in s.pool && a.slot !in s.pool { ActStaysUnclaimed(defs, s, a.h, a.slot, a.move, n, k); }
    } else if a.Arrive? && IsRequest(a.item) {
      RequestClaimsNothing(s.lists, a.item, n, k);
    }
  }

  lemma ActStaysUnclaimed(defs: Definitions, s: State, h: Handle, f: Handle, m: Move, n: NotifId, k: nat)
    requires Inv(defs, s) && !m.LoseBatch? && Unclaimed(s, n, k) && h in s.pool && f !in s.pool
    ensures Unclaimed(After(defs, s, h, f, m), n, k)
    ensures (n, k) in After(defs, s, h, f, m).enqueued ==> (n, k) in s.enqueued
  {
    hide React, Claims, Always, TokensOk, Exclusive, HistoryOk, RowsOk, ItemsOk;
    var it := s.pool[h];
    var e := React(defs, s, it, m);
    ReactionIsLawful(defs, s, h, m);
    assert PassesOn(s, it, e, n, k);
    ReactionStarts(defs, s, it, m);
    forall g | g in s.pool && g != h ensures OtherKeeps(s, it, e, s.pool[g], n, k) { }
    if e.rest.enqueued != s.enqueued {
      ClaimsOwn(e.rest.lists, e.fork.value);
    }
  }

  lemma {:induction false} UnclaimedStaysUnstarted(defs: Definitions, before: seq<Action>, after: seq<Action>,
                                                   n: NotifId, k: nat)
    requires AllSteady(before) && AllSteady(after) && Unclaimed(Run(defs, before), n, k)
    ensures Unclaimed(Run(defs, before + after), n, k)
    ensures (n, k) in Run(defs, before + after).enqueued ==> (n, k) in Run(defs, before).enqueued
    decreases |after|
  {
    hide Do, Unclaimed, Inv, Steady;
    if after == [] {
      assert before + after == before;
    } else {
      var m := |after| - 1;
      assert (before + after)[..|before + after| - 1] == before + after[..m];
      UnclaimedStaysUnstarted(defs, before, after[..m], n, k);
      RunKeepsInv(defs, before + after[..m]);
      StaysUnclaimed(defs, Run(defs, before + after[..m]), after[m], n, k);
    }
  }

  /** A digest handler that reads its list leaves the later steps of all members but the first
      to nobody, and none of them was started. */
  lemma ReadingLeavesUnclaimed(defs: Definitions, s: State, h: Handle, f: Handle, n: NotifId, k: nat)
    requires Inv(defs, s) && h in s.pool && f !in s.pool && s.pool[h].DigestTask?
    requires var ids := ListAt(s.lists, s.pool[h].key); n in ids && n != ids[0] && k > s.pool[h].key.step
    ensures Unclaimed(Do(defs, s, Act(h, f, Go)), n, k) && (n, k) !in Do(defs, s, Act(h, f, Go)).enqueued
  {
    hide Always, TokensOk, RowsOk;
    assert Claims(s.lists, s.pool[h], n, k);
    ClaimsAreBorn(defs, s, s.pool[h], n, k);
    forall g | g in s.pool && g != h ensures !Claims(s.lists, s.pool[g], n, k) { }
  }

  /** Of a batch only the first notification goes on: over every steady run, no step after the
      digest is ever started for another member, and its rows stay pending. */
  lemma BatchMembersStayUndelivered(defs: Definitions, before: seq<Action>, h: Handle, f: Handle, after: seq<Action>,
                                    n: NotifId, k: nat)
    requires AllSteady(before) && AllSteady(after)
    requires var s := Run(defs, before);
      && h in s.pool && f !in s.pool && s.pool[h].DigestTask?
      && var ids := ListAt(s.lists, s.pool[h].key); n in ids && n != ids[0] && k > s.pool[h].key.step
    ensures var t := Run(defs, before + [Act(h, f, Go)] + after);
      && (n, k) !in t.enqueued
      && (n in t.notifs && OwnsChannel(defs, t.notifs[n].wf, k) ==>
            PendingFor(t.notifs[n].rows, StepsOf(defs, t.notifs[n].wf)[k].kind))
  {
    hide Do, Inv, Unclaimed, PendingFor, OwnsChannel;
    var a := Act(h, f, Go);
    RunKeepsInv(defs, before);
    ReadingLeavesUnclaimed(defs, Run(defs, before), h, f, n, k);
    OneMoreAction(defs, before, a);
    UnclaimedStaysUnstarted(defs, before + [a], after, n, k);
    var t := Run(defs, before + [a] + after);
    if n in t.notifs && OwnsChannel(defs, t.notifs[n].wf, k) {
      UnstartedRowsArePending(defs, before + [a] + after, n, k);
    }
  }

  // ---------------------------------------------------------------------------------
  // Digest lists without a task
  // ---------------------------------------------------------------------------------

  /** The item will drain the list, is draining it, or may be re-queued for it. */
  predicate InCharge(it: Item, key: DigestKey) { (IsToken(it) || it.Drained?) && it.key == key }

  /** The list is not empty and nobody is in charge of it. */
  ghost predicate Stranded(s: State, key: DigestKey) {
    ListAt(s.lists, key) != [] && forall h :: h in s.pool ==> !InCharge(s.pool[h], key)
  }

  /** Nobody in the effect is in charge of the list, which has at most grown. */
  ghost predicate LeavesAlone(s: State, e: Effect, key: DigestKey) {
    && (e.keep.Some? ==> !InCharge(e.keep.value, key))
    && (e.fork.Some? ==> !InCharge(e.fork.value, key))
    && ListAt(s.lists, key) <= ListAt(e.rest.lists, key)
  }

  lemma CollectorLeavesAlone(defs: Definitions, s: State, it: Item, m: Move, key: DigestKey)
    requires Collects(it)
    ensures LeavesAlone(s, React(defs, s, it, m), key)
  {
    hide PendingRows, Taken, ListAt;
  }

  lemma StepLeavesAlone(s: State, it: Item, m: Move, key: DigestKey)
    requires it.StepRun? && ListAt(s.lists, key) != []
    ensures LeavesAlone(s, ReactStep(s, it, m), key)
  {
    hide IsPlan;
  }

  lemma NobodyTakesCharge(defs: Definitions, s: State, it: Item, m: Move, key: DigestKey)
    requires ListAt(s.lists, key) != [] && !InCharge(it, key)
    ensures LeavesAlone(s, React(defs, s, it, m), key)
  {
    hide Evaluates, SetStatus, ReactCall, ReactBroadcast, ReactStep;
    if Collects(it) {
      CollectorLeavesAlone(defs, s, it, m, key);
    } else if it.StepRun? {
      StepLeavesAlone(s, it, m, key);
    }
  }

  /** A push onto a stranded list sees a length above one and schedules nothing. */
  lemma StrandedStays(defs: Definitions, s: State, a: Action, key: DigestKey)
    requires Stranded(s, key) && a != Evict(key)
    ensures Stranded(Do(defs, s, a), key) && ListAt(s.lists, key) <= ListAt(Do(defs, s, a).lists, key)
  {
    hide React;
    if a.Act? && a.h in s.pool && a.slot !in s.pool {
      NobodyTakesCharge(defs, s, s.pool[a.h], a.move, key);
    }
  }

  /** A list that has lost its task stays without one, and keeps growing, in every continuation
      of every run, until it expires. */
  lemma {:induction false} StrandedForGood(defs: Definitions, before: seq<Action>, after: seq<Action>, key: DigestKey)
    requires Stranded(Run(defs, before), key) && Evict(key) !in after
    ensures Stranded(Run(defs, before + after), key)
    ensures ListAt(Run(defs, before).lists, key) <= ListAt(Run(defs, before + after).lists, key)
    decreases |after|
  {
    hide Do, Stranded;
    if after == [] {
      assert before + after == before;
    } else {
      var m := |after| - 1;
      assert (before + after)[..|before + after| - 1] == before + after[..m];
      assert after[m] in after;
      StrandedForGood(defs, before, after[..m], key);
      StrandedStays(defs, Run(defs, before + after[..m]), after[m], key);
    }
  }

  /** The id is held by stranded lists only, if at all. */
  ghost predicate Stuck(s: State, n: NotifId) {
    && n in s.born
    && (forall h :: h in s.pool ==> !Mentions(s.pool[h], n))
    && (forall key :: key in s.lists && n in s.lists[key] ==> Stranded(s, key))
  }

  /** The effect knows of the id only if the item read it from a digest list, and neither a list
      nor the history gains it. */
  ghost predicate Learns(s: State, it: Item, e: Effect, n: NotifId) {
    && (e.keep.Some? && Mentions(e.keep.value, n) ==> it.DigestTask? && n in ListAt(s.lists, it.key))
    && (e.fork.Some? ==> !Mentions(e.fork.value, n))
    && (forall key :: key in e.rest.lists && n in e.rest.lists[key] ==> key in s.lists && n in s.lists[key])
    && (forall k :: (n, k) in e.rest.enqueued ==> (n, k) in s.enqueued)
  }

  lemma CollectorLearnsNothing(defs: Definitions, s: State, it: Item, m: Move, n: NotifId)
    requires Collects(it) && n in s.born && !Mentions(it, n)
    ensures Learns(s, it, React(defs, s, it, m), n)
  {
    hide PendingRows, Taken, InLists;
    CollectorTraces(defs, s, it, m, n);
  }

  lemma StepLearnsNothing(s: State, it: Item, m: Move, n: NotifId)
    requires it.StepRun? && !Mentions(it, n)
    ensures Learns(s, it, ReactStep(s, it, m), n)
  {
    hide IsPlan;
  }

  /** An item comes to know of an id by creating it or by reading a digest list. */
  lemma LearnsByReading(defs: Definitions, s: State, it: Item, m: Move, n: NotifId)
    requires n in s.born && !Mentions(it, n)
    ensures Learns(s, it, React(defs, s, it, m), n)
  {
    hide Evaluates, SetStatus, ReactCall, ReactBroadcast, ReactStep;
    if Collects(it) {
      CollectorLearnsNothing(defs, s, it, m, n);
    } else if it.StepRun? {
      StepLearnsNothing(s, it, m, n);
    }
  }

  lemma StaysStuck(defs: Definitions, s: State, a: Action, n: NotifId)
    requires Stuck(s, n)
    ensures Stuck(Do(defs, s, a), n)
    ensures forall k :: (n, k) in Do(defs, s, a).enqueued ==> (n, k) in s.enqueued
  {
    hide React, Mentions, Stranded;
    var t := Do(defs, s, a);
    NoRebirth(defs, s, a, n);
    if a.Act? {
      if a.h in s.pool && a.slot !in s.pool {
        LearnsByReading(defs, s, s.pool[a.h], a.move, n);
        if s.pool[a.h].DigestTask? {
          ReaderInCharge(s, a.h, n);
        }
      }
    } else if a.Arrive? && IsRequest(a.item) {
      RequestMentionsNothing(a.item, n);
    }
    forall key | key in t.lists && n in t.lists[key] ensures Stranded(t, key) {
      assert Stranded(s, key);
      StrandedStays(defs, s, a, key);
    }
  }

  lemma ReaderInCharge(s: State, h: Handle, n: NotifId)
    requires Stuck(s, n) && h in s.pool && s.pool[h].DigestTask?
    ensures n !in ListAt(s.lists, s.pool[h].key)
  {
  }

  /** Ids on stranded lists that nobody else knows of are never delivered, in any continuation
      of any run, whether or not the list expires. */
  lemma {:induction false} StuckStaysUndelivered(defs: Definitions, before: seq<Action>, after: seq<Action>, n: NotifId)
    requires Stuck(Run(defs, before), n)
    ensures Stuck(Run(defs, before + after), n)
    ensures forall k :: (n, k) in Run(defs, before + after).enqueued ==> (n, k) in Run(defs, before).enqueued
    decreases |after|
  {
    hide Do, Stuck;
    if after == [] {
      assert before + after == before;
    } else {
      var m := |after| - 1;
      assert (before + after)[..|before + after| - 1] == before + after[..m];
      StuckStaysUndelivered(defs, before, after[..m], n);
      StaysStuck(defs, Run(defs, before + after[..m]), after[m], n);
    }
  }

  ghost predicate AloneInCharge(s: State, h: Handle, key: DigestKey) {
    forall g :: g in s.pool && g != h ==> !InCharge(s.pool[g], key)
  }

  /** A list is stranded once the one item in charge of it has let go of it. */
  lemma StrandedIffAlone(s: State, t: State, h: Handle, key: DigestKey)
    requires h in s.pool && t.lists == s.lists && ListAt(s.lists, key) != []
    requires forall g :: g != h ==> (g in t.pool <==> g in s.pool) && (g in s.pool ==> t.pool[g] == s.pool[g])
    requires h in t.pool ==> !InCharge(t.pool[h], key)
    ensures AloneInCharge(s, h, key) <==> Stranded(t, key)
  {
    if Stranded(t, key) {
      forall g | g in s.pool && g != h ensures !InCharge(s.pool[g], key) {
        assert g in t.pool;
      }
    }
  }

  /** Two single failures strand a list for good: the enqueue after a push that returned length 1,
      and the DEL of a handler that then finishes. Only another item in charge of it can help. */
  lemma LostScheduleStrands(defs: Definitions, before: seq<Action>, h: Handle, f: Handle, after: seq<Action>,
                            key: DigestKey)
    requires var s := Run(defs, before);
      h in s.pool && f !in s.pool && s.pool[h] == Schedule(key) && ListAt(s.lists, key) != []
    requires Evict(key) !in after
    ensures var s, r := Run(defs, before), before + [Act(h, f, Fail)];
      && (AloneInCharge(s, h, key) <==> Stranded(Run(defs, r), key))
      && (AloneInCharge(s, h, key) ==>
            Stranded(Run(defs, r + after), key) && ListAt(s.lists, key) <= ListAt(Run(defs, r + after).lists, key))
  {
    hide React;
    var s, a := Run(defs, before), Act(h, f, Fail);
    OneMoreAction(defs, before, a);
    ScheduleFails(defs, s, h, f, key);
    StrandedIffAlone(s, Run(defs, before + [a]), h, key);
    if AloneInCharge(s, h, key) {
      StrandedForGood(defs, before + [a], after, key);
    }
  }

  lemma ScheduleFails(defs: Definitions, s: State, h: Handle, f: Handle, key: DigestKey)
    requires h in s.pool && f !in s.pool && s.pool[h] == Schedule(key)
    ensures Do(defs, s, Act(h, f, Fail)) == s.(pool := s.pool - {h})
  {
  }

  lemma FailedDelStrands(defs: Definitions, before: seq<Action>, h: Handle, f: Handle, after: seq<Action>,
                         key: DigestKey, ids: seq<NotifId>)
    requires var s := Run(defs, before);
      h in s.pool && f !in s.pool && s.pool[h] == Drain(key, ids) && ListAt(s.lists, key) != []
    requires Evict(key) !in after
    ensures var s, r := Run(defs, before), before + [Act(h, f, Fail)] + [Act(h, f, Go)];
      && (AloneInCharge(s, h, key) <==> Stranded(Run(defs, r), key))
      && (AloneInCharge(s, h, key) ==>
            Stranded(Run(defs, r + after), key) && ListAt(s.lists, key) <= ListAt(Run(defs, r + after).lists, key))
  {
    hide React;
    var s, a, b := Run(defs, before), Act(h, f, Fail), Act(h, f, Go);
    OneMoreAction(defs, before, a);
    OneMoreAction(defs, before + [a], b);
    DelFails(defs, s, h, f, key, ids);
    StrandedIffAlone(s, Run(defs, before + [a] + [b]), h, key);
    if AloneInCharge(s, h, key) {
      StrandedForGood(defs, before + [a] + [b], after, key);
    }
  }

  /** The handler goes on with the ids it read, and the list keeps all of them. */
  lemma DelFails(defs: Definitions, s: State, h: Handle, f: Handle, key: DigestKey, ids: seq<NotifId>)
    requires h in s.pool && f !in s.pool && s.pool[h] == Drain(key, ids)
    ensures var t := Do(defs, Do(defs, s, Act(h, f, Fail)), Act(h, f, Go));
      && t.lists == s.lists
      && t.pool == if ids == [] then s.pool - {h} else s.pool[h := Resume(key.wf, ids[0], key.step + 1)]
  {
    assert Do(defs, s, Act(h, f, Fail)) == s.(pool := s.pool[h := Drained(key, ids)]);
  }

  // ---------------------------------------------------------------------------------
  // What a single failure costs
  // ---------------------------------------------------------------------------------

  /** A failed enqueue of a delivery costs exactly that delivery: the loop goes on as if it had
      succeeded. A failed enqueue or push at the control step that takes over costs the rest of
      the run. */
  lemma FailedEnqueueCosts(defs: Definitions, s: State, h: Handle, f: Handle)
    requires h in s.pool && f !in s.pool && s.pool[h].StepRun? && s.pool[h].pos < |s.pool[h].plan|
    ensures var it, t := s.pool[h], Do(defs, s, Act(h, f, Fail));
      var p := it.plan[it.pos];
      && (!p.skipped && p.step.kind != "delay" && p.step.kind != "digest" ==>
            t == s.(pool := s.pool[h := StepRun(it.env, it.wf, it.sub, it.notif, it.plan, it.pos + 1)]))
      && (!p.skipped && ((p.step.kind == "delay" && p.step.delay.Some?)
          || (p.step.kind == "digest" && p.step.digest.Some?)) ==>
            t == s.(pool := s.pool - {h}))
  {
  }

  lemma FailedResumeCosts(defs: Definitions, s: State, h: Handle, f: Handle)
    requires h in s.pool && f !in s.pool && s.pool[h].Resume?
    requires var steps := StepsOf(defs, s.pool[h].wf);
      s.pool[h].pos < |steps| && steps[s.pool[h].pos].kind !in {"delay", "digest"}
    ensures var it := s.pool[h];
      Do(defs, s, Act(h, f, Fail)) == s.(pool := s.pool[h := Resume(it.wf, it.notif, it.pos + 1)])
  {
  }

  /** A notification whose retention has ended is gone for good. */
  lemma {:induction false} ExpiredIsGone(defs: Definitions, before: seq<Action>, id: NotifId, after: seq<Action>)
    requires id in Run(defs, before).born
    ensures id in Run(defs, before + [Expire(id)] + after).born
      && id !in Run(defs, before + [Expire(id)] + after).notifs
    decreases |after|
  {
    var gone := before + [Expire(id)];
    if after == [] {
      OneMoreAction(defs, before, Expire(id));
      assert gone + after == gone;
    } else {
      hide Do;
      var m := |after| - 1;
      ExpiredIsGone(defs, before, id, after[..m]);
      assert (gone + after)[..|gone + after| - 1] == gone + after[..m];
      NoRebirth(defs, Run(defs, gone + after[..m]), after[m], id);
    }
  }
}
