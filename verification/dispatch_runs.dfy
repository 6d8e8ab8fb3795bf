/** Particular runs of the dispatch machine: what a run that nothing interrupts delivers. */
module DispatchRuns {
  import opened Common
  import opened Workflows
  import opened Dispatch
  import opened DispatchAlways
  import opened DispatchProofs
  import opened DispatchSafety

  // ---------------------------------------------------------------------------------
  // An uninterrupted run
  // ---------------------------------------------------------------------------------

  function Pairs(n: NotifId, steps: seq<nat>): (r: seq<(NotifId, nat)>)
    ensures |r| == |steps| && forall i :: 0 <= i < |r| ==> r[i] == (n, steps[i])
  {
    seq(|steps|, i requires 0 <= i < |steps| => (n, steps[i]))
  }

  lemma FreeHandle(pool: map<Handle, Item>) returns (f: Handle)
    ensures f !in pool
  {
    f := Above(pool.Keys);
  }

  ghost function Above(keys: set<Handle>): (f: Handle)
    ensures forall k :: k in keys ==> k < f
  {
    if keys == {} then 0
    else
      var k :| k in keys;
      var g := Above(keys - {k});
      assert forall x :: x in keys ==> x == k || x in keys - {k};
      if g > k then g else k + 1
  }

  lemma OneStep(defs: Definitions, s: State, a: Action)
    ensures RunFrom(defs, s, [a]) == Do(defs, s, a)
  {
    assert [a][..0] == [];
    assert RunFrom(defs, s, []) == s;
  }

  lemma FirstStep(defs: Definitions, s: State, a: Action, rest: seq<Action>)
    ensures RunFrom(defs, s, [a] + rest) == RunFrom(defs, Do(defs, s, a), rest)
  {
    OneStep(defs, s, a);
    RunFromConcat(defs, s, [a], rest);
  }

  /** The loop passes a step that does not arm, enqueueing its delivery if it sends. */
  lemma LoopPasses(defs: Definitions, s: State, h: Handle, f: Handle)
    requires h in s.pool && f !in s.pool && s.pool[h].StepRun? && IsPlan(StepsOf(defs, s.pool[h].wf), s.pool[h].plan)
    requires s.pool[h].pos < |s.pool[h].plan| && !Arms(s.pool[h].plan[s.pool[h].pos])
    ensures var it, t := s.pool[h], Do(defs, s, Act(h, f, Go));
            && h in t.pool && t.pool[h] == StepRun(it.env, it.wf, it.sub, it.notif, it.plan, it.pos + 1)
            && t.lists == s.lists
            && t.enqueued == s.enqueued + Pairs(it.notif, if Sends(it.plan[it.pos]) then [it.pos] else [])
            && t.pool.Keys == s.pool.Keys + (if Sends(it.plan[it.pos]) then {f} else {})
            && (Sends(it.plan[it.pos]) ==>
                t.pool[f] == DeliveryTask(it.wf, it.notif, it.pos, it.plan[it.pos].step.kind, 0))
  {
    assert s.pool[h].plan[s.pool[h].pos].index == s.pool[h].pos;
  }

  /** Item h is left to itself: only it acts, and every operation of it succeeds. */
  ghost predicate Undisturbed(actions: seq<Action>, h: Handle) {
    forall a :: a in actions ==> a.Act? && a.h == h && a.move == Go
  }

  lemma {:induction false} OthersStay(defs: Definitions, s: State, h: Handle, actions: seq<Action>)
    requires Undisturbed(actions, h)
    ensures var t := RunFrom(defs, s, actions); forall g :: g in s.pool && g != h ==>
      g in t.pool && t.pool[g] == s.pool[g]
    decreases |actions|
  {
    if actions != [] {
      var n := |actions| - 1;
      assert actions[n] in actions && forall a :: a in actions[..n] ==> a in actions;
      OthersStay(defs, s, h, actions[..n]);
      hide React;
    }
  }

  /** The first attempts at the given steps have been queued since s. */
  ghost predicate Queued(s: State, t: State, wf: WfId, notif: NotifId, steps: seq<Step>, at: seq<nat>) {
    forall k :: k in at ==> k < |steps| && exists g ::
        g in t.pool && g !in s.pool && t.pool[g] == DeliveryTask(wf, notif, k, steps[k].kind, 0)
  }

  /** What was queued from s to t and from u to v is queued from s to v, if item h is the only one
      to act and nothing s had is gone in u. */
  lemma QueuedBoth(s: State, t: State, u: State, v: State, h: Handle, wf: WfId, notif: NotifId, steps: seq<Step>,
                   a: seq<nat>, b: seq<nat>)
    requires h in s.pool && s.pool.Keys <= u.pool.Keys
    requires Queued(s, t, wf, notif, steps, a) && Queued(u, v, wf, notif, steps, b)
    requires forall g :: g in t.pool && g != h ==> g in v.pool && v.pool[g] == t.pool[g]
    ensures Queued(s, v, wf, notif, steps, a + b)
  {
    forall k | k in a + b
      ensures k < |steps| && exists g ::
        g in v.pool && g !in s.pool && v.pool[g] == DeliveryTask(wf, notif, k, steps[k].kind, 0)
    {
      if k in a {
        var g :| g in t.pool && g !in s.pool && t.pool[g] == DeliveryTask(wf, notif, k, steps[k].kind, 0);
        assert g in v.pool && v.pool[g] == t.pool[g];
      } else {
        var g :| g in v.pool && g !in u.pool && v.pool[g] == DeliveryTask(wf, notif, k, steps[k].kind, 0);
        assert g !in s.pool;
      }
    }
  }

  /** The list the digest step at position c pushes onto. */
  function KeyAt(it: Item, c: nat): DigestKey
    requires it.StepRun? && c < |it.plan| && it.plan[c].step.digest.Some?
  {
    DigestKey(it.env, it.wf, c, it.sub, it.plan[c].step.digest.value.key)
  }

  predicate DigestAt(it: Item, c: nat)
    requires it.StepRun?
  {
    c < |it.plan| && it.plan[c].step.kind == "digest" && it.plan[c].step.digest.Some?
  }

  /** Where the loop stops at position c: in a delay task, on a digest list, or done. The push
      that finds the list empty goes on to schedule its task. */
  ghost predicate StopsAt(s: State, t: State, h: Handle, it: Item, c: nat)
    requires it.StepRun? && c <= |it.plan|
  {
    && (c < |it.plan| && it.plan[c].step.kind == "delay" ==>
          h in t.pool && t.pool[h] == DelayTask(it.wf, it.notif, c) && t.lists == s.lists)
    && (DigestAt(it, c) ==>
          && t.lists == s.lists[KeyAt(it, c) := ListAt(s.lists, KeyAt(it, c)) + [it.notif]]
          && (ListAt(s.lists, KeyAt(it, c)) == [] ==> h in t.pool && t.pool[h] == Schedule(KeyAt(it, c))))
    && (c == |it.plan| ==> h !in t.pool && t.lists == s.lists)
  }

  lemma LoopStops(defs: Definitions, s: State, h: Handle, f: Handle)
    requires h in s.pool && f !in s.pool && s.pool[h].StepRun? && IsPlan(StepsOf(defs, s.pool[h].wf), s.pool[h].plan)
    requires s.pool[h].pos <= |s.pool[h].plan|
    requires s.pool[h].pos == |s.pool[h].plan| || Arms(s.pool[h].plan[s.pool[h].pos])
    ensures var it, t := s.pool[h], Do(defs, s, Act(h, f, Go));
            t.enqueued == s.enqueued && StopsAt(s, t, h, it, it.pos)
  {
    var it := s.pool[h];
    if it.pos < |it.plan| {
      assert it.plan[it.pos].index == it.pos;
      if DigestAt(it, it.pos) { assert PushKey(it) == KeyAt(it, it.pos); }
    }
  }

  lemma LoopAtEnd(it: Item)
    requires it.StepRun? && it.pos <= |it.plan| && (it.pos == |it.plan| || Arms(it.plan[it.pos]))
    ensures StopAt(it.plan, it.pos) == it.pos && Direct(it.plan, it.pos) == []
      && Pairs(it.notif, Direct(it.plan, it.pos)) == []
  {
  }

  /** Past a step that does not arm, the loop stops where it would have stopped anyway. */
  lemma LoopUnfolds(defs: Definitions, s: State, s1: State, t: State, h: Handle, it: Item, next: Item)
    requires it.StepRun? && it.pos < |it.plan| && !Arms(it.plan[it.pos]) && IsPlan(StepsOf(defs, it.wf), it.plan)
    requires next == StepRun(it.env, it.wf, it.sub, it.notif, it.plan, it.pos + 1) && s1.lists == s.lists
    ensures StopAt(it.plan, it.pos) == StopAt(it.plan, it.pos + 1)
    ensures Pairs(it.notif, Direct(it.plan, it.pos))
         == Pairs(it.notif, if Sends(it.plan[it.pos]) then [it.pos] else [])
             + Pairs(it.notif, Direct(it.plan, it.pos + 1))
    ensures StopsAt(s1, t, h, next, StopAt(it.plan, it.pos + 1)) ==> StopsAt(s, t, h, it, StopAt(it.plan, it.pos))
  {
    assert it.plan[it.pos].index == it.pos;
  }

  /** What a step loop that started as the item in s has come to in t. */
  ghost predicate LoopDone(defs: Definitions, s: State, t: State, h: Handle, it: Item)
    requires it.StepRun? && it.pos <= |it.plan|
  {
    && t.enqueued == s.enqueued + Pairs(it.notif, Direct(it.plan, it.pos))
    && Queued(s, t, it.wf, it.notif, StepsOf(defs, it.wf), Direct(it.plan, it.pos))
    && StopsAt(s, t, h, it, StopAt(it.plan, it.pos))
  }

  lemma LoopDoneNow(defs: Definitions, s: State, h: Handle, f: Handle)
    requires h in s.pool && f !in s.pool && s.pool[h].StepRun? && IsPlan(StepsOf(defs, s.pool[h].wf), s.pool[h].plan)
    requires s.pool[h].pos <= |s.pool[h].plan|
    requires s.pool[h].pos == |s.pool[h].plan| || Arms(s.pool[h].plan[s.pool[h].pos])
    ensures LoopDone(defs, s, Do(defs, s, Act(h, f, Go)), h, s.pool[h])
  {
    var it := s.pool[h];
    LoopStops(defs, s, h, f);
    LoopAtEnd(it);
    hide Do, Pairs, StopsAt, IsPlan;
    NothingQueued(s, Do(defs, s, Act(h, f, Go)), it.wf, it.notif, StepsOf(defs, it.wf));
  }

  /** The loop went on from the item in s to the next one in s1, and is done from there in t. */
  lemma LoopDoneLater(defs: Definitions, s: State, s1: State, t: State, h: Handle, f: Handle, it: Item, next: Item)
    requires it.StepRun? && it.pos < |it.plan| && !Arms(it.plan[it.pos]) && IsPlan(StepsOf(defs, it.wf), it.plan)
    requires next == StepRun(it.env, it.wf, it.sub, it.notif, it.plan, it.pos + 1)
    requires h in s.pool && f !in s.pool && s.pool.Keys <= s1.pool.Keys && s1.lists == s.lists
    requires s1.enqueued == s.enqueued + Pairs(it.notif, if Sends(it.plan[it.pos]) then [it.pos] else [])
    requires Sends(it.plan[it.pos]) ==>
      f in s1.pool && s1.pool[f] == DeliveryTask(it.wf, it.notif, it.pos, it.plan[it.pos].step.kind, 0)
    requires LoopDone(defs, s1, t, h, next) && forall g :: g in s1.pool && g != h ==>
      g in t.pool && t.pool[g] == s1.pool[g]
    ensures LoopDone(defs, s, t, h, it)
  {
    hide Pairs, Direct, StopAt, StopsAt, Queued, Sends, IsPlan, Arms;
    LoopUnfolds(defs, s, s1, t, h, it, next);
    LaterQueued(defs, s, s1, t, h, f, it);
    var own := Pairs(it.notif, if Sends(it.plan[it.pos]) then [it.pos] else []);
    assert (s.enqueued + own) + Pairs(it.notif, Direct(it.plan, it.pos + 1))
        == s.enqueued + (own + Pairs(it.notif, Direct(it.plan, it.pos + 1)));
  }

  lemma LaterQueued(defs: Definitions, s: State, s1: State, t: State, h: Handle, f: Handle, it: Item)
    requires it.StepRun? && it.pos < |it.plan| && !Arms(it.plan[it.pos]) && IsPlan(StepsOf(defs, it.wf), it.plan)
    requires h in s.pool && f !in s.pool && s.pool.Keys <= s1.pool.Keys
    requires Sends(it.plan[it.pos]) ==>
      f in s1.pool && s1.pool[f] == DeliveryTask(it.wf, it.notif, it.pos, it.plan[it.pos].step.kind, 0)
    requires Queued(s1, t, it.wf, it.notif, StepsOf(defs, it.wf), Direct(it.plan, it.pos + 1))
    requires forall g :: g in s1.pool && g != h ==> g in t.pool && t.pool[g] == s1.pool[g]
    ensures Queued(s, t, it.wf, it.notif, StepsOf(defs, it.wf), Direct(it.plan, it.pos))
  {
    hide Direct, Queued, Sends, IsPlan, Arms;
    DirectStep(StepsOf(defs, it.wf), it.plan, it.pos);
    PassQueues(s, s1, f, it, StepsOf(defs, it.wf));
    QueuedBoth(s, s1, s1, t, h, it.wf, it.notif, StepsOf(defs, it.wf),
               if Sends(it.plan[it.pos]) then [it.pos] else [], Direct(it.plan, it.pos + 1));
  }

  /** Left to itself, the step loop enqueues exactly the direct steps, in order, and ends
      as the delay task of the control step it stopped at, or on its digest list. */
  lemma {:induction false} StepLoopDelivers(defs: Definitions, s: State, h: Handle) returns (actions: seq<Action>)
    requires h in s.pool && s.pool[h].StepRun? && IsPlan(StepsOf(defs, s.pool[h].wf), s.pool[h].plan)
    requires s.pool[h].pos <= |s.pool[h].plan|
    ensures Undisturbed(actions, h) && LoopDone(defs, s, RunFrom(defs, s, actions), h, s.pool[h])
    decreases |s.pool[h].plan| - s.pool[h].pos
  {
    hide Do, RunFrom, LoopDone, IsPlan;
    var it := s.pool[h];
    var f := FreeHandle(s.pool);
    var a := Act(h, f, Go);
    if it.pos == |it.plan| || Arms(it.plan[it.pos]) {
      actions := [a];
      OneStep(defs, s, a);
      LoopDoneNow(defs, s, h, f);
    } else {
      LoopPasses(defs, s, h, f);
      var s1 := Do(defs, s, a);
      var rest := StepLoopDelivers(defs, s1, h);
      actions := [a] + rest;
      FirstStep(defs, s, a, rest);
      OthersStay(defs, s1, h, rest);
      LoopDoneLater(defs, s, s1, RunFrom(defs, s1, rest), h, f, it, s1.pool[h]);
    }
  }

  lemma OneQueued(s: State, s1: State, f: Handle, wf: WfId, notif: NotifId, steps: seq<Step>, k: nat)
    requires f !in s.pool && f in s1.pool && k < |steps| && s1.pool[f] == DeliveryTask(wf, notif, k, steps[k].kind, 0)
    ensures Queued(s, s1, wf, notif, steps, [k])
  {
  }

  lemma PassQueues(s: State, s1: State, f: Handle, it: Item, steps: seq<Step>)
    requires it.StepRun? && IsPlan(steps, it.plan) && it.pos < |it.plan| && f !in s.pool
    requires Sends(it.plan[it.pos]) ==>
      f in s1.pool && s1.pool[f] == DeliveryTask(it.wf, it.notif, it.pos, it.plan[it.pos].step.kind, 0)
    ensures Queued(s, s1, it.wf, it.notif, steps, if Sends(it.plan[it.pos]) then [it.pos] else [])
  {
    if Sends(it.plan[it.pos]) { OneQueued(s, s1, f, it.wf, it.notif, steps, it.pos); }
  }

  lemma NothingQueued(s: State, t: State, wf: WfId, notif: NotifId, steps: seq<Step>)
    ensures Queued(s, t, wf, notif, steps, [])
  {
  }

  /** One iteration of a resumed loop. */
  lemma ResumePasses(defs: Definitions, s: State, h: Handle, f: Handle)
    requires h in s.pool && f !in s.pool && s.pool[h].Resume?
    requires s.pool[h].pos < |StepsOf(defs, s.pool[h].wf)|
      && !IsControl(StepsOf(defs, s.pool[h].wf)[s.pool[h].pos].kind)
    ensures var it, t := s.pool[h], Do(defs, s, Act(h, f, Go));
            && h in t.pool && t.pool[h] == Resume(it.wf, it.notif, it.pos + 1)
            && t.enqueued == s.enqueued + Pairs(it.notif, [it.pos])
            && t.pool.Keys == s.pool.Keys + {f}
            && t.pool[f] == DeliveryTask(it.wf, it.notif, it.pos, StepsOf(defs, it.wf)[it.pos].kind, 0)
  {
  }

  lemma FollowingUnfolds(steps: seq<Step>, n: NotifId, pos: nat)
    ensures pos < |steps| && !IsControl(steps[pos].kind) ==>
      Following(steps, pos) == [pos] + Following(steps, pos + 1)
      && Pairs(n, Following(steps, pos)) == Pairs(n, [pos]) + Pairs(n, Following(steps, pos + 1))
    ensures !(pos < |steps| && !IsControl(steps[pos].kind)) ==>
      Following(steps, pos) == [] && Pairs(n, Following(steps, pos)) == []
  {
  }

  lemma ResumeEnds(defs: Definitions, s: State, h: Handle, f: Handle)
    requires h in s.pool && f !in s.pool && s.pool[h].Resume?
    requires var steps := StepsOf(defs, s.pool[h].wf); s.pool[h].pos >= |steps| || IsControl(steps[s.pool[h].pos].kind)
    ensures Do(defs, s, Act(h, f, Go)) == s.(pool := s.pool - {h})
  {
  }

  /** Left to itself, a resumed workflow enqueues exactly the following steps, and is done. */
  lemma {:induction false} ResumeDelivers(defs: Definitions, s: State, h: Handle) returns (actions: seq<Action>)
    requires h in s.pool && s.pool[h].Resume?
    ensures Undisturbed(actions, h) && h !in RunFrom(defs, s, actions).pool
    ensures var it, t := s.pool[h], RunFrom(defs, s, actions);
            && t.enqueued == s.enqueued + Pairs(it.notif, Following(StepsOf(defs, it.wf), it.pos))
            && Queued(s, t, it.wf, it.notif, StepsOf(defs, it.wf), Following(StepsOf(defs, it.wf), it.pos))
    decreases |StepsOf(defs, s.pool[h].wf)| - s.pool[h].pos
  {
    hide Do, Pairs, Following, Queued;
    var it := s.pool[h];
    var steps := StepsOf(defs, it.wf);
    FollowingUnfolds(steps, it.notif, it.pos);
    var f := FreeHandle(s.pool);
    var a := Act(h, f, Go);
    if it.pos >= |steps| || IsControl(steps[it.pos].kind) {
      actions := [a];
      ResumeEnds(defs, s, h, f);
      OneStep(defs, s, a);
      NothingQueued(s, Do(defs, s, a), it.wf, it.notif, steps);
    } else {
      ResumePasses(defs, s, h, f);
      var s1 := Do(defs, s, a);
      var rest := ResumeDelivers(defs, s1, h);
      actions := [a] + rest;
      FirstStep(defs, s, a, rest);
      OthersStay(defs, s1, h, rest);
      assert Queued(s, s1, it.wf, it.notif, steps, [it.pos]) by { OneQueued(s, s1, f, it.wf, it.notif, steps, it.pos); }
      QueuedBoth(s, s1, s1, RunFrom(defs, s1, rest), h, it.wf, it.notif, steps, [it.pos], Following(steps, it.pos + 1));
    }
  }

  /** A delay task that fires, and a digest task that is scheduled, drained and deleted,
      resume the workflow after their step, the digest with the first id of its list. */
  lemma ControlFires(defs: Definitions, t: State, h: Handle) returns (actions: seq<Action>)
    requires h in t.pool && (t.pool[h].DelayTask? || (t.pool[h].Schedule? && ListAt(t.lists, t.pool[h].key) != []))
    ensures Undisturbed(actions, h)
    ensures var d, u := t.pool[h], RunFrom(defs, t, actions);
            && u.enqueued == t.enqueued && h in u.pool
            && u.pool[h] == if d.DelayTask? then Resume(d.wf, d.notif, d.step + 1)
                            else Resume(d.key.wf, ListAt(t.lists, d.key)[0], d.key.step + 1)
  {
    hide RunFrom;
    var f := FreeHandle(t.pool);
    var a := Act(h, f, Go);
    OneStep(defs, t, a);
    actions := [a];
    if t.pool[h].Schedule? {
      var u := Do(defs, t, a);
      assert u.pool.Keys == t.pool.Keys && u.pool[h] == DigestTask(t.pool[h].key);
      var rest := DigestFires(defs, u, h, f);
      actions := [a] + rest;
      FirstStep(defs, t, a, rest);
    }
  }

  lemma DigestFires(defs: Definitions, t: State, h: Handle, f: Handle) returns (actions: seq<Action>)
    requires h in t.pool && f !in t.pool && t.pool[h].DigestTask? && ListAt(t.lists, t.pool[h].key) != []
    ensures Undisturbed(actions, h)
    ensures var d, u := t.pool[h], RunFrom(defs, t, actions);
            && u.enqueued == t.enqueued && h in u.pool
            && u.pool[h] == Resume(d.key.wf, ListAt(t.lists, d.key)[0], d.key.step + 1)
  {
    hide RunFrom;
    var a := Act(h, f, Go);
    var u1 := Do(defs, t, a);
    assert u1.pool.Keys == t.pool.Keys && u1.pool[h] == Drain(t.pool[h].key, ListAt(t.lists, t.pool[h].key));
    var u2 := Do(defs, u1, a);
    assert u2.pool.Keys == t.pool.Keys && u2.pool[h] == Drained(t.pool[h].key, ListAt(t.lists, t.pool[h].key));
    OneStep(defs, u2, a);
    FirstStep(defs, u1, a, [a]);
    FirstStep(defs, t, a, [a] + [a]);
    actions := [a] + ([a] + [a]);
  }

  lemma DeliveredInHalves(steps: seq<Step>, plan: seq<Planned>, n: NotifId)
    requires IsPlan(steps, plan)
    ensures var c := StopAt(plan, 0);
            && Delivered(steps, plan) == Direct(plan, 0) + (if c < |plan| then Following(steps, c + 1) else [])
            && (c == |plan| ==> Delivered(steps, plan) == Direct(plan, 0))
            && Pairs(n, Delivered(steps, plan))
              == Pairs(n, Direct(plan, 0)) + if c < |plan| then Pairs(n, Following(steps, c + 1)) else []
  {
  }

  /** Left to itself, with an empty digest list where it stops at a digest step, an entry of a
      trigger task delivers exactly Delivered(steps, plan) in the end: the cross-handler
      account that DeliveredExact spells out. */
  lemma UninterruptedRun(defs: Definitions, s: State, h: Handle) returns (actions: seq<Action>)
    requires h in s.pool && s.pool[h].StepRun? && s.pool[h].pos == 0
    requires IsPlan(StepsOf(defs, s.pool[h].wf), s.pool[h].plan)
    requires var c := StopAt(s.pool[h].plan, 0); DigestAt(s.pool[h], c) ==> ListAt(s.lists, KeyAt(s.pool[h], c)) == []
    ensures Undisturbed(actions, h) && h !in RunFrom(defs, s, actions).pool
    ensures var it, t := s.pool[h], RunFrom(defs, s, actions);
            && t.enqueued == s.enqueued + Pairs(it.notif, Delivered(StepsOf(defs, it.wf), it.plan))
            && Queued(s, t, it.wf, it.notif, StepsOf(defs, it.wf), Delivered(StepsOf(defs, it.wf), it.plan))
  {
    hide Do, RunFrom, Pairs, Delivered, Direct, Following, Queued;
    var it := s.pool[h];
    var c := StopAt(it.plan, 0);
    DeliveredInHalves(StepsOf(defs, it.wf), it.plan, it.notif);
    actions := StepLoopDelivers(defs, s, h);
    OthersStay(defs, s, h, actions);
    if c < |it.plan| {
      var t := RunFrom(defs, s, actions);
      assert DigestAt(it, c) ==> ListAt(t.lists, KeyAt(it, c)) == [it.notif];
      var fires := ControlFires(defs, t, h);
      var u := RunFrom(defs, t, fires);
      assert u.pool[h] == Resume(it.wf, it.notif, c + 1);
      var rest := ResumeDelivers(defs, u, h);
      OthersStay(defs, t, h, fires);
      OthersStay(defs, u, h, rest);
      QueuedBoth(s, t, u, RunFrom(defs, u, rest), h, it.wf, it.notif, StepsOf(defs, it.wf), Direct(it.plan, 0),
          Following(StepsOf(defs, it.wf), c + 1));
      RunFromConcat(defs, t, fires, rest);
      RunFromConcat(defs, s, actions, fires + rest);
      actions := actions + (fires + rest);
    }
  }
}
