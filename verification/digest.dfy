/** One digest list under concurrency: RPUSH (and scheduling on length 1), LRANGE and DEL
    are separate operations, interleaved freely, with no failed calls and no key expiry. */
module Digests {
  import opened Common

  type NotifId = nat
  type Handle = nat

  /** A handler in charge of the list: about to schedule the digest task after a push that
      returned length 1, the task in the queue, or a digest handler between LRANGE and DEL. */
  datatype Charge = Scheduling | Queued | Draining(ids: seq<NotifId>)

  /** A push, and whether it fell between a handler's LRANGE and its DEL. */
  datatype Push = Push(id: NotifId, inGap: bool)

  datatype State = State(
    list: seq<NotifId>,
    charges: map<Handle, Charge>,
    batches: seq<seq<NotifId>>,   // drained so far, in order
    pushes: seq<Push>)            // the push history

  const Idle: State := State([], map[], [], [])

  datatype Action =
    | RPush(id: NotifId, slot: Handle)
    | Enqueue(h: Handle)
    | LRange(h: Handle)
    | Del(h: Handle)

  ghost predicate InGap(s: State) {
    exists h :: h in s.charges && s.charges[h].Draining?
  }

  /** The effect of one operation; one that does not apply does nothing. */
  ghost function Do(s: State, a: Action): State {
    match a
    case RPush(id, slot) =>
      if slot in s.charges then s
      else
        var pushed := s.(list := s.list + [id], pushes := s.pushes + [Push(id, InGap(s))]);
        if |pushed.list| == 1 then pushed.(charges := s.charges[slot := Scheduling]) else pushed
    case Enqueue(h) =>
      if h in s.charges && s.charges[h].Scheduling? then s.(charges := s.charges[h := Queued]) else s
    case LRange(h) =>
      if h in s.charges && s.charges[h].Queued? then s.(charges := s.charges[h := Draining(s.list)]) else s
    case Del(h) =>
      if h in s.charges && s.charges[h].Draining? then
        s.(list := [], charges := s.charges - {h}, batches := s.batches + [s.charges[h].ids])
      else s
  }

  ghost function Run(actions: seq<Action>): State {
    if actions == [] then Idle else Do(Run(actions[..|actions| - 1]), actions[|actions| - 1])
  }

  function Flatten(batches: seq<seq<NotifId>>): seq<NotifId> {
    if batches == [] then [] else Flatten(batches[..|batches| - 1]) + batches[|batches| - 1]
  }

  function Ids(pushes: seq<Push>): (ids: seq<NotifId>)
    ensures |ids| == |pushes| && forall i :: 0 <= i < |ids| ==> ids[i] == pushes[i].id
  {
    seq(|pushes|, i requires 0 <= i < |pushes| => pushes[i].id)
  }

  /** The pushes outside gaps, in order. */
  function Kept(pushes: seq<Push>): seq<NotifId> {
    if pushes == [] then []
    else
      var n := |pushes| - 1;
      Kept(pushes[..n]) + if pushes[n].inGap then [] else [pushes[n].id]
  }

  /** What of the list is going to reach a batch: while it is being drained, only what
      LRANGE returned. */
  ghost predicate Safe(s: State, ids: seq<NotifId>) {
    if InGap(s) then exists h :: h in s.charges && s.charges[h] == Draining(ids) else ids == s.list
  }

  ghost predicate Inv(s: State) {
    // One handler is in charge of a non-empty list, none of an empty one.
    && (s.list == [] ==> s.charges == map[])
    && (s.list != [] ==> s.charges != map[])
    && (forall g, h :: g in s.charges && h in s.charges ==> g == h)
    // What is being drained is still the front of the list.
    && (forall h :: h in s.charges && s.charges[h].Draining? ==> s.charges[h].ids != [] && s.charges[h].ids <= s.list)
    // Batches and the safe part of the list are the pushes outside gaps, in order.
    && (forall ids :: Safe(s, ids) ==> Flatten(s.batches) + ids == Kept(s.pushes))
  }

  lemma PushKeepsInv(s: State, id: NotifId, slot: Handle)
    requires Inv(s)
    ensures Inv(Do(s, RPush(id, slot)))
  {
    var t := Do(s, RPush(id, slot));
    if slot !in s.charges {
      var p := Push(id, InGap(s));
      assert (s.pushes + [p])[..|s.pushes|] == s.pushes;
      forall ids | Safe(t, ids) ensures Flatten(t.batches) + ids == Kept(t.pushes) {
        if InGap(s) {
          var h :| h in s.charges && s.charges[h].Draining?;
          assert t.charges == s.charges && Safe(s, s.charges[h].ids);
          assert Kept(t.pushes) == Kept(s.pushes) + [];
        } else {
          assert t.charges == s.charges || t.charges == s.charges[slot := Scheduling];
          assert !InGap(t) && Safe(s, s.list);
          assert Flatten(s.batches) + (s.list + [id]) == Flatten(s.batches) + s.list + [id];
        }
      }
    }
  }

  lemma EnqueueKeepsInv(s: State, h: Handle)
    requires Inv(s)
    ensures Inv(Do(s, Enqueue(h)))
  {
    hide Flatten, Kept;
    var t := Do(s, Enqueue(h));
    if t != s {
      forall ids | Safe(t, ids) ensures Safe(s, ids) { }
    }
  }

  lemma LRangeKeepsInv(s: State, h: Handle)
    requires Inv(s)
    ensures Inv(Do(s, LRange(h)))
  {
    hide Flatten, Kept;
    var t := Do(s, LRange(h));
    if t != s {
      assert t.charges[h] == Draining(s.list) && Safe(s, s.list);
      forall ids | Safe(t, ids) ensures ids == s.list { }
    }
  }

  lemma DelKeepsInv(s: State, h: Handle)
    requires Inv(s)
    ensures Inv(Do(s, Del(h)))
  {
    hide Kept;
    var t := Do(s, Del(h));
    if t != s {
      var ids := s.charges[h].ids;
      assert Safe(s, ids);
      assert t.charges == map[];
      assert t.batches[..|s.batches|] == s.batches;
    }
  }

  lemma StepKeepsInv(s: State, a: Action)
    requires Inv(s)
    ensures Inv(Do(s, a))
  {
    hide Do, Inv;
    match a
    case RPush(id, slot) => PushKeepsInv(s, id, slot);
    case Enqueue(h) => EnqueueKeepsInv(s, h);
    case LRange(h) => LRangeKeepsInv(s, h);
    case Del(h) => DelKeepsInv(s, h);
  }

  lemma {:induction false} RunKeepsInv(actions: seq<Action>)
    ensures Inv(Run(actions))
  {
    if actions != [] {
      RunKeepsInv(actions[..|actions| - 1]);
      StepKeepsInv(Run(actions[..|actions| - 1]), actions[|actions| - 1]);
    }
  }

  /** A handler is in charge exactly while the list is non-empty, and never two. */
  lemma OneTaskPerList(actions: seq<Action>)
    ensures var s := Run(actions); |s.charges| == if s.list == [] then 0 else 1
  {
    RunKeepsInv(actions);
    var s := Run(actions);
    if s.list != [] {
      var h :| h in s.charges;
      assert s.charges.Keys == {h};
    }
  }

  /** Outside gaps, the batches followed by the list are the push history without exactly
      the pushes that fell into gaps, in order. */
  lemma BatchesConserve(actions: seq<Action>)
    ensures var s := Run(actions); !InGap(s) ==> Flatten(s.batches) + s.list == Kept(s.pushes)
  {
    RunKeepsInv(actions);
    var s := Run(actions);
    if !InGap(s) { assert Safe(s, s.list); }
  }

  /** A gap push shortens what is kept; without one, everything is. */
  lemma {:induction false} KeptAll(pushes: seq<Push>)
    ensures |Kept(pushes)| <= |pushes|
    ensures |Kept(pushes)| == |pushes| <==> forall p :: p in pushes ==> !p.inGap
    ensures |Kept(pushes)| == |pushes| ==> Kept(pushes) == Ids(pushes)
  {
    if pushes != [] {
      var n := |pushes| - 1;
      KeptAll(pushes[..n]);
      assert pushes == pushes[..n] + [pushes[n]];
      assert Ids(pushes) == Ids(pushes[..n]) + [pushes[n].id];
    }
  }

  /** No digested notification is lost exactly when no push fell between an LRANGE and the
      DEL that follows it. */
  lemma NothingLostIffNoGapPush(actions: seq<Action>)
    requires !InGap(Run(actions))
    ensures var s := Run(actions);
      Flatten(s.batches) + s.list == Ids(s.pushes) <==> forall p :: p in s.pushes ==> !p.inGap
  {
    BatchesConserve(actions);
    KeptAll(Run(actions).pushes);
  }

  lemma {:induction false} KeptKeepsDistinct(pushes: seq<Push>)
    requires NoRepeats(Ids(pushes))
    ensures NoRepeats(Kept(pushes)) && forall id :: id in Kept(pushes) ==> id in Ids(pushes)
  {
    if pushes != [] {
      var n := |pushes| - 1;
      assert Ids(pushes) == Ids(pushes[..n]) + [pushes[n].id];
      KeptKeepsDistinct(pushes[..n]);
      assert forall i :: 0 <= i < n ==> Ids(pushes[..n])[i] == Ids(pushes)[i];
      assert pushes[n].id !in Ids(pushes[..n]) by { assert Ids(pushes)[n] == pushes[n].id; }
      var k := Kept(pushes[..n]);
      forall i | 0 <= i < |k| ensures k[i] != pushes[n].id { assert k[i] in k; }
    }
  }

  /** When every notification is pushed once, no id is in two batches, or twice in one, or
      both in a batch and still on the list. */
  lemma NoIdTwice(actions: seq<Action>)
    requires NoRepeats(Ids(Run(actions).pushes))
    ensures NoRepeats(Flatten(Run(actions).batches))
    ensures !InGap(Run(actions)) ==> NoRepeats(Flatten(Run(actions).batches) + Run(actions).list)
  {
    RunKeepsInv(actions);
    var s := Run(actions);
    KeptKeepsDistinct(s.pushes);
    var ids := s.list;
    if InGap(s) {
      var h :| h in s.charges && s.charges[h].Draining?;
      ids := s.charges[h].ids;
    }
    assert Safe(s, ids);
    var f := Flatten(s.batches);
    forall i, j | 0 <= i < j < |f| ensures f[i] != f[j] {
      assert f[i] == (f + ids)[i] && f[j] == (f + ids)[j];
    }
  }

  lemma OneMore(actions: seq<Action>, a: Action)
    ensures Run(actions + [a]) == Do(Run(actions), a)
  {
    assert (actions + [a])[..|actions|] == actions;
  }

  /** The handler in charge takes the whole list into one batch. */
  lemma ChargeDrains(actions: seq<Action>, h: Handle) returns (more: seq<Action>)
    requires var s := Run(actions); h in s.charges && !s.charges[h].Draining?
    ensures var s, t := Run(actions), Run(more);
      t.list == [] && t.batches == s.batches + [s.list] && t.pushes == s.pushes && actions <= more
  {
    more := actions;
    if Run(actions).charges[h].Scheduling? {
      OneMore(more, Enqueue(h));
      more := more + [Enqueue(h)];
    }
    hide Run;
    assert Run(more).charges[h] == Queued && Run(more).list == Run(actions).list
        && Run(more).batches == Run(actions).batches;
    OneMore(more, LRange(h));
    more := more + [LRange(h)];
    OneMore(more, Del(h));
    more := more + [Del(h)];
  }

  /** A push outside a gap reaches a batch once the handlers run: the list is drained into one
      batch that ends with it. */
  lemma PushIsDrained(actions: seq<Action>, id: NotifId, slot: Handle) returns (more: seq<Action>)
    requires slot !in Run(actions).charges && !InGap(Run(actions))
    ensures var s, t := Run(actions), Run(more);
      && actions + [RPush(id, slot)] <= more
      && t.list == [] && t.batches == s.batches + [s.list + [id]] && t.pushes == s.pushes + [Push(id, false)]
  {
    var pushed := actions + [RPush(id, slot)];
    OneMore(actions, RPush(id, slot));
    RunKeepsInv(pushed);
    var s := Run(pushed);
    hide Run, Safe;
    var h :| h in s.charges;
    more := ChargeDrains(pushed, h);
  }
}
