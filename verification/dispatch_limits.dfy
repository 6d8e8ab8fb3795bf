/** What a digest handler that fails after DEL, or a digest list that expires early, can do,
    and to which steps: exact conditions, step by step, over every run. */
module DispatchLimits {
  import opened Common
  import opened Workflows
  import opened Dispatch
  import opened DispatchAlways
  import opened DispatchProofs
  import opened DispatchSafety
  import opened DispatchRuns
  import Engine

  // ---------------------------------------------------------------------------------
  // Exposed steps
  // ---------------------------------------------------------------------------------

  /** The plan stops at a digest step, and step k is among those resumed after it. */
  predicate DigestsTo(steps: seq<Step>, plan: seq<Planned>, k: nat) {
    var c := StopAt(plan, 0);
    c < |plan| && c < |steps| && steps[c].kind == "digest" && k in Following(steps, c + 1)
  }

  /** Step k of workflow w is exposed: some evaluation's first armed step is a digest that
      leads to it. */
  ghost predicate ExposedAt(defs: Definitions, w: WfId, k: nat) {
    exists plan :: Evaluates(defs, w, plan) && DigestsTo(StepsOf(defs, w), plan, k)
  }

  /** A workflow whose steps have no conditions has one evaluation: it skips what is off. */
  function PlainPlan(steps: seq<Step>): (plan: seq<Planned>)
    ensures IsPlan(steps, plan) && forall i :: 0 <= i < |plan| ==> (plan[i].skipped <==> !steps[i].enabled)
  {
    seq(|steps|, i requires 0 <= i < |steps| => Planned(i, steps[i], !steps[i].enabled))
  }

  /** Without conditions, exposure can be read off the definition: the first enabled and
      configured control step is a digest, and k is among the steps up to the next one. */
  lemma ExposedWithoutConditions(defs: Definitions, w: WfId, k: nat)
    requires forall i :: 0 <= i < |StepsOf(defs, w)| ==> StepsOf(defs, w)[i].conditions == []
    ensures ExposedAt(defs, w, k) <==> DigestsTo(StepsOf(defs, w), PlainPlan(StepsOf(defs, w)), k)
  {
    var steps := StepsOf(defs, w);
    forall scope ensures Engine.Plan(defs.text, steps, scope) == PlainPlan(steps) { }
    var blank := Engine.Scope(Engine.Subscriber(map[], "", "", ""), map[], Some(Engine.Notice(false, false)));
    assert Engine.AtRunTime(blank);
    assert Evaluates(defs, w, Engine.Plan(defs.text, steps, blank));
  }

  // ---------------------------------------------------------------------------------
  // The part of a state that can lead to one step
  // ---------------------------------------------------------------------------------

  /** Items that can still lead to a delivery of step k of workflow w without a digest. */
  predicate Kept(defs: Definitions, w: WfId, k: nat, it: Item) {
    || Collects(it) || it.BroadcastTask? || it.TriggerTask?
    || ((it.TriggerRun? || it.StepRun? || it.DelayTask?) && it.wf == w)
    || (it.Resume? && it.wf == w && k in Following(StepsOf(defs, w), it.pos))
    || (it.DeliveryTask? && it.wf == w && it.step == k)
  }

  /** The history of step k of the notifications of w. */
  ghost function Only(q: seq<(NotifId, nat)>, born: map<NotifId, WfId>, w: WfId, k: nat): seq<(NotifId, nat)> {
    if q == [] then []
    else
      var n := |q| - 1;
      var last := q[n];
      Only(q[..n], born, w, k) + if last.1 == k && last.0 in born && born[last.0] == w then [last] else []
  }

  /** The rows of one channel as they are, the others as if nothing had settled them. */
  function OnlyRows(rows: seq<Row>, channel: string): (r: seq<Row>)
    ensures |r| == |rows|
    ensures forall i :: 0 <= i < |r| ==> r[i] == if rows[i].channel == channel then rows[i]
      else Row(rows[i].channel, Pending)
  {
    seq(|rows|, i requires 0 <= i < |rows| => if rows[i].channel == channel then rows[i]
        else Row(rows[i].channel, Pending))
  }

  function Blank(rows: seq<Row>): (r: seq<Row>)
    ensures |r| == |rows| && forall i :: 0 <= i < |r| ==> r[i] == Row(rows[i].channel, Pending)
  {
    seq(|rows|, i requires 0 <= i < |rows| => Row(rows[i].channel, Pending))
  }

  /** Step k is a channel step whose channel has no other step. */
  ghost predicate OwnsChannel(defs: Definitions, w: WfId, k: nat) {
    var steps := StepsOf(defs, w);
    DistinctChannels(steps) && k < |steps| && !IsControl(steps[k].kind)
  }

  ghost function BareNote(defs: Definitions, w: WfId, k: nat, x: Notification): Notification {
    x.(rows := if x.wf == w && OwnsChannel(defs, w, k) then OnlyRows(x.rows, StepsOf(defs, w)[k].kind)
        else Blank(x.rows))
  }

  ghost function BareNotes(defs: Definitions, w: WfId, k: nat,
                           notifs: map<NotifId, Notification>): map<NotifId, Notification> {
    map n | n in notifs :: BareNote(defs, w, k, notifs[n])
  }

  ghost function BarePool(defs: Definitions, w: WfId, k: nat, pool: map<Handle, Item>): map<Handle, Item> {
    map h | h in pool && Kept(defs, w, k, pool[h]) :: pool[h]
  }

  /** The state as far as step k of w is concerned, without the digest lists. */
  ghost function Bare(defs: Definitions, w: WfId, k: nat, s: State): State {
    State(BareNotes(defs, w, k, s.notifs), s.born, BarePool(defs, w, k, s.pool), map[],
          Only(s.enqueued, s.born, w, k), s.triggered)
  }

  lemma {:induction false} OnlyGrows(q: seq<(NotifId, nat)>, born: map<NotifId, WfId>, later: map<NotifId, WfId>,
                                     w: WfId, k: nat)
    requires forall n, j :: (n, j) in q ==> n in born && n in later && later[n] == born[n]
    ensures Only(q, born, w, k) == Only(q, later, w, k)
  {
    if q != [] {
      var n := |q| - 1;
      assert q[n] in q && (q[n].0, q[n].1) == q[n];
      forall x, j | (x, j) in q[..n] ensures x in born && x in later && later[x] == born[x] { assert (x, j) in q; }
      OnlyGrows(q[..n], born, later, w, k);
    }
  }

  lemma OnlySnoc(q: seq<(NotifId, nat)>, last: (NotifId, nat), born: map<NotifId, WfId>, w: WfId, k: nat)
    ensures Only(q + [last], born, w, k)
      == Only(q, born, w, k) + if last.1 == k && last.0 in born && born[last.0] == w then [last] else []
  {
    assert (q + [last])[..|q|] == q;
  }

  lemma {:induction false} OnlyRowsSet(rows: seq<Row>, channel: string, status: Status)
    ensures OnlyRows(SetStatus(rows, channel, status), channel) == SetStatus(OnlyRows(rows, channel), channel, status)
  {
    if rows != [] && rows[0].channel != channel {
      OnlyRowsSet(rows[1..], channel, status);
      assert OnlyRows(rows, channel)[1..] == OnlyRows(rows[1..], channel);
    } else if rows != [] {
      assert OnlyRows(rows, channel)[1..] == OnlyRows(rows[1..], channel);
      assert OnlyRows(SetStatus(rows, channel, status), channel)[1..] == OnlyRows(rows[1..], channel);
    }
  }

  lemma OtherWritesShowNothing(rows: seq<Row>, channel: string, other: string, status: Status)
    ensures Blank(SetStatus(rows, other, status)) == Blank(rows)
    ensures channel != other ==> OnlyRows(SetStatus(rows, other, status), channel) == OnlyRows(rows, channel)
  {
  }

  lemma PendingShowsAll(defs: Definitions, w: WfId, k: nat, x: Notification)
    requires x.rows == PendingRows(StepsOf(defs, x.wf))
    ensures BareNote(defs, w, k, x) == x
  {
    forall i | 0 <= i < |x.rows| ensures x.rows[i] == Row(x.rows[i].channel, Pending) { assert x.rows[i] in x.rows; }
    assert Blank(x.rows) == x.rows;
    if OwnsChannel(defs, w, k) { assert OnlyRows(x.rows, StepsOf(defs, w)[k].kind) == x.rows; }
  }

  // ---------------------------------------------------------------------------------
  // Digests that lead nowhere
  // ---------------------------------------------------------------------------------

  /** Digest items do not lead to step k, and step loops have not passed an armed step. */
  ghost predicate EndsOk(defs: Definitions, w: WfId, k: nat, it: Item) {
    && (it.StepRun? && it.wf == w ==> Evaluates(defs, w, it.plan) && it.pos <= StopAt(it.plan, 0))
    && ((IsToken(it) || it.Drained?) && it.key.wf == w ==> k !in Following(StepsOf(defs, w), it.key.step + 1))
  }

  ghost predicate DigestsEnd(defs: Definitions, w: WfId, k: nat, s: State) {
    forall h :: h in s.pool ==> EndsOk(defs, w, k, s.pool[h])
  }

  lemma PushEnds(defs: Definitions, w: WfId, k: nat, it: Item)
    requires it.StepRun? && it.wf == w && EndsOk(defs, w, k, it) && it.pos < |it.plan| && Arms(it.plan[it.pos])
    requires !ExposedAt(defs, w, k) && it.plan[it.pos].step.kind == "digest"
    ensures k !in Following(StepsOf(defs, w), PushKey(it).step + 1)
  {
    EvaluatesIsPlan(defs, w, it.plan);
    assert StopAt(it.plan, 0) == it.pos;
  }

  lemma LoopEnds(defs: Definitions, w: WfId, k: nat, s: State, it: Item, m: Move)
    requires it.StepRun? && EndsOk(defs, w, k, it) && !ExposedAt(defs, w, k)
    ensures var e := React(defs, s, it, m);
      && (e.keep.Some? ==> EndsOk(defs, w, k, e.keep.value))
      && (e.fork.Some? ==> EndsOk(defs, w, k, e.fork.value))
  {
    hide PendingRows, Evaluates, Following, ExposedAt;
    if it.pos < |it.plan| && it.wf == w && Arms(it.plan[it.pos]) && it.plan[it.pos].step.kind == "digest" {
      PushEnds(defs, w, k, it);
    }
  }

  lemma ReactionEnds(defs: Definitions, w: WfId, k: nat, s: State, it: Item, m: Move)
    requires EndsOk(defs, w, k, it) && !ExposedAt(defs, w, k)
    ensures var e := React(defs, s, it, m);
      && (e.keep.Some? ==> EndsOk(defs, w, k, e.keep.value))
      && (e.fork.Some? ==> EndsOk(defs, w, k, e.fork.value))
  {
    hide PendingRows, Following, ExposedAt, Taken, SetStatus, Engine.Plan;
    if it.StepRun? { LoopEnds(defs, w, k, s, it, m); }
  }

  lemma DigestsStillEnd(defs: Definitions, w: WfId, k: nat, s: State, a: Action)
    requires DigestsEnd(defs, w, k, s) && !ExposedAt(defs, w, k)
    ensures DigestsEnd(defs, w, k, Do(defs, s, a))
  {
    hide React, ExposedAt, Evaluates, Following;
    if a.Act? && a.h in s.pool && a.slot !in s.pool {
      ReactionEnds(defs, w, k, s, s.pool[a.h], a.move);
    }
  }

  // ---------------------------------------------------------------------------------
  // One action, as far as step k of w is concerned
  // ---------------------------------------------------------------------------------

  predicate Pushes(it: Item, m: Move) {
    it.StepRun? && it.pos < |it.plan| && Arms(it.plan[it.pos]) && it.plan[it.pos].step.kind == "digest" && m.Go?
  }

  ghost predicate Dropped(defs: Definitions, w: WfId, k: nat, s: State, e: Effect) {
    && (e.keep.Some? ==> !Kept(defs, w, k, e.keep.value))
    && (e.fork.Some? ==> !Kept(defs, w, k, e.fork.value))
    && e.rest.pool == s.pool && Bare(defs, w, k, e.rest) == Bare(defs, w, k, s)
  }

  /** The effect of starting a delivery, or of not starting it. */
  ghost predicate MayStart(s: State, it: Item, e: Effect, n: NotifId, j: nat)
    requires it.StepRun? || it.Resume?
  {
    && e.rest == s.(enqueued := e.rest.enqueued)
    && (if e.rest.enqueued == s.enqueued then e.fork.None?
        else e.rest.enqueued == s.enqueued + [(n, j)] && e.fork.Some? && e.fork.value.DeliveryTask?
             && e.fork.value.wf == it.wf && e.fork.value.step == j)
  }

  lemma UnshownStart(defs: Definitions, w: WfId, k: nat, s: State, it: Item, e: Effect, n: NotifId, j: nat)
    requires (it.StepRun? || it.Resume?) && MayStart(s, it, e, n, j) && BornIn(s, n, it.wf) && (it.wf != w || j != k)
    ensures e.fork.Some? ==> !Kept(defs, w, k, e.fork.value)
    ensures e.rest.pool == s.pool && Bare(defs, w, k, e.rest) == Bare(defs, w, k, s)
  {
    hide BareNotes, BarePool, Only, PendingRows, SetStatus;
    if e.rest.enqueued != s.enqueued { OnlySnoc(s.enqueued, (n, j), s.born, w, k); }
  }

  lemma LoopMayStart(defs: Definitions, s: State, it: Item, m: Move)
    requires it.StepRun? && ItemFits(defs, s, it) && !Pushes(it, m)
    ensures MayStart(s, it, React(defs, s, it, m), it.notif, it.pos)
    ensures React(defs, s, it, m).rest.enqueued != s.enqueued ==> m.Go? && it.pos < |it.plan| && Sends(it.plan[it.pos])
    ensures it.pos < |it.plan| ==> it.plan[it.pos].index == it.pos
  {
    hide PendingRows, SetStatus;
  }

  lemma DroppedStepRun(defs: Definitions, w: WfId, k: nat, s: State, it: Item, m: Move)
    requires it.StepRun? && ItemFits(defs, s, it) && EndsOk(defs, w, k, it) && (it.wf != w || Pushes(it, m))
    ensures Dropped(defs, w, k, s, React(defs, s, it, m))
  {
    hide BareNotes, BarePool, Only, Evaluates, IsPlan, Following, PendingRows, SetStatus, StopAt;
    if !Pushes(it, m) {
      LoopMayStart(defs, s, it, m);
      UnshownStart(defs, w, k, s, it, React(defs, s, it, m), it.notif, it.pos);
    }
  }

  lemma DroppedResume(defs: Definitions, w: WfId, k: nat, s: State, it: Item, m: Move)
    requires it.Resume? && ItemFits(defs, s, it) && !Kept(defs, w, k, it)
    ensures Dropped(defs, w, k, s, React(defs, s, it, m))
  {
    hide BareNotes, BarePool, Only, PendingRows, SetStatus;
    var e := React(defs, s, it, m);
    assert MayStart(s, it, e, it.notif, it.pos);
    if it.wf == w && it.pos < |StepsOf(defs, w)| && !IsControl(StepsOf(defs, w)[it.pos].kind) {
      assert it.pos == Following(StepsOf(defs, w), it.pos)[0];
      FollowingTail(StepsOf(defs, w), it.pos, k);
    }
    if e.rest.enqueued != s.enqueued { UnshownStart(defs, w, k, s, it, e, it.notif, it.pos); }
  }

  lemma FollowingTail(steps: seq<Step>, pos: nat, k: nat)
    requires pos < |steps| && !IsControl(steps[pos].kind)
    ensures k in Following(steps, pos) <==> k == pos || k in Following(steps, pos + 1)
    ensures k in Following(steps, pos + 1) ==> k > pos
  {
    FollowingExact(steps, pos + 1);
  }

  lemma DroppedDelivery(defs: Definitions, w: WfId, k: nat, s: State, it: Item, m: Move)
    requires it.DeliveryTask? && Always(defs, s) && ItemFits(defs, s, it) && !Kept(defs, w, k, it)
    ensures Dropped(defs, w, k, s, React(defs, s, it, m))
  {
    hide PendingRows, Only, BarePool, BareNotes, SetStatus, OnlyRows, ReactCall, ReactBroadcast, ReactStep, ReactResume;
    hide DistinctChannels, Always;
    if it.notif in s.notifs && m.Settle? && m.written {
      UnseenWrite(defs, w, k, s, it, m.status);
    }
  }

  /** A status written to another step's row is invisible at step k. */
  lemma UnseenWrite(defs: Definitions, w: WfId, k: nat, s: State, it: Item, status: Status)
    requires it.DeliveryTask? && Always(defs, s) && ItemFits(defs, s, it) && !Kept(defs, w, k, it)
      && it.notif in s.notifs
    ensures BareNotes(defs, w, k, UpdateChannelStatus(s, it.notif, it.channel, status).notifs)
      == BareNotes(defs, w, k, s.notifs)
  {
    hide PendingRows, SetStatus, Blank, OnlyRows, DistinctChannels, TriggersOk, UniqueOk, RowsFit, CollectorsAlone;
    var x := s.notifs[it.notif];
    assert BornIn(s, it.notif, x.wf);
    OtherWritesShowNothing(x.rows, it.channel, it.channel, status);
    if x.wf == w && OwnsChannel(defs, w, k) {
      OtherChannel(defs, w, k, it.step);
      OtherWritesShowNothing(x.rows, StepsOf(defs, w)[k].kind, it.channel, status);
    }
  }

  lemma OtherChannel(defs: Definitions, w: WfId, k: nat, j: nat)
    requires OwnsChannel(defs, w, k) && j != k && j < |StepsOf(defs, w)| && !IsControl(StepsOf(defs, w)[j].kind)
    ensures StepsOf(defs, w)[j].kind != StepsOf(defs, w)[k].kind
  {
  }

  /** What an item does that cannot lead to step k is invisible there. */
  lemma DroppedReaction(defs: Definitions, w: WfId, k: nat, s: State, it: Item, m: Move)
    requires Always(defs, s) && ItemFits(defs, s, it) && EndsOk(defs, w, k, it)
    requires !Kept(defs, w, k, it) || Pushes(it, m)
    ensures Dropped(defs, w, k, s, React(defs, s, it, m))
  {
    hide PendingRows, Only, BarePool, BareNotes, SetStatus, Evaluates, IsPlan, Taken, Always;
    if it.StepRun? { DroppedStepRun(defs, w, k, s, it, m); }
    else if it.Resume? { DroppedResume(defs, w, k, s, it, m); }
    else if it.DeliveryTask? { DroppedDelivery(defs, w, k, s, it, m); }
  }

  /** The move that does the same to step k alone: deliveries of other steps fail to be
      enqueued, and rows that are not shown are not written. */
  ghost function BareMove(defs: Definitions, w: WfId, k: nat, it: Item, m: Move): (n: Move)
    ensures !n.LoseBatch?
  {
    if m.LoseBatch? then (if it.DeliveryTask? then Fail else Retry)
    else if it.StepRun? && m.Go? && it.pos < |it.plan| && Sends(it.plan[it.pos]) && it.plan[it.pos].index != k then Fail
    else if it.Resume? && m.Go? && it.pos != k then Fail
    else if m.Settle? && !OwnsChannel(defs, w, k) then Settle(m.status, false)
    else m
  }

  ghost predicate Same(defs: Definitions, w: WfId, k: nat, s: State, e: Effect, x: Effect) {
    && x.keep == e.keep
    && x.fork == (if e.fork.Some? && Kept(defs, w, k, e.fork.value) then e.fork else None)
    && e.rest.pool == s.pool && x.rest == Bare(defs, w, k, e.rest)
  }

  lemma SameCreation(defs: Definitions, w: WfId, k: nat, s: State, id: NotifId, env: EnvId, tx: string, sub: SubId,
                     wf: WfId)
    requires ItemsFit(defs, s) && id !in s.born
    ensures Bare(defs, w, k, Created(defs, s, id, env, tx, sub, wf))
      == Created(defs, Bare(defs, w, k, s), id, env, tx, sub, wf)
  {
    hide PendingRows, Only, BarePool, BareNote, ItemFits;
    var t := Created(defs, s, id, env, tx, sub, wf);
    OnlyGrows(s.enqueued, s.born, t.born, w, k);
    PendingShowsAll(defs, w, k, t.notifs[id]);
    assert BareNotes(defs, w, k, t.notifs) == BareNotes(defs, w, k, s.notifs)[id := t.notifs[id]];
  }

  lemma SameRequest(defs: Definitions, w: WfId, k: nat, s: State, it: Item, m: Move)
    requires Collects(it) && ItemsFit(defs, s)
    ensures Same(defs, w, k, s, React(defs, s, it, m),
      React(defs, Bare(defs, w, k, s), it, BareMove(defs, w, k, it, m)))
  {
    hide Only, BarePool, BareNotes, ItemFits, OwnsChannel, Created, Taken, ItemsFit;
    if m.Insert? && it.todo != [] {
      SameTaken(defs, w, k, s, it.env, it.tx, it.todo[0]);
      if m.id !in s.born {
        SameCreation(defs, w, k, s, m.id, it.env, it.tx, it.todo[0], it.wf);
        CreationKeeps(defs, s, m.id, it.env, it.tx, it.todo[0], it.wf);
      }
    }
  }

  lemma CreationKeeps(defs: Definitions, s: State, id: NotifId, env: EnvId, tx: string, sub: SubId, wf: WfId)
    ensures Created(defs, s, id, env, tx, sub, wf).pool == s.pool
  {
  }

  lemma SameTaken(defs: Definitions, w: WfId, k: nat, s: State, env: EnvId, tx: string, sub: SubId)
    ensures Taken(Bare(defs, w, k, s), env, tx, sub) == Taken(s, env, tx, sub)
  {
    var b := Bare(defs, w, k, s);
    forall n | n in s.notifs
      ensures n in b.notifs && b.notifs[n].env == s.notifs[n].env && b.notifs[n].tx == s.notifs[n].tx
        && b.notifs[n].sub == s.notifs[n].sub
    { }
  }

  lemma SameStart(defs: Definitions, w: WfId, k: nat, s: State, it: Item, e: Effect, x: Effect)
    requires (it.StepRun? || it.Resume?) && it.wf == w && BornIn(s, it.notif, w)
    requires MayStart(s, it, e, it.notif, it.pos) && x.keep == e.keep
    requires if it.pos == k && e.rest.enqueued != s.enqueued
      then MayStart(Bare(defs, w, k, s), it, x, it.notif, it.pos) && x.fork == e.fork
          && x.rest.enqueued != Bare(defs, w, k, s).enqueued
      else x.rest == Bare(defs, w, k, s) && x.fork.None?
    ensures Same(defs, w, k, s, e, x)
  {
    hide BareNotes, BarePool, Only, PendingRows, SetStatus;
    if e.rest.enqueued != s.enqueued { OnlySnoc(s.enqueued, (it.notif, it.pos), s.born, w, k); }
  }

  lemma SameStepRun(defs: Definitions, w: WfId, k: nat, s: State, it: Item, m: Move)
    requires it.StepRun? && ItemFits(defs, s, it) && it.wf == w && !Pushes(it, m)
    ensures Same(defs, w, k, s, React(defs, s, it, m),
      React(defs, Bare(defs, w, k, s), it, BareMove(defs, w, k, it, m)))
  {
    hide BareNotes, BarePool, Only, IsPlan, PendingRows, SetStatus, OwnsChannel, Same;
    LoopMayStart(defs, s, it, m);
    SameStart(defs, w, k, s, it, React(defs, s, it, m),
        React(defs, Bare(defs, w, k, s), it, BareMove(defs, w, k, it, m)));
  }

  lemma SameResume(defs: Definitions, w: WfId, k: nat, s: State, it: Item, m: Move)
    requires it.Resume? && ItemFits(defs, s, it) && it.wf == w
    ensures Same(defs, w, k, s, React(defs, s, it, m),
      React(defs, Bare(defs, w, k, s), it, BareMove(defs, w, k, it, m)))
  {
    hide BareNotes, BarePool, Only, IsPlan, PendingRows, SetStatus, OwnsChannel, Same;
    SameStart(defs, w, k, s, it, React(defs, s, it, m),
        React(defs, Bare(defs, w, k, s), it, BareMove(defs, w, k, it, m)));
  }

  /** A status write, seen through the rows that are shown. */
  lemma ShownWrite(defs: Definitions, w: WfId, k: nat, s: State, n: NotifId, channel: string, status: Status)
    requires OwnsChannel(defs, w, k) ==> channel == StepsOf(defs, w)[k].kind
    requires n in s.notifs && s.notifs[n].wf == w
    ensures BareNotes(defs, w, k, UpdateChannelStatus(s, n, channel, status).notifs)
      == if OwnsChannel(defs, w, k) then UpdateChannelStatus(Bare(defs, w, k, s), n, channel, status).notifs
         else BareNotes(defs, w, k, s.notifs)
  {
    hide Only, BarePool, SetStatus, OwnsChannel;
    OnlyRowsSet(s.notifs[n].rows, channel, status);
    OtherWritesShowNothing(s.notifs[n].rows, channel, channel, status);
  }

  lemma SameDelivery(defs: Definitions, w: WfId, k: nat, s: State, it: Item, m: Move)
    requires it.DeliveryTask? && Always(defs, s) && ItemFits(defs, s, it) && Kept(defs, w, k, it)
    ensures Same(defs, w, k, s, React(defs, s, it, m),
      React(defs, Bare(defs, w, k, s), it, BareMove(defs, w, k, it, m)))
  {
    hide PendingRows, Only, BarePool, BareNote, SetStatus, OwnsChannel, TriggersOk, UniqueOk, RowsFit, CollectorsAlone;
    if it.notif in s.notifs && m.Settle? && m.written {
      BornNow(defs, s, it.notif);
      OwnedChannel(defs, w, k);
      ShownWrite(defs, w, k, s, it.notif, it.channel, m.status);
    }
  }

  lemma OwnedChannel(defs: Definitions, w: WfId, k: nat)
    ensures OwnsChannel(defs, w, k) ==> k < |StepsOf(defs, w)|
  {
  }

  lemma SameReaction(defs: Definitions, w: WfId, k: nat, s: State, it: Item, m: Move)
    requires Always(defs, s) && ItemFits(defs, s, it) && Kept(defs, w, k, it) && !Pushes(it, m)
    ensures Same(defs, w, k, s, React(defs, s, it, m),
      React(defs, Bare(defs, w, k, s), it, BareMove(defs, w, k, it, m)))
  {
    hide PendingRows, Only, BarePool, BareNotes, SetStatus, Evaluates, IsPlan, Taken, OwnsChannel, CollectorsAlone,
        TriggersOk, UniqueOk, RowsFit;
    if Collects(it) { SameRequest(defs, w, k, s, it, m); }
    else if it.StepRun? { SameStepRun(defs, w, k, s, it, m); }
    else if it.Resume? { SameResume(defs, w, k, s, it, m); }
    else if it.DeliveryTask? { SameDelivery(defs, w, k, s, it, m); }
  }

  lemma DroppedAct(defs: Definitions, w: WfId, k: nat, s: State, h: Handle, f: Handle, m: Move)
    requires Always(defs, s) && DigestsEnd(defs, w, k, s) && h in s.pool && f !in s.pool
    requires !Kept(defs, w, k, s.pool[h]) || Pushes(s.pool[h], m)
    ensures Do(defs, Bare(defs, w, k, s), Discard(h)) == Bare(defs, w, k, Do(defs, s, Act(h, f, m)))
  {
    hide React, Kept, Pushes, EndsOk, Only, BareNotes, CollectorsAlone, TriggersOk, UniqueOk, RowsFit, ItemFits;
    var e := React(defs, s, s.pool[h], m);
    OneFits(defs, s, h);
    DroppedReaction(defs, w, k, s, s.pool[h], m);
    assert Bare(defs, w, k, e.rest).notifs == BareNotes(defs, w, k, e.rest.notifs);
    assert BarePool(defs, w, k, Install(s.pool, h, f, e)) == BarePool(defs, w, k, s.pool) - {h};
  }

  lemma KeptAct(defs: Definitions, w: WfId, k: nat, s: State, h: Handle, f: Handle, m: Move)
    requires Always(defs, s) && h in s.pool && f !in s.pool && Kept(defs, w, k, s.pool[h]) && !Pushes(s.pool[h], m)
    ensures var e := React(defs, s, s.pool[h], m);
      var done := Do(defs, Bare(defs, w, k, s), Act(h, f, BareMove(defs, w, k, s.pool[h], m)));
      Bare(defs, w, k, Do(defs, s, Act(h, f, m)))
        == if e.keep.Some? && !Kept(defs, w, k, e.keep.value) then Do(defs, done, Discard(h)) else done
  {
    hide React, Kept, Pushes, Only, BareNotes, BareMove, CollectorsAlone, TriggersOk, UniqueOk, RowsFit, ItemFits;
    var e, it, b := React(defs, s, s.pool[h], m), s.pool[h], Bare(defs, w, k, s);
    OneFits(defs, s, h);
    SameReaction(defs, w, k, s, it, m);
    var x := React(defs, b, it, BareMove(defs, w, k, it, m));
    var left := Install(b.pool, h, f, x);
    assert BarePool(defs, w, k, Install(s.pool, h, f, e)) == if e.keep.Some?
        && !Kept(defs, w, k, e.keep.value) then left - {h} else left;
  }

  lemma BareAct(defs: Definitions, w: WfId, k: nat, s: State, h: Handle, f: Handle, m: Move) returns (bare: seq<Action>)
    requires Always(defs, s) && DigestsEnd(defs, w, k, s) && h in s.pool && f !in s.pool
    ensures AllSteady(bare) && RunFrom(defs, Bare(defs, w, k, s), bare) == Bare(defs, w, k, Do(defs, s, Act(h, f, m)))
  {
    hide React, Kept, Bare, Do, RunFrom, Always, DigestsEnd, BareMove, Pushes;
    var it, b := s.pool[h], Bare(defs, w, k, s);
    if !Kept(defs, w, k, it) || Pushes(it, m) {
      DroppedAct(defs, w, k, s, h, f, m);
      bare := [Discard(h)];
      OneStep(defs, b, Discard(h));
    } else {
      var a := Act(h, f, BareMove(defs, w, k, it, m));
      KeptAct(defs, w, k, s, h, f, m);
      var e := React(defs, s, it, m);
      OneStep(defs, b, a);
      bare := [a];
      if e.keep.Some? && !Kept(defs, w, k, e.keep.value) {
        bare := [a] + [Discard(h)];
        RunFromConcat(defs, b, [a], [Discard(h)]);
        OneStep(defs, Do(defs, b, a), Discard(h));
      }
    }
  }

  /** One action as far as step k of w is concerned: at most two actions, both steady. */
  lemma BareStep(defs: Definitions, w: WfId, k: nat, s: State, a: Action) returns (bare: seq<Action>)
    requires Always(defs, s) && DigestsEnd(defs, w, k, s)
    ensures AllSteady(bare) && RunFrom(defs, Bare(defs, w, k, s), bare) == Bare(defs, w, k, Do(defs, s, a))
  {
    hide React, Always, DigestsEnd, EndsOk, Only, BareNote;
    if a.Act? {
      bare := [];
      if a.h in s.pool && a.slot !in s.pool { bare := BareAct(defs, w, k, s, a.h, a.slot, a.move); }
    } else if a.Evict? || (a.Arrive? && a.h in s.pool) {
      bare := [];
    } else {
      bare := [a];
      OneStep(defs, Bare(defs, w, k, s), a);
      OtherBare(defs, w, k, s, a);
    }
  }

  lemma OtherBare(defs: Definitions, w: WfId, k: nat, s: State, a: Action)
    requires a.Discard? || a.Expire? || (a.Arrive? && a.h !in s.pool)
    ensures Do(defs, Bare(defs, w, k, s), a) == Bare(defs, w, k, Do(defs, s, a))
  {
    hide Only, BareNote;
    assert a.Arrive? && IsRequest(a.item) ==> Kept(defs, w, k, a.item);
    assert Bare(defs, w, k, Do(defs, s, a)).pool == Do(defs, Bare(defs, w, k, s), a).pool;
    assert Bare(defs, w, k, Do(defs, s, a)).notifs == Do(defs, Bare(defs, w, k, s), a).notifs;
  }

  // ---------------------------------------------------------------------------------
  // Unexposed steps
  // ---------------------------------------------------------------------------------

  lemma {:induction false} RunDigestsEnd(defs: Definitions, w: WfId, k: nat, actions: seq<Action>)
    requires !ExposedAt(defs, w, k)
    ensures DigestsEnd(defs, w, k, Run(defs, actions))
  {
    hide Do, ExposedAt, EndsOk;
    if actions != [] {
      var n := |actions| - 1;
      RunDigestsEnd(defs, w, k, actions[..n]);
      DigestsStillEnd(defs, w, k, Run(defs, actions[..n]), actions[n]);
    }
  }

  /** Any continuation of any run, as far as an unexposed step is concerned, is a steady one. */
  lemma {:induction false} BareRun(defs: Definitions, w: WfId, k: nat, before: seq<Action>, after: seq<Action>)
      returns (bare: seq<Action>)
    requires !ExposedAt(defs, w, k)
    ensures AllSteady(bare)
    ensures RunFrom(defs, Bare(defs, w, k, Run(defs, before)), bare) == Bare(defs, w, k, Run(defs, before + after))
  {
    hide Do, Bare, ExposedAt, Steady;
    if after == [] {
      assert before + after == before;
      bare := [];
    } else {
      var m := |after| - 1;
      assert (before + after)[..|before + after| - 1] == before + after[..m];
      var s := Run(defs, before + after[..m]);
      var first := BareRun(defs, w, k, before, after[..m]);
      RunKeepsAlways(defs, before + after[..m]);
      RunDigestsEnd(defs, w, k, before + after[..m]);
      var last := BareStep(defs, w, k, s, after[m]);
      RunFromConcat(defs, Bare(defs, w, k, Run(defs, before)), first, last);
      bare := first + last;
    }
  }

  /** The same from the start. */
  lemma BareWholeRun(defs: Definitions, w: WfId, k: nat, actions: seq<Action>) returns (bare: seq<Action>)
    requires !ExposedAt(defs, w, k)
    ensures AllSteady(bare) && Run(defs, bare) == Bare(defs, w, k, Run(defs, actions))
  {
    bare := BareRun(defs, w, k, [], actions);
    assert [] + actions == actions;
    assert Bare(defs, w, k, Empty) == Empty;
  }

  /** Step k is started at most once for each notification of workflow w. */
  ghost predicate DeliversOnce(s: State, w: WfId, k: nat) {
    forall i, j | 0 <= i < j < |s.enqueued| && s.enqueued[i].1 == k && BornIn(s, s.enqueued[i].0, w) ::
      s.enqueued[i] != s.enqueued[j]
  }

  lemma {:induction false} OnlyMembers(q: seq<(NotifId, nat)>, born: map<NotifId, WfId>, w: WfId, k: nat, n: NotifId)
    requires (n, k) in q && n in born && born[n] == w
    ensures (n, k) in Only(q, born, w, k)
  {
    var m := |q| - 1;
    assert q == q[..m] + [q[m]];
    if q[m] != (n, k) { OnlyMembers(q[..m], born, w, k, n); }
  }

  lemma {:induction false} OnlyRepeats(q: seq<(NotifId, nat)>, born: map<NotifId, WfId>, w: WfId, k: nat, i: nat,
                                       j: nat)
    requires i < j < |q| && q[i] == q[j] && q[i].1 == k && q[i].0 in born && born[q[i].0] == w
    ensures !NoRepeats(Only(q, born, w, k))
  {
    var m := |q| - 1;
    var rest := Only(q[..m], born, w, k);
    if j == m {
      assert q[..m][i] == q[i] && q[i] == (q[i].0, k);
      OnlyMembers(q[..m], born, w, k, q[i].0);
      var x :| 0 <= x < |rest| && rest[x] == q[i];
      var all: seq<(NotifId, nat)> := rest + [q[m]];
      assert all[x] == all[|rest|] && Only(q, born, w, k) == all;
    } else {
      assert q[..m][i] == q[i] && q[..m][j] == q[j];
      OnlyRepeats(q[..m], born, w, k, i, j);
      var x, y :| 0 <= x < y < |rest| && rest[x] == rest[y];
      assert Only(q, born, w, k)[x] == rest[x] && Only(q, born, w, k)[y] == rest[y];
    }
  }

  lemma UnexposedDeliversOnce(defs: Definitions, w: WfId, k: nat, actions: seq<Action>)
    requires !ExposedAt(defs, w, k)
    ensures DeliversOnce(Run(defs, actions), w, k)
  {
    var s := Run(defs, actions);
    var bare := BareWholeRun(defs, w, k, actions);
    AtMostOnceDelivery(defs, bare);
    if i: nat, j: nat :|
       i < j < |s.enqueued| && s.enqueued[i].1 == k && BornIn(s, s.enqueued[i].0, w) && s.enqueued[i] == s.enqueued[j] {
      OnlyRepeats(s.enqueued, s.born, w, k, i, j);
    }
  }

  /** Row i of notification n is the row of step k of workflow w, and it is settled. */
  ghost predicate Settled(defs: Definitions, w: WfId, k: nat, s: State, n: NotifId, i: nat) {
    && k < |StepsOf(defs, w)| && n in s.notifs && s.notifs[n].wf == w
    && i < |s.notifs[n].rows| && s.notifs[n].rows[i].channel == StepsOf(defs, w)[k].kind
        && s.notifs[n].rows[i].status != Pending
  }

  ghost predicate SameRow(s: State, t: State, n: NotifId, i: nat) {
    n in s.notifs && n in t.notifs ==>
      i < |s.notifs[n].rows| && i < |t.notifs[n].rows| && t.notifs[n].rows[i] == s.notifs[n].rows[i]
  }

  lemma ShownRow(defs: Definitions, w: WfId, k: nat, s: State, n: NotifId, i: nat)
    requires OwnsChannel(defs, w, k) && n in s.notifs && s.notifs[n].wf == w
    ensures var b := Bare(defs, w, k, s);
      && n in b.notifs && b.notifs[n].wf == w && |b.notifs[n].rows| == |s.notifs[n].rows|
      && (i < |s.notifs[n].rows| ==> b.notifs[n].rows[i].channel == s.notifs[n].rows[i].channel)
      && (i < |s.notifs[n].rows| && s.notifs[n].rows[i].channel == StepsOf(defs, w)[k].kind ==>
            b.notifs[n].rows[i] == s.notifs[n].rows[i])
  {
  }

  lemma UnexposedRowSettles(defs: Definitions, w: WfId, k: nat, before: seq<Action>, after: seq<Action>, n: NotifId,
                            i: nat)
    requires OwnsChannel(defs, w, k) && !ExposedAt(defs, w, k) && Settled(defs, w, k, Run(defs, before), n, i)
    ensures SameRow(Run(defs, before), Run(defs, before + after), n, i)
  {
    hide ExposedAt, Bare;
    var s, t := Run(defs, before), Run(defs, before + after);
    if n in t.notifs {
      var bare := BareWholeRun(defs, w, k, before);
      var more := BareRun(defs, w, k, before, after);
      RunFromConcat(defs, Empty, bare, more);
      RunBornNow(defs, before, n);
      RunBornNow(defs, before + after, n);
      StaysBorn(defs, before, after, n);
      ShownRow(defs, w, k, s, n, i);
      ShownRow(defs, w, k, t, n, i);
      SteadyRowsSettleOnce(defs, bare, more, n, i);
    }
  }

  // ---------------------------------------------------------------------------------
  // Exposed steps
  // ---------------------------------------------------------------------------------

  ghost predicate Reachable(defs: Definitions, s: State) {
    exists actions :: Run(defs, actions) == s
  }

  lemma Advance(defs: Definitions, s: State, a: Action)
    requires Reachable(defs, s)
    ensures Reachable(defs, Do(defs, s, a))
  {
    var actions :| Run(defs, actions) == s;
    assert (actions + [a])[..|actions + [a]| - 1] == actions;
    assert Run(defs, actions + [a]) == Do(defs, s, a);
  }

  /** A witness of exposure: an evaluation that stops at the digest step c, which leads to k. */
  ghost predicate Leads(d: Definitions, w: WfId, k: nat, plan: seq<Planned>, c: nat) {
    && Evaluates(d, w, plan) && IsPlan(StepsOf(d, w), plan) && c == StopAt(plan, 0)
    && c < |plan| && plan[c].step.kind == "digest" && plan[c].step.digest.Some? && !plan[c].skipped
    && k in Following(StepsOf(d, w), c + 1)
  }

  lemma ExposureLeads(d: Definitions, w: WfId, k: nat) returns (plan: seq<Planned>, c: nat)
    requires ExposedAt(d, w, k)
    ensures Leads(d, w, k, plan, c)
  {
    plan :| Evaluates(d, w, plan) && DigestsTo(StepsOf(d, w), plan, k);
    EvaluatesIsPlan(d, w, plan);
    c := StopAt(plan, 0);
  }

  /** The digest list of subscriber 1. */
  ghost function KeyOf(d: Definitions, w: WfId, k: nat, plan: seq<Planned>, c: nat): DigestKey
    requires Leads(d, w, k, plan, c)
  {
    DigestKey(0, w, c, 1, plan[c].step.digest.value.key)
  }

  /** A trigger request for subscriber 1 creates its notification, and the trigger task it
      enqueues is taken up. */
  lemma TriggerOne(d: Definitions, w: WfId, s: State, h: Handle, g: Handle, n: NotifId, tx: string) returns (t: State)
    requires Reachable(d, s) && h !in s.pool && g !in s.pool && g != h
    requires n !in s.born && !Taken(s, 0, tx, 1)
    ensures Reachable(d, t)
    ensures t.pool == s.pool[h := TriggerRun(0, w, map[1 := n])]
    ensures t.notifs == s.notifs[n := Notification(0, tx, 1, w, PendingRows(StepsOf(d, w)))]
    ensures t.born == s.born[n := w] && t.lists == s.lists && t.enqueued == s.enqueued
  {
    hide Reachable, PendingRows;
    var call := Call(0, w, tx, [1], map[]);
    Advance(d, s, Arrive(h, call));
    var s1 := Do(d, s, Arrive(h, call));
    assert s1 == s.(pool := s.pool[h := call]);
    Advance(d, s1, Act(h, g, Insert(n)));
    var s2 := Do(d, s1, Act(h, g, Insert(n)));
    assert !Taken(s1, 0, tx, 1);
    assert [1][1..] == [];
    assert s2 == Created(d, s, n, 0, tx, 1, w).(pool := s.pool[h := Call(0, w, tx, [], map[1 := n])]);
    t := TakenUp(d, w, s2, h, g, n, tx);
  }

  lemma TakenUp(d: Definitions, w: WfId, s: State, h: Handle, g: Handle, n: NotifId, tx: string) returns (t: State)
    requires Reachable(d, s) && h in s.pool && g !in s.pool
    requires s.pool[h] == Call(0, w, tx, [], map[1 := n])
    ensures Reachable(d, t)
    ensures t == s.(pool := s.pool[h := TriggerRun(0, w, map[1 := n])], triggered := s.triggered + [map[1 := n]])
  {
    hide Reachable;
    Advance(d, s, Act(h, g, Go));
    var s1 := Do(d, s, Act(h, g, Go));
    assert s1.pool[h] == TriggerTask(0, w, map[1 := n]);
    Advance(d, s1, Act(h, g, Go));
    t := Do(d, s1, Act(h, g, Go));
  }

  /** The step loop gets to the digest step; what it should deliver before it fails to be
      enqueued. */
  lemma {:induction false} SkipTo(d: Definitions, w: WfId, k: nat, plan: seq<Planned>, c: nat, s: State, f: Handle,
                                  g: Handle, n: NotifId, pos: nat) returns (t: State)
    requires Leads(d, w, k, plan, c) && Reachable(d, s) && f in s.pool && g !in s.pool && pos <= c
    requires s.pool[f] == StepRun(0, w, 1, n, plan, pos)
    ensures Reachable(d, t) && t == s.(pool := s.pool[f := StepRun(0, w, 1, n, plan, c)])
    decreases c - pos
  {
    hide Reachable, Evaluates, Following;
    if pos == c {
      t := s;
      assert s.pool[f := s.pool[f]] == s.pool;
    } else {
      Advance(d, s, Act(f, g, Fail));
      var s1 := Do(d, s, Act(f, g, Fail));
      assert !Arms(plan[pos]);
      assert s1 == s.(pool := s.pool[f := StepRun(0, w, 1, n, plan, pos + 1)]);
      t := SkipTo(d, w, k, plan, c, s1, f, g, n, pos + 1);
    }
  }

  /** The trigger handler pushes the notification onto the empty digest list and queues the
      digest task. */
  lemma PushOne(d: Definitions, w: WfId, k: nat, plan: seq<Planned>, c: nat, s: State, h: Handle, f: Handle, g: Handle,
                n: NotifId) returns (t: State)
    requires Leads(d, w, k, plan, c)
    requires Reachable(d, s) && h in s.pool && f !in s.pool && g !in s.pool && g != f
    requires s.pool[h] == TriggerRun(0, w, map[1 := n]) && ListAt(s.lists, KeyOf(d, w, k, plan, c)) == []
    ensures Reachable(d, t)
    ensures t == s.(pool := s.pool[h := TriggerRun(0, w, map[])][f := DigestTask(KeyOf(d, w, k, plan, c))],
                    lists := s.lists[KeyOf(d, w, k, plan, c) := [n]])
  {
    hide Reachable, Evaluates;
    Advance(d, s, Act(h, f, Entry(1, plan)));
    var s1 := Do(d, s, Act(h, f, Entry(1, plan)));
    assert map[1 := n] - {1} == map[];
    assert s1 == s.(pool := s.pool[h := TriggerRun(0, w, map[])][f := StepRun(0, w, 1, n, plan, 0)]);
    var s2 := SkipTo(d, w, k, plan, c, s1, f, g, n, 0);
    t := PushAt(d, w, k, plan, c, s2, f, g, n);
    assert t.pool == s.pool[h := TriggerRun(0, w, map[])][f := DigestTask(KeyOf(d, w, k, plan, c))];
  }

  lemma PushAt(d: Definitions, w: WfId, k: nat, plan: seq<Planned>, c: nat, s: State, f: Handle, g: Handle, n: NotifId)
      returns (t: State)
    requires Leads(d, w, k, plan, c) && Reachable(d, s) && f in s.pool && g !in s.pool
    requires s.pool[f] == StepRun(0, w, 1, n, plan, c) && ListAt(s.lists, KeyOf(d, w, k, plan, c)) == []
    ensures Reachable(d, t)
    ensures t == s.(pool := s.pool[f := DigestTask(KeyOf(d, w, k, plan, c))],
      lists := s.lists[KeyOf(d, w, k, plan, c) := [n]])
  {
    hide Reachable, Evaluates, Following;
    var key := KeyOf(d, w, k, plan, c);
    Advance(d, s, Act(f, g, Go));
    var s1 := Do(d, s, Act(f, g, Go));
    assert PushKey(s.pool[f]) == key && [] + [n] == [n];
    assert s1 == s.(pool := s.pool[f := Schedule(key)], lists := s.lists[key := [n]]);
    Advance(d, s1, Act(f, g, Go));
    t := Do(d, s1, Act(f, g, Go));
  }

  /** A digest handler drains the list; `lost` says it then fails its workflow lookup and
      is re-queued, otherwise it starts resuming the workflow. */
  lemma DrainOne(d: Definitions, key: DigestKey, s: State, f: Handle, g: Handle, n: NotifId, lost: bool)
      returns (t: State)
    requires Reachable(d, s) && f in s.pool && g !in s.pool && s.pool[f] == Drain(key, [n])
    ensures Reachable(d, t)
    ensures t == s.(pool := s.pool[f := if lost then DigestTask(key) else Resume(key.wf, n, key.step + 1)],
                    lists := s.lists - {key})
  {
    hide Reachable;
    Advance(d, s, Act(f, g, Go));
    var s1 := Do(d, s, Act(f, g, Go));
    assert s1 == s.(pool := s.pool[f := Drained(key, [n])], lists := s.lists - {key});
    var m := if lost then LoseBatch else Go;
    Advance(d, s1, Act(f, g, m));
    t := Do(d, s1, Act(f, g, m));
  }

  lemma ReadOne(d: Definitions, key: DigestKey, s: State, f: Handle, g: Handle, n: NotifId) returns (t: State)
    requires Reachable(d, s) && f in s.pool && g !in s.pool
    requires s.pool[f] == DigestTask(key) && ListAt(s.lists, key) == [n]
    ensures Reachable(d, t)
    ensures t == s.(pool := s.pool[f := Drain(key, [n])])
  {
    hide Reachable;
    Advance(d, s, Act(f, g, Go));
    t := Do(d, s, Act(f, g, Go));
  }

  /** The resumed loop gets to step k; what it should deliver before it fails to be enqueued. */
  lemma {:induction false} ResumeTo(d: Definitions, w: WfId, k: nat, s: State, f: Handle, x: Handle, n: NotifId,
                                    pos: nat) returns (t: State)
    requires Reachable(d, s) && f in s.pool && x !in s.pool && s.pool[f] == Resume(w, n, pos)
    requires k in Following(StepsOf(d, w), pos)
    ensures Reachable(d, t) && k < |StepsOf(d, w)|
    ensures t == s.(enqueued := s.enqueued + [(n, k)],
                    pool := s.pool[f := Resume(w, n, k + 1)][x := DeliveryTask(w, n, k, StepsOf(d, w)[k].kind, 0)])
    decreases |StepsOf(d, w)| - pos
  {
    hide Reachable;
    FollowingTail(StepsOf(d, w), pos, k);
    var a := Act(f, x, if pos == k then Go else Fail);
    Advance(d, s, a);
    t := Do(d, s, a);
    if pos < k {
      assert t == s.(pool := s.pool[f := Resume(w, n, pos + 1)]);
      t := ResumeTo(d, w, k, t, f, x, n, pos + 1);
    }
  }

  /** Two deliveries of step k of notification 11 are queued. */
  ghost predicate Doubled(d: Definitions, w: WfId, k: nat, s: State) {
    && Reachable(d, s) && k < |StepsOf(d, w)| && s.enqueued == [(11, k), (11, k)]
    && 9 !in s.pool && 4 in s.pool && 5 in s.pool
    && s.pool[4] == DeliveryTask(w, 11, k, StepsOf(d, w)[k].kind, 0) == s.pool[5]
    && 11 in s.notifs && s.notifs[11] == Notification(0, "second", 1, w, PendingRows(StepsOf(d, w)))
    && BornIn(s, 11, w)
  }

  /** Two digest tasks for one list both read it before either deletes it. */
  lemma BothRead(d: Definitions, w: WfId, k: nat, plan: seq<Planned>, c: nat, s0: State) returns (s: State)
    requires Leads(d, w, k, plan, c) && Reachable(d, s0) && s0.enqueued == []
    requires s0.pool.Keys == {0, 1, 2, 3}
    requires s0.pool[1] == DigestTask(KeyOf(d, w, k, plan, c)) == s0.pool[3]
      && ListAt(s0.lists, KeyOf(d, w, k, plan, c)) == [11]
    requires 11 in s0.notifs && s0.notifs[11] == Notification(0, "second", 1, w, PendingRows(StepsOf(d, w)))
      && BornIn(s0, 11, w)
    ensures Doubled(d, w, k, s)
  {
    hide Reachable, PendingRows, Following, Evaluates;
    var key := KeyOf(d, w, k, plan, c);
    s := ReadOne(d, key, s0, 1, 9, 11);
    s := ReadOne(d, key, s, 3, 9, 11);
    s := DrainOne(d, key, s, 1, 9, 11, false);
    s := DrainOne(d, key, s, 3, 9, 11, false);
    s := ResumeTo(d, w, k, s, 1, 4, 11, c + 1);
    s := ResumeTo(d, w, k, s, 3, 5, 11, c + 1);
  }

  /** The first batch is lost after DEL, and its task is queued again. */
  lemma FirstBatchLost(d: Definitions, w: WfId, k: nat, plan: seq<Planned>, c: nat) returns (s: State)
    requires Leads(d, w, k, plan, c)
    ensures Reachable(d, s) && s.enqueued == []
    ensures s.pool.Keys == {0, 1} && s.pool[1] == DigestTask(KeyOf(d, w, k, plan, c))
      && ListAt(s.lists, KeyOf(d, w, k, plan, c)) == []
    ensures 11 !in s.born && forall n :: n in s.notifs ==> s.notifs[n].tx == "first"
  {
    assert Reachable(d, Empty) by { assert Run(d, []) == Empty; }
    hide Reachable, Leads, PendingRows, KeyOf, Taken;
    var key := KeyOf(d, w, k, plan, c);
    s := TriggerOne(d, w, Empty, 0, 9, 10, "first");
    s := PushOne(d, w, k, plan, c, s, 0, 1, 9, 10);
    s := LoseOne(d, key, s, 1, 9, 10);
  }

  /** A digest task reads and deletes its list, and is re-queued without its batch. */
  lemma LoseOne(d: Definitions, key: DigestKey, s: State, f: Handle, g: Handle, n: NotifId) returns (t: State)
    requires Reachable(d, s) && f in s.pool && g !in s.pool
    requires s.pool[f] == DigestTask(key) && ListAt(s.lists, key) == [n]
    ensures Reachable(d, t)
    ensures t == s.(lists := s.lists - {key})
  {
    hide Reachable;
    t := ReadOne(d, key, s, f, g, n);
    t := DrainOne(d, key, t, f, g, n, true);
    assert t.pool == s.pool;
  }

  /** The second batch's own task joins the re-queued one. */
  lemma TwoTasksForOneList(d: Definitions, w: WfId, k: nat, plan: seq<Planned>, c: nat, s0: State) returns (s: State)
    requires Leads(d, w, k, plan, c) && Reachable(d, s0) && s0.enqueued == []
    requires s0.pool.Keys == {0, 1} && s0.pool[1] == DigestTask(KeyOf(d, w, k, plan, c))
      && ListAt(s0.lists, KeyOf(d, w, k, plan, c)) == []
    requires 11 !in s0.born && forall n :: n in s0.notifs ==> s0.notifs[n].tx == "first"
    ensures Reachable(d, s) && s.enqueued == []
    ensures s.pool.Keys == {0, 1, 2, 3}
    ensures s.pool[1] == DigestTask(KeyOf(d, w, k, plan, c)) == s.pool[3]
      && ListAt(s.lists, KeyOf(d, w, k, plan, c)) == [11]
    ensures 11 in s.notifs && s.notifs[11] == Notification(0, "second", 1, w, PendingRows(StepsOf(d, w)))
      && BornIn(s, 11, w)
  {
    hide Reachable, Leads, PendingRows, Taken, KeyOf;
    SecondIsNew(s0);
    s := TriggerOne(d, w, s0, 2, 9, 11, "second");
    s := PushOne(d, w, k, plan, c, s, 2, 3, 9, 11);
  }

  lemma SecondIsNew(s: State)
    requires forall n :: n in s.notifs ==> s.notifs[n].tx == "first"
    ensures !Taken(s, 0, "second", 1)
  {
    assert "first"[0] != "second"[0];
  }

  /** The digest handler deletes the list before it loads the workflow. When that load fails,
      the re-queued task meets the next batch's own task. */
  lemma ExposedDeliversTwice(d: Definitions, w: WfId, k: nat) returns (s: State)
    requires ExposedAt(d, w, k)
    ensures Doubled(d, w, k, s)
  {
    var plan, c := ExposureLeads(d, w, k);
    hide Reachable, Leads, PendingRows, Doubled, ExposedAt, KeyOf, ListAt;
    s := FirstBatchLost(d, w, k, plan, c);
    s := TwoTasksForOneList(d, w, k, plan, c, s);
    s := BothRead(d, w, k, plan, c, s);
  }

  /** The second of two deliveries overwrites what the first has settled: the rate limit or
      the subscriber's preferences stop it where they let the first one through. */
  lemma SecondOverwrites(d: Definitions, w: WfId, k: nat) returns (before: seq<Action>, after: seq<Action>, i: nat)
    requires ExposedAt(d, w, k) && OwnsChannel(d, w, k)
    ensures Settled(d, w, k, Run(d, before), 11, i) && Run(d, before).notifs[11].rows[i].status == Sent
    ensures 11 in Run(d, before + after).notifs
    ensures Run(d, before + after).notifs[11].rows
      == SetStatus(Run(d, before).notifs[11].rows, StepsOf(d, w)[k].kind, Skipped)
    ensures DistinctRows(Run(d, before).notifs[11].rows)
    ensures !SameRow(Run(d, before), Run(d, before + after), 11, i)
  {
    hide Do, OwnsChannel, PendingRows, ExposedAt;
    var s := ExposedDeliversTwice(d, w, k);
    var channel, rows := StepsOf(d, w)[k].kind, PendingRows(StepsOf(d, w));
    var actions :| Run(d, actions) == s;
    var a, b := Act(4, 9, Settle(Sent, true)), Act(5, 9, Settle(Skipped, true));
    OneMoreAction(d, actions, a);
    SettleOne(d, s, 4, 9, Sent);
    var t := Do(d, s, a);
    SettleOne(d, t, 5, 9, Skipped);
    before, after := actions + [a], [b];
    OneMoreAction(d, before, b);
    i := SentThenSkipped(d, w, k);
  }

  lemma SettleOne(d: Definitions, s: State, h: Handle, f: Handle, status: Status)
    requires h in s.pool && f !in s.pool && s.pool[h].DeliveryTask? && s.pool[h].notif in s.notifs
    requires status.Sent? || status.Skipped?
    ensures var it, t := s.pool[h], Do(d, s, Act(h, f, Settle(status, true)));
      t.pool == s.pool - {h}
      && t.notifs
           == s.notifs[it.notif := s.notifs[it.notif].(rows := SetStatus(s.notifs[it.notif].rows, it.channel, status))]
  {
  }

  /** The row of step k after one delivery of it settled, and after a second one did. */
  lemma SentThenSkipped(d: Definitions, w: WfId, k: nat) returns (i: nat)
    requires OwnsChannel(d, w, k)
    ensures var rows, channel := PendingRows(StepsOf(d, w)), StepsOf(d, w)[k].kind;
      var sent := SetStatus(rows, channel, Sent);
      && DistinctRows(sent) && i < |sent| && sent[i] == Row(channel, Sent)
      && SetStatus(sent, channel, Skipped)[i] == Row(channel, Skipped)
  {
    var rows, channel := PendingRows(StepsOf(d, w)), StepsOf(d, w)[k].kind;
    DistinctChannelsGiveDistinctRows(StepsOf(d, w));
    assert Row(channel, Pending) in rows;
    i :| 0 <= i < |rows| && rows[i] == Row(channel, Pending);
    SetStatusExact(rows, channel, Sent);
    SetStatusExact(SetStatus(rows, channel, Sent), channel, Skipped);
  }

  // ---------------------------------------------------------------------------------
  // The exact conditions
  // ---------------------------------------------------------------------------------

  /** A step of a workflow is delivered at most once per notification, over all runs and
      whatever fails, if and only if it is not exposed. */
  lemma DeliversOnceIffUnexposed(defs: Definitions, w: WfId, k: nat)
    ensures (forall actions :: DeliversOnce(Run(defs, actions), w, k)) <==> !ExposedAt(defs, w, k)
  {
    hide ExposedAt;
    if ExposedAt(defs, w, k) {
      var s := ExposedDeliversTwice(defs, w, k);
      var actions :| Run(defs, actions) == s;
      assert s.enqueued[0] == s.enqueued[1];
      assert !DeliversOnce(Run(defs, actions), w, k);
    } else {
      forall actions ensures DeliversOnce(Run(defs, actions), w, k) {
        UnexposedDeliversOnce(defs, w, k, actions);
      }
    }
  }

  /** No step at all is delivered twice if and only if none is exposed. */
  lemma AtMostOnceIffNothingExposed(defs: Definitions)
    ensures (forall actions :: NoRepeats(Run(defs, actions).enqueued)) <==>
      forall w: WfId, k: nat :: !ExposedAt(defs, w, k)
  {
    hide ExposedAt;
    if w: WfId, k: nat :| ExposedAt(defs, w, k) {
      var s := ExposedDeliversTwice(defs, w, k);
      var actions :| Run(defs, actions) == s;
      assert s.enqueued[0] == s.enqueued[1];
      assert !NoRepeats(Run(defs, actions).enqueued);
    } else {
      forall actions ensures NoRepeats(Run(defs, actions).enqueued) {
        var s := Run(defs, actions);
        RunKeepsAlways(defs, actions);
        forall i, j | 0 <= i < j < |s.enqueued| ensures s.enqueued[i] != s.enqueued[j] {
          var (n, k) := s.enqueued[i];
          assert (n, k) in s.enqueued;
          UnexposedDeliversOnce(defs, s.born[n], k, actions);
          assert BornIn(s, n, s.born[n]);
        }
      }
    }
  }

  /** The row of a step is stable once settled, over all runs, if and only if the step is not
      exposed: otherwise a second delivery can overwrite "sent". */
  lemma RowSettlesIffUnexposed(defs: Definitions, w: WfId, k: nat)
    requires OwnsChannel(defs, w, k)
    ensures (forall before, after, n, i: nat | Settled(defs, w, k, Run(defs, before), n, i) ::
               SameRow(Run(defs, before), Run(defs, before + after), n, i))
      <==> !ExposedAt(defs, w, k)
  {
    hide ExposedAt, Settled, SameRow;
    if ExposedAt(defs, w, k) {
      var before, after, i := SecondOverwrites(defs, w, k);
      assert Settled(defs, w, k, Run(defs, before), 11, i)
          && !SameRow(Run(defs, before), Run(defs, before + after), 11, i);
    } else {
      forall before, after, n, i: nat | Settled(defs, w, k, Run(defs, before), n, i)
        ensures SameRow(Run(defs, before), Run(defs, before + after), n, i)
      {
        UnexposedRowSettles(defs, w, k, before, after, n, i);
      }
    }
  }

  /** Notification n of workflow w has been delivered in-app. */
  ghost predicate InFeed(s: State, w: WfId, n: NotifId) {
    n in s.notifs && s.notifs[n].wf == w && DeliveredInApp(s.notifs[n].rows)
  }

  ghost predicate StaysInFeed(t: State, n: NotifId) {
    n in t.notifs ==> DeliveredInApp(t.notifs[n].rows)
  }

  /** Nothing is taken back out of the in-app feed, over all runs, if and only if no in-app
      step of the workflow is exposed. */
  lemma FeedIsStableIffUnexposed(defs: Definitions, w: WfId)
    requires DistinctChannels(StepsOf(defs, w))
    ensures (forall before, after, n | InFeed(Run(defs, before), w, n) :: StaysInFeed(Run(defs, before + after), n))
      <==> forall k :: 0 <= k < |StepsOf(defs, w)| && StepsOf(defs, w)[k].kind == "in_app" ==> !ExposedAt(defs, w, k)
  {
    hide ExposedAt, InFeed, StaysInFeed, DistinctChannels;
    var steps := StepsOf(defs, w);
    if k: nat :| k < |steps| && steps[k].kind == "in_app" && ExposedAt(defs, w, k) {
      var before, after, n := FeedCanLose(defs, w, k);
      assert InFeed(Run(defs, before), w, n) && !StaysInFeed(Run(defs, before + after), n);
    } else {
      forall before, after, n | InFeed(Run(defs, before), w, n) ensures StaysInFeed(Run(defs, before + after), n) {
        FeedKeeps(defs, w, before, after, n);
      }
    }
  }

  lemma FeedCanLose(defs: Definitions, w: WfId, k: nat) returns (before: seq<Action>, after: seq<Action>, n: NotifId)
    requires OwnsChannel(defs, w, k) && StepsOf(defs, w)[k].kind == "in_app" && ExposedAt(defs, w, k)
    ensures InFeed(Run(defs, before), w, n) && !StaysInFeed(Run(defs, before + after), n)
  {
    hide ExposedAt, OwnsChannel, Run;
    var i;
    before, after, i := SecondOverwrites(defs, w, k);
    n := 11;
    SetStatusExact(Run(defs, before).notifs[n].rows, "in_app", Skipped);
  }

  lemma FeedKeeps(defs: Definitions, w: WfId, before: seq<Action>, after: seq<Action>, n: NotifId)
    requires DistinctChannels(StepsOf(defs, w)) && InFeed(Run(defs, before), w, n)
    requires forall k :: 0 <= k < |StepsOf(defs, w)| && StepsOf(defs, w)[k].kind == "in_app" ==> !ExposedAt(defs, w, k)
    ensures StaysInFeed(Run(defs, before + after), n)
  {
    hide ExposedAt, Run;
    var s, t, steps := Run(defs, before), Run(defs, before + after), StepsOf(defs, w);
    RunKeepsAlways(defs, before);
    var rows := s.notifs[n].rows;
    var i :| 0 <= i < |rows| && rows[i].channel == "in_app" && (rows[i].status.Sent? || rows[i].status.Confirmed?);
    assert PendingRows(steps)[i] in PendingRows(steps);
    var k :| 0 <= k < |steps| && !IsControl(steps[k].kind) && steps[k].kind == "in_app";
    UnexposedRowSettles(defs, w, k, before, after, n, i);
    assert n in t.notifs ==> t.notifs[n].rows[i] == rows[i];
  }
}
