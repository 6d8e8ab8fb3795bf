/** The trigger, delay and digest handlers as they run: loops that enqueue tasks and push
    onto digest lists, against the accounts of them the dispatch machine is built on. */
module Handlers {
  import opened Common
  import opened Workflows
  import opened Dispatch

  /** The accepted ones among the requested enqueues. */
  function Accepted(requested: seq<Item>, outcomes: seq<bool>): seq<Item>
    requires |requested| == |outcomes|
  {
    if requested == [] then []
    else
      var n := |requested| - 1;
      Accepted(requested[..n], outcomes[..n]) + if outcomes[n] then [requested[n]] else []
  }

  /** The task queue client. An enqueue may fail at any time. */
  class Queue {
    var tasks: seq<Item>
    ghost var requested: seq<Item>
    ghost var outcomes: seq<bool>

    ghost predicate Valid()
      reads this
    {
      |requested| == |outcomes| && tasks == Accepted(requested, outcomes)
    }

    constructor ()
      ensures Valid() && tasks == [] && requested == []
    {
      tasks, requested, outcomes := [], [], [];
    }

    method Enqueue(task: Item) returns (ok: bool)
      requires Valid()
      modifies this
      ensures Valid() && requested == old(requested) + [task] && outcomes == old(outcomes) + [ok]
      ensures tasks == if ok then old(tasks) + [task] else old(tasks)
    {
      ok := *;
      if ok {
        tasks := tasks + [task];
      }
      assert (requested + [task])[..|requested|] == requested && (outcomes + [ok])[..|outcomes|] == outcomes;
      requested, outcomes := requested + [task], outcomes + [ok];
    }
  }

  /** The digest lists. Operations on the keys in `broken` fail. */
  class Lists {
    var at: map<DigestKey, seq<NotifId>>
    const broken: set<DigestKey>

    constructor (broken: set<DigestKey>)
      ensures at == map[] && this.broken == broken
    {
      at := map[];
      this.broken := broken;
    }

    method RPush(key: DigestKey, id: NotifId) returns (length: Option<nat>)
      modifies this
      ensures key in broken ==> length == None && at == old(at)
      ensures key !in broken ==> at == old(at)[key := ListAt(old(at), key) + [id]] && length == Some(|at[key]|)
    {
      if key in broken {
        return None;
      }
      at := at[key := ListAt(at, key) + [id]];
      return Some(|at[key]|);
    }

    method LRange(key: DigestKey) returns (ids: Option<seq<NotifId>>)
      ensures ids == if key in broken then None else Some(ListAt(at, key))
    {
      return if key in broken then None else Some(ListAt(at, key));
    }

    method Del(key: DigestKey)
      modifies this
      ensures at == if key in broken then old(at) else old(at) - {key}
    {
      if key !in broken {
        at := at - {key};
      }
    }
  }

  /** One subscriber's part of a trigger task. */
  datatype Recipient = Recipient(env: EnvId, wf: WfId, sub: SubId, notif: NotifId)

  function DeliveryOf(steps: seq<Step>, wf: WfId, notif: NotifId, i: nat): Item
    requires i < |steps|
  {
    DeliveryTask(wf, notif, i, steps[i].kind, 0)
  }

  /** The attempt-0 deliveries of the given steps. */
  function Deliveries(steps: seq<Step>, wf: WfId, notif: NotifId, at: seq<nat>): (r: seq<Item>)
    requires Within(at, |steps|)
    ensures |r| == |at| && forall j :: 0 <= j < |r| ==> r[j] == DeliveryOf(steps, wf, notif, at[j])
  {
    seq(|at|, j requires 0 <= j < |at| => DeliveryOf(steps, wf, notif, at[j]))
  }

  predicate Within(at: seq<nat>, n: nat) { forall j :: 0 <= j < |at| ==> at[j] < n }

  lemma FirstDelivery(steps: seq<Step>, wf: WfId, notif: NotifId, i: nat, rest: seq<nat>)
    requires i < |steps| && Within(rest, |steps|)
    ensures Within([i] + rest, |steps|)
    ensures Deliveries(steps, wf, notif, [i] + rest)
         == [DeliveryOf(steps, wf, notif, i)] + Deliveries(steps, wf, notif, rest)
  {
  }

  lemma DirectWithin(steps: seq<Step>, plan: seq<Planned>, from: nat)
    requires IsPlan(steps, plan) && from <= |plan|
    ensures Within(Direct(plan, from), |steps|)
  {
    DirectExact(steps, plan, from);
    forall j | 0 <= j < |Direct(plan, from)| ensures Direct(plan, from)[j] < |steps| {
      assert Direct(plan, from)[j] in Direct(plan, from);
    }
  }

  lemma FollowingWithin(steps: seq<Step>, from: nat)
    ensures Within(Following(steps, from), |steps|)
  {
    if from <= |steps| {
      FollowingExact(steps, from);
    }
    forall j | 0 <= j < |Following(steps, from)| ensures Following(steps, from)[j] < |steps| {
      assert Following(steps, from)[j] in Following(steps, from);
    }
  }

  predicate DigestsAt(plan: seq<Planned>, c: nat) {
    c < |plan| && plan[c].step.kind == "digest" && plan[c].step.digest.Some?
  }

  function KeyAt(e: Recipient, plan: seq<Planned>, c: nat): DigestKey
    requires DigestsAt(plan, c)
  {
    DigestKey(e.env, e.wf, c, e.sub, plan[c].step.digest.value.key)
  }

  /** What the step loop leaves at the control step c it stops at: a delay task, the digest
      task of a list it is the first on, or nothing. */
  function ControlTasks(e: Recipient, plan: seq<Planned>, c: nat, at: map<DigestKey, seq<NotifId>>,
                        broken: set<DigestKey>): seq<Item> {
    if c >= |plan| then []
    else if plan[c].step.kind == "delay" then [DelayTask(e.wf, e.notif, c)]
    else if DigestsAt(plan, c) && KeyAt(e, plan, c) !in broken && ListAt(at, KeyAt(e, plan, c)) == [] then
      [DigestTask(KeyAt(e, plan, c))]
    else []
  }

  function ListsAfter(e: Recipient, plan: seq<Planned>, c: nat, at: map<DigestKey, seq<NotifId>>,
                      broken: set<DigestKey>): map<DigestKey, seq<NotifId>> {
    if DigestsAt(plan, c) && KeyAt(e, plan, c) !in broken then
      at[KeyAt(e, plan, c) := ListAt(at, KeyAt(e, plan, c)) + [e.notif]]
    else at
  }

  /** Everything the step loop requests for one entry from position i on: the deliveries of
      the direct steps, then what the control step it stops at leaves. */
  ghost function LoopTasks(e: Recipient, steps: seq<Step>, plan: seq<Planned>, i: nat, at: map<DigestKey, seq<NotifId>>,
                           broken: set<DigestKey>): seq<Item>
    requires IsPlan(steps, plan) && i <= |plan|
  {
    DirectWithin(steps, plan, i);
    Deliveries(steps, e.wf, e.notif, Direct(plan, i)) + ControlTasks(e, plan, StopAt(plan, i), at, broken)
  }

  /** The step c that takes over, if any: the first waiting one. */
  lemma FirstWaiting(plan: seq<Planned>) returns (c: nat)
    ensures c == StopAt(plan, 0)
    ensures if Waiting(plan) == {} then c == |plan| else c in Waiting(plan) && forall j :: j in Waiting(plan) ==> c <= j
  {
    c := StopAt(plan, 0);
    assert c < |plan| ==> c in Waiting(plan);
    hide StopAt;
  }

  /** The digest list a waiting step pushes onto, if it is a digest step. */
  function ListOf(e: Recipient, steps: seq<Step>, c: nat): Option<DigestKey> {
    if c < |steps| && steps[c].kind == "digest" && steps[c].digest.Some?
    then Some(DigestKey(e.env, e.wf, c, e.sub, steps[c].digest.value.key)) else None
  }

  /** With c the first waiting step, if any: one entry's loop requests the attempt-0 deliveries of
      the surviving channel steps before c, in order, and then, at a delay step, the delay task,
      and at a digest step, whose list gains the notification, the digest task if the list was
      empty. Nothing is scheduled for a push that fails. */
  lemma LoopRequests(e: Recipient, steps: seq<Step>, plan: seq<Planned>, at: map<DigestKey, seq<NotifId>>,
                     broken: set<DigestKey>)
    returns (c: nat, direct: seq<nat>)
    requires IsPlan(steps, plan)
    ensures if Waiting(plan) == {} then c == |plan| else c in Waiting(plan) && forall j :: j in Waiting(plan) ==> c <= j
    ensures Within(direct, |steps|) && Increasing(direct)
    ensures forall i :: i in direct <==>
      0 <= i < c && !plan[i].skipped && steps[i].kind != "delay" && steps[i].kind != "digest"
    ensures var key := ListOf(e, steps, c);
      && LoopTasks(e, steps, plan, 0, at, broken) ==
           seq(|direct|, j requires 0 <= j < |direct| =>
               DeliveryTask(e.wf, e.notif, direct[j], steps[direct[j]].kind, 0))
           + (if c < |plan| && steps[c].kind == "delay" then [DelayTask(e.wf, e.notif, c)]
              else if key.Some? && key.value !in broken && ListAt(at, key.value) == [] then [DigestTask(key.value)]
              else [])
      && ListsAfter(e, plan, StopAt(plan, 0), at, broken) ==
           if key.Some? && key.value !in broken then at[key.value := ListAt(at, key.value) + [e.notif]] else at
  {
    c := FirstWaiting(plan);
    direct := Direct(plan, 0);
    DirectExact(steps, plan, 0);
    DirectWithin(steps, plan, 0);
    ControlAt(e, steps, plan, c, at, broken);
    hide Increasing, Direct, StopAt, ListAt, ControlTasks, ListsAfter, ListOf, Waiting;
    assert Deliveries(steps, e.wf, e.notif, direct) ==
      seq(|direct|, j requires 0 <= j < |direct| => DeliveryTask(e.wf, e.notif, direct[j], steps[direct[j]].kind, 0));
  }

  lemma ControlAt(e: Recipient, steps: seq<Step>, plan: seq<Planned>, c: nat, at: map<DigestKey, seq<NotifId>>,
                  broken: set<DigestKey>)
    requires IsPlan(steps, plan) && c <= |plan|
    ensures var key := ListOf(e, steps, c);
      && ControlTasks(e, plan, c, at, broken) ==
           (if c < |plan| && steps[c].kind == "delay" then [DelayTask(e.wf, e.notif, c)]
            else if key.Some? && key.value !in broken && ListAt(at, key.value) == [] then [DigestTask(key.value)]
            else [])
      && ListsAfter(e, plan, c, at, broken) ==
           if key.Some? && key.value !in broken then at[key.value := ListAt(at, key.value) + [e.notif]] else at
  {
  }

  lemma LoopTasksUnfold(e: Recipient, steps: seq<Step>, plan: seq<Planned>, i: nat, at: map<DigestKey, seq<NotifId>>,
                        broken: set<DigestKey>)
    requires IsPlan(steps, plan) && i <= |plan|
    ensures i == |plan| ==> LoopTasks(e, steps, plan, i, at, broken) == []
    ensures i < |plan| && Arms(plan[i]) ==>
      LoopTasks(e, steps, plan, i, at, broken) == ControlTasks(e, plan, i, at, broken)
    ensures i < |plan| && Sends(plan[i]) ==>
      LoopTasks(e, steps, plan, i, at, broken)
          == [DeliveryOf(steps, e.wf, e.notif, i)] + LoopTasks(e, steps, plan, i + 1, at, broken)
    ensures i < |plan| && !Arms(plan[i]) && !Sends(plan[i]) ==>
      LoopTasks(e, steps, plan, i, at, broken) == LoopTasks(e, steps, plan, i + 1, at, broken)
  {
    if i < |plan| && !Arms(plan[i]) {
      DirectWithin(steps, plan, i + 1);
      if Sends(plan[i]) { FirstDelivery(steps, e.wf, e.notif, i, Direct(plan, i + 1)); }
      else { assert Direct(plan, i) == Direct(plan, i + 1); }
    }
  }

  method EnqueueDigest(q: Queue, r: Lists, e: Recipient, plan: seq<Planned>, c: nat) returns (ok: bool)
    requires q.Valid() && DigestsAt(plan, c)
    modifies q, r
    ensures q.Valid() && r.at == ListsAfter(e, plan, c, old(r.at), r.broken)
    ensures q.requested == old(q.requested) + ControlTasks(e, plan, c, old(r.at), r.broken)
    ensures var key := DigestKey(e.env, e.wf, c, e.sub, plan[c].step.digest.value.key);
      if key in r.broken then !ok && r.at == old(r.at) && q.requested == old(q.requested)
      else
        && r.at == old(r.at)[key := ListAt(old(r.at), key) + [e.notif]]
        && (if ListAt(old(r.at), key) == [] then
              q.requested == old(q.requested) + [DigestTask(key)] && q.outcomes == old(q.outcomes) + [ok]
            else ok && q.requested == old(q.requested) && q.outcomes == old(q.outcomes))
  {
    var key := KeyAt(e, plan, c);
    var length := r.RPush(key, e.notif);
    if length.None? {
      return false;
    }
    if length.value == 1 {
      ok := q.Enqueue(DigestTask(key));
      return;
    }
    return true;
  }

  method EnqueueDelay(q: Queue, e: Recipient, plan: seq<Planned>, c: nat, ghost r: Lists) returns (ok: bool)
    requires q.Valid() && c < |plan| && plan[c].step.kind == "delay"
    modifies q
    ensures q.Valid() && q.requested == old(q.requested) + ControlTasks(e, plan, c, r.at, r.broken)
    ensures q.requested == old(q.requested) + [DelayTask(e.wf, e.notif, c)] && q.outcomes == old(q.outcomes) + [ok]
  {
    ok := q.Enqueue(DelayTask(e.wf, e.notif, c));
  }

  /** The step loop: enqueue the surviving channel steps until a control step takes over
      the rest. A failed enqueue or push does not stop the loop from doing the rest. */
  method StepLoop(q: Queue, r: Lists, e: Recipient, steps: seq<Step>, plan: seq<Planned>)
    requires q.Valid() && IsPlan(steps, plan)
    modifies q, r
    ensures q.Valid() && q.requested == old(q.requested) + LoopTasks(e, steps, plan, 0, old(r.at), r.broken)
    ensures r.at == ListsAfter(e, plan, StopAt(plan, 0), old(r.at), r.broken)
  {
    hide Accepted, LoopTasks;
    var i := 0;
    while i < |plan|
      invariant 0 <= i <= |plan| && q.Valid() && r.at == old(r.at)
      invariant StopAt(plan, i) == StopAt(plan, 0)
      invariant q.requested + LoopTasks(e, steps, plan, i, r.at, r.broken)
             == old(q.requested) + LoopTasks(e, steps, plan, 0, r.at, r.broken)
    {
      var p := plan[i];
      LoopTasksUnfold(e, steps, plan, i, r.at, r.broken);
      if p.skipped {
        i := i + 1;
        continue;
      }
      match p.step.kind
      case "delay" =>
        if p.step.delay.None? {
          i := i + 1;
          continue;
        }
        var ok := EnqueueDelay(q, e, plan, p.index, r);
        return;
      case "digest" =>
        if p.step.digest.None? {
          i := i + 1;
          continue;
        }
        var ok := EnqueueDigest(q, r, e, plan, i);
        return;
      case _ =>
        var ok := q.Enqueue(DeliveryTask(e.wf, e.notif, p.index, p.step.kind, 0));
        i := i + 1;
    }
    LoopTasksUnfold(e, steps, plan, i, r.at, r.broken);
  }

  /** What the step loops of several entries request, one after the other. Entries are for
      different subscribers, so none of them sees another's pushes. */
  ghost function EntriesTasks(task: Item, order: seq<SubId>, steps: seq<Step>, plans: map<SubId, seq<Planned>>,
                              at: map<DigestKey, seq<NotifId>>, broken: set<DigestKey>): seq<Item>
    requires task.TriggerTask? && forall sub :: sub in order ==>
      sub in task.entries && sub in plans && IsPlan(steps, plans[sub])
  {
    if order == [] then []
    else
      var n := |order| - 1;
      EntriesTasks(task, order[..n], steps, plans, at, broken)
        + LoopTasks(EntryOf(task, order[n]), steps, plans[order[n]], 0, at, broken)
  }

  function EntryOf(task: Item, sub: SubId): Recipient
    requires task.TriggerTask? && sub in task.entries
  {
    Recipient(task.env, task.wf, sub, task.entries[sub])
  }

  lemma OwnListOnly(e: Recipient, steps: seq<Step>, plan: seq<Planned>, at: map<DigestKey, seq<NotifId>>,
                    now: map<DigestKey, seq<NotifId>>, broken: set<DigestKey>)
    requires IsPlan(steps, plan)
    requires forall key: DigestKey :: key.sub == e.sub ==> ListAt(now, key) == ListAt(at, key)
    ensures LoopTasks(e, steps, plan, 0, now, broken) == LoopTasks(e, steps, plan, 0, at, broken)
  {
  }

  lemma EntriesSnoc(task: Item, order: seq<SubId>, sub: SubId, steps: seq<Step>, plans: map<SubId, seq<Planned>>,
                    at: map<DigestKey, seq<NotifId>>, broken: set<DigestKey>)
    requires task.TriggerTask? && forall x :: x in order + [sub] ==>
      x in task.entries && x in plans && IsPlan(steps, plans[x])
    ensures forall x :: x in order ==> x in order + [sub]
    ensures sub in order + [sub]
    ensures EntriesTasks(task, order + [sub], steps, plans, at, broken)
      == EntriesTasks(task, order, steps, plans, at, broken)
          + LoopTasks(EntryOf(task, sub), steps, plans[sub], 0, at, broken)
  {
    hide LoopTasks, IsPlan;
    assert (order + [sub])[..|order|] == order && (order + [sub])[|order|] == sub;
  }

  /** The digest lists of the given subscribers are as they were. */
  ghost predicate Untouched(at: map<DigestKey, seq<NotifId>>, now: map<DigestKey, seq<NotifId>>, subs: set<SubId>) {
    forall key: DigestKey :: key.sub in subs ==> ListAt(now, key) == ListAt(at, key)
  }

  lemma OthersUntouched(e: Recipient, plan: seq<Planned>, at: map<DigestKey, seq<NotifId>>,
                        now: map<DigestKey, seq<NotifId>>,
                        broken: set<DigestKey>, subs: set<SubId>)
    requires Untouched(at, now, subs)
    ensures Untouched(at, ListsAfter(e, plan, StopAt(plan, 0), now, broken), subs - {e.sub})
  {
  }

  /** The trigger handler. It errs only before it enqueues anything; an entry whose lookups
      fail (no plan here) is passed over. */
  method ProcessTrigger(q: Queue, r: Lists, task: Item, steps: Option<seq<Step>>, active: bool,
                        plans: map<SubId, seq<Planned>>)
    returns (failed: bool, ghost order: seq<SubId>)
    requires q.Valid() && task.TriggerTask?
    requires steps.Some? ==> forall sub :: sub in plans ==> IsPlan(steps.value, plans[sub])
    modifies q, r
    ensures q.Valid() && failed == steps.None?
    ensures failed || !active ==> q.requested == old(q.requested) && r.at == old(r.at)
    ensures !failed && active ==>
      && NoRepeats(order)
      && (forall sub :: sub in order <==> sub in task.entries && sub in plans)
      && q.requested == old(q.requested) + EntriesTasks(task, order, steps.value, plans, old(r.at), r.broken)
  {
    hide Accepted, LoopTasks, IsPlan, EntriesTasks, Untouched, ListsAfter, NoRepeats;
    order := [];
    if steps.None? {
      return true, order;
    }
    failed := false;
    if !active {
      return;
    }
    var todo := task.entries.Keys;
    ghost var at := r.at;
    NothingYet(task, order, steps.value, plans, at, r.broken, todo);
    assert q.requested == old(q.requested) + [];
    while todo != {}
      invariant q.Valid() && todo <= task.entries.Keys && NoRepeats(order)
      invariant forall sub :: sub in order <==> sub in task.entries && sub in plans && sub !in todo
      invariant Untouched(at, r.at, todo)
      invariant q.requested == old(q.requested) + EntriesTasks(task, order, steps.value, plans, at, r.broken)
    {
      var sub :| sub in todo;
      LessUntouched(at, r.at, todo, sub);
      if sub in plans {
        EntriesSnoc(task, order, sub, steps.value, plans, at, r.broken);
        OwnListOnly(EntryOf(task, sub), steps.value, plans[sub], at, r.at, r.broken);
        OthersUntouched(EntryOf(task, sub), plans[sub], at, r.at, r.broken, todo);
        StepLoop(q, r, EntryOf(task, sub), steps.value, plans[sub]);
        OneMore(order, sub);
        order := order + [sub];
      }
      todo := todo - {sub};
    }
  }

  lemma NothingYet(task: Item, order: seq<SubId>, steps: seq<Step>, plans: map<SubId, seq<Planned>>,
                   at: map<DigestKey, seq<NotifId>>, broken: set<DigestKey>, todo: set<SubId>)
    requires task.TriggerTask? && order == []
    ensures EntriesTasks(task, order, steps, plans, at, broken) == [] && Untouched(at, at, todo) && NoRepeats(order)
  {
  }

  lemma LessUntouched(at: map<DigestKey, seq<NotifId>>, now: map<DigestKey, seq<NotifId>>, subs: set<SubId>, sub: SubId)
    requires Untouched(at, now, subs) && sub in subs
    ensures Untouched(at, now, subs - {sub}) && forall key: DigestKey :: key.sub == sub ==>
      ListAt(now, key) == ListAt(at, key)
  {
  }

  lemma OneMore(order: seq<SubId>, sub: SubId)
    requires NoRepeats(order) && sub !in order
    ensures NoRepeats(order + [sub]) && forall x :: x in order + [sub] <==> x in order || x == sub
  {
  }

  /** The deliveries of the steps after a control step; a stale index past the end of an
      edited workflow has none. */
  ghost function FollowingTasks(steps: seq<Step>, wf: WfId, notif: NotifId, c: nat): seq<Item>
  {
    FollowingWithin(steps, c + 1);
    Deliveries(steps, wf, notif, Following(steps, c + 1))
  }

  /** The loop both the delay and the digest handler resume a workflow with. */
  method EnqueueFollowingDeliveries(q: Queue, steps: seq<Step>, wf: WfId, notif: NotifId, fromIndex: nat)
    requires q.Valid()
    modifies q
    ensures q.Valid() && q.requested == old(q.requested) + FollowingTasks(steps, wf, notif, fromIndex)
  {
    hide Accepted, FollowingTasks;
    var i := fromIndex + 1;
    while i < |steps|
      invariant fromIndex < i && q.Valid()
      invariant q.requested + FollowingTasks(steps, wf, notif, i - 1)
        == old(q.requested) + FollowingTasks(steps, wf, notif, fromIndex)
    {
      FollowingTasksStep(steps, wf, notif, i);
      if IsControl(steps[i].kind) {
        break;
      }
      var ok := q.Enqueue(DeliveryTask(wf, notif, i, steps[i].kind, 0));
      i := i + 1;
    }
    FollowingTasksStep(steps, wf, notif, i);
    assert q.requested + [] == q.requested;
  }

  /** The steps after position i - 1 are step i and those after it, unless the loop ends. */
  lemma FollowingTasksStep(steps: seq<Step>, wf: WfId, notif: NotifId, i: nat)
    requires i > 0
    ensures FollowingTasks(steps, wf, notif, i - 1)
      == if i < |steps| && !IsControl(steps[i].kind)
          then [DeliveryTask(wf, notif, i, steps[i].kind, 0)] + FollowingTasks(steps, wf, notif, i)
         else []
  {
    FollowingWithin(steps, i + 1);
    if i < |steps| && !IsControl(steps[i].kind) { FirstDelivery(steps, wf, notif, i, Following(steps, i + 1)); }
  }

  /** The delay handler: it errs only before enqueueing anything. */
  method ProcessDelay(q: Queue, task: Item, steps: Option<seq<Step>>) returns (failed: bool)
    requires q.Valid() && task.DelayTask?
    modifies q
    ensures q.Valid() && failed == steps.None?
    ensures q.requested == old(q.requested) +
      if failed then [] else FollowingTasks(steps.value, task.wf, task.notif, task.step)
  {
    if steps.None? {
      return true;
    }
    EnqueueFollowingDeliveries(q, steps.value, task.wf, task.notif, task.step);
    return false;
  }

  /** The digest handler: the list is gone once it has been read, whether or not the
      workflow can then be loaded; the first id stands for the batch. */
  method ProcessDigest(q: Queue, r: Lists, key: DigestKey, steps: Option<seq<Step>>) returns (failed: bool)
    requires q.Valid()
    modifies q, r
    ensures q.Valid()
    ensures key in r.broken ==> failed && r.at == old(r.at) && q.requested == old(q.requested)
    ensures key !in r.broken ==>
      && r.at == old(r.at) - {key}
      && failed == (ListAt(old(r.at), key) != [] && steps.None?)
      && q.requested == old(q.requested) +
           if ListAt(old(r.at), key) == [] || steps.None? then []
           else FollowingTasks(steps.value, key.wf, ListAt(old(r.at), key)[0], key.step)
  {
    var ids := r.LRange(key);
    if ids.None? {
      return true;
    }
    r.Del(key);
    if ids.value == [] {
      return false;
    }
    if steps.None? {
      return true;
    }
    EnqueueFollowingDeliveries(q, steps.value, key.wf, ids.value[0], key.step);
    return false;
  }
}
