/** The delivery handler's runs as actions of the dispatch machine. */
module DispatchDeliveries {
  import opened Common
  import opened Workflows
  import opened Dispatch
  import opened DispatchAlways
  import D = Deliveries
  import Channels
  import RateLimits

  /** The task of a queued delivery. */
  function TaskOf(it: Item, key: RateLimits.Key): D.Task
    requires it.DeliveryTask?
  {
    D.Task(key, it.notif, it.channel, it.step, it.attempt, false)
  }

  /** The stored rows, as the delivery handler sees them. */
  function RowsOf(s: State): map<NotifId, seq<Row>> {
    map n | n in s.notifs :: s.notifs[n].rows
  }

  /** The run finds the workflow the machine has for the item, if any. */
  ghost predicate Finds(defs: Definitions, it: Item, t: Channels.Table, w: D.World)
    requires it.DeliveryTask?
  {
    D.Fits(t, w) && (w.workflow.Some? ==> w.workflow.value.steps == StepsOf(defs, it.wf))
  }

  /** The action of a run with a given verdict; a run that errs leaves its task queued unless
      the queue archives it. */
  function ActionOf(h: Handle, f: Handle, v: D.Verdict, w: D.World, last: bool): Action {
    match v
    case Write(status) => Act(h, f, Settle(status, w.written))
    case Retry => if w.enqueues then Act(h, f, Move.Retry) else Discard(h)
    case Error(dead) => if dead || last then Discard(h) else Act(h, f, Go)
    case Delivered => Discard(h)
  }

  /** What the action leaves: the rows the handler's write leaves, the task of the next attempt
      in place of the item if one was queued, the item itself if it is run again, and nothing
      else changed. */
  ghost predicate Matches(s: State, t: State, h: Handle, v: D.Verdict, w: D.World, last: bool)
    requires h in s.pool && s.pool[h].DeliveryTask?
  {
    var it := s.pool[h];
    && RowsOf(t) == D.MarkedBy(RowsOf(s), it.notif, it.channel, v, w)
    && t == s.(notifs := t.notifs, pool := t.pool)
    && (forall n :: n in t.notifs ==> n in s.notifs && t.notifs[n] == s.notifs[n].(rows := t.notifs[n].rows))
    && t.pool ==
         if v.Retry? && w.enqueues then s.pool[h := it.(attempt := it.attempt + 1)]
         else if v == D.Error(false) && !last then s.pool
         else s.pool - {h}
  }

  /** Each run of the delivery handler on a queued item is an action of the machine, whatever
      the run meets. */
  lemma RunIsAction(defs: Definitions, s: State, h: Handle, f: Handle, t: Channels.Table, key: RateLimits.Key,
                    w: D.World, exceeded: bool, last: bool)
    requires h in s.pool && f !in s.pool && s.pool[h].DeliveryTask? && Finds(defs, s.pool[h], t, w)
    ensures var r := D.RunOf(D.POLICY, t, TaskOf(s.pool[h], key), w, exceeded);
      Matches(s, Do(defs, s, ActionOf(h, f, r.verdict, w, last)), h, r.verdict, w, last)
  {
    RunSettles(t, TaskOf(s.pool[h], key), w, exceeded);
    hide D.RunOf;
    VerdictIsAction(defs, s, h, f, D.RunOf(D.POLICY, t, TaskOf(s.pool[h], key), w, exceeded).verdict, w, last);
  }

  lemma RunSettles(t: Channels.Table, task: D.Task, w: D.World, exceeded: bool)
    requires D.Fits(t, w) && !task.transactional
    ensures var v := D.RunOf(D.POLICY, t, task, w, exceeded).verdict;
      && !v.Delivered? && (v.Write? ==> Settles(task.channel, v.status)) && (v.Retry? ==> task.attempt < MAX_RETRIES)
  {
    hide D.Enabled, D.Address;
  }

  lemma VerdictIsAction(defs: Definitions, s: State, h: Handle, f: Handle, v: D.Verdict, w: D.World, last: bool)
    requires h in s.pool && f !in s.pool && s.pool[h].DeliveryTask? && !v.Delivered?
    requires (v.Write? ==> Settles(s.pool[h].channel, v.status)) && (v.Retry? ==> s.pool[h].attempt < MAX_RETRIES)
    ensures Matches(s, Do(defs, s, ActionOf(h, f, v, w, last)), h, v, w, last)
  {
    hide SetStatus, ReactCall, ReactBroadcast, ReactStep, ReactResume;
    var it, u := s.pool[h], Do(defs, s, ActionOf(h, f, v, w, last));
    if v.Write? && w.written && it.notif in s.notifs {
      assert RowsOf(u) == RowsOf(s)[it.notif := SetStatus(s.notifs[it.notif].rows, it.channel, v.status)];
    }
  }

  /** Conversely, every status the machine lets a delivery end in is what some run writes. */
  lemma SettleIsRun(defs: Definitions, it: Item, t: Channels.Table, i: nat, key: RateLimits.Key, status: Status,
                    written: bool)
    returns (w: D.World, exceeded: bool)
    requires it.DeliveryTask? && it.step < |StepsOf(defs, it.wf)| && Settles(it.channel, status)
    requires Channels.TableOk(t) && i < |t| && t[i].name == it.channel
    ensures Finds(defs, it, t, w) && w.written == written
    ensures D.RunOf(D.POLICY, t, TaskOf(it, key), w, exceeded).verdict == D.Write(status)
  {
    var on := Channels.AllOn(|t|);
    w := D.World(Some(D.Contact("", "", "", "", "", ["token"], [])), true, Some(D.Workflow(StepsOf(defs, it.wf), on)),
                 Some(on), None, true, 0, if status.Failed? then D.Absent else D.Found(true),
                 Some(if status.Failed? then [] else ["fcm"]),
                 true, true, true, [true], [], true, true, written);
    exceeded := status.Skipped?;
    D.EnabledIs(t, TaskOf(it, key), w, i);
    if status.Sent? && it.channel == "push" {
      assert "fcm" in w.push.value && D.Accepted(w.fcmAccepts, 0);
    }
  }

  /** No queued delivery is ever dead-lettered as stale while its workflow is the one it was
      dispatched for: every run over its steps ends in a status, a retry, or a failure that is
      run again. */
  lemma QueuedIsLive(defs: Definitions, actions: seq<Action>, h: Handle, t: Channels.Table, key: RateLimits.Key,
                     w: D.World, exceeded: bool)
    requires var s := Run(defs, actions); h in s.pool && s.pool[h].DeliveryTask? && Finds(defs, s.pool[h], t, w)
    ensures D.RunOf(D.POLICY, t, TaskOf(Run(defs, actions).pool[h], key), w, exceeded).verdict != D.Error(true)
  {
    hide D.Enabled, Run, Always;
    RunKeepsAlways(defs, actions);
    var s := Run(defs, actions);
    QueuedFits(defs, s, h);
  }

  lemma QueuedFits(defs: Definitions, s: State, h: Handle)
    requires Always(defs, s) && h in s.pool && s.pool[h].DeliveryTask?
    ensures s.pool[h].step < |StepsOf(defs, s.pool[h].wf)|
  {
    hide CollectorsAlone, TriggersOk, UniqueOk, RowsFit;
    assert ItemFits(defs, s, s.pool[h]);
  }
}
