/** The dispatch pipeline as a state machine: trigger requests and broadcasts create
    notifications and hand them to trigger tasks; the trigger, delay and digest handlers
    turn those into delivery tasks; the delivery handler settles or retries them.

    A pool holds every queued task and every handler call in progress, each under a
    handle. One action performs one store, queue or list operation of one pool item, so a
    sequence of actions is an arbitrary interleaving of handlers. Failures, task re-runs
    and lost tasks are choices of the action; an action that does not apply does nothing. */
module Dispatch {
  import opened Common
  import opened Workflows
  import Engine

  type NotifId = nat
  type SubId = nat
  type EnvId = nat
  type WfId = nat
  type Handle = nat

  /** The workflows and the text formatting conditions compare with, unchanged while the
      machine runs. */
  datatype Definitions = Definitions(flows: map<WfId, seq<Step>>, text: Engine.Text)

  function StepsOf(defs: Definitions, wf: WfId): seq<Step> {
    if wf in defs.flows then defs.flows[wf] else []
  }

  /** A plan the workflow engine can arrive at in a running handler. */
  ghost predicate Evaluates(defs: Definitions, wf: WfId, plan: seq<Planned>) {
    exists scope :: Engine.AtRunTime(scope) && plan == Engine.Plan(defs.text, StepsOf(defs, wf), scope)
  }

  datatype Notification = Notification(env: EnvId, tx: string, sub: SubId, wf: WfId, rows: seq<Row>)

  /** A digest list is keyed per environment, workflow, step, subscriber and digest key. */
  datatype DigestKey = DigestKey(env: EnvId, wf: WfId, step: nat, sub: SubId, key: string)

  datatype Item =
    // A trigger request: recipients still to create, and those created so far.
    | Call(env: EnvId, wf: WfId, tx: string, todo: seq<SubId>, made: map<SubId, NotifId>)
    | BroadcastTask(env: EnvId, wf: WfId, tx: string)
    // A broadcast handler within one page of subscribers.
    | BroadcastRun(env: EnvId, wf: WfId, tx: string, todo: seq<SubId>, made: map<SubId, NotifId>)
    | TriggerTask(env: EnvId, wf: WfId, entries: map<SubId, NotifId>)
    // A trigger handler with the entries it has not reached yet.
    | TriggerRun(env: EnvId, wf: WfId, entries: map<SubId, NotifId>)
    // The step loop of one entry.
    | StepRun(env: EnvId, wf: WfId, sub: SubId, notif: NotifId, plan: seq<Planned>, pos: nat)
    | DelayTask(wf: WfId, notif: NotifId, step: nat)
    // A push that returned length 1: the digest task is still to be scheduled.
    | Schedule(key: DigestKey)
    | DigestTask(key: DigestKey)
    // A digest handler after LRANGE, and after DEL.
    | Drain(key: DigestKey, ids: seq<NotifId>)
    | Drained(key: DigestKey, ids: seq<NotifId>)
    // The loop over the steps after a control step.
    | Resume(wf: WfId, notif: NotifId, pos: nat)
    | DeliveryTask(wf: WfId, notif: NotifId, step: nat, channel: string, attempt: nat)

  datatype State = State(
    notifs: map<NotifId, Notification>,
    born: map<NotifId, WfId>,            // every id ever issued, with its workflow
    pool: map<Handle, Item>,
    lists: map<DigestKey, seq<NotifId>>,
    enqueued: seq<(NotifId, nat)>,       // history: (notification, step) of attempt-0 deliveries
    triggered: seq<map<SubId, NotifId>>) // history: the maps of enqueued trigger tasks

  const Empty: State := State(map[], map[], map[], map[], [], [])

  datatype Move =
    | Go                                     // the next operation succeeds
    | Fail                                   // the next operation returns an error
    | Insert(id: NotifId)                    // create a notification under a new id
    | Page(subs: seq<SubId>)                 // the next broadcast page
    | Entry(sub: SubId, plan: seq<Planned>)  // take up one entry of a trigger task
    | SkipEntry(sub: SubId)                  // an entry whose lookups fail
    | Settle(status: Status, written: bool)  // a delivery ends; the status write may be lost
    | Retry                                  // a send fails and is retried
    | LoseBatch                              // a digest handler fails after DEL and is re-run

  datatype Action =
    | Arrive(h: Handle, item: Item)          // a new request or broadcast
    | Act(h: Handle, slot: Handle, move: Move)
    | Discard(h: Handle)                     // a task is archived, or a handler returns
    | Expire(id: NotifId)                    // a notification's retention ends
    | Evict(key: DigestKey)                  // a digest list expires before it is drained

  function ListAt(lists: map<DigestKey, seq<NotifId>>, key: DigestKey): seq<NotifId> {
    if key in lists then lists[key] else []
  }

  ghost predicate Taken(s: State, env: EnvId, tx: string, sub: SubId) {
    exists n :: n in s.notifs && s.notifs[n].env == env && s.notifs[n].tx == tx && s.notifs[n].sub == sub
  }

  function Created(defs: Definitions, s: State, id: NotifId, env: EnvId, tx: string, sub: SubId, wf: WfId): State {
    s.(notifs := s.notifs[id := Notification(env, tx, sub, wf, PendingRows(StepsOf(defs, wf)))],
       born := s.born[id := wf])
  }

  function UpdateChannelStatus(s: State, id: NotifId, channel: string, status: Status): State {
    if id !in s.notifs then s
    else s.(notifs := s.notifs[id := s.notifs[id].(rows := SetStatus(s.notifs[id].rows, channel, status))])
  }

  /** What a pool item turns into: what takes its place, what it adds to the pool, and
      the rest of the state. */
  datatype Effect = Effect(keep: Option<Item>, fork: Option<Item>, rest: State)

  ghost function React(defs: Definitions, s: State, it: Item, m: Move): Effect {
    match it
    case Call(env, wf, tx, todo, made) => ReactCall(defs, s, it, m)
    case BroadcastTask(env, wf, tx) =>
      if m.Go? then Effect(Some(BroadcastRun(env, wf, tx, [], map[])), None, s) else Stay(s, it)
    case BroadcastRun(env, wf, tx, todo, made) => ReactBroadcast(defs, s, it, m)
    case TriggerTask(env, wf, entries) =>
      if m.Go? then Effect(Some(TriggerRun(env, wf, entries)), None, s) else Stay(s, it)
    case TriggerRun(env, wf, entries) =>
      if m.Entry? && m.sub in entries && Evaluates(defs, wf, m.plan) then
        Effect(Some(TriggerRun(env, wf, entries - {m.sub})),
               Some(StepRun(env, wf, m.sub, entries[m.sub], m.plan, 0)), s)
      else if m.SkipEntry? then Effect(Some(TriggerRun(env, wf, entries - {m.sub})), None, s)
      else Stay(s, it)
    case StepRun(env, wf, sub, notif, plan, pos) => ReactStep(s, it, m)
    case DelayTask(wf, notif, step) =>
      if m.Go? then Effect(Some(Resume(wf, notif, step + 1)), None, s) else Stay(s, it)
    case Schedule(key) =>
      if m.Go? then Effect(Some(DigestTask(key)), None, s) else Gone(s)
    case DigestTask(key) =>
      if m.Go? then Effect(Some(Drain(key, ListAt(s.lists, key))), None, s) else Stay(s, it)
    case Drain(key, ids) =>
      Effect(Some(Drained(key, ids)), None, if m.Go? then s.(lists := s.lists - {key}) else s)
    case Drained(key, ids) =>
      if m.LoseBatch? then Effect(Some(DigestTask(key)), None, s)
      else if ids != [] then Effect(Some(Resume(key.wf, ids[0], key.step + 1)), None, s)
      else Gone(s)
    case Resume(wf, notif, pos) => ReactResume(defs, s, it, m)
    case DeliveryTask(wf, notif, step, channel, attempt) =>
      if m.Settle? && Settles(channel, m.status) then
        Effect(None, None, if m.written then UpdateChannelStatus(s, notif, channel, m.status) else s)
      else if m.Retry? && attempt < MAX_RETRIES then
        Effect(Some(DeliveryTask(wf, notif, step, channel, attempt + 1)), None, s)
      else Stay(s, it)
  }

  /** The statuses the delivery handler writes; an in-app delivery never fails. */
  predicate Settles(channel: string, status: Status) {
    status.Sent? || status.Skipped? || (status.Failed? && channel != "in_app")
  }

  function Stay(s: State, it: Item): Effect { Effect(Some(it), None, s) }

  function Gone(s: State): Effect { Effect(None, None, s) }

  /** A trigger request gives up on the first duplicate or failed create; once every
      recipient is created it enqueues one trigger task. */
  ghost function ReactCall(defs: Definitions, s: State, it: Item, m: Move): Effect
    requires it.Call?
  {
    if m.Insert? && it.todo != [] then
      if Taken(s, it.env, it.tx, it.todo[0]) then Gone(s)
      else if m.id in s.born then Stay(s, it)
      else Effect(Some(Call(it.env, it.wf, it.tx, it.todo[1..], it.made[it.todo[0] := m.id])), None,
                  Created(defs, s, m.id, it.env, it.tx, it.todo[0], it.wf))
    else if m.Fail? then Gone(s)
    else if m.Go? && it.todo == [] then
      Effect(Some(TriggerTask(it.env, it.wf, it.made)), None, s.(triggered := s.triggered + [it.made]))
    else Stay(s, it)
  }

  /** A broadcast skips duplicates and failed creates, and enqueues one trigger task for
      the notifications each page created. A failure re-queues it from the start. */
  ghost function ReactBroadcast(defs: Definitions, s: State, it: Item, m: Move): Effect
    requires it.BroadcastRun?
  {
    var BroadcastRun(env, wf, tx, todo, made) := it;
    if m.Insert? && todo != [] then
      if Taken(s, env, tx, todo[0]) then Effect(Some(BroadcastRun(env, wf, tx, todo[1..], made)), None, s)
      else if m.id in s.born then Stay(s, it)
      else Effect(Some(BroadcastRun(env, wf, tx, todo[1..], made[todo[0] := m.id])), None,
                  Created(defs, s, m.id, env, tx, todo[0], wf))
    else if m.SkipEntry? && todo != [] then Effect(Some(BroadcastRun(env, wf, tx, todo[1..], made)), None, s)
    else if m.Fail? then Effect(Some(BroadcastTask(env, wf, tx)), None, s)
    else if m.Go? && todo == [] && made != map[] then
      Effect(Some(BroadcastRun(env, wf, tx, [], map[])), Some(TriggerTask(env, wf, made)),
             s.(triggered := s.triggered + [made]))
    else if m.Page? && todo == [] && made == map[] then
      if m.subs == [] then Gone(s) else Effect(Some(BroadcastRun(env, wf, tx, m.subs, map[])), None, s)
    else Stay(s, it)
  }

  /** The digest list the step a loop has reached pushes onto. */
  function PushKey(it: Item): DigestKey
    requires it.StepRun? && it.pos < |it.plan| && it.plan[it.pos].step.digest.Some?
  {
    var p := it.plan[it.pos];
    DigestKey(it.env, it.wf, p.index, it.sub, p.step.digest.value.key)
  }

  /** One iteration of the trigger handler's step loop. */
  function ReactStep(s: State, it: Item, m: Move): Effect
    requires it.StepRun?
  {
    if it.pos >= |it.plan| then Gone(s)
    else
      var p := it.plan[it.pos];
      var next := StepRun(it.env, it.wf, it.sub, it.notif, it.plan, it.pos + 1);
      if p.skipped then Effect(Some(next), None, s)
      else if p.step.kind == "delay" then
        if p.step.delay.None? then Effect(Some(next), None, s)
        else if m.Go? then Effect(Some(DelayTask(it.wf, it.notif, p.index)), None, s)
        else Gone(s)
      else if p.step.kind == "digest" then
        if p.step.digest.None? then Effect(Some(next), None, s)
        else if m.Go? then
          var key := PushKey(it);
          var pushed := s.(lists := s.lists[key := ListAt(s.lists, key) + [it.notif]]);
          if ListAt(s.lists, key) == [] then Effect(Some(Schedule(key)), None, pushed) else Gone(pushed)
        else Gone(s)
      else if m.Go? then
        Effect(Some(next), Some(DeliveryTask(it.wf, it.notif, p.index, p.step.kind, 0)),
               s.(enqueued := s.enqueued + [(it.notif, p.index)]))
      else Effect(Some(next), None, s)
  }

  /** One iteration of the loop that follows a control step. */
  function ReactResume(defs: Definitions, s: State, it: Item, m: Move): Effect
    requires it.Resume?
  {
    var steps := StepsOf(defs, it.wf);
    if it.pos >= |steps| || IsControl(steps[it.pos].kind) then Gone(s)
    else
      var next := Resume(it.wf, it.notif, it.pos + 1);
      if m.Go? then
        Effect(Some(next), Some(DeliveryTask(it.wf, it.notif, it.pos, steps[it.pos].kind, 0)),
               s.(enqueued := s.enqueued + [(it.notif, it.pos)]))
      else Effect(Some(next), None, s)
  }

  function Install(pool: map<Handle, Item>, h: Handle, f: Handle, e: Effect): map<Handle, Item> {
    var kept := if e.keep.Some? then pool[h := e.keep.value] else pool - {h};
    if e.fork.Some? then kept[f := e.fork.value] else kept
  }

  /** What can arrive: a trigger request nothing was created for yet, or a broadcast. */
  predicate IsRequest(item: Item) { (item.Call? && item.made == map[]) || item.BroadcastTask? }

  ghost function Do(defs: Definitions, s: State, a: Action): State {
    match a
    case Arrive(h, item) =>
      if h !in s.pool && IsRequest(item) then
        s.(pool := s.pool[h := item])
      else s
    case Act(h, f, m) =>
      if h in s.pool && f !in s.pool then
        var e := React(defs, s, s.pool[h], m);
        e.rest.(pool := Install(s.pool, h, f, e))
      else s
    case Discard(h) => s.(pool := s.pool - {h})
    case Expire(id) => s.(notifs := s.notifs - {id})
    case Evict(key) => s.(lists := s.lists - {key})
  }

  /** The state a sequence of actions leads to. */
  ghost function RunFrom(defs: Definitions, s: State, actions: seq<Action>): State {
    if actions == [] then s
    else Do(defs, RunFrom(defs, s, actions[..|actions| - 1]), actions[|actions| - 1])
  }

  /** The state after a whole run. */
  ghost function Run(defs: Definitions, actions: seq<Action>): State {
    RunFrom(defs, Empty, actions)
  }

  lemma {:induction false} RunFromConcat(defs: Definitions, s: State, p: seq<Action>, q: seq<Action>)
    ensures RunFrom(defs, s, p + q) == RunFrom(defs, RunFrom(defs, s, p), q)
  {
    if q == [] {
      assert p + q == p;
    } else {
      var n := |q| - 1;
      RunFromConcat(defs, s, p, q[..n]);
      assert (p + q)[..|p + q| - 1] == p + q[..n];
    }
  }
}
