/** What every run of the dispatch machine keeps, whatever fails, is re-run or expires: which
    items fit their workflows, who may still lead to a notification, one trigger task per
    notification, the unique index, and what status rows look like. */
module DispatchAlways {
  import opened Common
  import opened Workflows
  import opened Dispatch
  import Engine

  predicate Collects(it: Item) { it.Call? || it.BroadcastRun? }

  /** Items that will drain, or are draining, a digest list. */
  predicate IsToken(it: Item) { it.Schedule? || it.DigestTask? || it.Drain? }

  /** The item carries the id of notification n. */
  predicate Mentions(it: Item, n: NotifId) {
    match it
    case Call(_, _, _, _, made) => n in made.Values
    case BroadcastTask(_, _, _) => false
    case BroadcastRun(_, _, _, _, made) => n in made.Values
    case TriggerTask(_, _, entries) => n in entries.Values
    case TriggerRun(_, _, entries) => n in entries.Values
    case StepRun(_, _, _, notif, _, _) => n == notif
    case DelayTask(_, notif, _) => n == notif
    case Schedule(_) => false
    case DigestTask(_) => false
    case Drain(_, ids) => n in ids
    case Drained(_, ids) => n in ids
    case Resume(_, notif, _) => n == notif
    case DeliveryTask(_, notif, _, _, _) => n == notif
  }

  ghost predicate InLists(lists: map<DigestKey, seq<NotifId>>, n: NotifId) {
    exists key :: key in lists && n in lists[key]
  }

  ghost predicate Injective(m: map<SubId, NotifId>) {
    forall a, b :: a in m && b in m && m[a] == m[b] ==> a == b
  }

  predicate BornIn(s: State, n: NotifId, wf: WfId) { n in s.born && s.born[n] == wf }

  ghost predicate AllBorn(s: State, ids: set<NotifId>, wf: WfId) {
    forall n :: n in ids ==> BornIn(s, n, wf)
  }

  ghost predicate ItemFits(defs: Definitions, s: State, it: Item) {
    match it
    case Call(_, wf, _, _, made) => Injective(made) && AllBorn(s, made.Values, wf)
    case BroadcastTask(_, _, _) => true
    case BroadcastRun(_, wf, _, _, made) => Injective(made) && AllBorn(s, made.Values, wf)
    case TriggerTask(_, wf, entries) => Injective(entries) && AllBorn(s, entries.Values, wf)
    case TriggerRun(_, wf, entries) => Injective(entries) && AllBorn(s, entries.Values, wf)
    case StepRun(_, wf, _, notif, plan, _) => BornIn(s, notif, wf) && IsPlan(StepsOf(defs, wf), plan)
    case DelayTask(wf, notif, _) => BornIn(s, notif, wf)
    case Schedule(key) => true
    case DigestTask(key) => true
    case Drain(key, ids) => forall n :: n in ids ==> BornIn(s, n, key.wf)
    case Drained(key, ids) => forall n :: n in ids ==> BornIn(s, n, key.wf)
    case Resume(wf, notif, _) => BornIn(s, notif, wf)
    case DeliveryTask(wf, notif, step, channel, attempt) =>
      var steps := StepsOf(defs, wf);
      && BornIn(s, notif, wf) && attempt <= MAX_RETRIES
      && step < |steps| && channel == steps[step].kind && !IsControl(channel)
  }

  ghost predicate ItemsFit(defs: Definitions, s: State) {
    && (forall h :: h in s.pool ==> ItemFits(defs, s, s.pool[h]))
    && (forall key, n :: key in s.lists && n in s.lists[key] ==> BornIn(s, n, key.wf))
    && (forall n :: n in s.notifs ==> BornIn(s, n, s.notifs[n].wf))
    && (forall n, k :: (n, k) in s.enqueued ==> n in s.born)
  }

  /** Nobody but item h knows of n yet. */
  ghost predicate Untold(s: State, h: Handle, n: NotifId) {
    && (forall g :: g in s.pool && g != h ==> !Mentions(s.pool[g], n))
    && !InLists(s.lists, n)
    && (forall i :: 0 <= i < |s.triggered| ==> n !in s.triggered[i].Values)
    && (forall k :: (n, k) !in s.enqueued)
  }

  /** A notification that is still being collected is known to its collector only. */
  ghost predicate CollectorsAlone(s: State) {
    forall h, n :: h in s.pool && Collects(s.pool[h]) && n in s.pool[h].made.Values ==> Untold(s, h, n)
  }

  /** No notification id is in two trigger tasks. */
  ghost predicate TriggersOk(s: State) {
    && (forall i :: 0 <= i < |s.triggered| ==> Injective(s.triggered[i]))
    && (forall i, n :: 0 <= i < |s.triggered| && n in s.triggered[i].Values ==> n in s.born)
    && (forall i, j, n :: 0 <= i < j < |s.triggered| && n in s.triggered[i].Values ==> n !in s.triggered[j].Values)
  }

  /** The unique index on environment, transaction and subscriber. */
  ghost predicate UniqueOk(s: State) {
    forall a, b :: a in s.notifs && b in s.notifs
      && s.notifs[a].env == s.notifs[b].env && s.notifs[a].tx == s.notifs[b].tx && s.notifs[a].sub == s.notifs[b].sub
      ==> a == b
  }

  ghost predicate RowsMatch(rows: seq<Row>, steps: seq<Step>) {
    && |rows| == |PendingRows(steps)|
    && forall i :: 0 <= i < |rows| ==> rows[i].channel == PendingRows(steps)[i].channel
  }

  ghost predicate RowsFit(defs: Definitions, s: State) {
    forall n :: n in s.notifs ==>
      RowsMatch(s.notifs[n].rows, StepsOf(defs, s.notifs[n].wf)) && LaterRowsPending(s.notifs[n].rows)
  }

  ghost predicate Always(defs: Definitions, s: State) {
    ItemsFit(defs, s) && CollectorsAlone(s) && TriggersOk(s) && UniqueOk(s) && RowsFit(defs, s)
  }

  // ---------------------------------------------------------------------------------
  // Items keep fitting
  // ---------------------------------------------------------------------------------

  lemma EvaluatesIsPlan(defs: Definitions, wf: WfId, plan: seq<Planned>)
    requires Evaluates(defs, wf, plan)
    ensures IsPlan(StepsOf(defs, wf), plan)
  {
    hide Engine.IsSkipped;
  }

  lemma UpdatedValues(m: map<SubId, NotifId>, a: SubId, id: NotifId, n: NotifId)
    requires n in m[a := id].Values
    ensures n in m.Values || n == id
  {
  }

  lemma RemainingValues(m: map<SubId, NotifId>, a: SubId, n: NotifId)
    requires a in m && Injective(m)
    ensures m[a] !in (m - {a}).Values
    ensures n in (m - {a}).Values ==> n in m.Values
  {
  }

  lemma FewerValues(m: map<SubId, NotifId>, a: SubId, n: NotifId)
    requires n in (m - {a}).Values
    ensures n in m.Values
  {
  }

  lemma BornGrows(defs: Definitions, s: State, it: Item, m: Move)
    ensures var t := React(defs, s, it, m).rest;
            forall n, wf :: BornIn(s, n, wf) ==> BornIn(t, n, wf)
  {
    hide Evaluates, PendingRows, SetStatus;
  }

  ghost predicate LeavesFit(defs: Definitions, e: Effect) {
    && (e.keep.Some? ==> ItemFits(defs, e.rest, e.keep.value))
    && (e.fork.Some? ==> ItemFits(defs, e.rest, e.fork.value))
  }

  lemma RequestLeavesFit(defs: Definitions, s: State, it: Item, m: Move)
    requires Collects(it) && ItemFits(defs, s, it)
    requires forall n :: n in it.made.Values ==> n in s.born
    ensures LeavesFit(defs, React(defs, s, it, m))
  {
    hide PendingRows, SetStatus, IsPlan;
    BornGrows(defs, s, it, m);
    if m.Insert? && it.todo != [] && m.id !in s.born {
      var made := it.made[it.todo[0] := m.id];
      forall n | n in made.Values ensures n in it.made.Values || n == m.id {
        UpdatedValues(it.made, it.todo[0], m.id, n);
      }
      forall a, b | a in made && b in made && made[a] == made[b] ensures a == b {
        if a in it.made { assert it.made[a] in it.made.Values; }
        if b in it.made { assert it.made[b] in it.made.Values; }
      }
    }
  }

  lemma TriggerLeavesFit(defs: Definitions, s: State, it: Item, m: Move)
    requires it.TriggerRun? && ItemFits(defs, s, it)
    ensures LeavesFit(defs, React(defs, s, it, m))
  {
    hide IsPlan, Evaluates;
    if (m.Entry? || m.SkipEntry?) && m.sub in it.entries {
      forall n | n in (it.entries - {m.sub}).Values ensures n in it.entries.Values {
        RemainingValues(it.entries, m.sub, n);
      }
      if m.Entry? && Evaluates(defs, it.wf, m.plan) {
        EvaluatesIsPlan(defs, it.wf, m.plan);
        assert BornIn(s, it.entries[m.sub], it.wf);
      }
    }
  }

  lemma PlanIndex(defs: Definitions, it: Item)
    requires it.StepRun? && IsPlan(StepsOf(defs, it.wf), it.plan) && it.pos < |it.plan|
    ensures it.plan[it.pos].index == it.pos < |StepsOf(defs, it.wf)|
      && it.plan[it.pos].step == StepsOf(defs, it.wf)[it.pos]
  {
  }

  lemma LoopLeavesFit(defs: Definitions, s: State, it: Item, m: Move)
    requires (it.StepRun? || it.Resume?) && ItemFits(defs, s, it)
    ensures LeavesFit(defs, React(defs, s, it, m))
  {
    hide PendingRows, SetStatus, IsPlan;
    if it.StepRun? && it.pos < |it.plan| { PlanIndex(defs, it); }
  }

  lemma ReactionLeavesFit(defs: Definitions, s: State, it: Item, m: Move)
    requires ItemsFit(defs, s) && ItemFits(defs, s, it)
    ensures LeavesFit(defs, React(defs, s, it, m))
  {
    hide PendingRows, SetStatus, IsPlan, Evaluates;
    if Collects(it) {
      forall n | n in it.made.Values ensures n in s.born { assert BornIn(s, n, it.wf); }
      RequestLeavesFit(defs, s, it, m);
    }
    else if it.TriggerRun? { TriggerLeavesFit(defs, s, it, m); }
    else if it.StepRun? || it.Resume? { LoopLeavesFit(defs, s, it, m); }
    else if it.DigestTask? && it.key in s.lists {
      forall n | n in s.lists[it.key] ensures BornIn(s, n, it.key.wf) { }
    }
  }

  lemma StaysFit(defs: Definitions, s: State, t: State, it: Item)
    requires ItemFits(defs, s, it) && forall n, wf :: BornIn(s, n, wf) ==> BornIn(t, n, wf)
    ensures ItemFits(defs, t, it)
  {
    hide BornIn, IsPlan;
  }

  lemma ListsStayBorn(defs: Definitions, s: State, it: Item, m: Move)
    requires ItemsFit(defs, s) && ItemFits(defs, s, it)
    ensures var t := React(defs, s, it, m).rest;
            forall key, n :: key in t.lists && n in t.lists[key] ==> BornIn(t, n, key.wf)
  {
    hide Evaluates, PendingRows, SetStatus, IsPlan;
    BornGrows(defs, s, it, m);
    var t := React(defs, s, it, m).rest;
    if !it.StepRun? && !it.Drain? { OtherListsStay(defs, s, it, m); }
    forall key, n | key in t.lists && n in t.lists[key] ensures BornIn(s, n, key.wf) {
      if n in ListAt(s.lists, key) { } else { assert it.StepRun?; }
    }
  }

  /** Only a push and a DEL touch the digest lists. */
  lemma OtherListsStay(defs: Definitions, s: State, it: Item, m: Move)
    requires !it.StepRun? && !it.Drain?
    ensures React(defs, s, it, m).rest.lists == s.lists
  {
    hide Evaluates, PendingRows, SetStatus;
  }

  lemma NotifsStayBorn(defs: Definitions, s: State, it: Item, m: Move)
    requires ItemsFit(defs, s)
    ensures var t := React(defs, s, it, m).rest;
            forall n :: n in t.notifs ==> BornIn(t, n, t.notifs[n].wf)
  {
    hide Evaluates, PendingRows, SetStatus, IsPlan, ItemFits, ListAt;
    BornGrows(defs, s, it, m);
    var t := React(defs, s, it, m).rest;
    forall n | n in t.notifs && n in s.notifs && s.notifs[n].wf == t.notifs[n].wf ensures BornIn(t, n, t.notifs[n].wf) {
      assert BornIn(s, n, s.notifs[n].wf);
    }
  }

  ghost function After(defs: Definitions, s: State, h: Handle, f: Handle, m: Move): State
    requires h in s.pool
  {
    var e := React(defs, s, s.pool[h], m);
    e.rest.(pool := Install(s.pool, h, f, e))
  }

  lemma ItemsAfter(defs: Definitions, s: State, h: Handle, f: Handle, m: Move)
    requires h in s.pool && f !in s.pool && ItemsFit(defs, s)
    ensures ItemsFit(defs, After(defs, s, h, f, m))
  {
    hide React, ItemFits, Mentions;
    var it := s.pool[h];
    var e := React(defs, s, it, m);
    var t := After(defs, s, h, f, m);
    BornGrows(defs, s, it, m);
    ReactionLeavesFit(defs, s, it, m);
    ListsStayBorn(defs, s, it, m);
    NotifsStayBorn(defs, s, it, m);
    forall g | g in t.pool ensures ItemFits(defs, t, t.pool[g]) {
      if g in s.pool && g != h && !(e.fork.Some? && g == f) {
        StaysFit(defs, s, t, s.pool[g]);
      } else {
        StaysFit(defs, e.rest, t, t.pool[g]);
      }
    }
    forall n, k | (n, k) in t.enqueued ensures n in t.born {
      ReactionTraces(defs, s, it, m, n);
      if Mentions(it, n) { MentionedAreBorn(defs, s, h, n); }
      if n in s.born { assert BornIn(s, n, s.born[n]); assert BornIn(e.rest, n, s.born[n]); }
    }
  }

  lemma MentionedAreBorn(defs: Definitions, s: State, h: Handle, n: NotifId)
    requires ItemsFit(defs, s) && h in s.pool && Mentions(s.pool[h], n)
    ensures n in s.born
  {
    var it := s.pool[h];
    assert ItemFits(defs, s, it);
    if it.Drain? || it.Drained? { assert BornIn(s, n, it.key.wf); } else { assert BornIn(s, n, it.wf); }
  }

  // ---------------------------------------------------------------------------------
  // Who knows of a notification
  // ---------------------------------------------------------------------------------

  /** An operation passes an id on from the item it works on or from the digest list the item
      reads, and starts deliveries only of the item's own notification. */
  ghost predicate Traces(s: State, it: Item, e: Effect, n: NotifId) {
    && (e.keep.Some? && Mentions(e.keep.value, n) ==>
          Mentions(it, n) || n !in s.born || (InLists(s.lists, n) && !Collects(e.keep.value)))
    && (e.fork.Some? && Mentions(e.fork.value, n) ==> Mentions(it, n))
    && (InLists(e.rest.lists, n) ==> InLists(s.lists, n) || (Mentions(it, n) && !Collects(it)))
    && (forall k :: (n, k) in e.rest.enqueued ==> (n, k) in s.enqueued || (Mentions(it, n) && !Collects(it)))
  }

  /** Ids enter a collection when they are issued, and leave it for one trigger task. */
  ghost predicate HandsOver(s: State, it: Item, e: Effect) {
    && (e.keep.Some? && Collects(e.keep.value) ==>
          forall n :: n in e.keep.value.made.Values ==> (Collects(it) && n in it.made.Values) || n !in s.born)
    && (e.fork.Some? ==> !Collects(e.fork.value))
    && (Collects(it) && e.fork.Some? && e.keep.Some? && Collects(e.keep.value) ==> e.keep.value.made == map[])
    && (|| e.rest.triggered == s.triggered
        || (&& Collects(it) && e.rest.triggered == s.triggered + [it.made]
            && (e.keep.Some? && Collects(e.keep.value) ==> e.keep.value.made == map[])))
    && (forall n :: n in s.born ==> n in e.rest.born)
  }

  lemma CollectorTraces(defs: Definitions, s: State, it: Item, m: Move, n: NotifId)
    requires Collects(it)
    ensures Traces(s, it, React(defs, s, it, m), n)
  {
    hide PendingRows, SetStatus, Taken;
    if m.Insert? && it.todo != [] && n in it.made[it.todo[0] := m.id].Values {
      UpdatedValues(it.made, it.todo[0], m.id, n);
    }
  }

  lemma TriggerTraces(defs: Definitions, s: State, it: Item, m: Move, n: NotifId)
    requires it.TriggerRun?
    ensures Traces(s, it, React(defs, s, it, m), n)
  {
    hide Evaluates, PendingRows, SetStatus;
    if (m.Entry? || m.SkipEntry?) && n in (it.entries - {m.sub}).Values { FewerValues(it.entries, m.sub, n); }
    if m.Entry? && m.sub in it.entries { assert it.entries[m.sub] in it.entries.Values; }
  }

  lemma StepTraces(defs: Definitions, s: State, it: Item, m: Move, n: NotifId)
    requires it.StepRun?
    ensures Traces(s, it, React(defs, s, it, m), n)
  {
    hide PendingRows, SetStatus, InLists;
    StepKeepsLists(defs, s, it, m, n);
  }

  lemma StepKeepsLists(defs: Definitions, s: State, it: Item, m: Move, n: NotifId)
    requires it.StepRun?
    ensures InLists(React(defs, s, it, m).rest.lists, n) ==> InLists(s.lists, n) || n == it.notif
  {
    hide PendingRows, SetStatus;
    var t := React(defs, s, it, m).rest;
    if InLists(t.lists, n) {
      var key :| key in t.lists && n in t.lists[key];
      if n in ListAt(s.lists, key) { assert key in s.lists; }
    }
  }

  lemma ReactionTraces(defs: Definitions, s: State, it: Item, m: Move, n: NotifId)
    ensures Traces(s, it, React(defs, s, it, m), n)
  {
    hide Evaluates, PendingRows, SetStatus, Taken;
    if Collects(it) { CollectorTraces(defs, s, it, m, n); }
    else if it.TriggerRun? { TriggerTraces(defs, s, it, m, n); }
    else if it.StepRun? { StepTraces(defs, s, it, m, n); }
    else if it.Drain? {
      var t := React(defs, s, it, m).rest;
      if InLists(t.lists, n) {
        var key :| key in t.lists && n in t.lists[key];
        assert key in s.lists && s.lists[key] == t.lists[key];
      }
    }
  }

  lemma CollectorHandsOver(defs: Definitions, s: State, it: Item, m: Move)
    requires Collects(it)
    ensures HandsOver(s, it, React(defs, s, it, m))
  {
    hide PendingRows, SetStatus, Taken;
    if m.Insert? && it.todo != [] {
      forall n | n in it.made[it.todo[0] := m.id].Values ensures n in it.made.Values || n == m.id {
        UpdatedValues(it.made, it.todo[0], m.id, n);
      }
    }
  }

  lemma ReactionHandsOver(defs: Definitions, s: State, it: Item, m: Move)
    ensures HandsOver(s, it, React(defs, s, it, m))
  {
    hide PendingRows, SetStatus, Evaluates, Taken;
    if Collects(it) {
      CollectorHandsOver(defs, s, it, m);
    }
  }

  ghost predicate BornFirst(s: State) {
    && (forall h, n :: h in s.pool && Mentions(s.pool[h], n) ==> n in s.born)
    && (forall n :: InLists(s.lists, n) ==> n in s.born)
    && (forall n, k :: (n, k) in s.enqueued ==> n in s.born)
    && (forall i, n :: 0 <= i < |s.triggered| && n in s.triggered[i].Values ==> n in s.born)
  }

  lemma FitIsBornFirst(defs: Definitions, s: State)
    requires ItemsFit(defs, s) && TriggersOk(s)
    ensures BornFirst(s)
  {
    hide ItemFits, Mentions;
    forall h, n | h in s.pool && Mentions(s.pool[h], n) ensures n in s.born { MentionedAreBorn(defs, s, h, n); }
    forall n | InLists(s.lists, n) ensures n in s.born {
      var key :| key in s.lists && n in s.lists[key];
      assert BornIn(s, n, key.wf);
    }
  }

  /** An id nobody has been told of before stays so, if the item that acts does not know it. */
  lemma UntoldByOther(s: State, h: Handle, f: Handle, e: Effect, a: Handle, n: NotifId)
    requires h in s.pool && f !in s.pool && a in s.pool && a != h && n in s.born && Untold(s, a, n)
    requires Traces(s, s.pool[h], e, n) && HandsOver(s, s.pool[h], e)
    ensures Untold(e.rest.(pool := Install(s.pool, h, f, e)), a, n)
  {
    hide Mentions;
    assert !Mentions(s.pool[h], n);
    assert Collects(s.pool[h]) ==> (Mentions(s.pool[h], n) <==> n in s.pool[h].made.Values) by {
      MadeIsMentioned(s.pool[h], n);
    }
  }

  lemma MadeIsMentioned(it: Item, n: NotifId)
    ensures Collects(it) ==> (Mentions(it, n) <==> n in it.made.Values)
  {
  }

  lemma UntoldByOwner(s: State, h: Handle, f: Handle, e: Effect, n: NotifId)
    requires h in s.pool && f !in s.pool && BornFirst(s) && CollectorsAlone(s)
    requires Traces(s, s.pool[h], e, n) && HandsOver(s, s.pool[h], e)
    requires e.keep.Some? && Collects(e.keep.value) && n in e.keep.value.made.Values
    ensures Untold(e.rest.(pool := Install(s.pool, h, f, e)), h, n)
  {
    hide Mentions;
    var it := s.pool[h];
    MadeIsMentioned(it, n);
    if Collects(it) && n in it.made.Values { assert Untold(s, h, n); }
  }

  lemma AloneAfter(s: State, h: Handle, f: Handle, e: Effect)
    requires h in s.pool && f !in s.pool && BornFirst(s) && CollectorsAlone(s)
    requires (forall n :: Traces(s, s.pool[h], e, n)) && HandsOver(s, s.pool[h], e)
    ensures CollectorsAlone(e.rest.(pool := Install(s.pool, h, f, e)))
  {
    hide Mentions, Traces, Untold;
    var t := e.rest.(pool := Install(s.pool, h, f, e));
    forall a, n | a in t.pool && Collects(t.pool[a]) && n in t.pool[a].made.Values ensures Untold(t, a, n) {
      assert Traces(s, s.pool[h], e, n);
      if a == h {
        UntoldByOwner(s, h, f, e, n);
      } else {
        assert Untold(s, a, n);
        MadeIsMentioned(s.pool[a], n);
        UntoldByOther(s, h, f, e, a, n);
      }
    }
  }

  lemma TriggersAfter(defs: Definitions, s: State, h: Handle, f: Handle, e: Effect)
    requires h in s.pool && ItemFits(defs, s, s.pool[h]) && BornFirst(s) && CollectorsAlone(s) && TriggersOk(s)
    requires HandsOver(s, s.pool[h], e)
    ensures TriggersOk(e.rest)
  {
    var it := s.pool[h];
    if Collects(it) {
      forall n | n in it.made.Values
        ensures n in s.born && forall i :: 0 <= i < |s.triggered| ==> n !in s.triggered[i].Values
      {
        assert Mentions(it, n) && Untold(s, h, n);
      }
    }
  }

  // ---------------------------------------------------------------------------------
  // The unique index and the status rows
  // ---------------------------------------------------------------------------------

  /** Notifications keep their key, and a new one has a key nobody has. */
  ghost predicate KeepsKeys(s: State, t: State) {
    forall n :: n in t.notifs ==>
      var x := t.notifs[n];
      if n in s.notifs then x.env == s.notifs[n].env && x.tx == s.notifs[n].tx && x.sub == s.notifs[n].sub
      else !Taken(s, x.env, x.tx, x.sub) && forall o :: o in t.notifs && o != n ==> o in s.notifs
  }

  lemma RequestKeepsKeys(defs: Definitions, s: State, it: Item, m: Move)
    requires Collects(it) && forall n :: n in s.notifs ==> n in s.born
    ensures KeepsKeys(s, React(defs, s, it, m).rest)
  {
    hide PendingRows, Taken;
  }

  lemma ReactionKeepsKeys(defs: Definitions, s: State, it: Item, m: Move)
    requires forall n :: n in s.notifs ==> n in s.born
    ensures KeepsKeys(s, React(defs, s, it, m).rest)
  {
    hide PendingRows, Taken, SetStatus, Evaluates, ListAt;
    if Collects(it) {
      RequestKeepsKeys(defs, s, it, m);
    }
  }

  lemma UniqueAfter(defs: Definitions, s: State, it: Item, m: Move)
    requires ItemsFit(defs, s) && UniqueOk(s)
    ensures UniqueOk(React(defs, s, it, m).rest)
  {
    hide React, ItemFits;
    forall n | n in s.notifs ensures n in s.born { assert BornIn(s, n, s.notifs[n].wf); }
    ReactionKeepsKeys(defs, s, it, m);
    forall b | b in s.notifs ensures Taken(s, s.notifs[b].env, s.notifs[b].tx, s.notifs[b].sub) { }
  }

  /** A notification changes only when it is created, or when a delivery of it ends. */
  ghost predicate Touches(defs: Definitions, s: State, it: Item, e: Effect, n: NotifId) {
    n in e.rest.notifs ==>
      var x := e.rest.notifs[n];
      || (n in s.notifs && x == s.notifs[n])
      || (n !in s.born && x.rows == PendingRows(StepsOf(defs, x.wf)))
      || (&& it.DeliveryTask? && n == it.notif && e.keep.None? && e.fork.None? && e.rest.lists == s.lists
          && n in s.notifs && exists st :: x == s.notifs[n].(rows := SetStatus(s.notifs[n].rows, it.channel, st)))
  }

  lemma ReactionTouches(defs: Definitions, s: State, it: Item, m: Move, n: NotifId)
    ensures Touches(defs, s, it, React(defs, s, it, m), n)
  {
    hide Evaluates, PendingRows, SetStatus, ListAt, Taken;
  }

  lemma OneRowsFit(defs: Definitions, s: State, it: Item, e: Effect, n: NotifId)
    requires RowsFit(defs, s) && Touches(defs, s, it, e, n) && n in e.rest.notifs
    ensures RowsMatch(e.rest.notifs[n].rows, StepsOf(defs, e.rest.notifs[n].wf))
      && LaterRowsPending(e.rest.notifs[n].rows)
  {
    var x := e.rest.notifs[n];
    if n in s.notifs && x == s.notifs[n] {
    } else if x.rows == PendingRows(StepsOf(defs, x.wf)) {
      forall j | 0 <= j < |x.rows| ensures x.rows[j].status == Pending { assert x.rows[j] in x.rows; }
    } else {
      var st :| x == s.notifs[n].(rows := SetStatus(s.notifs[n].rows, it.channel, st));
      WritesKeepLaterRowsPending(s.notifs[n].rows, it.channel, st);
    }
  }

  lemma RowsFitAfter(defs: Definitions, s: State, it: Item, e: Effect)
    requires RowsFit(defs, s) && forall n :: Touches(defs, s, it, e, n)
    ensures RowsFit(defs, e.rest)
  {
    hide Touches, RowsMatch, LaterRowsPending;
    forall n | n in e.rest.notifs
      ensures RowsMatch(e.rest.notifs[n].rows, StepsOf(defs, e.rest.notifs[n].wf))
        && LaterRowsPending(e.rest.notifs[n].rows)
    {
      assert Touches(defs, s, it, e, n);
      OneRowsFit(defs, s, it, e, n);
    }
  }

  // ---------------------------------------------------------------------------------
  // Every action
  // ---------------------------------------------------------------------------------

  lemma ActKeepsAlways(defs: Definitions, s: State, h: Handle, f: Handle, m: Move)
    requires Always(defs, s) && h in s.pool && f !in s.pool
    ensures Always(defs, After(defs, s, h, f, m))
  {
    hide React, ItemsFit, CollectorsAlone, TriggersOk, UniqueOk, RowsFit, Touches, Traces, HandsOver;
    var it := s.pool[h];
    var e := React(defs, s, it, m);
    var t := After(defs, s, h, f, m);
    FitIsBornFirst(defs, s);
    ItemsAfter(defs, s, h, f, m);
    forall n ensures Traces(s, it, e, n) { ReactionTraces(defs, s, it, m, n); }
    ReactionHandsOver(defs, s, it, m);
    AloneAfter(s, h, f, e);
    assert ItemFits(defs, s, it) by { OneFits(defs, s, h); }
    TriggersAfter(defs, s, h, f, e);
    UniqueAfter(defs, s, it, m);
    forall n ensures Touches(defs, s, it, e, n) { ReactionTouches(defs, s, it, m, n); }
    RowsFitAfter(defs, s, it, e);
    SameStore(defs, e.rest, t);
  }

  lemma OneFits(defs: Definitions, s: State, h: Handle)
    requires ItemsFit(defs, s) && h in s.pool
    ensures ItemFits(defs, s, s.pool[h])
  {
  }

  lemma SameStore(defs: Definitions, s: State, t: State)
    requires t == s.(pool := t.pool) && TriggersOk(s) && UniqueOk(s) && RowsFit(defs, s)
    ensures TriggersOk(t) && UniqueOk(t) && RowsFit(defs, t)
  {
  }

  /** Items and lists may go, notifications may expire, and only requests are new. */
  ghost predicate Lessens(s: State, t: State) {
    && t.born == s.born && t.triggered == s.triggered && t.enqueued == s.enqueued
    && (forall g :: g in t.pool ==> (g in s.pool && t.pool[g] == s.pool[g]) || IsRequest(t.pool[g]))
    && (forall key :: key in t.lists ==> key in s.lists && t.lists[key] == s.lists[key])
    && (forall n :: n in t.notifs ==> n in s.notifs && t.notifs[n] == s.notifs[n])
  }

  lemma OtherLessens(defs: Definitions, s: State, a: Action)
    requires !a.Act?
    ensures Lessens(s, Do(defs, s, a))
  {
  }

  lemma LessFits(defs: Definitions, s: State, t: State)
    requires ItemsFit(defs, s) && Lessens(s, t)
    ensures ItemsFit(defs, t)
  {
    hide IsPlan;
    forall g | g in t.pool ensures ItemFits(defs, t, t.pool[g]) {
      if g in s.pool && t.pool[g] == s.pool[g] {
        StaysFit(defs, s, t, s.pool[g]);
      }
    }
    forall key, n | key in t.lists && n in t.lists[key] ensures BornIn(t, n, key.wf) { assert BornIn(s, n, key.wf); }
    forall n | n in t.notifs ensures BornIn(t, n, t.notifs[n].wf) { assert BornIn(s, n, s.notifs[n].wf); }
  }

  lemma LessAlone(s: State, t: State)
    requires CollectorsAlone(s) && Lessens(s, t)
    ensures CollectorsAlone(t)
  {
    hide Mentions;
    forall g, n | g in t.pool && IsRequest(t.pool[g]) ensures !Mentions(t.pool[g], n) {
      RequestMentionsNothing(t.pool[g], n);
    }
    forall h, n | h in t.pool && Collects(t.pool[h]) && n in t.pool[h].made.Values ensures Untold(t, h, n) {
      MadeIsMentioned(t.pool[h], n);
      assert h in s.pool && t.pool[h] == s.pool[h];
      assert Untold(s, h, n);
    }
  }

  /** The other actions: an item without ids arrives, an item, a notification or a list goes. */
  lemma OtherKeepsAlways(defs: Definitions, s: State, a: Action)
    requires Always(defs, s) && !a.Act?
    ensures Always(defs, Do(defs, s, a))
  {
    hide Do, ItemsFit, CollectorsAlone, LaterRowsPending, RowsMatch;
    var t := Do(defs, s, a);
    OtherLessens(defs, s, a);
    LessFits(defs, s, t);
    LessAlone(s, t);
  }

  lemma RequestMentionsNothing(item: Item, n: NotifId)
    requires IsRequest(item)
    ensures !Mentions(item, n)
  {
  }

  lemma StepKeepsAlways(defs: Definitions, s: State, a: Action)
    requires Always(defs, s)
    ensures Always(defs, Do(defs, s, a))
  {
    hide Always;
    if a.Act? {
      if a.h in s.pool && a.slot !in s.pool { ActKeepsAlways(defs, s, a.h, a.slot, a.move); }
    } else {
      OtherKeepsAlways(defs, s, a);
    }
  }

  lemma {:induction false} RunKeepsAlways(defs: Definitions, actions: seq<Action>)
    ensures Always(defs, Run(defs, actions))
  {
    hide Do;
    if actions != [] {
      var n := |actions| - 1;
      RunKeepsAlways(defs, actions[..n]);
      StepKeepsAlways(defs, Run(defs, actions[..n]), actions[n]);
    }
  }

  // ---------------------------------------------------------------------------------
  // Theorems over every run
  // ---------------------------------------------------------------------------------

  /** No notification id is in two trigger tasks, no subscriber has two ids in one, and no
      (environment, transaction, subscriber) has two stored notifications. */
  lemma TriggeredOnce(defs: Definitions, actions: seq<Action>)
    ensures var s := Run(defs, actions);
            && (forall i, j, n :: 0 <= i < j < |s.triggered| && n in s.triggered[i].Values ==>
                n !in s.triggered[j].Values)
            && (forall i :: 0 <= i < |s.triggered| ==> Injective(s.triggered[i]))
            && UniqueOk(s)
  {
    RunKeepsAlways(defs, actions);
  }

  /** Every delivery task is for a channel step of its workflow, within the retry bound, and
      its notification, while retained, has a status row for the channel. */
  lemma DeliveriesHaveRows(defs: Definitions, actions: seq<Action>, h: Handle)
    requires h in Run(defs, actions).pool && Run(defs, actions).pool[h].DeliveryTask?
    ensures var s := Run(defs, actions);
            var d := s.pool[h];
            var steps := StepsOf(defs, d.wf);
            && d.step < |steps| && steps[d.step].kind == d.channel && !IsControl(d.channel) && d.attempt <= MAX_RETRIES
            && (d.notif in s.notifs ==> exists r :: r in s.notifs[d.notif].rows && r.channel == d.channel)
  {
    RunKeepsAlways(defs, actions);
    var s := Run(defs, actions);
    var d := s.pool[h];
    assert ItemFits(defs, s, d);
    if d.notif in s.notifs {
      assert BornIn(s, d.notif, s.notifs[d.notif].wf);
      RowOfStep(defs, s.notifs[d.notif], d.step);
    }
  }

  /** Every channel step has a row. */
  lemma RowOfStep(defs: Definitions, x: Notification, k: nat)
    requires var steps := StepsOf(defs, x.wf); k < |steps| && !IsControl(steps[k].kind) && RowsMatch(x.rows, steps)
    ensures exists r :: r in x.rows && r.channel == StepsOf(defs, x.wf)[k].kind
  {
    var channel, pending := StepsOf(defs, x.wf)[k].kind, PendingRows(StepsOf(defs, x.wf));
    assert Row(channel, Pending) in pending;
    var i :| 0 <= i < |pending| && pending[i] == Row(channel, Pending);
    assert x.rows[i] in x.rows;
  }

  /** In every run, a row with an earlier row of its channel is pending: nothing ever settles
      the later rows of a repeated channel. */
  lemma RepeatedRowsStayPending(defs: Definitions, actions: seq<Action>, n: NotifId, i: nat, j: nat)
    requires n in Run(defs, actions).notifs
    requires var rows := Run(defs, actions).notifs[n].rows; i < j < |rows| && rows[i].channel == rows[j].channel
    ensures Run(defs, actions).notifs[n].rows[j].status == Pending
  {
    RunKeepsAlways(defs, actions);
  }

  /** A notification id is never stored again once it is gone, and keeps its workflow. */
  lemma NoRebirth(defs: Definitions, s: State, a: Action, n: NotifId)
    requires n in s.born
    ensures n in Do(defs, s, a).born && Do(defs, s, a).born[n] == s.born[n]
    ensures n in Do(defs, s, a).notifs ==> n in s.notifs
  {
    if a.Act? && a.h in s.pool && a.slot !in s.pool {
      ReactionTouches(defs, s, s.pool[a.h], a.move, n);
      BornGrows(defs, s, s.pool[a.h], a.move);
      assert BornIn(s, n, s.born[n]);
      assert BornIn(React(defs, s, s.pool[a.h], a.move).rest, n, s.born[n]);
    }
  }

  lemma {:induction false} StaysBorn(defs: Definitions, before: seq<Action>, after: seq<Action>, n: NotifId)
    requires n in Run(defs, before).born
    ensures n in Run(defs, before + after).born && Run(defs, before + after).born[n] == Run(defs, before).born[n]
    ensures n in Run(defs, before + after).notifs ==> n in Run(defs, before).notifs
  {
    hide Do;
    if after == [] {
      assert before + after == before;
    } else {
      var m := |after| - 1;
      assert (before + after)[..|before + after| - 1] == before + after[..m];
      StaysBorn(defs, before, after[..m], n);
      NoRebirth(defs, Run(defs, before + after[..m]), after[m], n);
    }
  }

  /** An issued id that no item carries and no digest list holds. */
  ghost predicate Abandoned(s: State, n: NotifId) {
    n in s.born && !InLists(s.lists, n) && forall h :: h in s.pool ==> !Mentions(s.pool[h], n)
  }

  lemma StaysAbandoned(defs: Definitions, s: State, a: Action, n: NotifId)
    requires Abandoned(s, n)
    ensures Abandoned(Do(defs, s, a), n)
    ensures forall k :: (n, k) in Do(defs, s, a).enqueued ==> (n, k) in s.enqueued
  {
    hide React, Mentions;
    NoRebirth(defs, s, a, n);
    if a.Act? {
      if a.h in s.pool && a.slot !in s.pool { ReactionTraces(defs, s, s.pool[a.h], a.move, n); }
    } else if a.Arrive? && IsRequest(a.item) {
      RequestMentionsNothing(a.item, n);
    }
  }

  /** A notification nobody holds is never delivered again, in any continuation of any run. */
  lemma {:induction false} AbandonedStaysUndelivered(defs: Definitions, before: seq<Action>, after: seq<Action>,
                                                     n: NotifId)
    requires Abandoned(Run(defs, before), n)
    ensures Abandoned(Run(defs, before + after), n)
    ensures forall k :: (n, k) in Run(defs, before + after).enqueued ==> (n, k) in Run(defs, before).enqueued
  {
    hide Do, Abandoned;
    if after == [] {
      assert before + after == before;
    } else {
      var m := |after| - 1;
      assert (before + after)[..|before + after| - 1] == before + after[..m];
      AbandonedStaysUndelivered(defs, before, after[..m], n);
      StaysAbandoned(defs, Run(defs, before + after[..m]), after[m], n);
    }
  }

  /** Item h, which was still collecting n, has ended without handing it over. */
  ghost predicate GivesUp(defs: Definitions, s: State, a: Action, n: NotifId) {
    && a.Act? && a.h in s.pool && a.slot !in s.pool
    && Collects(s.pool[a.h]) && n in s.pool[a.h].made.Values
    && var e := React(defs, s, s.pool[a.h], a.move);
       (e.keep.Some? ==> !Mentions(e.keep.value, n)) && e.rest.triggered == s.triggered
  }

  /** The orphans of a trigger request that meets a duplicate or an error, and those of a
      broadcast page whose enqueue fails, are never delivered, whatever runs later. */
  lemma OrphansStayUndelivered(defs: Definitions, before: seq<Action>, a: Action, after: seq<Action>, n: NotifId,
                               k: nat)
    requires GivesUp(defs, Run(defs, before), a, n)
    ensures (n, k) !in Run(defs, before + [a] + after).enqueued
  {
    var s := Run(defs, before);
    RunKeepsAlways(defs, before);
    assert Untold(s, a.h, n);
    ReactionTraces(defs, s, s.pool[a.h], a.move, n);
    MentionedAreBorn(defs, s, a.h, n);
    NoRebirth(defs, s, a, n);
    NoHandOver(defs, s, s.pool[a.h], a.move);
    assert (before + [a])[..|before|] == before;
    assert Run(defs, before + [a]) == Do(defs, s, a);
    assert Abandoned(Run(defs, before + [a]), n);
    AbandonedStaysUndelivered(defs, before + [a], after, n);
  }

  /** A collector that triggers nothing forks nothing. */
  lemma NoHandOver(defs: Definitions, s: State, it: Item, m: Move)
    requires Collects(it) && React(defs, s, it, m).rest.triggered == s.triggered
    ensures React(defs, s, it, m).fork.None?
  {
  }
}
