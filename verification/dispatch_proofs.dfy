/** What runs keep in which no digest handler fails its lookup after DEL and no digest list
    expires. The argument follows rights: each pool item holds the right to start the
    deliveries it may still lead to, an operation only ever passes on a part of the right it
    consumes, and a delivery uses its right up. */
module DispatchProofs {
  import opened Common
  import opened Workflows
  import opened Dispatch
  import opened DispatchAlways

  /** Item `it` may still start (or is itself) the delivery of step k of notification n. */
  predicate Claims(lists: map<DigestKey, seq<NotifId>>, it: Item, n: NotifId, k: nat) {
    match it
    case Call(_, _, _, _, made) => n in made.Values
    case BroadcastTask(_, _, _) => false
    case BroadcastRun(_, _, _, _, made) => n in made.Values
    case TriggerTask(_, _, entries) => n in entries.Values
    case TriggerRun(_, _, entries) => n in entries.Values
    case StepRun(_, _, _, notif, _, pos) => n == notif && k >= pos
    case DelayTask(_, notif, step) => n == notif && k > step
    case Schedule(key) => n in ListAt(lists, key) && k > key.step
    case DigestTask(key) => n in ListAt(lists, key) && k > key.step
    case Drain(key, ids) => ids != [] && n == ids[0] && k > key.step
    case Drained(key, ids) => ids != [] && n == ids[0] && k > key.step
    case Resume(_, notif, pos) => n == notif && k >= pos
    case DeliveryTask(_, notif, step, _, _) => n == notif && k == step
  }

  ghost predicate ItemOk(defs: Definitions, s: State, it: Item) {
    ItemFits(defs, s, it) && (IsToken(it) ==> ListAt(s.lists, it.key) != [])
  }

  /** Whoever is in charge of a digest list finds it non-empty. */
  ghost predicate ItemsOk(defs: Definitions, s: State) {
    ItemsFit(defs, s) && forall h :: h in s.pool ==> IsToken(s.pool[h]) ==> ListAt(s.lists, s.pool[h].key) != []
  }

  /** At most one item is in charge of each digest list. */
  ghost predicate TokensOk(s: State) {
    forall g, h :: g in s.pool && h in s.pool && g != h && IsToken(s.pool[g]) && IsToken(s.pool[h]) ==>
      s.pool[g].key != s.pool[h].key
  }

  /** No delivery can be started by two different items. */
  ghost predicate Exclusive(s: State) {
    forall g, h, n, k: nat :: g in s.pool && h in s.pool && g != h && Claims(s.lists, s.pool[g], n, k) ==>
      !Claims(s.lists, s.pool[h], n, k)
  }

  /** A delivery that was started is in the history once, and nothing upstream of the
      delivery task itself can start it again. */
  ghost predicate HistoryOk(s: State) {
    && NoRepeats(s.enqueued)
    && (forall n, k :: (n, k) in s.enqueued ==> n in s.born)
    && (forall h, n, k: nat :: h in s.pool && (n, k) in s.enqueued && Claims(s.lists, s.pool[h], n, k) ==>
          s.pool[h].DeliveryTask?)
    && (forall h :: h in s.pool && s.pool[h].DeliveryTask? ==> (s.pool[h].notif, s.pool[h].step) in s.enqueued)
  }

  ghost predicate PendingFor(rows: seq<Row>, channel: string) {
    forall r :: r in rows && r.channel == channel ==> r.status == Pending
  }

  /** In a workflow without repeated channels, a delivery that may still happen has a
      pending status row. */
  ghost predicate RowsOk(defs: Definitions, s: State) {
    forall h, n, k: nat :: h in s.pool && n in s.notifs && Claims(s.lists, s.pool[h], n, k) ==>
      var steps := StepsOf(defs, s.notifs[n].wf);
      DistinctChannels(steps) && k < |steps| && !IsControl(steps[k].kind) ==>
      PendingFor(s.notifs[n].rows, steps[k].kind)
  }

  ghost predicate Inv(defs: Definitions, s: State) {
    Always(defs, s) && ItemsOk(defs, s) && TokensOk(s) && Exclusive(s) && HistoryOk(s) && RowsOk(defs, s)
  }

  // ---------------------------------------------------------------------------------
  // What one reaction passes on
  // ---------------------------------------------------------------------------------

  /** The items an effect leaves claim only what the consumed item claimed, or a new id,
      and they share nothing. */
  ghost predicate PassesOn(s: State, it: Item, e: Effect, n: NotifId, k: nat) {
    && (e.keep.Some? && Claims(e.rest.lists, e.keep.value, n, k) ==> Claims(s.lists, it, n, k) || n !in s.born)
    && (e.fork.Some? && Claims(e.rest.lists, e.fork.value, n, k) ==> Claims(s.lists, it, n, k))
    && (e.keep.Some? && e.fork.Some? && Claims(e.rest.lists, e.keep.value, n, k) ==>
          !Claims(e.rest.lists, e.fork.value, n, k))
  }

  lemma RequestPassesOn(defs: Definitions, s: State, it: Item, m: Move, n: NotifId, k: nat)
    requires (it.Call? || it.BroadcastRun?) && ItemOk(defs, s, it)
    ensures PassesOn(s, it, React(defs, s, it, m), n, k)
  {
    if m.Insert? && it.todo != [] && n in it.made[it.todo[0] := m.id].Values {
      UpdatedValues(it.made, it.todo[0], m.id, n);
    }
  }

  lemma TriggerPassesOn(defs: Definitions, s: State, it: Item, m: Move, n: NotifId, k: nat)
    requires it.TriggerRun? && ItemOk(defs, s, it)
    ensures PassesOn(s, it, React(defs, s, it, m), n, k)
  {
    if m.Entry? && m.sub in it.entries { RemainingValues(it.entries, m.sub, n); }
    if m.SkipEntry? && m.sub in it.entries { RemainingValues(it.entries, m.sub, n); }
  }

  lemma StepPassesOn(defs: Definitions, s: State, it: Item, m: Move, n: NotifId, k: nat)
    requires it.StepRun? && ItemOk(defs, s, it)
    ensures PassesOn(s, it, React(defs, s, it, m), n, k)
  {
    if it.pos < |it.plan| {
      assert it.plan[it.pos].index == it.pos;
    }
  }

  predicate OnDigest(it: Item) { IsToken(it) || it.Drained? }

  lemma DigestPassesOn(defs: Definitions, s: State, it: Item, m: Move, n: NotifId, k: nat)
    requires OnDigest(it) && ItemOk(defs, s, it) && !m.LoseBatch?
    ensures PassesOn(s, it, React(defs, s, it, m), n, k)
  {
  }

  lemma ReactionPassesOn(defs: Definitions, s: State, it: Item, m: Move, n: NotifId, k: nat)
    requires ItemOk(defs, s, it) && !m.LoseBatch?
    ensures PassesOn(s, it, React(defs, s, it, m), n, k)
  {
    if it.Call? || it.BroadcastRun? { RequestPassesOn(defs, s, it, m, n, k); }
    else if it.TriggerRun? { TriggerPassesOn(defs, s, it, m, n, k); }
    else if it.StepRun? { StepPassesOn(defs, s, it, m, n, k); }
    else if OnDigest(it) { DigestPassesOn(defs, s, it, m, n, k); }
  }

  predicate PushesTo(it: Item, key: DigestKey) {
    it.StepRun? && it.pos < |it.plan| && it.plan[it.pos].step.digest.Some? && key == PushKey(it)
  }

  /** Another item gains a claim only from a push onto the list it is in charge of, and
      then nothing takes the consumed item's place. */
  ghost predicate OtherKeeps(s: State, it: Item, e: Effect, o: Item, n: NotifId, k: nat) {
    Claims(e.rest.lists, o, n, k) ==>
      || Claims(s.lists, o, n, k)
      || (IsToken(o) && PushesTo(it, o.key) && Claims(s.lists, it, n, k) && e.keep.None? && e.fork.None?)
  }

  lemma OthersKeep(defs: Definitions, s: State, it: Item, m: Move, o: Item, n: NotifId, k: nat)
    requires ItemOk(defs, s, it) && (o.Schedule? || o.DigestTask? ==> ListAt(s.lists, o.key) != [])
    ensures OtherKeeps(s, it, React(defs, s, it, m), o, n, k)
  {
    if it.StepRun? {
      if it.pos < |it.plan| { assert it.plan[it.pos].index == it.pos; }
    } else if !it.Drain? {
      OtherListsStay(defs, s, it, m);
    }
  }

  lemma ClaimsAreBorn(defs: Definitions, s: State, it: Item, n: NotifId, k: nat)
    requires ItemsOk(defs, s) && ItemOk(defs, s, it) && Claims(s.lists, it, n, k)
    ensures n in s.born
  {
    if it.Schedule? || it.DigestTask? { assert BornIn(s, n, it.key.wf); }
    else if it.Drain? || it.Drained? { assert BornIn(s, n, it.key.wf); }
    else if it.Call? || it.BroadcastRun? || it.TriggerTask? || it.TriggerRun? { assert BornIn(s, n, it.wf); }
  }

  // ---------------------------------------------------------------------------------
  // Each invariant over one reaction
  // ---------------------------------------------------------------------------------

  /** What every effect of a reaction satisfies, for every right. */
  ghost predicate Lawful(s: State, h: Handle, e: Effect)
    requires h in s.pool
  {
    && (forall n, k: nat :: PassesOn(s, s.pool[h], e, n, k))
    && (forall g, n, k: nat :: g in s.pool && g != h ==> OtherKeeps(s, s.pool[h], e, s.pool[g], n, k))
    && (forall g, n, k: nat :: g in s.pool && Claims(s.lists, s.pool[g], n, k) ==> n in s.born)
  }

  lemma ReactionIsLawful(defs: Definitions, s: State, h: Handle, m: Move)
    requires h in s.pool && ItemsOk(defs, s) && !m.LoseBatch?
    ensures Lawful(s, h, React(defs, s, s.pool[h], m))
  {
    var it := s.pool[h];
    var e := React(defs, s, it, m);
    forall n, k: nat ensures PassesOn(s, it, e, n, k) { ReactionPassesOn(defs, s, it, m, n, k); }
    forall g, n, k: nat | g in s.pool && g != h ensures OtherKeeps(s, it, e, s.pool[g], n, k) {
      assert ItemOk(defs, s, s.pool[g]);
      OthersKeep(defs, s, it, m, s.pool[g], n, k);
    }
    forall g, n, k: nat | g in s.pool && Claims(s.lists, s.pool[g], n, k) ensures n in s.born {
      ClaimsAreBorn(defs, s, s.pool[g], n, k);
    }
  }

  lemma ExclusiveAfter(s: State, h: Handle, f: Handle, e: Effect)
    requires h in s.pool && f !in s.pool && Exclusive(s) && TokensOk(s) && Lawful(s, h, e)
    ensures Exclusive(e.rest.(pool := Install(s.pool, h, f, e)))
  {
    var t := e.rest.(pool := Install(s.pool, h, f, e));
    forall a, b, n, k: nat | a in t.pool && b in t.pool && a != b && Claims(t.lists, t.pool[a], n, k)
      ensures !Claims(t.lists, t.pool[b], n, k)
    {
      assert PassesOn(s, s.pool[h], e, n, k);
      assert a in s.pool && a != h ==> OtherKeeps(s, s.pool[h], e, s.pool[a], n, k);
      assert b in s.pool && b != h ==> OtherKeeps(s, s.pool[h], e, s.pool[b], n, k);
    }
  }

  /** A token comes from a token of its list, or from a push onto an empty list. */
  lemma TokensComeFrom(defs: Definitions, s: State, it: Item, m: Move)
    requires ItemOk(defs, s, it) && !m.LoseBatch?
    ensures var e := React(defs, s, it, m);
            && (e.fork.Some? ==> !IsToken(e.fork.value))
            && (e.keep.Some? && IsToken(e.keep.value) ==>
                  || (IsToken(it) && it.key == e.keep.value.key)
                  || ListAt(s.lists, e.keep.value.key) == [])
  {
  }

  lemma TokensAfter(defs: Definitions, s: State, h: Handle, f: Handle, m: Move)
    requires h in s.pool && f !in s.pool && ItemsOk(defs, s) && TokensOk(s) && !m.LoseBatch?
    ensures TokensOk(After(defs, s, h, f, m))
  {
    var it := s.pool[h];
    var e := React(defs, s, it, m);
    TokensComeFrom(defs, s, it, m);
    forall g | g in s.pool && g != h && IsToken(s.pool[g])
      ensures e.keep.Some? && IsToken(e.keep.value) ==> e.keep.value.key != s.pool[g].key
    {
      assert ItemOk(defs, s, s.pool[g]);
    }
  }

  /** A list another item is in charge of stays non-empty. */
  lemma ListsHeld(defs: Definitions, s: State, it: Item, m: Move, key: DigestKey)
    requires ItemOk(defs, s, it) && ListAt(s.lists, key) != []
    ensures !(it.Drain? && it.key == key) ==> ListAt(React(defs, s, it, m).rest.lists, key) != []
  {
    hide Evaluates, PendingRows, SetStatus, Taken, IsPlan;
  }

  lemma TokenLeavesHeld(defs: Definitions, s: State, it: Item, m: Move)
    requires ItemOk(defs, s, it) && !m.LoseBatch?
    ensures var e := React(defs, s, it, m);
            && (e.keep.Some? && IsToken(e.keep.value) ==> ListAt(e.rest.lists, e.keep.value.key) != [])
            && (e.fork.Some? ==> !IsToken(e.fork.value))
  {
    hide Evaluates, PendingRows, SetStatus, Taken, IsPlan;
  }

  lemma ItemsOkAfter(defs: Definitions, s: State, h: Handle, f: Handle, m: Move)
    requires h in s.pool && f !in s.pool && ItemsOk(defs, s) && TokensOk(s) && !m.LoseBatch?
    ensures ItemsOk(defs, After(defs, s, h, f, m))
  {
    hide React, ItemFits;
    var it := s.pool[h];
    var e := React(defs, s, it, m);
    var t := After(defs, s, h, f, m);
    ItemsAfter(defs, s, h, f, m);
    assert ItemFits(defs, s, it);
    TokenLeavesHeld(defs, s, it, m);
    forall g | g in t.pool && IsToken(t.pool[g]) ensures ListAt(t.lists, t.pool[g].key) != [] {
      if g in s.pool && g != h { ListsHeld(defs, s, it, m, s.pool[g].key); }
    }
  }

  // --- history -----------------------------------------------------------------------

  /** A reaction adds to the history only what the consumed item, upstream of delivery
      tasks, claimed; and it leaves a delivery task for it. */
  ghost predicate Starts(s: State, it: Item, e: Effect) {
    && (e.rest.enqueued == s.enqueued ==>
          && (e.keep.Some? && e.keep.value.DeliveryTask? ==>
                it.DeliveryTask? && it.notif == e.keep.value.notif && it.step == e.keep.value.step)
          && (e.fork.Some? ==> !e.fork.value.DeliveryTask?))
    && (e.rest.enqueued != s.enqueued ==>
          && !it.DeliveryTask? && e.rest.born == s.born
          && e.keep.Some? && !e.keep.value.DeliveryTask? && e.fork.Some? && e.fork.value.DeliveryTask?
          && e.rest.enqueued == s.enqueued + [(e.fork.value.notif, e.fork.value.step)])
    && (it.DeliveryTask? ==> e.fork.None? && (e.keep.Some? ==> e.keep.value.DeliveryTask?))
    && (forall n :: n in s.born ==> n in e.rest.born)
  }

  lemma LoopStarts(defs: Definitions, s: State, it: Item, m: Move)
    requires it.StepRun? || it.Resume?
    ensures Starts(s, it, React(defs, s, it, m))
  {
    hide PendingRows, SetStatus, IsPlan, ListAt;
  }

  lemma ReactionStarts(defs: Definitions, s: State, it: Item, m: Move)
    ensures Starts(s, it, React(defs, s, it, m))
  {
    hide PendingRows, SetStatus, IsPlan, Evaluates, Taken, ListAt;
    if it.StepRun? || it.Resume? { LoopStarts(defs, s, it, m); }
  }

  lemma HistoryAfter(s: State, h: Handle, f: Handle, e: Effect)
    requires h in s.pool && f !in s.pool && HistoryOk(s) && Exclusive(s) && Lawful(s, h, e) && Starts(s, s.pool[h], e)
    ensures HistoryOk(e.rest.(pool := Install(s.pool, h, f, e)))
  {
    var it := s.pool[h];
    var t := e.rest.(pool := Install(s.pool, h, f, e));
    if e.rest.enqueued != s.enqueued {
      var d := e.fork.value;
      assert Claims(e.rest.lists, d, d.notif, d.step);
      assert PassesOn(s, it, e, d.notif, d.step);
      assert Claims(s.lists, it, d.notif, d.step);
    }
    forall g, n, k: nat | g in t.pool && (n, k) in t.enqueued && Claims(t.lists, t.pool[g], n, k)
      ensures t.pool[g].DeliveryTask?
    {
      assert PassesOn(s, it, e, n, k);
      assert g in s.pool && g != h ==> OtherKeeps(s, it, e, s.pool[g], n, k);
    }
  }

  // --- status rows -------------------------------------------------------------------

  /** Whoever holds a right to an old notification after a reaction, somebody held it before. */
  lemma HeldBefore(s: State, h: Handle, f: Handle, e: Effect, g: Handle, n: NotifId, k: nat) returns (x: Handle)
    requires h in s.pool && f !in s.pool && Lawful(s, h, e) && n in s.born
    requires var pool := Install(s.pool, h, f, e); g in pool && Claims(e.rest.lists, pool[g], n, k)
    ensures x in s.pool && Claims(s.lists, s.pool[x], n, k)
    ensures e.keep.None? && e.fork.None? && e.rest.lists == s.lists ==> x == g && x != h
  {
    assert PassesOn(s, s.pool[h], e, n, k);
    if g in s.pool && g != h {
      assert OtherKeeps(s, s.pool[h], e, s.pool[g], n, k);
      x := if Claims(s.lists, s.pool[g], n, k) then g else h;
    } else {
      x := h;
    }
  }

  /** A delivery that may still happen after a reaction finds its row pending. */
  lemma RowPendingAfter(defs: Definitions, s: State, h: Handle, f: Handle, e: Effect, g: Handle, n: NotifId, k: nat)
    requires h in s.pool && f !in s.pool && ItemsOk(defs, s) && Exclusive(s) && RowsOk(defs, s) && Lawful(s, h, e)
    requires Touches(defs, s, s.pool[h], e, n)
    requires var pool := Install(s.pool, h, f, e);
      g in pool && n in e.rest.notifs && Claims(e.rest.lists, pool[g], n, k)
    ensures var steps := StepsOf(defs, e.rest.notifs[n].wf);
            DistinctChannels(steps) && k < |steps| && !IsControl(steps[k].kind) ==>
              PendingFor(e.rest.notifs[n].rows, steps[k].kind)
  {
    hide IsPlan, SetStatus, Lawful, Install, RowsOk, Exclusive, ItemsOk, ItemOk, DistinctChannels, PendingFor, Claims;
    if n in s.notifs {
      OldNotification(defs, s, n);
      var x := HeldBefore(s, h, f, e, g, n, k);
      PendingNow(defs, s, x, n, k);
      if e.rest.notifs[n] != s.notifs[n] {
        DifferentStep(defs, s, h, x, k);
        OtherRowsStay(defs, s, s.pool[h], e.rest.notifs[n].rows, n, k);
      }
    } else {
      AllPending(e.rest.notifs[n].rows, StepsOf(defs, e.rest.notifs[n].wf));
    }
  }

  lemma AllPending(rows: seq<Row>, steps: seq<Step>)
    requires rows == PendingRows(steps)
    ensures forall channel :: PendingFor(rows, channel)
  {
  }

  lemma OldNotification(defs: Definitions, s: State, n: NotifId)
    requires ItemsOk(defs, s) && n in s.notifs
    ensures BornIn(s, n, s.notifs[n].wf)
  {
  }

  lemma PendingNow(defs: Definitions, s: State, x: Handle, n: NotifId, k: nat)
    requires RowsOk(defs, s) && x in s.pool && n in s.notifs && Claims(s.lists, s.pool[x], n, k)
    ensures var steps := StepsOf(defs, s.notifs[n].wf);
            DistinctChannels(steps) && k < |steps| && !IsControl(steps[k].kind) ==>
              PendingFor(s.notifs[n].rows, steps[k].kind)
  {
  }

  /** Two items never hold the same right, so another item's is to another step. */
  lemma DifferentStep(defs: Definitions, s: State, h: Handle, x: Handle, k: nat)
    requires ItemsOk(defs, s) && Exclusive(s) && h in s.pool && x in s.pool && x != h && s.pool[h].DeliveryTask?
    requires Claims(s.lists, s.pool[x], s.pool[h].notif, k)
    ensures k != s.pool[h].step && ItemOk(defs, s, s.pool[h])
  {
    assert Claims(s.lists, s.pool[h], s.pool[h].notif, s.pool[h].step);
  }

  lemma RowsAfter(defs: Definitions, s: State, h: Handle, f: Handle, e: Effect)
    requires h in s.pool && f !in s.pool && ItemsOk(defs, s) && Exclusive(s) && RowsOk(defs, s) && Lawful(s, h, e)
    requires forall n :: Touches(defs, s, s.pool[h], e, n)
    ensures RowsOk(defs, e.rest.(pool := Install(s.pool, h, f, e)))
  {
    hide Claims, Lawful, ItemsOk, Exclusive, PendingFor, DistinctChannels, Install;
    var t := e.rest.(pool := Install(s.pool, h, f, e));
    forall g, n, k: nat | g in t.pool && n in t.notifs && Claims(t.lists, t.pool[g], n, k)
      ensures var steps := StepsOf(defs, t.notifs[n].wf);
              DistinctChannels(steps) && k < |steps| && !IsControl(steps[k].kind) ==>
                PendingFor(t.notifs[n].rows, steps[k].kind)
    {
      RowPendingAfter(defs, s, h, f, e, g, n, k);
    }
  }

  /** Ending one delivery leaves the rows of the notification's other deliveries alone. */
  lemma OtherRowsStay(defs: Definitions, s: State, it: Item, rows: seq<Row>, n: NotifId, k: nat)
    requires it.DeliveryTask? && it.notif == n && k != it.step && ItemOk(defs, s, it)
    requires n in s.notifs && BornIn(s, n, s.notifs[n].wf)
    requires exists st :: rows == SetStatus(s.notifs[n].rows, it.channel, st)
    ensures var steps := StepsOf(defs, s.notifs[n].wf);
            DistinctChannels(steps) && k < |steps| && !IsControl(steps[k].kind) ==>
              PendingFor(s.notifs[n].rows, steps[k].kind) ==> PendingFor(rows, steps[k].kind)
  {
    var steps := StepsOf(defs, s.notifs[n].wf);
    if DistinctChannels(steps) && k < |steps| && !IsControl(steps[k].kind)
        && PendingFor(s.notifs[n].rows, steps[k].kind) {
      forall r | r in rows && r.channel == steps[k].kind ensures r.status == Pending {
        var i :| 0 <= i < |rows| && rows[i] == r;
        assert s.notifs[n].rows[i] in s.notifs[n].rows;
      }
    }
  }

  // ---------------------------------------------------------------------------------
  // Whole runs
  // ---------------------------------------------------------------------------------

  /** No digest handler fails after DEL, and no digest list expires. */
  ghost predicate Steady(a: Action) { !(a.Act? && a.move.LoseBatch?) && !a.Evict? }

  lemma ActKeepsInv(defs: Definitions, s: State, h: Handle, f: Handle, m: Move)
    requires Inv(defs, s) && h in s.pool && f !in s.pool && !m.LoseBatch?
    ensures Inv(defs, After(defs, s, h, f, m))
  {
    hide React, Always, ItemsFit, TokensOk, Exclusive, HistoryOk, RowsOk, Lawful, Touches, Starts;
    var it := s.pool[h];
    var e := React(defs, s, it, m);
    ActKeepsAlways(defs, s, h, f, m);
    ReactionIsLawful(defs, s, h, m);
    ItemsOkAfter(defs, s, h, f, m);
    TokensAfter(defs, s, h, f, m);
    ExclusiveAfter(s, h, f, e);
    ReactionStarts(defs, s, it, m);
    HistoryAfter(s, h, f, e);
    forall n ensures Touches(defs, s, it, e, n) { ReactionTouches(defs, s, it, m, n); }
    RowsAfter(defs, s, h, f, e);
  }

  lemma RequestClaimsNothing(lists: map<DigestKey, seq<NotifId>>, item: Item, n: NotifId, k: nat)
    requires IsRequest(item)
    ensures !Claims(lists, item, n, k) && !IsToken(item) && !item.DeliveryTask?
  {
  }

  /** Rights go with the items that hold them. */
  lemma LessKeepsRights(defs: Definitions, s: State, t: State)
    requires Lessens(s, t) && t.lists == s.lists
    requires TokensOk(s) && Exclusive(s) && HistoryOk(s) && RowsOk(defs, s)
    requires forall h :: h in s.pool ==> IsToken(s.pool[h]) ==> ListAt(s.lists, s.pool[h].key) != []
    ensures TokensOk(t) && Exclusive(t) && HistoryOk(t) && RowsOk(defs, t)
    ensures forall h :: h in t.pool ==> IsToken(t.pool[h]) ==> ListAt(t.lists, t.pool[h].key) != []
  {
    hide Claims, IsToken, IsRequest, DistinctChannels, PendingFor;
    forall g, n, k: nat | g in t.pool && IsRequest(t.pool[g])
      ensures !Claims(t.lists, t.pool[g], n, k) && !IsToken(t.pool[g]) && !t.pool[g].DeliveryTask?
    {
      RequestClaimsNothing(t.lists, t.pool[g], n, k);
    }
    forall g | g in t.pool && !(g in s.pool && t.pool[g] == s.pool[g])
        ensures !IsToken(t.pool[g]) && !t.pool[g].DeliveryTask? {
      RequestClaimsNothing(t.lists, t.pool[g], 0, 0);
    }
  }

  lemma StepKeepsInv(defs: Definitions, s: State, a: Action)
    requires Inv(defs, s) && Steady(a)
    ensures Inv(defs, Do(defs, s, a))
  {
    hide React, Lessens, TokensOk, Exclusive, HistoryOk, RowsOk, ItemsFit, CollectorsAlone, TriggersOk, UniqueOk,
        RowsFit;
    if a.Act? {
      if a.h in s.pool && a.slot !in s.pool { ActKeepsInv(defs, s, a.h, a.slot, a.move); }
    } else {
      OtherKeepsAlways(defs, s, a);
      OtherLessens(defs, s, a);
      LessKeepsRights(defs, s, Do(defs, s, a));
    }
  }

  lemma {:induction false} RunKeepsInv(defs: Definitions, actions: seq<Action>)
    requires forall a :: a in actions ==> Steady(a)
    ensures Inv(defs, Run(defs, actions))
  {
    hide Do, Steady;
    if actions == [] {
      EmptyIsOk(defs);
    } else {
      hide Inv;
      var n := |actions| - 1;
      RunKeepsInv(defs, actions[..n]);
      StepKeepsInv(defs, Run(defs, actions[..n]), actions[n]);
    }
  }

  lemma EmptyIsOk(defs: Definitions)
    ensures Inv(defs, Empty)
  {
  }
}

/** The safety theorems of steady runs. */
module DispatchSafety {
  import opened Common
  import opened Workflows
  import opened Dispatch
  import opened DispatchAlways
  import opened DispatchProofs

  ghost predicate AllSteady(actions: seq<Action>) { forall a :: a in actions ==> Steady(a) }

  /** Over every steady interleaving with failures, re-runs and lost tasks, each
      (notification, step) gets at most one attempt-0 delivery task, and at most one delivery
      task of any attempt is ever in the queue for it. */
  lemma AtMostOnceDelivery(defs: Definitions, actions: seq<Action>)
    requires AllSteady(actions)
    ensures var s := Run(defs, actions);
            && NoRepeats(s.enqueued)
            && (forall h :: h in s.pool && s.pool[h].DeliveryTask? ==> (s.pool[h].notif, s.pool[h].step) in s.enqueued)
            && (forall g, h | g in s.pool && h in s.pool && s.pool[g].DeliveryTask? && s.pool[h].DeliveryTask? ::
                  s.pool[g].notif == s.pool[h].notif && s.pool[g].step == s.pool[h].step ==> g == h)
  {
    RunKeepsInv(defs, actions);
    var s := Run(defs, actions);
    forall g, h | g in s.pool && h in s.pool && s.pool[g].DeliveryTask? && s.pool[h].DeliveryTask?
                    && s.pool[g].notif == s.pool[h].notif && s.pool[g].step == s.pool[h].step
      ensures g == h
    {
      var n, k := s.pool[g].notif, s.pool[g].step;
      assert Claims(s.lists, s.pool[g], n, k) && Claims(s.lists, s.pool[h], n, k);
    }
  }

  /** A delivery that ends finds the row of its channel pending, if channels are distinct. */
  lemma EndingDeliveryFindsPending(defs: Definitions, s: State, h: Handle)
    requires Inv(defs, s) && h in s.pool && s.pool[h].DeliveryTask? && s.pool[h].notif in s.notifs
    ensures var n := s.pool[h].notif;
            DistinctChannels(StepsOf(defs, s.notifs[n].wf)) ==> PendingFor(s.notifs[n].rows, s.pool[h].channel)
  {
    hide TokensOk, Exclusive, HistoryOk, RowsOk, CollectorsAlone, TriggersOk, UniqueOk, RowsFit, PendingFor,
        DistinctChannels, Claims;
    var d := s.pool[h];
    assert ItemFits(defs, s, d);
    OldNotification(defs, s, d.notif);
    ClaimsOwn(s.lists, d);
    PendingNow(defs, s, h, d.notif, d.step);
  }

  lemma ClaimsOwn(lists: map<DigestKey, seq<NotifId>>, d: Item)
    requires d.DeliveryTask?
    ensures Claims(lists, d, d.notif, d.step)
  {
  }

  /** No steady operation writes a settled row of a workflow without repeated channels. */
  lemma SettledRowStays(defs: Definitions, s: State, a: Action, n: NotifId, i: nat)
    requires Inv(defs, s) && Steady(a)
    requires n in s.notifs && n in Do(defs, s, a).notifs && DistinctChannels(StepsOf(defs, s.notifs[n].wf))
    requires i < |s.notifs[n].rows| && s.notifs[n].rows[i].status != Pending
    ensures i < |Do(defs, s, a).notifs[n].rows| && Do(defs, s, a).notifs[n].rows[i] == s.notifs[n].rows[i]
    ensures Do(defs, s, a).notifs[n].wf == s.notifs[n].wf
  {
    hide React, Always, ItemsOk, TokensOk, Exclusive, HistoryOk, RowsOk, SetStatus, DistinctChannels;
    if a.Act? && a.h in s.pool && a.slot !in s.pool {
      var it := s.pool[a.h];
      BornNow(defs, s, n);
      ReactionTouches(defs, s, it, a.move, n);
      if Do(defs, s, a).notifs[n] != s.notifs[n] {
        EndingDeliveryFindsPending(defs, s, a.h);
        assert s.notifs[n].rows[i] in s.notifs[n].rows;
      }
    }
  }

  lemma BornNow(defs: Definitions, s: State, n: NotifId)
    requires Always(defs, s) && n in s.notifs
    ensures BornIn(s, n, s.notifs[n].wf)
  {
  }

  /** Over the whole rest of a steady run, a row that has left "pending" never changes again,
      for as long as its notification is retained. */
  lemma {:induction false} SteadyRowsSettleOnce(defs: Definitions, before: seq<Action>, after: seq<Action>, n: NotifId,
                                                i: nat)
    requires AllSteady(before) && AllSteady(after)
    requires n in Run(defs, before).notifs && n in Run(defs, before + after).notifs
    requires DistinctChannels(StepsOf(defs, Run(defs, before).notifs[n].wf))
    requires i < |Run(defs, before).notifs[n].rows| && Run(defs, before).notifs[n].rows[i].status != Pending
    ensures Run(defs, before + after).notifs[n].wf == Run(defs, before).notifs[n].wf
    ensures i < |Run(defs, before + after).notifs[n].rows|
    ensures Run(defs, before + after).notifs[n].rows[i] == Run(defs, before).notifs[n].rows[i]
    decreases |after|
  {
    hide Inv, Do, DistinctChannels, Steady;
    if after == [] {
      assert before + after == before;
    } else {
      var m := |after| - 1;
      var mid := Run(defs, before + after[..m]);
      assert (before + after)[..|before + after| - 1] == before + after[..m];
      OneMoreAction(defs, before + after[..m], after[m]);
      RunBornNow(defs, before, n);
      StaysBorn(defs, before, after[..m], n);
      NoRebirth(defs, mid, after[m], n);
      SteadyRowsSettleOnce(defs, before, after[..m], n, i);
      RunKeepsInv(defs, before + after[..m]);
      SettledRowStays(defs, mid, after[m], n, i);
    }
  }

  lemma RunBornNow(defs: Definitions, actions: seq<Action>, n: NotifId)
    requires n in Run(defs, actions).notifs
    ensures BornIn(Run(defs, actions), n, Run(defs, actions).notifs[n].wf)
  {
    RunKeepsAlways(defs, actions);
  }

  lemma OneMoreAction(defs: Definitions, before: seq<Action>, a: Action)
    ensures Run(defs, before + [a]) == Do(defs, Run(defs, before), a)
  {
    assert (before + [a])[..|before|] == before;
  }
}
