/** What requests and broadcasts come to when nothing fails: every recipient's notification is
    created, handed to one trigger task, and its steps are delivered. */
module DispatchRequests {
  import opened Common
  import opened Workflows
  import opened Dispatch
  import opened DispatchAlways
  import opened DispatchRuns

  /** Nothing but the item under h acts. */
  ghost predicate OnlyActs(actions: seq<Action>, h: Handle) {
    forall a :: a in actions ==> a.Act? && a.h == h
  }

  /** Who asks, for which workflow and transaction. */
  datatype Ask = Ask(env: EnvId, wf: WfId, tx: string)

  /** The subscribers of the list without a notification of the transaction. */
  ghost function Missing(s: State, a: Ask, subs: seq<SubId>): set<SubId> {
    set x | x in subs && forall n :: n in s.notifs ==>
        s.notifs[n].env != a.env || s.notifs[n].tx != a.tx || s.notifs[n].sub != x
  }

  /** From s to t, each subscriber of the map has got a pending notification under its id;
      nothing else was stored or issued, and everything stored stays. */
  ghost predicate Made(defs: Definitions, s: State, t: State, a: Ask, m: map<SubId, NotifId>) {
    && t.notifs.Keys == s.notifs.Keys + m.Values && t.born.Keys == s.born.Keys + m.Values
    && (forall n :: n in s.notifs ==> t.notifs[n] == s.notifs[n])
    && (forall x :: x in m ==>
        m[x] in t.notifs && t.notifs[m[x]] == Notification(a.env, a.tx, x, a.wf, PendingRows(StepsOf(defs, a.wf))))
    && t.lists == s.lists && t.enqueued == s.enqueued
  }

  /** The map holds the missing subscribers but the refused ones, each under the id of its
      position, and no others. */
  ghost predicate HandsOut(s: State, a: Ask, subs: seq<SubId>, refused: set<SubId>, ids: seq<NotifId>,
                           m: map<SubId, NotifId>)
    requires |subs| <= |ids|
  {
    && m.Keys == Missing(s, a, subs) - refused
    && forall i :: 0 <= i < |subs| && subs[i] in m ==> m[subs[i]] == ids[i]
  }

  /** Ids for a list of subscribers: new and distinct. */
  ghost predicate FreshIds(s: State, subs: seq<SubId>, ids: seq<NotifId>) {
    && |ids| == |subs| && NoRepeats(subs) && NoRepeats(ids)
    && (forall i :: 0 <= i < |ids| ==> ids[i] !in s.born)
    && forall n :: n in s.notifs ==> n in s.born
  }

  /** A request or a broadcast page, with the subscribers still to take up. */
  function ItemOf(call: bool, a: Ask, todo: seq<SubId>, made: map<SubId, NotifId>): Item {
    if call then Call(a.env, a.wf, a.tx, todo, made) else BroadcastRun(a.env, a.wf, a.tx, todo, made)
  }

  /** What the item has come to once it has taken up the first k subscribers. */
  ghost predicate Through(defs: Definitions, s: State, t: State, h: Handle, call: bool, a: Ask, subs: seq<SubId>,
                          refused: set<SubId>, k: nat, ids: seq<NotifId>, m: map<SubId, NotifId>)
    requires k <= |subs| <= |ids|
  {
    && Made(defs, s, t, a, m) && HandsOut(s, a, subs[..k], refused, ids, m)
    && t.pool == s.pool[h := ItemOf(call, a, subs[k..], m)] && t.triggered == s.triggered
  }

  lemma NextIsNew(s: State, a: Ask, subs: seq<SubId>, refused: set<SubId>, k: nat, ids: seq<NotifId>,
                  m: map<SubId, NotifId>)
    requires k < |subs| && FreshIds(s, subs, ids) && HandsOut(s, a, subs[..k], refused, ids, m)
    ensures subs[k] !in m && ids[k] !in m.Values && ids[k] !in s.born && ids[k] !in s.notifs
  {
    forall i | 0 <= i < k ensures subs[i] != subs[k] && ids[i] != ids[k] { }
    forall y | y in m ensures y != subs[k] && m[y] != ids[k] {
      assert y in subs[..k];
      var i :| 0 <= i < k && subs[..k][i] == y;
      assert m[subs[..k][i]] == ids[i];
    }
  }

  /** The next subscriber is passed over exactly when the transaction has a notification for it. */
  lemma NextIsTaken(defs: Definitions, s: State, t: State, a: Ask, subs: seq<SubId>, m: map<SubId, NotifId>, x: SubId)
    requires Made(defs, s, t, a, m) && x in subs && x !in m
    ensures Taken(t, a.env, a.tx, x) <==> x !in Missing(s, a, subs)
  {
    hide PendingRows;
    if Taken(t, a.env, a.tx, x) {
      var n :| n in t.notifs && t.notifs[n].env == a.env && t.notifs[n].tx == a.tx && t.notifs[n].sub == x;
    }
    if x !in Missing(s, a, subs) {
      var n :| n in s.notifs && s.notifs[n].env == a.env && s.notifs[n].tx == a.tx && s.notifs[n].sub == x;
      assert t.notifs[n] == s.notifs[n];
    }
  }

  lemma MissingGrows(s: State, a: Ask, subs: seq<SubId>, k: nat)
    requires k < |subs|
    ensures Missing(s, a, subs[..k + 1]) == Missing(s, a, subs[..k]) + if subs[k] in Missing(s, a, subs) then {subs[k]}
      else {}
  {
    assert subs[..k + 1] == subs[..k] + [subs[k]];
  }

  lemma MapGrows(m: map<SubId, NotifId>, x: SubId, id: NotifId)
    requires x !in m
    ensures m[x := id].Keys == m.Keys + {x} && m[x := id].Values == m.Values + {id}
  {
    var n := m[x := id];
    assert n[x] == id;
    forall y | y in m.Values ensures y in n.Values {
      var z :| z in m && m[z] == y;
      assert n[z] == y;
    }
  }

  /** The map after the next subscriber. */
  function Next(subs: seq<SubId>, k: nat, ids: seq<NotifId>, m: map<SubId, NotifId>, missing: bool): map<SubId, NotifId>
    requires k < |subs| <= |ids|
  {
    if missing then m[subs[k] := ids[k]] else m
  }

  lemma HandsOutNext(s: State, a: Ask, subs: seq<SubId>, refused: set<SubId>, k: nat, ids: seq<NotifId>,
                     m: map<SubId, NotifId>)
    requires k < |subs| <= |ids| && NoRepeats(subs) && HandsOut(s, a, subs[..k], refused, ids, m)
    ensures HandsOut(s, a, subs[..k + 1], refused, ids, Next(subs, k, ids, m, subs[k] in Missing(s, a, subs) - refused))
  {
    MissingGrows(s, a, subs, k);
    assert subs[..k + 1] == subs[..k] + [subs[k]];
    forall i | 0 <= i < k ensures subs[..k][i] == subs[i] && subs[i] != subs[k] { }
  }

  lemma MadeNext(defs: Definitions, s: State, t: State, u: State, a: Ask, m: map<SubId, NotifId>, x: SubId, id: NotifId)
    requires Made(defs, s, t, a, m) && x !in m && id !in m.Values && id !in s.notifs
    requires u.notifs == t.notifs[id := Notification(a.env, a.tx, x, a.wf, PendingRows(StepsOf(defs, a.wf)))]
    requires u.born == t.born[id := a.wf] && u.lists == t.lists && u.enqueued == t.enqueued
    ensures Made(defs, s, u, a, m[x := id])
  {
    hide PendingRows;
    MapGrows(m, x, id);
    forall y | y in m ensures m[y] != id { assert m[y] in m.Values; }
    var n := m[x := id];
    assert u.notifs.Keys == s.notifs.Keys + n.Values && u.born.Keys == s.born.Keys + n.Values;
    forall y | y in n ensures u.notifs[n[y]] == Notification(a.env, a.tx, y, a.wf, PendingRows(StepsOf(defs, a.wf))) {
      assert y in m || y == x;
    }
  }

  /** What a create leaves. */
  lemma Creates(defs: Definitions, t: State, h: Handle, f: Handle, call: bool, a: Ask, todo: seq<SubId>,
                m: map<SubId, NotifId>, id: NotifId)
    requires h in t.pool && f !in t.pool && t.pool[h] == ItemOf(call, a, todo, m) && todo != [] && id !in t.born
    requires call ==> !Taken(t, a.env, a.tx, todo[0])
    ensures var u := Do(defs, t, Act(h, f, Insert(id)));
      if Taken(t, a.env, a.tx, todo[0]) then u == t.(pool := t.pool[h := ItemOf(call, a, todo[1..], m)])
      else
        && u.notifs == t.notifs[id := Notification(a.env, a.tx, todo[0], a.wf, PendingRows(StepsOf(defs, a.wf)))]
        && u.born == t.born[id := a.wf] && u.lists == t.lists && u.enqueued == t.enqueued && u.triggered == t.triggered
        && u.pool == t.pool[h := ItemOf(call, a, todo[1..], m[todo[0] := id])]
  {
    hide Taken, PendingRows, Evaluates;
  }

  /** What taking up a subscriber does: a create, unless the store refuses it. */
  function TakeUp(x: SubId, refused: set<SubId>, id: NotifId): Move {
    if x in refused then SkipEntry(x) else Insert(id)
  }

  /** One more subscriber is taken up. A request stops at one that is taken or refused. */
  lemma TakesUp(defs: Definitions, s: State, t: State, h: Handle, f: Handle, call: bool, a: Ask, subs: seq<SubId>,
                refused: set<SubId>, k: nat, ids: seq<NotifId>, m: map<SubId, NotifId>)
    requires h in s.pool && f !in t.pool && k < |subs| && FreshIds(s, subs, ids)
    requires Through(defs, s, t, h, call, a, subs, refused, k, ids, m)
      && (call ==> subs[k] in Missing(s, a, subs) - refused)
    ensures Through(defs, s, Do(defs, t, Act(h, f, TakeUp(subs[k], refused, ids[k]))), h, call, a, subs, refused,
                    k + 1, ids,
                    Next(subs, k, ids, m, subs[k] in Missing(s, a, subs) - refused))
  {
    HandsOutNext(s, a, subs, refused, k, ids, m);
    if subs[k] in refused {
      TakesUpRefused(defs, s, t, h, f, a, subs, refused, k, ids, m);
    } else {
      TakesUpOffered(defs, s, t, h, f, call, a, subs, refused, k, ids, m);
    }
  }

  lemma TakesUpRefused(defs: Definitions, s: State, t: State, h: Handle, f: Handle, a: Ask, subs: seq<SubId>,
                       refused: set<SubId>, k: nat, ids: seq<NotifId>, m: map<SubId, NotifId>)
    requires h in s.pool && f !in t.pool && k < |subs| && |ids| == |subs| && subs[k] in refused
    requires Through(defs, s, t, h, false, a, subs, refused, k, ids, m)
      && HandsOut(s, a, subs[..k + 1], refused, ids, m)
    ensures Through(defs, s, Do(defs, t, Act(h, f, SkipEntry(subs[k]))), h, false, a, subs, refused, k + 1, ids, m)
  {
    assert subs[k..][0] == subs[k] && subs[k..][1..] == subs[k + 1..];
    PassesOver(defs, t, h, f, a, subs[k..], m);
    hide HandsOut, PendingRows, Do;
  }

  lemma TakesUpOffered(defs: Definitions, s: State, t: State, h: Handle, f: Handle, call: bool, a: Ask,
                       subs: seq<SubId>, refused: set<SubId>, k: nat, ids: seq<NotifId>, m: map<SubId, NotifId>)
    requires h in s.pool && f !in t.pool && k < |subs| == |ids| && FreshIds(s, subs, ids) && subs[k] !in refused
    requires Through(defs, s, t, h, call, a, subs, refused, k, ids, m) && (call ==> subs[k] in Missing(s, a, subs))
    requires HandsOut(s, a, subs[..k + 1], refused, ids, Next(subs, k, ids, m, subs[k] in Missing(s, a, subs)))
    ensures Through(defs, s, Do(defs, t, Act(h, f, Insert(ids[k]))), h, call, a, subs, refused, k + 1, ids,
                    Next(subs, k, ids, m, subs[k] in Missing(s, a, subs)))
  {
    NextIsNew(s, a, subs, refused, k, ids, m);
    NextIsTaken(defs, s, t, a, subs, m, subs[k]);
    assert ids[k] !in t.born;
    assert subs[k..][0] == subs[k] && subs[k..][1..] == subs[k + 1..];
    hide HandsOut, Missing, Taken, Do, ItemOf, FreshIds, Made;
    Offered(defs, s, t, h, f, call, a, subs[k..], ids[k], m, subs[k] in Missing(s, a, subs));
  }

  lemma Offered(defs: Definitions, s: State, t: State, h: Handle, f: Handle, call: bool, a: Ask, todo: seq<SubId>,
                id: NotifId, m: map<SubId, NotifId>, missing: bool)
    requires h in s.pool && f !in t.pool && todo != [] && Made(defs, s, t, a, m)
      && t.pool == s.pool[h := ItemOf(call, a, todo, m)]
    requires id !in t.born && id !in s.notifs && id !in m.Values && todo[0] !in m
    requires (Taken(t, a.env, a.tx, todo[0]) <==> !missing) && (call ==> missing)
    ensures var u, n := Do(defs, t, Act(h, f, Insert(id))), if missing then m[todo[0] := id] else m;
      Made(defs, s, u, a, n) && u.pool == s.pool[h := ItemOf(call, a, todo[1..], n)] && u.triggered == t.triggered
  {
    Creates(defs, t, h, f, call, a, todo, m, id);
    hide Taken, PendingRows, Do, ItemOf, Made;
    var u := Do(defs, t, Act(h, f, Insert(id)));
    if missing {
      MadeNext(defs, s, t, u, a, m, todo[0], id);
    } else {
      MadeStays(defs, s, t, u, a, m);
    }
  }

  lemma PassesOver(defs: Definitions, t: State, h: Handle, f: Handle, a: Ask, todo: seq<SubId>, m: map<SubId, NotifId>)
    requires h in t.pool && f !in t.pool && t.pool[h] == BroadcastRun(a.env, a.wf, a.tx, todo, m) && todo != []
    ensures Do(defs, t, Act(h, f, SkipEntry(todo[0]))) == t.(pool := t.pool[h := ItemOf(false, a, todo[1..], m)])
  {
  }

  /** The item takes up all its subscribers, one after the other. */
  lemma {:induction false} TakesUpAll(defs: Definitions, s: State, h: Handle, call: bool, a: Ask, subs: seq<SubId>,
                                      refused: set<SubId>, k: nat, ids: seq<NotifId>)
    returns (actions: seq<Action>, m: map<SubId, NotifId>)
    requires h in s.pool && k <= |subs| && s.pool[h] == ItemOf(call, a, subs, map[]) && FreshIds(s, subs, ids)
    requires call ==> forall x :: x in subs[..k] ==> x in Missing(s, a, subs) - refused
    ensures OnlyActs(actions, h) && Through(defs, s, RunFrom(defs, s, actions), h, call, a, subs, refused, k, ids, m)
  {
    if k == 0 {
      actions, m := [], map[];
      TakesUpNone(defs, s, h, call, a, subs, refused, ids);
    } else {
      assert |ids| == |subs| && subs[..k] == subs[..k - 1] + [subs[k - 1]];
      hide Do, Through, Missing, FreshIds, RunFrom, ItemOf;
      actions, m := TakesUpAll(defs, s, h, call, a, subs, refused, k - 1, ids);
      var t := RunFrom(defs, s, actions);
      var f := FreeHandle(t.pool);
      var move := TakeUp(subs[k - 1], refused, ids[k - 1]);
      assert subs[k - 1] in subs[..k];
      TakesUp(defs, s, t, h, f, call, a, subs, refused, k - 1, ids, m);
      OneMore(defs, s, actions, Act(h, f, move));
      actions, m := actions + [Act(h, f, move)],
          Next(subs, k - 1, ids, m, subs[k - 1] in Missing(s, a, subs) - refused);
    }
  }

  lemma TakesUpNone(defs: Definitions, s: State, h: Handle, call: bool, a: Ask, subs: seq<SubId>, refused: set<SubId>,
                    ids: seq<NotifId>)
    requires h in s.pool && s.pool[h] == ItemOf(call, a, subs, map[]) && FreshIds(s, subs, ids)
    ensures RunFrom(defs, s, []) == s && Through(defs, s, s, h, call, a, subs, refused, 0, ids, map[])
  {
    assert subs[..0] == [] && subs[0..] == subs;
    assert s.pool == s.pool[h := ItemOf(call, a, subs, map[])];
  }

  lemma OneMore(defs: Definitions, s: State, actions: seq<Action>, a: Action)
    ensures RunFrom(defs, s, actions + [a]) == Do(defs, RunFrom(defs, s, actions), a)
  {
    assert (actions + [a])[..|actions|] == actions;
  }

  lemma TakenUp(defs: Definitions, s: State, h: Handle, call: bool, a: Ask, subs: seq<SubId>, refused: set<SubId>,
                ids: seq<NotifId>)
    returns (actions: seq<Action>, m: map<SubId, NotifId>)
    requires h in s.pool && s.pool[h] == ItemOf(call, a, subs, map[]) && FreshIds(s, subs, ids)
    requires call ==> forall x :: x in subs ==> x in Missing(s, a, subs) - refused
    ensures OnlyActs(actions, h)
    ensures m.Keys == Missing(s, a, subs) - refused && forall i :: 0 <= i < |subs| && subs[i] in m ==>
      m[subs[i]] == ids[i]
    ensures var t := RunFrom(defs, s, actions);
      Made(defs, s, t, a, m) && t.pool == s.pool[h := ItemOf(call, a, [], m)] && t.triggered == s.triggered
  {
    hide Made, RunFrom, Missing;
    assert subs[..|subs|] == subs && subs[|subs|..] == [];
    actions, m := TakesUpAll(defs, s, h, call, a, subs, refused, |subs|, ids);
  }

  /** A request for recipients that all lack a notification of its transaction creates one for
      each of them and hands them out in one trigger task. */
  lemma CallCompletes(defs: Definitions, s: State, h: Handle, a: Ask, subs: seq<SubId>, ids: seq<NotifId>)
    returns (actions: seq<Action>, m: map<SubId, NotifId>)
    requires h in s.pool && s.pool[h] == Call(a.env, a.wf, a.tx, subs, map[]) && FreshIds(s, subs, ids)
    requires forall x :: x in subs ==> x in Missing(s, a, subs)
    ensures OnlyActs(actions, h)
    ensures m.Keys == (set x | x in subs) && forall i :: 0 <= i < |subs| ==> m[subs[i]] == ids[i]
    ensures var t := RunFrom(defs, s, actions);
      && Made(defs, s, t, a, m)
      && t.pool == s.pool[h := TriggerTask(a.env, a.wf, m)] && t.triggered == s.triggered + [m]
  {
    hide RunFrom, Do, Missing, Made, FreshIds;
    AllMissing(s, a, subs);
    actions, m := TakenUp(defs, s, h, true, a, subs, {}, ids);
    var t := RunFrom(defs, s, actions);
    var f := FreeHandle(t.pool);
    OneMore(defs, s, actions, Act(h, f, Go));
    actions := actions + [Act(h, f, Go)];
    CallQueues(defs, t, h, f, a, m);
    MadeStays(defs, s, t, Do(defs, t, Act(h, f, Go)), a, m);
  }

  lemma AllMissing(s: State, a: Ask, subs: seq<SubId>)
    requires forall x :: x in subs ==> x in Missing(s, a, subs)
    ensures Missing(s, a, subs) == (set x | x in subs) && forall i :: 0 <= i < |subs| ==> subs[i] in Missing(s, a, subs)
  {
  }

  lemma CallQueues(defs: Definitions, t: State, h: Handle, f: Handle, a: Ask, m: map<SubId, NotifId>)
    requires h in t.pool && f !in t.pool && t.pool[h] == Call(a.env, a.wf, a.tx, [], m)
    ensures Do(defs, t, Act(h, f, Go)) == t.(pool := t.pool[h := TriggerTask(a.env, a.wf, m)],
        triggered := t.triggered + [m])
  {
  }

  /** Whatever happens to it, a request hands out all its recipients or none: each operation
      ends it with nothing handed out, moves one recipient from those to come to those that have
      a notification, or, with none to come, hands out all of them in one trigger task. */
  lemma RequestAllOrNothing(defs: Definitions, s: State, h: Handle, f: Handle, a: Ask, todo: seq<SubId>,
                            made: map<SubId, NotifId>, m: Move)
    requires h in s.pool && f !in s.pool && s.pool[h] == Call(a.env, a.wf, a.tx, todo, made)
    ensures var t := Do(defs, s, Act(h, f, m));
      || t == s.(pool := s.pool - {h})
      || t == s
      || (&& todo != [] && t.triggered == s.triggered && h in t.pool && t.pool[h].Call?
          && t.pool[h].todo == todo[1..] && t.pool[h].made.Keys == made.Keys + {todo[0]})
      || (todo == [] && t == s.(pool := s.pool[h := TriggerTask(a.env, a.wf, made)], triggered := s.triggered + [made]))
  {
    hide Taken, PendingRows;
    var t := Do(defs, s, Act(h, f, m));
    assert s.pool[h := s.pool[h]] == s.pool;
  }

  /** A request takes up its recipients up to the k-th. */
  lemma CallReaches(defs: Definitions, s: State, h: Handle, a: Ask, subs: seq<SubId>, k: nat, ids: seq<NotifId>)
    returns (actions: seq<Action>, m: map<SubId, NotifId>)
    requires h in s.pool && s.pool[h] == Call(a.env, a.wf, a.tx, subs, map[]) && FreshIds(s, subs, ids)
    requires k < |subs| == |ids| && forall x :: x in subs[..k] ==> x in Missing(s, a, subs)
    ensures OnlyActs(actions, h)
    ensures m.Keys == (set x | x in subs[..k]) && forall i :: 0 <= i < k ==> m[subs[i]] == ids[i]
    ensures var t := RunFrom(defs, s, actions);
      && Made(defs, s, t, a, m) && t.pool == s.pool[h := Call(a.env, a.wf, a.tx, subs[k..], m)]
          && t.triggered == s.triggered
      && (Taken(t, a.env, a.tx, subs[k]) <==> subs[k] !in Missing(s, a, subs))
  {
    FirstMissing(s, a, subs, k);
    hide RunFrom, Missing, Taken, FreshIds, Made;
    actions, m := TakesUpAll(defs, s, h, true, a, subs, {}, k, ids);
    NextIsNew(s, a, subs, {}, k, ids, m);
    NextIsTaken(defs, s, RunFrom(defs, s, actions), a, subs, m, subs[k]);
    forall i | 0 <= i < k ensures m[subs[i]] == ids[i] {
      assert subs[..k][i] == subs[i] && subs[i] in Missing(s, a, subs[..k]);
    }
  }

  lemma FirstMissing(s: State, a: Ask, subs: seq<SubId>, k: nat)
    requires k <= |subs| && forall x :: x in subs[..k] ==> x in Missing(s, a, subs)
    ensures Missing(s, a, subs[..k]) == (set x | x in subs[..k])
    ensures forall i :: 0 <= i < k ==> subs[i] in Missing(s, a, subs[..k])
  {
    forall i | 0 <= i < k ensures subs[i] in subs[..k] { }
  }

  /** A request stops at the first recipient that has a notification of its transaction: those
      before it keep theirs, and no trigger task hands them out. */
  lemma CallStops(defs: Definitions, s: State, h: Handle, a: Ask, subs: seq<SubId>, k: nat, ids: seq<NotifId>)
    returns (actions: seq<Action>, m: map<SubId, NotifId>)
    requires h in s.pool && s.pool[h] == Call(a.env, a.wf, a.tx, subs, map[]) && FreshIds(s, subs, ids)
    requires k < |subs| && subs[k] !in Missing(s, a, subs) && forall x :: x in subs[..k] ==> x in Missing(s, a, subs)
    ensures OnlyActs(actions, h)
    ensures m.Keys == (set x | x in subs[..k]) && forall i :: 0 <= i < k ==> m[subs[i]] == ids[i]
    ensures var t := RunFrom(defs, s, actions);
      Made(defs, s, t, a, m) && t.pool == s.pool - {h} && t.triggered == s.triggered
  {
    assert |ids| == |subs|;
    hide RunFrom, Missing, Taken, Do, FreshIds, Made;
    actions, m := CallReaches(defs, s, h, a, subs, k, ids);
    var t := RunFrom(defs, s, actions);
    var f := FreeHandle(t.pool);
    OneMore(defs, s, actions, Act(h, f, Insert(ids[k])));
    actions := actions + [Act(h, f, Insert(ids[k]))];
    CallMeetsTaken(defs, t, h, f, a, subs[k..], m, ids[k]);
    MadeStays(defs, s, t, Do(defs, t, Act(h, f, Insert(ids[k]))), a, m);
  }

  lemma CallMeetsTaken(defs: Definitions, t: State, h: Handle, f: Handle, a: Ask, todo: seq<SubId>,
                       m: map<SubId, NotifId>, id: NotifId)
    requires h in t.pool && f !in t.pool && t.pool[h] == Call(a.env, a.wf, a.tx, todo, m) && todo != []
    requires Taken(t, a.env, a.tx, todo[0])
    ensures Do(defs, t, Act(h, f, Insert(id))) == t.(pool := t.pool - {h})
  {
    hide Taken;
  }

  lemma MadeStays(defs: Definitions, s: State, t: State, u: State, a: Ask, m: map<SubId, NotifId>)
    requires Made(defs, s, t, a, m) && u == t.(pool := u.pool, triggered := u.triggered)
    ensures Made(defs, s, u, a, m)
  {
    hide PendingRows;
  }

  lemma PageQueues(defs: Definitions, t: State, h: Handle, g: Handle, a: Ask, m: map<SubId, NotifId>)
    requires h in t.pool && g !in t.pool && t.pool[h] == BroadcastRun(a.env, a.wf, a.tx, [], m) && m != map[]
    ensures Do(defs, t, Act(h, g, Go)) ==
      t.(pool := t.pool[h := BroadcastRun(a.env, a.wf, a.tx, [], map[])][g := TriggerTask(a.env, a.wf, m)],
          triggered := t.triggered + [m])
  {
  }

  /** A broadcast page over any subscribers creates a notification for each of those that lack
      one of its transaction and are not refused by the store, passes over the others, and hands the created ones
      out in one trigger task, if there are any. */
  lemma PageCompletes(defs: Definitions, s: State, h: Handle, a: Ask, subs: seq<SubId>, refused: set<SubId>,
                      ids: seq<NotifId>)
    returns (actions: seq<Action>, m: map<SubId, NotifId>, g: Handle)
    requires h in s.pool && s.pool[h] == BroadcastRun(a.env, a.wf, a.tx, subs, map[]) && FreshIds(s, subs, ids)
    ensures OnlyActs(actions, h) && g !in s.pool
    ensures m.Keys == Missing(s, a, subs) - refused && forall i :: 0 <= i < |subs| && subs[i] in m ==>
      m[subs[i]] == ids[i]
    ensures var t, ready := RunFrom(defs, s, actions), s.pool[h := BroadcastRun(a.env, a.wf, a.tx, [], map[])];
      && Made(defs, s, t, a, m)
      && (if m == map[] then t.pool == ready && t.triggered == s.triggered
          else t.pool == ready[g := TriggerTask(a.env, a.wf, m)] && t.triggered == s.triggered + [m])
  {
    hide RunFrom, Do, Missing, Made;
    actions, m := TakenUp(defs, s, h, false, a, subs, refused, ids);
    var t := RunFrom(defs, s, actions);
    g := FreeHandle(t.pool);
    if m != map[] {
      OneMore(defs, s, actions, Act(h, g, Go));
      actions := actions + [Act(h, g, Go)];
      PageQueues(defs, t, h, g, a, m);
      MadeStays(defs, s, t, Do(defs, t, Act(h, g, Go)), a, m);
    }
  }

  // ---------------------------------------------------------------------------------
  // Entries
  // ---------------------------------------------------------------------------------

  /** The item works for one subscriber in one environment and workflow, and touches no other
      subscriber's digest list. */
  predicate WorksFor(it: Item, env: EnvId, wf: WfId, sub: SubId) {
    match it
    case StepRun(e, w, x, _, _, _) => e == env && w == wf && x == sub
    case Schedule(key) => key.env == env && key.wf == wf && key.sub == sub
    case DigestTask(key) => key.env == env && key.wf == wf && key.sub == sub
    case Drain(key, _) => key.env == env && key.wf == wf && key.sub == sub
    case Drained(key, _) => key.env == env && key.wf == wf && key.sub == sub
    case DelayTask(_, _, _) => true
    case Resume(_, _, _) => true
    case _ => false
  }

  /** The digest lists of all other subscribers are as they were. */
  ghost predicate OtherListsStay(s: State, t: State, sub: SubId) {
    forall key: DigestKey :: key.sub != sub ==> ListAt(t.lists, key) == ListAt(s.lists, key)
  }

  /** Every other item is where it was, and so are the lists of all other subscribers. */
  ghost predicate LeavesRest(s: State, t: State, h: Handle, sub: SubId) {
    && (forall g :: g in s.pool && g != h ==> g in t.pool && t.pool[g] == s.pool[g])
    && OtherListsStay(s, t, sub)
    && t.notifs == s.notifs && t.born == s.born && t.triggered == s.triggered
  }

  /** The item's next operation leaves it working for the subscriber and all else alone. */
  ghost predicate KeepsToItself(s: State, e: Effect, env: EnvId, wf: WfId, sub: SubId) {
    && (e.keep.Some? ==> WorksFor(e.keep.value, env, wf, sub)) && OtherListsStay(s, e.rest, sub)
    && e.rest.notifs == s.notifs && e.rest.born == s.born && e.rest.triggered == s.triggered && e.rest.pool == s.pool
  }

  lemma StepLeavesRest(s: State, it: Item, env: EnvId, wf: WfId, sub: SubId)
    requires it.StepRun? && WorksFor(it, env, wf, sub)
    ensures KeepsToItself(s, ReactStep(s, it, Go), env, wf, sub)
  {
    hide IsPlan;
  }

  lemma ReactionLeavesRest(defs: Definitions, s: State, it: Item, env: EnvId, wf: WfId, sub: SubId)
    requires WorksFor(it, env, wf, sub)
    ensures KeepsToItself(s, React(defs, s, it, Go), env, wf, sub)
  {
    if it.StepRun? { StepLeavesRest(s, it, env, wf, sub); }
    hide ReactStep, ReactCall, ReactBroadcast, SetStatus, Evaluates;
  }

  lemma WorkLeavesRest(defs: Definitions, s: State, h: Handle, f: Handle, env: EnvId, wf: WfId, sub: SubId)
    requires h in s.pool ==> WorksFor(s.pool[h], env, wf, sub)
    ensures var t := Do(defs, s, Act(h, f, Go));
      LeavesRest(s, t, h, sub) && (h in t.pool ==> WorksFor(t.pool[h], env, wf, sub))
  {
    if h in s.pool && f !in s.pool { ReactionLeavesRest(defs, s, s.pool[h], env, wf, sub); }
    hide React, WorksFor, OtherListsStay;
  }

  lemma {:induction false} WorkedAlone(defs: Definitions, s: State, h: Handle, actions: seq<Action>, env: EnvId,
                                       wf: WfId, sub: SubId)
    requires Undisturbed(actions, h) && h in s.pool && WorksFor(s.pool[h], env, wf, sub)
    ensures var t := RunFrom(defs, s, actions);
      LeavesRest(s, t, h, sub) && (h in t.pool ==> WorksFor(t.pool[h], env, wf, sub))
    decreases |actions|
  {
    if actions != [] {
      hide Do, WorksFor, LeavesRest;
      var n := |actions| - 1;
      assert actions[n] in actions && forall a :: a in actions[..n] ==> a in actions;
      WorkedAlone(defs, s, h, actions[..n], env, wf, sub);
      WorkLeavesRest(defs, RunFrom(defs, s, actions[..n]), h, actions[n].slot, env, wf, sub);
      StillLeavesRest(s, RunFrom(defs, s, actions[..n]), RunFrom(defs, s, actions), h, sub);
    } else {
      NothingLeavesRest(s, h, sub);
    }
  }

  lemma StillLeavesRest(s: State, t: State, u: State, h: Handle, sub: SubId)
    requires LeavesRest(s, t, h, sub) && LeavesRest(t, u, h, sub)
    ensures LeavesRest(s, u, h, sub)
  {
    hide ListAt;
  }

  lemma NothingLeavesRest(s: State, h: Handle, sub: SubId)
    ensures LeavesRest(s, s, h, sub)
  {
  }

  /** Every entry's plan is an evaluation, and no entry's subscriber is on a digest list. */
  ghost predicate Ready(defs: Definitions, s: State, env: EnvId, wf: WfId, entries: map<SubId, NotifId>,
                        plans: map<SubId, seq<Planned>>) {
    && (forall x :: x in entries ==> x in plans && Evaluates(defs, wf, plans[x]))
    && (forall key: DigestKey :: key.sub in entries ==> ListAt(s.lists, key) == [])
  }

  /** The deliveries of some entries: each one's own notification, at the steps its workflow
      run delivers. */
  ghost predicate Delivers(defs: Definitions, wf: WfId, entries: map<SubId, NotifId>, plans: map<SubId, seq<Planned>>,
                           out: seq<(NotifId, nat)>) {
    && (forall x :: x in entries ==> x in plans && IsPlan(StepsOf(defs, wf), plans[x]))
    && (forall x, k :: x in entries && k in Delivered(StepsOf(defs, wf), plans[x]) ==> (entries[x], k) in out)
    && (forall n, k :: (n, k) in out ==> exists x ::
        x in entries && n == entries[x] && k in Delivered(StepsOf(defs, wf), plans[x]))
  }

  lemma NothingToDeliver(defs: Definitions, s: State, wf: WfId, plans: map<SubId, seq<Planned>>)
    ensures RunFrom(defs, s, []).enqueued == s.enqueued + [] && Delivers(defs, wf, map[], plans, [])
  {
  }

  lemma DeliversOneMore(defs: Definitions, wf: WfId, entries: map<SubId, NotifId>, plans: map<SubId, seq<Planned>>,
                        x: SubId, out: seq<(NotifId, nat)>)
    requires x in entries && x in plans && IsPlan(StepsOf(defs, wf), plans[x])
    requires Delivers(defs, wf, entries - {x}, plans, out)
    ensures Delivers(defs, wf, entries, plans, Pairs(entries[x], Delivered(StepsOf(defs, wf), plans[x])) + out)
  {
    hide Delivered;
    var own := Delivered(StepsOf(defs, wf), plans[x]);
    var pairs := Pairs(entries[x], own);
    forall k | k in own ensures (entries[x], k) in pairs {
      var i :| 0 <= i < |own| && own[i] == k;
      assert pairs[i] == (entries[x], k);
    }
    forall y, k | y in entries && k in Delivered(StepsOf(defs, wf), plans[y]) ensures (entries[y], k) in pairs + out {
      if y != x { assert y in entries - {x}; }
    }
    forall n, k | (n, k) in pairs + out
      ensures exists y :: y in entries && n == entries[y] && k in Delivered(StepsOf(defs, wf), plans[y])
    {
      if (n, k) !in pairs {
        var y :| y in entries - {x} && n == (entries - {x})[y] && k in Delivered(StepsOf(defs, wf), plans[y]);
        assert y in entries && entries[y] == n;
      }
    }
  }

  /** An entry is taken up by a step loop of its own. */
  lemma EntryOpens(defs: Definitions, s: State, h: Handle, f: Handle, x: SubId, plan: seq<Planned>)
    requires h in s.pool && f !in s.pool && s.pool[h].TriggerRun? && x in s.pool[h].entries
      && Evaluates(defs, s.pool[h].wf, plan)
    ensures var it := s.pool[h];
      Do(defs, s, Act(h, f, Entry(x, plan))) ==
        s.(pool := s.pool[h := TriggerRun(it.env, it.wf, it.entries - {x})]
                       [f := StepRun(it.env, it.wf, x, it.entries[x], plan, 0)])
  {
    hide Evaluates;
  }

  /** One entry: its step loop, and what follows, deliver its run's steps and leave the others
      to come. */
  lemma EntryDelivers(defs: Definitions, s: State, h: Handle, env: EnvId, wf: WfId, entries: map<SubId, NotifId>,
                      plans: map<SubId, seq<Planned>>, x: SubId) returns (actions: seq<Action>)
    requires h in s.pool && s.pool[h] == TriggerRun(env, wf, entries) && x in entries
      && Ready(defs, s, env, wf, entries, plans)
    ensures x in plans && IsPlan(StepsOf(defs, wf), plans[x]) && |plans[x]| == |StepsOf(defs, wf)|
    ensures var t := RunFrom(defs, s, actions);
      && t.enqueued == s.enqueued + Pairs(entries[x], Delivered(StepsOf(defs, wf), plans[x]))
      && h in t.pool && t.pool[h] == TriggerRun(env, wf, entries - {x})
      && Ready(defs, t, env, wf, entries - {x}, plans)
  {
    hide Do, RunFrom, Pairs, Delivered, Evaluates, IsPlan, Ready;
    var f := FreeHandle(s.pool);
    ReadyFor(defs, s, env, wf, entries, plans, x);
    EntryOpens(defs, s, h, f, x, plans[x]);
    var a := Act(h, f, Entry(x, plans[x]));
    var s1 := Do(defs, s, a);
    var first := UninterruptedRun(defs, s1, f);
    WorkedAlone(defs, s1, f, first, env, wf, x);
    ReadyStays(defs, s, s1, RunFrom(defs, s1, first), f, env, wf, entries, plans, x);
    actions := [a] + first;
    FirstStep(defs, s, a, first);
  }

  /** A trigger handler whose entries are left to themselves delivers, for each of its entries,
      exactly the steps that entry's run delivers, to that entry's notification. */
  lemma {:induction false} EntriesDeliver(defs: Definitions, s: State, h: Handle, env: EnvId, wf: WfId,
                                          entries: map<SubId, NotifId>,
                                          plans: map<SubId, seq<Planned>>)
    returns (actions: seq<Action>, out: seq<(NotifId, nat)>)
    requires h in s.pool && s.pool[h] == TriggerRun(env, wf, entries) && Ready(defs, s, env, wf, entries, plans)
    ensures RunFrom(defs, s, actions).enqueued == s.enqueued + out && Delivers(defs, wf, entries, plans, out)
    decreases |entries|
  {
    hide Do, RunFrom, Delivered, IsPlan, Ready, Pairs, Delivers;
    if entries == map[] {
      actions, out := [], [];
      NothingToDeliver(defs, s, wf, plans);
    } else {
      var x :| x in entries;
      var first := EntryDelivers(defs, s, h, env, wf, entries, plans, x);
      var t := RunFrom(defs, s, first);
      var rest, more := EntriesDeliver(defs, t, h, env, wf, entries - {x}, plans);
      DeliversOneMore(defs, wf, entries, plans, x, more);
      RunFromConcat(defs, s, first, rest);
      var own := Pairs(entries[x], Delivered(StepsOf(defs, wf), plans[x]));
      actions, out := first + rest, own + more;
      assert (s.enqueued + own) + more == s.enqueued + (own + more);
    }
  }

  lemma ReadyFor(defs: Definitions, s: State, env: EnvId, wf: WfId, entries: map<SubId, NotifId>,
                 plans: map<SubId, seq<Planned>>, x: SubId)
    requires Ready(defs, s, env, wf, entries, plans) && x in entries
    ensures x in plans && Evaluates(defs, wf, plans[x]) && IsPlan(StepsOf(defs, wf), plans[x])
      && |plans[x]| == |StepsOf(defs, wf)|
    ensures forall key: DigestKey :: key.sub == x ==> ListAt(s.lists, key) == []
  {
  }

  lemma ReadyStays(defs: Definitions, s: State, s1: State, s2: State, f: Handle, env: EnvId, wf: WfId,
                   entries: map<SubId, NotifId>, plans: map<SubId, seq<Planned>>, x: SubId)
    requires Ready(defs, s, env, wf, entries, plans) && s1.lists == s.lists && LeavesRest(s1, s2, f, x)
    ensures Ready(defs, s2, env, wf, entries - {x}, plans)
  {
    hide Evaluates;
  }

  /** A request whose recipients all lack a notification of its transaction, and are on no digest
      list, is served when nothing fails: each recipient has a pending notification of its own,
      all of them are in one trigger task, and exactly the steps each one's run delivers are
      enqueued for it. */
  lemma RequestDelivers(defs: Definitions, s: State, h: Handle, a: Ask, subs: seq<SubId>, ids: seq<NotifId>,
                        plans: map<SubId, seq<Planned>>)
    returns (actions: seq<Action>, m: map<SubId, NotifId>, out: seq<(NotifId, nat)>)
    requires h in s.pool && s.pool[h] == Call(a.env, a.wf, a.tx, subs, map[]) && FreshIds(s, subs, ids)
    requires forall x :: x in subs ==> x in Missing(s, a, subs) && x in plans && Evaluates(defs, a.wf, plans[x])
    requires forall key: DigestKey :: key.sub in subs ==> ListAt(s.lists, key) == []
    ensures m.Keys == (set x | x in subs) && forall i :: 0 <= i < |subs| ==> m[subs[i]] == ids[i]
    ensures RunFrom(defs, s, actions).enqueued == s.enqueued + out && Delivers(defs, a.wf, m, plans, out)
  {
    hide Missing, FreshIds, Delivers, Do, RunFrom, Evaluates;
    var first;
    first, m := CallCompletes(defs, s, h, a, subs, ids);
    var t := RunFrom(defs, s, first);
    assert t.enqueued == s.enqueued && t.lists == s.lists;
    var f := FreeHandle(t.pool);
    var u := Do(defs, t, Act(h, f, Go));
    TaskOpens(defs, t, h, f, a, m);
    OneMore(defs, s, first, Act(h, f, Go));
    var rest;
    rest, out := EntriesDeliver(defs, u, h, a.env, a.wf, m, plans);
    RunFromConcat(defs, s, first + [Act(h, f, Go)], rest);
    actions := first + [Act(h, f, Go)] + rest;
  }

  lemma TaskOpens(defs: Definitions, t: State, h: Handle, f: Handle, a: Ask, m: map<SubId, NotifId>)
    requires h in t.pool && f !in t.pool && t.pool[h] == TriggerTask(a.env, a.wf, m)
    ensures Do(defs, t, Act(h, f, Go)) == t.(pool := t.pool[h := TriggerRun(a.env, a.wf, m)])
  {
  }

  // ---------------------------------------------------------------------------------
  // Whole broadcasts
  // ---------------------------------------------------------------------------------

  /** The subscriber has a notification of the transaction. */
  ghost predicate Has(s: State, a: Ask, x: SubId) {
    exists n :: n in s.notifs && s.notifs[n].env == a.env && s.notifs[n].tx == a.tx && s.notifs[n].sub == x
  }

  predicate OnPage(pages: seq<seq<SubId>>, x: SubId) {
    exists p :: 0 <= p < |pages| && x in pages[p]
  }

  /** The maps hold exactly the subscribers of the pages that lacked a notification, each in one
      map. */
  ghost predicate HandedOut(s: State, a: Ask, pages: seq<seq<SubId>>, maps: seq<map<SubId, NotifId>>) {
    && (forall i, x :: 0 <= i < |maps| && x in maps[i] ==> !Has(s, a, x) && OnPage(pages, x))
    && (forall x :: OnPage(pages, x) && !Has(s, a, x) ==> exists i :: 0 <= i < |maps| && x in maps[i])
    && (forall i, j, x :: 0 <= i < j < |maps| && x in maps[i] ==> x !in maps[j])
  }

  /** Each map is of new pending notifications, and waits in a trigger task that was queued
      since s. */
  ghost predicate WaitsIn(defs: Definitions, s: State, t: State, a: Ask, m: map<SubId, NotifId>) {
    && (forall x :: x in m ==> m[x] !in s.born && m[x] in t.notifs)
    && (forall x :: x in m ==> t.notifs[m[x]] == Notification(a.env, a.tx, x, a.wf, PendingRows(StepsOf(defs, a.wf))))
    && exists g :: g in t.pool && g !in s.pool && t.pool[g] == TriggerTask(a.env, a.wf, m)
  }

  /** Everything there was is still there, but for the item under h. */
  ghost predicate Grown(s: State, t: State, h: Handle) {
    && (forall g :: g in s.pool && g != h ==> g in t.pool && t.pool[g] == s.pool[g])
    && (forall n :: n in s.notifs ==> n in t.notifs && t.notifs[n] == s.notifs[n])
    && s.born.Keys <= t.born.Keys && (forall n :: n in t.notifs ==> n in t.born)
    && t.enqueued == s.enqueued && t.lists == s.lists
  }

  /** From s to t a broadcast has served some pages: exactly their subscribers have got
      notifications; those that lacked one are handed out, each once, by trigger tasks that are
      queued in t; everything else stays. */
  ghost predicate Served(defs: Definitions, s: State, t: State, h: Handle, a: Ask, pages: seq<seq<SubId>>,
                         maps: seq<map<SubId, NotifId>>) {
    && (forall x :: Has(t, a, x) <==> Has(s, a, x) || OnPage(pages, x))
    && HandedOut(s, a, pages, maps)
    && (forall m :: m in maps ==> WaitsIn(defs, s, t, a, m))
    && Grown(s, t, h) && t.triggered == s.triggered + maps
  }

  /** New ids for a page. */
  lemma NewIdsFor(s: State, n: nat) returns (ids: seq<NotifId>)
    ensures |ids| == n && NoRepeats(ids) && forall i :: 0 <= i < n ==> ids[i] !in s.born
  {
    var first := Above(s.born.Keys);
    ids := seq(n, i requires 0 <= i < n => first + i);
  }

  lemma MissingIs(s: State, a: Ask, subs: seq<SubId>)
    ensures forall x :: x in Missing(s, a, subs) <==> x in subs && !Has(s, a, x)
  {
  }

  lemma OnOneMore(pages: seq<seq<SubId>>, page: seq<SubId>)
    ensures forall x :: OnPage(pages + [page], x) <==> OnPage(pages, x) || x in page
  {
    var all := pages + [page];
    assert all[|pages|] == page;
    forall x | OnPage(pages, x) ensures OnPage(all, x) {
      var p :| 0 <= p < |pages| && x in pages[p];
      assert all[p] == pages[p];
    }
  }

  lemma HasAfter(defs: Definitions, t: State, u: State, a: Ask, page: seq<SubId>, m: map<SubId, NotifId>)
    requires Made(defs, t, u, a, m) && m.Keys == Missing(t, a, page)
    ensures forall x :: Has(u, a, x) <==> Has(t, a, x) || x in page
  {
    MissingIs(t, a, page);
    hide Missing, PendingRows;
    forall x | Has(t, a, x) ensures Has(u, a, x) {
      var n :| n in t.notifs && t.notifs[n].env == a.env && t.notifs[n].tx == a.tx && t.notifs[n].sub == x;
      assert u.notifs[n] == t.notifs[n];
    }
    forall x | x in m ensures Has(u, a, x) {
      assert u.notifs[m[x]].sub == x;
    }
    forall x | Has(u, a, x) && !Has(t, a, x) ensures x in page {
      var n :| n in u.notifs && u.notifs[n].env == a.env && u.notifs[n].tx == a.tx && u.notifs[n].sub == x;
      assert n !in t.notifs && n in m.Values;
    }
  }

  lemma HandsOutPage(s: State, t: State, a: Ask, pages: seq<seq<SubId>>, page: seq<SubId>,
                     maps: seq<map<SubId, NotifId>>, m: map<SubId, NotifId>)
    requires HandedOut(s, a, pages, maps) && m.Keys == Missing(t, a, page)
    requires forall x :: Has(t, a, x) <==> Has(s, a, x) || OnPage(pages, x)
    ensures HandedOut(s, a, pages + [page], if m == map[] then maps else maps + [m])
  {
    MissingIs(t, a, page);
    OnOneMore(pages, page);
    hide Missing, Has, OnPage;
    var all := if m == map[] then maps else maps + [m];
    assert forall i :: 0 <= i < |maps| ==> all[i] == maps[i];
    forall x | OnPage(pages + [page], x) && !Has(s, a, x) ensures exists i :: 0 <= i < |all| && x in all[i] {
      if OnPage(pages, x) {
        var i :| 0 <= i < |maps| && x in maps[i];
        assert x in all[i];
      } else {
        assert x in m && all[|maps|] == m;
      }
    }
  }

  lemma StillWaits(defs: Definitions, s: State, t: State, u: State, h: Handle, a: Ask, m: map<SubId, NotifId>)
    requires WaitsIn(defs, s, t, a, m) && h in s.pool && Grown(t, u, h)
    ensures WaitsIn(defs, s, u, a, m)
  {
    hide PendingRows;
  }

  lemma GrownFurther(s: State, t: State, u: State, h: Handle)
    requires Grown(s, t, h) && Grown(t, u, h) && h in s.pool
    ensures Grown(s, u, h)
  {
  }

  /** One more page. */
  lemma ServesPage(defs: Definitions, s: State, t: State, u: State, h: Handle, a: Ask, pages: seq<seq<SubId>>,
                   page: seq<SubId>,
                   maps: seq<map<SubId, NotifId>>, m: map<SubId, NotifId>)
    requires Served(defs, s, t, h, a, pages, maps) && Made(defs, t, u, a, m) && h in s.pool && Grown(t, u, h)
    requires m.Keys == Missing(t, a, page)
    requires if m == map[] then u.triggered == t.triggered
      else WaitsIn(defs, s, u, a, m) && u.triggered == t.triggered + [m]
    ensures Served(defs, s, u, h, a, pages + [page], if m == map[] then maps else maps + [m])
  {
    HandsOutPage(s, t, a, pages, page, maps, m);
    HasNow(defs, s, t, u, a, pages, page, m);
    GrownFurther(s, t, u, h);
    hide Has, OnPage, HandedOut, Made, Missing, WaitsIn, Grown;
    if m == map[] {
      AllStillWait(defs, s, t, u, h, a, maps);
    } else {
      AllStillWait(defs, s, t, u, h, a, maps);
      assert (s.triggered + maps) + [m] == s.triggered + (maps + [m]);
    }
  }

  lemma HasNow(defs: Definitions, s: State, t: State, u: State, a: Ask, pages: seq<seq<SubId>>, page: seq<SubId>,
               m: map<SubId, NotifId>)
    requires Made(defs, t, u, a, m) && m.Keys == Missing(t, a, page)
    requires forall x :: Has(t, a, x) <==> Has(s, a, x) || OnPage(pages, x)
    ensures forall x :: Has(u, a, x) <==> Has(s, a, x) || OnPage(pages + [page], x)
  {
    HasAfter(defs, t, u, a, page, m);
    OnOneMore(pages, page);
    hide Has, OnPage, Made, Missing;
  }

  lemma AllStillWait(defs: Definitions, s: State, t: State, u: State, h: Handle, a: Ask, maps: seq<map<SubId, NotifId>>)
    requires h in s.pool && Grown(t, u, h) && forall m :: m in maps ==> WaitsIn(defs, s, t, a, m)
    ensures forall m :: m in maps ==> WaitsIn(defs, s, u, a, m)
  {
    hide WaitsIn, Grown;
    forall m | m in maps ensures WaitsIn(defs, s, u, a, m) { StillWaits(defs, s, t, u, h, a, m); }
  }

  /** A broadcast handler works through its pages. */
  lemma {:induction false} PagesServed(defs: Definitions, s: State, h: Handle, a: Ask, pages: seq<seq<SubId>>)
    returns (actions: seq<Action>, maps: seq<map<SubId, NotifId>>)
    requires h in s.pool && s.pool[h] == BroadcastRun(a.env, a.wf, a.tx, [], map[]) && forall n :: n in s.notifs ==>
      n in s.born
    requires forall p :: p in pages ==> p != [] && NoRepeats(p)
    ensures OnlyActs(actions, h)
    ensures var t := RunFrom(defs, s, actions);
      Served(defs, s, t, h, a, pages, maps) && h in t.pool && t.pool[h] == BroadcastRun(a.env, a.wf, a.tx, [], map[])
  {
    if pages == [] {
      actions, maps := [], [];
    } else {
      hide Do, Served;
      var n := |pages| - 1;
      assert pages == pages[..n] + [pages[n]];
      assert pages[n] in pages && forall p :: p in pages[..n] ==> p in pages;
      actions, maps := PagesServed(defs, s, h, a, pages[..n]);
      var t := RunFrom(defs, s, actions);
      var more, m := PageServed(defs, s, t, h, a, pages[..n], pages[n], maps);
      RunFromConcat(defs, s, actions, more);
      actions, maps := actions + more, if m == map[] then maps else maps + [m];
    }
  }

  lemma PageServed(defs: Definitions, s: State, t: State, h: Handle, a: Ask, pages: seq<seq<SubId>>, page: seq<SubId>,
                   maps: seq<map<SubId, NotifId>>)
    returns (actions: seq<Action>, m: map<SubId, NotifId>)
    requires h in s.pool && h in t.pool && Served(defs, s, t, h, a, pages, maps)
    requires t.pool[h] == BroadcastRun(a.env, a.wf, a.tx, [], map[]) && page != [] && NoRepeats(page)
    ensures OnlyActs(actions, h)
    ensures var u := RunFrom(defs, t, actions);
      && Served(defs, s, u, h, a, pages + [page], if m == map[] then maps else maps + [m])
      && h in u.pool && u.pool[h] == BroadcastRun(a.env, a.wf, a.tx, [], map[])
  {
    hide Made, Missing, RunFrom, WaitsIn, Grown, HandedOut, Has, OnPage;
    actions, m := PageRuns(defs, s, t, h, a, page);
    hide Served;
    ServesPage(defs, s, t, RunFrom(defs, t, actions), h, a, pages, page, maps, m);
  }

  lemma PageRuns(defs: Definitions, s: State, t: State, h: Handle, a: Ask, page: seq<SubId>)
    returns (actions: seq<Action>, m: map<SubId, NotifId>)
    requires h in s.pool && h in t.pool && Grown(s, t, h)
    requires t.pool[h] == BroadcastRun(a.env, a.wf, a.tx, [], map[]) && page != [] && NoRepeats(page)
    ensures OnlyActs(actions, h) && m.Keys == Missing(t, a, page)
    ensures var u := RunFrom(defs, t, actions);
      && Made(defs, t, u, a, m) && Grown(t, u, h) && h in u.pool
          && u.pool[h] == BroadcastRun(a.env, a.wf, a.tx, [], map[])
      && if m == map[] then u.triggered == t.triggered
         else WaitsIn(defs, s, u, a, m) && u.triggered == t.triggered + [m]
  {
    hide Made, Missing, FreshIds, RunFrom, Do, WaitsIn, Grown, NoRepeats;
    var f := FreeHandle(t.pool);
    var first := Act(h, f, Page(page));
    PageTurns(defs, t, h, f, a, page);
    var t1 := Do(defs, t, first);
    var rest;
    rest, m := TurnedPageRuns(defs, s, t, t1, h, a, page);
    actions := [first] + rest;
    FirstStep(defs, t, first, rest);
  }

  lemma TurnedPageRuns(defs: Definitions, s: State, t: State, t1: State, h: Handle, a: Ask, page: seq<SubId>)
    returns (actions: seq<Action>, m: map<SubId, NotifId>)
    requires h in s.pool && h in t.pool && Grown(s, t, h) && NoRepeats(page)
    requires t1 == t.(pool := t.pool[h := BroadcastRun(a.env, a.wf, a.tx, page, map[])])
    ensures OnlyActs(actions, h) && m.Keys == Missing(t, a, page)
    ensures var u := RunFrom(defs, t1, actions);
      && Made(defs, t, u, a, m) && Grown(t, u, h) && h in u.pool
          && u.pool[h] == BroadcastRun(a.env, a.wf, a.tx, [], map[])
      && if m == map[] then u.triggered == t.triggered
         else WaitsIn(defs, s, u, a, m) && u.triggered == t.triggered + [m]
  {
    var ids := IdsForPage(t1, page);
    hide Made, Missing, FreshIds, RunFrom, WaitsIn, Grown, NoRepeats;
    var g;
    actions, m, g := PageCompletes(defs, t1, h, a, page, {}, ids);
    PageGrows(defs, s, t, t1, RunFrom(defs, t1, actions), h, a, page, ids, m, g);
  }

  lemma IdsForPage(t: State, page: seq<SubId>) returns (ids: seq<NotifId>)
    requires NoRepeats(page) && forall n :: n in t.notifs ==> n in t.born
    ensures FreshIds(t, page, ids)
  {
    ids := NewIdsFor(t, |page|);
  }

  lemma PageTurns(defs: Definitions, t: State, h: Handle, f: Handle, a: Ask, page: seq<SubId>)
    requires h in t.pool && f !in t.pool && t.pool[h] == BroadcastRun(a.env, a.wf, a.tx, [], map[]) && page != []
    ensures Do(defs, t, Act(h, f, Page(page))) == t.(pool := t.pool[h := BroadcastRun(a.env, a.wf, a.tx, page, map[])])
  {
  }

  lemma PageGrows(defs: Definitions, s: State, t: State, t1: State, u: State, h: Handle, a: Ask, page: seq<SubId>,
                  ids: seq<NotifId>,
                  m: map<SubId, NotifId>, g: Handle)
    requires h in s.pool && h in t.pool && Grown(s, t, h) && g !in t1.pool && Made(defs, t1, u, a, m)
    requires t1 == t.(pool := t.pool[h := BroadcastRun(a.env, a.wf, a.tx, page, map[])]) && FreshIds(t1, page, ids)
    requires m.Keys == Missing(t1, a, page) && forall i :: 0 <= i < |page| && page[i] in m ==> m[page[i]] == ids[i]
    requires var ready := t1.pool[h := BroadcastRun(a.env, a.wf, a.tx, [], map[])];
      u.pool == if m == map[] then ready else ready[g := TriggerTask(a.env, a.wf, m)]
    ensures Made(defs, t, u, a, m) && m.Keys == Missing(t, a, page) && Grown(t, u, h)
    ensures m != map[] ==> WaitsIn(defs, s, u, a, m)
  {
    NewInMap(t1, a, page, ids, m);
    SameMissing(t, t1, a, page);
    MadeFrom(defs, t, t1, u, a, m);
    hide FreshIds, Missing, Made, PendingRows;
    if m != map[] {
      assert g in u.pool && g !in s.pool && u.pool[g] == TriggerTask(a.env, a.wf, m);
      PageWaits(defs, s, t, u, h, a, m, g);
    }
    PageKeeps(defs, t, u, h, a, m);
  }

  lemma PageWaits(defs: Definitions, s: State, t: State, u: State, h: Handle, a: Ask, m: map<SubId, NotifId>, g: Handle)
    requires Grown(s, t, h) && Made(defs, t, u, a, m) && forall x :: x in m ==> m[x] !in t.born
    requires g in u.pool && g !in s.pool && u.pool[g] == TriggerTask(a.env, a.wf, m)
    ensures WaitsIn(defs, s, u, a, m)
  {
    hide PendingRows;
  }

  lemma PageKeeps(defs: Definitions, t: State, u: State, h: Handle, a: Ask, m: map<SubId, NotifId>)
    requires Made(defs, t, u, a, m) && (forall g :: g in t.pool && g != h ==> g in u.pool && u.pool[g] == t.pool[g])
    requires forall n :: n in t.notifs ==> n in t.born
    ensures Grown(t, u, h)
  {
    hide PendingRows;
  }

  lemma SameMissing(t: State, t1: State, a: Ask, page: seq<SubId>)
    requires t1.notifs == t.notifs
    ensures Missing(t1, a, page) == Missing(t, a, page)
  {
  }

  lemma MadeFrom(defs: Definitions, t: State, t1: State, u: State, a: Ask, m: map<SubId, NotifId>)
    requires t1 == t.(pool := t1.pool) && Made(defs, t1, u, a, m)
    ensures Made(defs, t, u, a, m)
  {
    hide PendingRows;
  }

  lemma NewInMap(t: State, a: Ask, page: seq<SubId>, ids: seq<NotifId>, m: map<SubId, NotifId>)
    requires FreshIds(t, page, ids) && m.Keys == Missing(t, a, page)
    requires forall i :: 0 <= i < |page| && page[i] in m ==> m[page[i]] == ids[i]
    ensures forall x :: x in m ==> m[x] !in t.born
  {
    forall x | x in m ensures m[x] !in t.born {
      assert x in page;
      var i :| 0 <= i < |page| && page[i] == x;
      assert m[page[i]] == ids[i];
    }
  }

  /** A broadcast over any pages serves exactly their subscribers: each of them ends with a
      notification of the transaction; those that lacked one are handed out, each once, by the
      trigger tasks the broadcast queued, and the handler is done. */
  lemma BroadcastCompletes(defs: Definitions, s: State, h: Handle, a: Ask, pages: seq<seq<SubId>>)
    returns (actions: seq<Action>, maps: seq<map<SubId, NotifId>>)
    requires h in s.pool && s.pool[h] == BroadcastTask(a.env, a.wf, a.tx) && forall n :: n in s.notifs ==> n in s.born
    requires forall p :: p in pages ==> p != [] && NoRepeats(p)
    ensures OnlyActs(actions, h)
    ensures var t := RunFrom(defs, s, actions); Served(defs, s, t, h, a, pages, maps) && h !in t.pool
  {
    var f := FreeHandle(s.pool);
    var first := Act(h, f, Go);
    var s1 := Do(defs, s, first);
    assert s1 == s.(pool := s.pool[h := BroadcastRun(a.env, a.wf, a.tx, [], map[])]);
    var rest;
    rest, maps := PagesServed(defs, s1, h, a, pages);
    var t := RunFrom(defs, s1, rest);
    FirstStep(defs, s, first, rest);
    var g := FreeHandle(t.pool);
    var last := Act(h, g, Page([]));
    OneMore(defs, s, [first] + rest, last);
    actions := [first] + rest + [last];
    LastPage(defs, s, s1, t, h, g, a, pages, maps);
  }

  lemma SameHas(s: State, t: State, a: Ask)
    requires t.notifs == s.notifs
    ensures forall x :: Has(t, a, x) <==> Has(s, a, x)
  {
  }

  lemma LastPage(defs: Definitions, s: State, s1: State, t: State, h: Handle, g: Handle, a: Ask, pages: seq<seq<SubId>>,
                 maps: seq<map<SubId, NotifId>>)
    requires h in s.pool && s1 == s.(pool := s1.pool) && s1.pool.Keys == s.pool.Keys && forall x ::
      x in s.pool && x != h ==> s1.pool[x] == s.pool[x]
    requires Served(defs, s1, t, h, a, pages, maps) && h in t.pool && g !in t.pool
      && t.pool[h] == BroadcastRun(a.env, a.wf, a.tx, [], map[])
    ensures var u := Do(defs, t, Act(h, g, Page([]))); Served(defs, s, u, h, a, pages, maps) && h !in u.pool
  {
    hide PendingRows, OnPage;
    var u := Do(defs, t, Act(h, g, Page([])));
    assert u == t.(pool := t.pool - {h});
    SameHas(s, s1, a);
    SameHas(t, u, a);
    hide Has;
    assert HandedOut(s, a, pages, maps);
    forall m | m in maps ensures WaitsIn(defs, s, u, a, m) {
      var k :| k in t.pool && k !in s1.pool && t.pool[k] == TriggerTask(a.env, a.wf, m);
      assert k in u.pool && k !in s.pool;
    }
  }

  /** A broadcast that fails in the middle of a page is re-run from the start. The re-run leaves
      every subscriber of its pages with a notification; it passes over those the failed attempt
      had created but not handed out yet, so no trigger task ever hands these out. */
  lemma BroadcastReruns(defs: Definitions, s: State, h: Handle, f: Handle, a: Ask, todo: seq<SubId>,
                        made: map<SubId, NotifId>, pages: seq<seq<SubId>>)
    returns (actions: seq<Action>, maps: seq<map<SubId, NotifId>>)
    requires h in s.pool && f !in s.pool && s.pool[h] == BroadcastRun(a.env, a.wf, a.tx, todo, made)
    requires forall n :: n in s.notifs ==> n in s.born
    requires forall x :: x in made ==>
      made[x] in s.notifs && s.notifs[made[x]].env == a.env && s.notifs[made[x]].tx == a.tx
      && s.notifs[made[x]].sub == x
    requires forall p :: p in pages ==> p != [] && NoRepeats(p)
    ensures OnlyActs(actions, h) && actions != [] && actions[0] == Act(h, f, Fail)
    ensures var t := RunFrom(defs, s, actions);
      && h !in t.pool && (forall x :: OnPage(pages, x) ==> Has(t, a, x))
      && t.triggered == s.triggered + maps && forall i, x :: 0 <= i < |maps| && x in maps[i] ==> x !in made
  {
    var s1 := Do(defs, s, Act(h, f, Fail));
    assert s1 == s.(pool := s.pool[h := BroadcastTask(a.env, a.wf, a.tx)]);
    hide Served, PendingRows;
    var rest;
    rest, maps := BroadcastCompletes(defs, s1, h, a, pages);
    ServedMeans(defs, s1, RunFrom(defs, s1, rest), h, a, pages, maps);
    actions := [Act(h, f, Fail)] + rest;
    FirstStep(defs, s, Act(h, f, Fail), rest);
    forall x | x in made ensures Has(s1, a, x) { assert made[x] in s1.notifs; }
  }

  lemma ServedMeans(defs: Definitions, s: State, t: State, h: Handle, a: Ask, pages: seq<seq<SubId>>,
                    maps: seq<map<SubId, NotifId>>)
    requires Served(defs, s, t, h, a, pages, maps)
    ensures forall x :: OnPage(pages, x) ==> Has(t, a, x)
    ensures t.triggered == s.triggered + maps && forall i, x :: 0 <= i < |maps| && x in maps[i] ==> !Has(s, a, x)
  {
    hide Has, OnPage, WaitsIn, Grown;
  }
}
