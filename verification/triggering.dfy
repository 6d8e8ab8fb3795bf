/** Trigger requests and broadcasts: resolving recipients, creating one notification per
    recipient under the unique index, and handing the new ids to trigger tasks. */
module Triggering {
  import opened Common
  import opened Workflows
  import opened Dispatch
  import opened Handlers

  // ---------------------------------------------------------------------------------
  // Recipients
  // ---------------------------------------------------------------------------------

  datatype Target = Target(kind: string, topicKey: string, subscriberId: string)

  /** The topic and subscriber collections; lookups of the names in `failing` err. */
  datatype Directory = Directory(topics: map<string, seq<SubId>>, subs: map<string, SubId>, failing: set<string>)

  predicate IsTopic(t: Target) { t.kind == "Topic" && t.topicKey != "" }

  predicate LookupFails(dir: Directory, t: Target) {
    if IsTopic(t) then t.topicKey in dir.failing else t.subscriberId != "" && t.subscriberId in dir.failing
  }

  /** The subscribers one target names; a missing topic or subscriber names none. */
  function Named(dir: Directory, t: Target): seq<SubId> {
    if IsTopic(t) then (if t.topicKey in dir.topics then dir.topics[t.topicKey] else [])
    else if t.subscriberId != "" && t.subscriberId in dir.subs then [dir.subs[t.subscriberId]]
    else []
  }

  function AllNamed(dir: Directory, to: seq<Target>): seq<SubId> {
    if to == [] then [] else AllNamed(dir, to[..|to| - 1]) + Named(dir, to[|to| - 1])
  }

  /** The first occurrences of a list, in order. */
  function FirstOccurrences(s: seq<SubId>): seq<SubId> {
    if s == [] then []
    else
      var n := |s| - 1;
      FirstOccurrences(s[..n]) + if s[n] in s[..n] then [] else [s[n]]
  }

  lemma {:induction false} FirstOccurrencesMembers(s: seq<SubId>)
    ensures forall x :: x in FirstOccurrences(s) <==> x in s
    ensures NoRepeats(FirstOccurrences(s))
  {
    if s != [] {
      var n := |s| - 1;
      var f := FirstOccurrences(s[..n]);
      FirstOccurrencesMembers(s[..n]);
      assert s == s[..n] + [s[n]];
      forall i | 0 <= i < |f| ensures f[i] in s[..n] { }
    }
  }

  /** x occurs in the list before any y. */
  predicate OccursFirst(s: seq<SubId>, x: SubId, y: SubId) {
    exists p :: 0 <= p < |s| && s[p] == x && y !in s[..p + 1]
  }

  lemma OccursFirstStill(s: seq<SubId>, n: nat, x: SubId, y: SubId)
    requires n <= |s| && OccursFirst(s[..n], x, y)
    ensures OccursFirst(s, x, y)
  {
    var p :| 0 <= p < n && s[..n][p] == x && y !in s[..n][..p + 1];
    assert s[..n][..p + 1] == s[..p + 1] && s[p] == x;
  }

  lemma OccursBefore(s: seq<SubId>, n: nat, x: SubId, y: SubId)
    requires n <= |s| && x in s[..n] && y !in s[..n]
    ensures OccursFirst(s, x, y)
  {
    var p :| 0 <= p < n && s[..n][p] == x;
    assert s[p] == x && forall z :: z in s[..p + 1] ==> z in s[..n];
  }

  lemma {:induction false} FirstOccurrencesOrder(s: seq<SubId>, i: nat, j: nat)
    requires i < j < |FirstOccurrences(s)|
    ensures OccursFirst(s, FirstOccurrences(s)[i], FirstOccurrences(s)[j])
  {
    var n := |s| - 1;
    var f := FirstOccurrences(s[..n]);
    FirstOccurrencesMembers(s[..n]);
    assert f[i] in f;
    hide OccursFirst;
    if j < |f| {
      FirstOccurrencesOrder(s[..n], i, j);
      OccursFirstStill(s, n, f[i], f[j]);
    } else {
      OccursBefore(s, n, f[i], s[n]);
    }
  }

  /** First occurrences are the same subscribers, each once, in the order in which they
      first occur. */
  lemma FirstOccurrencesExact(s: seq<SubId>)
    ensures forall x :: x in FirstOccurrences(s) <==> x in s
    ensures NoRepeats(FirstOccurrences(s))
    ensures forall i, j :: 0 <= i < j < |FirstOccurrences(s)| ==>
      OccursFirst(s, FirstOccurrences(s)[i], FirstOccurrences(s)[j])
  {
    FirstOccurrencesMembers(s);
    hide FirstOccurrences, OccursFirst;
    forall i, j | 0 <= i < j < |FirstOccurrences(s)|
        ensures OccursFirst(s, FirstOccurrences(s)[i], FirstOccurrences(s)[j]) {
      FirstOccurrencesOrder(s, i, j);
    }
  }

  lemma {:induction false} FirstOccurrencesAppend(s: seq<SubId>, x: SubId)
    ensures FirstOccurrences(s + [x]) == FirstOccurrences(s) + if x in s then [] else [x]
  {
    assert (s + [x])[..|s|] == s;
  }

  /** Adds the ids not seen yet, in order. */
  method Collect(ghost before: seq<SubId>, seen: set<SubId>, result: seq<SubId>, ids: seq<SubId>)
    returns (seen': set<SubId>, result': seq<SubId>)
    requires (forall x :: x in seen <==> x in before) && result == FirstOccurrences(before)
    ensures (forall x :: x in seen' <==> x in before + ids) && result' == FirstOccurrences(before + ids)
  {
    seen', result' := seen, result;
    assert before + ids[..0] == before;
    for j := 0 to |ids|
      invariant forall x :: x in seen' <==> x in before + ids[..j]
      invariant result' == FirstOccurrences(before + ids[..j])
    {
      FirstOccurrencesAppend(before + ids[..j], ids[j]);
      assert before + ids[..j + 1] == before + ids[..j] + [ids[j]];
      if ids[j] !in seen' {
        seen' := seen' + {ids[j]};
        result' := result' + [ids[j]];
      }
    }
    assert before + ids[..|ids|] == before + ids;
  }

  lemma NamedStep(dir: Directory, to: seq<Target>, i: nat)
    requires i < |to|
    ensures AllNamed(dir, to[..i + 1]) == AllNamed(dir, to[..i]) + Named(dir, to[i])
  {
    assert to[..i + 1][..i] == to[..i];
  }

  lemma {:induction false} NamedByTarget(dir: Directory, to: seq<Target>, x: SubId)
    ensures x in AllNamed(dir, to) <==> exists t :: t in to && x in Named(dir, t)
  {
    if to != [] {
      var n := |to| - 1;
      NamedByTarget(dir, to[..n], x);
      assert to == to[..n] + [to[n]];
    }
  }

  /** A subscriber is a recipient exactly when some topic target's topic has it as a member or
      some other target names it; nobody is one twice. */
  lemma RecipientsExact(dir: Directory, to: seq<Target>)
    ensures var r := FirstOccurrences(AllNamed(dir, to));
      NoRepeats(r) && forall x :: x in r <==>
        exists t :: t in to
          && (if t.kind == "Topic" && t.topicKey != "" then t.topicKey in dir.topics && x in dir.topics[t.topicKey]
              else t.subscriberId != "" && t.subscriberId in dir.subs && dir.subs[t.subscriberId] == x)
  {
    FirstOccurrencesMembers(AllNamed(dir, to));
    forall x ensures x in AllNamed(dir, to) <==> exists t :: t in to && x in Named(dir, t) {
      NamedByTarget(dir, to, x);
    }
  }

  lemma {:induction false} FirstOccurrencesPrefix(a: seq<SubId>, b: seq<SubId>)
    ensures FirstOccurrences(a) <= FirstOccurrences(a + b)
  {
    if b == [] {
      assert a + b == a;
    } else {
      var n := |b| - 1;
      FirstOccurrencesPrefix(a, b[..n]);
      assert (a + b)[..|a + b| - 1] == a + b[..n];
    }
  }

  /** The recipients of the first targets are the first recipients. */
  lemma {:induction false} EarlierTargetsFirst(dir: Directory, to: seq<Target>, i: nat)
    requires i <= |to|
    ensures FirstOccurrences(AllNamed(dir, to[..i])) <= FirstOccurrences(AllNamed(dir, to))
  {
    var n := |to| - 1;
    if i == |to| {
      assert to[..i] == to;
    } else {
      EarlierTargetsFirst(dir, to[..n], i);
      assert to[..n][..i] == to[..i];
      FirstOccurrencesPrefix(AllNamed(dir, to[..n]), Named(dir, to[n]));
    }
  }

  /** The recipients of a trigger request: everyone its targets name, once each, in order
      of first mention. Unknown topics and subscribers are passed over; a failing lookup
      fails the request. */
  method ResolveRecipients(dir: Directory, to: seq<Target>) returns (r: Option<seq<SubId>>)
    ensures r.None? <==>
      exists t :: t in to
        && (if t.kind == "Topic" && t.topicKey != "" then t.topicKey in dir.failing
            else t.subscriberId != "" && t.subscriberId in dir.failing)
    ensures r.Some? ==> r.value == FirstOccurrences(AllNamed(dir, to))
    ensures r.Some? ==> NoRepeats(r.value) && forall x :: x in r.value <==>
      exists t :: t in to
        && (if t.kind == "Topic" && t.topicKey != "" then t.topicKey in dir.topics && x in dir.topics[t.topicKey]
            else t.subscriberId != "" && t.subscriberId in dir.subs && dir.subs[t.subscriberId] == x)
  {
    RecipientsExact(dir, to);
    hide AllNamed, FirstOccurrences;
    var seen: set<SubId> := {};
    var result: seq<SubId> := [];
    assert AllNamed(dir, to[..0]) == [] && FirstOccurrences([]) == [] by { NothingNamed(dir, to); }
    for i := 0 to |to|
      invariant forall t :: t in to[..i] ==> !LookupFails(dir, t)
      invariant forall x :: x in seen <==> x in AllNamed(dir, to[..i])
      invariant result == FirstOccurrences(AllNamed(dir, to[..i]))
    {
      var target := to[i];
      NamedStep(dir, to, i);
      assert target in to;
      ghost var before := AllNamed(dir, to[..i]);
      assert before + [] == before;
      if IsTopic(target) {
        if target.topicKey in dir.failing {
          return None;
        }
        if target.topicKey !in dir.topics {
          continue;
        }
        seen, result := Collect(before, seen, result, dir.topics[target.topicKey]);
      } else if target.subscriberId != "" {
        if target.subscriberId in dir.failing {
          return None;
        }
        if target.subscriberId !in dir.subs {
          continue;
        }
        seen, result := Collect(before, seen, result, [dir.subs[target.subscriberId]]);
      }
    }
    assert to[..|to|] == to;
    return Some(result);
  }

  lemma NothingNamed(dir: Directory, to: seq<Target>)
    ensures AllNamed(dir, to[..0]) == [] && FirstOccurrences([]) == []
  {
  }

  // ---------------------------------------------------------------------------------
  // The notification collection
  // ---------------------------------------------------------------------------------

  predicate Has(rows: map<NotifId, Notification>, env: EnvId, tx: string, sub: SubId) {
    exists n :: n in rows && rows[n].env == env && rows[n].tx == tx && rows[n].sub == sub
  }

  datatype CreateError = Duplicate | StoreError

  /** The notifications, under the unique index on environment, transaction and subscriber.
      Inserts for the subscribers in `refused` fail for another reason. */
  class Notifications {
    var rows: map<NotifId, Notification>
    var next: NotifId
    const refused: set<SubId>

    ghost predicate Valid()
      reads this
    {
      && (forall n :: n in rows ==> n < next)
      && (forall a, b | a in rows && b in rows ::
            rows[a].env == rows[b].env && rows[a].tx == rows[b].tx && rows[a].sub == rows[b].sub ==> a == b)
    }

    constructor (refused: set<SubId>)
      ensures Valid() && rows == map[] && this.refused == refused
    {
      rows, next := map[], 0;
      this.refused := refused;
    }

    method Create(n: Notification) returns (r: Result<NotifId, CreateError>)
      requires Valid()
      modifies this
      ensures Valid()
      ensures r.Err? ==> rows == old(rows) && next == old(next)
      ensures r == Err(Duplicate) <==> n.sub !in refused && Has(old(rows), n.env, n.tx, n.sub)
      ensures r == Err(StoreError) <==> n.sub in refused
      ensures r.Ok? ==> r.value == old(next) && rows == old(rows)[r.value := n] && next == old(next) + 1
    {
      if n.sub in refused {
        return Err(StoreError);
      }
      if Has(rows, n.env, n.tx, n.sub) {
        return Err(Duplicate);
      }
      r := Ok(next);
      rows, next := rows[next := n], next + 1;
    }
  }

  // ---------------------------------------------------------------------------------
  // One notification per recipient
  // ---------------------------------------------------------------------------------

  /** The workflow a request resolved to. */
  datatype Resolved = Resolved(wf: WfId, steps: seq<Step>)

  predicate Blocked(rows: map<NotifId, Notification>, refused: set<SubId>, env: EnvId, tx: string, sub: SubId) {
    sub in refused || Has(rows, env, tx, sub)
  }

  /** A notification can be created exactly when the store takes the subscriber and holds no
      other one of the same environment, transaction and subscriber. */
  lemma FreeIffNoTwin(rows: map<NotifId, Notification>, refused: set<SubId>, env: EnvId, tx: string, sub: SubId)
    ensures !Blocked(rows, refused, env, tx, sub) <==>
      && sub !in refused
      && forall n :: n in rows ==> rows[n].env != env || rows[n].tx != tx || rows[n].sub != sub
  {
  }

  /** The notifications of `subs`, stored under consecutive ids from `first`. */
  function NewRows(env: EnvId, tx: string, w: Resolved, subs: seq<SubId>,
                   first: NotifId): (m: map<NotifId, Notification>)
    ensures forall n :: n in m <==> first <= n < first + |subs|
    ensures forall n :: n in m ==> m[n] == Notification(env, tx, subs[n - first], w.wf, PendingRows(w.steps))
  {
    if subs == [] then map[]
    else
      var i := |subs| - 1;
      NewRows(env, tx, w, subs[..i], first)[first + i := Notification(env, tx, subs[i], w.wf, PendingRows(w.steps))]
  }

  /** One more recipient extends both by its entry. */
  lemma NewEntry(env: EnvId, tx: string, w: Resolved, subs: seq<SubId>, i: nat, first: NotifId)
    requires i < |subs|
    ensures NewIds(subs[..i + 1], first) == NewIds(subs[..i], first)[subs[i] := first + i]
    ensures NewRows(env, tx, w, subs[..i + 1], first)
         == NewRows(env, tx, w, subs[..i], first)
            [first + i := Notification(env, tx, subs[i], w.wf, PendingRows(w.steps))]
  {
    assert subs[..i + 1][..i] == subs[..i];
  }

  /** Their subscribers, mapped to those ids. */
  function NewIds(subs: seq<SubId>, first: NotifId): (m: map<SubId, NotifId>)
    ensures forall sub :: sub in m <==> sub in subs
  {
    if subs == [] then map[]
    else NewIds(subs[..|subs| - 1], first)[subs[|subs| - 1] := first + |subs| - 1]
  }

  /** Every id is the one of its subscriber's position. */
  lemma {:induction false} NewIdsRange(subs: seq<SubId>, first: NotifId, sub: SubId)
    requires sub in subs
    ensures var id := NewIds(subs, first)[sub]; first <= id < first + |subs| && subs[id - first] == sub
  {
    var n := |subs| - 1;
    assert subs == subs[..n] + [subs[n]];
    if sub != subs[n] { NewIdsRange(subs[..n], first, sub); }
  }

  datatype TriggerError = DuplicateTransaction | CreateFailed | EnqueueFailed

  lemma RowsGrow(was: map<NotifId, Notification>, env: EnvId, tx: string, w: Resolved, subs: seq<SubId>, i: nat,
                 first: NotifId)
    requires i < |subs|
    ensures (was + NewRows(env, tx, w, subs[..i], first))
              [first + i := Notification(env, tx, subs[i], w.wf, PendingRows(w.steps))]
         == was + NewRows(env, tx, w, subs[..i + 1], first)
  {
    NewEntry(env, tx, w, subs, i, first);
  }

  /** Creates recipients in order up to the first that is blocked. */
  method CreateAll(store: Notifications, env: EnvId, tx: string, w: Resolved, recipients: seq<SubId>)
    returns (made: map<SubId, NotifId>, k: nat, error: Option<CreateError>)
    requires store.Valid() && NoRepeats(recipients)
    modifies store
    ensures store.Valid() && k <= |recipients| && made == NewIds(recipients[..k], old(store.next))
    ensures forall j :: 0 <= j < k ==> !Blocked(old(store.rows), store.refused, env, tx, recipients[j])
    ensures k < |recipients| ==> Blocked(old(store.rows), store.refused, env, tx, recipients[k])
    ensures store.rows == old(store.rows) + NewRows(env, tx, w, recipients[..k], old(store.next))
    ensures k == |recipients| <==> error.None?
    ensures error == Some(Duplicate) <==>
      k < |recipients| && recipients[k] !in store.refused && Has(old(store.rows), env, tx, recipients[k])
  {
    hide PendingRows, NewRows, NewIds, Has;
    made, k := map[], 0;
    while k < |recipients|
      invariant k <= |recipients| && store.Valid() && store.next == old(store.next) + k
      invariant forall j :: 0 <= j < k ==> !Blocked(old(store.rows), store.refused, env, tx, recipients[j])
      invariant store.rows == old(store.rows) + NewRows(env, tx, w, recipients[..k], old(store.next))
      invariant made == NewIds(recipients[..k], old(store.next))
    {
      BlockedUnchanged(old(store.rows), store.rows, env, tx, w, recipients, k, old(store.next));
      var created := store.Create(Notification(env, tx, recipients[k], w.wf, PendingRows(w.steps)));
      if created.Err? {
        assert created.error.Duplicate? || created.error.StoreError?;
        return made, k, Some(created.error);
      }
      RowsGrow(old(store.rows), env, tx, w, recipients, k, old(store.next));
      NewEntry(env, tx, w, recipients, k, old(store.next));
      made := made[recipients[k] := created.value];
      k := k + 1;
    }
    error := None;
  }

  /** A trigger request over its resolved recipients. It succeeds with a trigger task for
      exactly the recipients, each under its own fresh id, or stops at the first recipient
      it cannot create, leaving those before it created but in no trigger task. */
  method Trigger(store: Notifications, q: Queue, env: EnvId, tx: string, w: Resolved, recipients: seq<SubId>)
    returns (r: Result<map<SubId, NotifId>, TriggerError>, ghost k: nat)
    requires store.Valid() && q.Valid() && NoRepeats(recipients)
    modifies store, q
    ensures store.Valid() && q.Valid() && k <= |recipients|
    ensures forall j :: 0 <= j < k ==> !Blocked(old(store.rows), store.refused, env, tx, recipients[j])
    ensures k < |recipients| ==> Blocked(old(store.rows), store.refused, env, tx, recipients[k])
    ensures store.rows == old(store.rows) + NewRows(env, tx, w, recipients[..k], old(store.next))
    ensures k < |recipients| ==>
      r.Err? && r.error != EnqueueFailed && q.requested == old(q.requested) && q.outcomes == old(q.outcomes)
    ensures k == |recipients| ==> q.outcomes == old(q.outcomes) + [r.Ok?]
    ensures k == |recipients| ==>
      && q.requested == old(q.requested) + [TriggerTask(env, w.wf, NewIds(recipients, old(store.next)))]
      && (r == Ok(NewIds(recipients, old(store.next))) || r == Err(EnqueueFailed))
    ensures r == Err(DuplicateTransaction) <==>
      k < |recipients| && recipients[k] !in store.refused && Has(old(store.rows), env, tx, recipients[k])
  {
    hide Accepted, PendingRows, NewRows, NewIds, Has;
    var made, n, error := CreateAll(store, env, tx, w, recipients);
    k := n;
    assert n == |recipients| ==> recipients[..n] == recipients;
    if error.Some? {
      return Err(if error.value == Duplicate then DuplicateTransaction else CreateFailed), n;
    }
    var ok := q.Enqueue(TriggerTask(env, w.wf, made));
    return if ok then Ok(made) else Err(EnqueueFailed), n;
  }

  /** Creating other recipients does not block one. */
  lemma BlockedUnchanged(was: map<NotifId, Notification>, now: map<NotifId, Notification>, env: EnvId, tx: string,
                         w: Resolved, recipients: seq<SubId>, k: nat, first: NotifId)
    requires k < |recipients| && NoRepeats(recipients) && forall n :: n in was ==> n < first
    requires now == was + NewRows(env, tx, w, recipients[..k], first)
    ensures Has(now, env, tx, recipients[k]) == Has(was, env, tx, recipients[k])
  {
    if Has(was, env, tx, recipients[k]) {
      var n :| n in was && was[n].env == env && was[n].tx == tx && was[n].sub == recipients[k];
      assert now[n] == was[n];
    }
  }

  lemma {:induction false} NewIdsAt(subs: seq<SubId>, first: NotifId, i: nat)
    requires NoRepeats(subs) && i < |subs|
    ensures NewIds(subs, first)[subs[i]] == first + i
  {
    var n := |subs| - 1;
    if i < n {
      assert subs[..n][i] == subs[i];
      NewIdsAt(subs[..n], first, i);
    }
  }

  lemma {:induction false} NewIdsSize(subs: seq<SubId>, first: NotifId)
    requires NoRepeats(subs)
    ensures |NewIds(subs, first)| == |subs|
  {
    if subs != [] {
      var n := |subs| - 1;
      NewIdsSize(subs[..n], first);
      assert subs[n] !in subs[..n];
    }
  }

  /** Distinct recipients get distinct ids. */
  lemma NewIdsInjective(subs: seq<SubId>, first: NotifId)
    requires NoRepeats(subs)
    ensures |NewIds(subs, first)| == |subs|
    ensures forall i :: 0 <= i < |subs| ==> NewIds(subs, first)[subs[i]] == first + i
    ensures forall a, b :: a in subs && b in subs && NewIds(subs, first)[a] == NewIds(subs, first)[b] ==> a == b
  {
    hide NewIds;
    NewIdsSize(subs, first);
    forall i | 0 <= i < |subs| ensures NewIds(subs, first)[subs[i]] == first + i { NewIdsAt(subs, first, i); }
    forall a, b | a in subs && b in subs && NewIds(subs, first)[a] == NewIds(subs, first)[b] ensures a == b {
      NewIdsRange(subs, first, a);
      NewIdsRange(subs, first, b);
    }
  }
}
