/** A broadcast: walk an environment's subscribers by id cursor, page by page, create the
    missing notifications of each page and hand them to one trigger task. */
module Broadcasts {
  import opened Common
  import opened Workflows
  import opened Dispatch
  import opened Handlers
  import opened Triggering

  const BATCH_SIZE: nat := 100

  datatype Subscriber = Subscriber(id: SubId, env: EnvId)

  /** The subscriber collection in id order. No document has the zero id. */
  ghost predicate Ordered(subs: seq<Subscriber>) {
    && (forall i :: 0 <= i < |subs| ==> subs[i].id > 0)
    && (forall i, j :: 0 <= i < j < |subs| ==> subs[i].id < subs[j].id)
  }

  /** The query behind a page: the zero cursor starts from the beginning. */
  predicate Matches(s: Subscriber, env: EnvId, after: SubId) {
    s.env == env && (after == 0 || s.id > after)
  }

  function Matching(subs: seq<Subscriber>, env: EnvId, after: SubId): seq<SubId> {
    if subs == [] then []
    else (if Matches(subs[0], env, after) then [subs[0].id] else []) + Matching(subs[1..], env, after)
  }

  function FindPageAfter(subs: seq<Subscriber>, env: EnvId, after: SubId, limit: nat): seq<SubId> {
    var m := Matching(subs, env, after);
    if |m| <= limit then m else m[..limit]
  }

  /** Everyone a broadcast is for. */
  function Audience(subs: seq<Subscriber>, env: EnvId): seq<SubId> { Matching(subs, env, 0) }

  lemma {:induction false} AllPass(subs: seq<Subscriber>, env: EnvId, x: SubId, y: SubId)
    requires forall i :: 0 <= i < |subs| ==> subs[i].id > x && subs[i].id > y
    ensures Matching(subs, env, x) == Matching(subs, env, y)
  {
    if subs != [] { AllPass(subs[1..], env, x, y); }
  }

  lemma {:induction false} MatchingMembers(subs: seq<Subscriber>, env: EnvId, after: SubId)
    ensures forall id :: id in Matching(subs, env, after) <==>
              exists i :: 0 <= i < |subs| && subs[i].id == id && Matches(subs[i], env, after)
  {
    if subs != [] {
      MatchingMembers(subs[1..], env, after);
      forall id | id in Matching(subs[1..], env, after)
        ensures exists i :: 0 <= i < |subs| && subs[i].id == id && Matches(subs[i], env, after)
      {
        var i :| 0 <= i < |subs[1..]| && subs[1..][i].id == id && Matches(subs[1..][i], env, after);
        assert subs[i + 1] == subs[1..][i];
      }
      forall i | 0 <= i < |subs| && Matches(subs[i], env, after) ensures subs[i].id in Matching(subs, env, after) {
        if i > 0 { assert subs[i] == subs[1..][i - 1]; }
      }
    }
  }

  lemma {:induction false} MatchingAscends(subs: seq<Subscriber>, env: EnvId, after: SubId)
    requires Ordered(subs)
    ensures Increasing(Matching(subs, env, after))
  {
    if subs != [] {
      MatchingAscends(subs[1..], env, after);
      MatchingMembers(subs[1..], env, after);
      if Matches(subs[0], env, after) { ConsIncreasing(subs[0].id, Matching(subs[1..], env, after)); }
    }
  }

  /** Moving the cursor to the k-th match leaves exactly the matches after it. */
  lemma {:induction false} CursorAdvances(subs: seq<Subscriber>, env: EnvId, after: SubId, k: nat)
    requires Ordered(subs) && k < |Matching(subs, env, after)|
    ensures Matching(subs, env, Matching(subs, env, after)[k]) == Matching(subs, env, after)[k + 1..]
  {
    var m, rest := Matching(subs, env, after), Matching(subs[1..], env, after);
    var x := m[k];
    assert x > 0 && x >= subs[0].id by {
      MatchingMembers(subs, env, after);
      assert x in m;
    }
    if Matches(subs[0], env, after) && k == 0 {
      assert m[1..] == rest;
      AllPass(subs[1..], env, x, after);
    } else {
      var j := if Matches(subs[0], env, after) then k - 1 else k;
      assert rest[j] == x && rest[j + 1..] == m[k + 1..];
      CursorAdvances(subs[1..], env, after, j);
      assert !Matches(subs[0], env, x);
    }
  }

  // ---------------------------------------------------------------------------------
  // Pages
  // ---------------------------------------------------------------------------------

  function Pages(all: seq<SubId>): seq<seq<SubId>> {
    if all == [] then []
    else if |all| <= BATCH_SIZE then [all]
    else [all[..BATCH_SIZE]] + Pages(all[BATCH_SIZE..])
  }

  function Flatten(pages: seq<seq<SubId>>): seq<SubId> {
    if pages == [] then [] else pages[0] + Flatten(pages[1..])
  }

  /** The walk needs ceil(n / 100) non-empty pages and visits everyone once, in order. */
  lemma {:induction false} PagesCover(all: seq<SubId>)
    ensures |Pages(all)| == (|all| + 99) / 100
    ensures Flatten(Pages(all)) == all
    ensures forall p :: p in Pages(all) ==> 0 < |p| <= 100
  {
    if |all| > BATCH_SIZE {
      PagesCover(all[BATCH_SIZE..]);
    } else if all != [] {
      assert [all][1..] == [];
      assert all + [] == all;
    }
  }

  // ---------------------------------------------------------------------------------
  // Insert-if-fresh
  // ---------------------------------------------------------------------------------

  /** The subscribers whose notification can be created. */
  function FreshOf(subs: seq<SubId>, rows: map<NotifId, Notification>, refused: set<SubId>, env: EnvId,
                   tx: string): seq<SubId> {
    if subs == [] then []
    else
      var n := |subs| - 1;
      FreshOf(subs[..n], rows, refused, env, tx) + if Blocked(rows, refused, env, tx, subs[n]) then [] else [subs[n]]
  }

  lemma {:induction false} FreshOfExact(subs: seq<SubId>, rows: map<NotifId, Notification>, refused: set<SubId>,
                                        env: EnvId, tx: string)
    ensures forall sub :: sub in FreshOf(subs, rows, refused, env, tx) <==>
      sub in subs && !Blocked(rows, refused, env, tx, sub)
    ensures NoRepeats(subs) ==> NoRepeats(FreshOf(subs, rows, refused, env, tx))
  {
    if subs != [] {
      var n := |subs| - 1;
      FreshOfExact(subs[..n], rows, refused, env, tx);
      assert subs == subs[..n] + [subs[n]];
      if NoRepeats(subs) { assert subs[n] !in subs[..n]; }
    }
  }

  lemma {:induction false} FreshOfConcat(a: seq<SubId>, b: seq<SubId>, rows: map<NotifId, Notification>,
                                         refused: set<SubId>, env: EnvId, tx: string)
    ensures FreshOf(a + b, rows, refused, env, tx)
      == FreshOf(a, rows, refused, env, tx) + FreshOf(b, rows, refused, env, tx)
  {
    if b == [] {
      assert a + b == a;
    } else {
      var n := |b| - 1;
      FreshOfConcat(a, b[..n], rows, refused, env, tx);
      assert (a + b)[..|a + b| - 1] == a + b[..n];
    }
  }

  lemma NewRowsConcat(env: EnvId, tx: string, w: Resolved, a: seq<SubId>, b: seq<SubId>, first: NotifId)
    ensures NewRows(env, tx, w, a + b, first) == NewRows(env, tx, w, a, first) + NewRows(env, tx, w, b, first + |a|)
  {
  }

  /** Notifications of other subscribers do not change what is stored for one. */
  lemma OthersDoNotMatter(was: map<NotifId, Notification>, env: EnvId, tx: string, w: Resolved, others: seq<SubId>,
                          first: NotifId, sub: SubId)
    requires sub !in others && forall n :: n in was ==> n < first
    ensures Has(was + NewRows(env, tx, w, others, first), env, tx, sub) == Has(was, env, tx, sub)
  {
    var now := was + NewRows(env, tx, w, others, first);
    if Has(was, env, tx, sub) {
      var n :| n in was && was[n].env == env && was[n].tx == tx && was[n].sub == sub;
      assert now[n] == was[n];
    }
  }

  lemma FreshStep(page: seq<SubId>, i: nat, rows: map<NotifId, Notification>, refused: set<SubId>, env: EnvId,
                  tx: string)
    requires i < |page|
    ensures FreshOf(page[..i + 1], rows, refused, env, tx)
         == FreshOf(page[..i], rows, refused, env, tx) + if Blocked(rows, refused, env, tx, page[i]) then []
             else [page[i]]
    ensures NoRepeats(page) ==> page[i] !in FreshOf(page[..i], rows, refused, env, tx)
  {
    assert page[..i + 1][..i] == page[..i];
    FreshOfExact(page[..i], rows, refused, env, tx);
  }

  lemma AddFresh(was: map<NotifId, Notification>, env: EnvId, tx: string, w: Resolved, f: seq<SubId>, sub: SubId,
                 first: NotifId)
    ensures NewIds(f + [sub], first) == NewIds(f, first)[sub := first + |f|]
    ensures (was + NewRows(env, tx, w, f, first))[first + |f| := Notification(env, tx, sub, w.wf, PendingRows(w.steps))]
         == was + NewRows(env, tx, w, f + [sub], first)
  {
    hide PendingRows, NewRows, NewIds;
    var g := f + [sub];
    assert g[..|f|] == f && g[..|f| + 1] == g;
    RowsGrow(was, env, tx, w, g, |f|, first);
    NewEntry(env, tx, w, g, |f|, first);
  }

  lemma NoneFresh(rows: map<NotifId, Notification>, refused: set<SubId>, env: EnvId, tx: string, w: Resolved,
                  first: NotifId)
    ensures FreshOf([], rows, refused, env, tx) == [] && NewIds([], first) == map[]
      && NewRows(env, tx, w, [], first) == map[]
  {
  }

  lemma BlockedIs(rows: map<NotifId, Notification>, refused: set<SubId>, env: EnvId, tx: string, sub: SubId)
    ensures Blocked(rows, refused, env, tx, sub) <==> sub in refused || Has(rows, env, tx, sub)
  {
  }

  /** One page: every fresh subscriber gets a notification, the others are passed over. */
  method CreatePage(store: Notifications, env: EnvId, tx: string, w: Resolved, page: seq<SubId>)
      returns (made: map<SubId, NotifId>)
    requires store.Valid() && NoRepeats(page)
    modifies store
    ensures store.Valid()
    ensures var f := FreshOf(page, old(store.rows), store.refused, env, tx);
            && made == NewIds(f, old(store.next)) && store.next == old(store.next) + |f|
            && store.rows == old(store.rows) + NewRows(env, tx, w, f, old(store.next))
  {
    hide PendingRows, NewRows, NewIds, Has, FreshOf, Blocked;
    made := map[];
    var i := 0;
    NoneFresh(old(store.rows), store.refused, env, tx, w, store.next);
    assert page[..0] == [] && store.rows + map[] == store.rows;
    ghost var f: seq<SubId> := [];
    while i < |page|
      invariant 0 <= i <= |page| && store.Valid()
      invariant f == FreshOf(page[..i], old(store.rows), store.refused, env, tx)
      invariant made == NewIds(f, old(store.next)) && store.next == old(store.next) + |f|
      invariant store.rows == old(store.rows) + NewRows(env, tx, w, f, old(store.next))
    {
      var sub := page[i];
      FreshStep(page, i, old(store.rows), store.refused, env, tx);
      OthersDoNotMatter(old(store.rows), env, tx, w, f, old(store.next), sub);
      BlockedIs(old(store.rows), store.refused, env, tx, sub);
      var created := store.Create(Notification(env, tx, sub, w.wf, PendingRows(w.steps)));
      i := i + 1;
      if created.Err? {
        assert created.error.Duplicate? || created.error.StoreError?;
        continue;
      }
      AddFresh(old(store.rows), env, tx, w, f, sub, old(store.next));
      f := f + [sub];
      made := made[sub := created.value];
    }
    assert page[..i] == page;
  }

  // ---------------------------------------------------------------------------------
  // The walk
  // ---------------------------------------------------------------------------------

  /** What the walk has to go by: the store it started from, and the request. */
  datatype Job = Job(env: EnvId, tx: string, w: Resolved, rows: map<NotifId, Notification>, refused: set<SubId>,
                     first: NotifId)

  function Fresh(job: Job, subs: seq<SubId>): seq<SubId> { FreshOf(subs, job.rows, job.refused, job.env, job.tx) }

  /** The trigger task of a page that follows the subscribers in `before`; a page that
      created nothing has none. */
  function PageTask(job: Job, before: seq<SubId>, page: seq<SubId>): seq<Item> {
    if Fresh(job, page) == [] then []
    else [TriggerTask(job.env, job.w.wf, NewIds(Fresh(job, page), job.first + |Fresh(job, before)|))]
  }

  function PageTasks(job: Job, pages: seq<seq<SubId>>): seq<Item> {
    if pages == [] then []
    else
      var n := |pages| - 1;
      PageTasks(job, pages[..n]) + PageTask(job, Flatten(pages[..n]), pages[n])
  }

  /** Where a walk stands after some pages: the rows and the id counter. */
  ghost predicate StandsAt(job: Job, seen: seq<SubId>, rows: map<NotifId, Notification>, next: NotifId) {
    && rows == job.rows + NewRows(job.env, job.tx, job.w, Fresh(job, seen), job.first)
    && next == job.first + |Fresh(job, seen)|
    && forall n :: n in job.rows ==> n < job.first
  }

  lemma {:induction false} FlattenConcat(a: seq<seq<SubId>>, b: seq<seq<SubId>>)
    ensures Flatten(a + b) == Flatten(a) + Flatten(b)
  {
    if a == [] {
      assert a + b == b;
    } else {
      assert (a + b)[1..] == a[1..] + b;
      FlattenConcat(a[1..], b);
    }
  }

  lemma FlattenOne(p: seq<SubId>)
    ensures Flatten([p]) == p
  {
    assert [p][1..] == [] && p + [] == p;
  }

  /** Nothing the walk has stored changes what is fresh on a later page. */
  lemma {:induction false} LaterPageUnchanged(job: Job, seen: seq<SubId>, page: seq<SubId>,
                                              rows: map<NotifId, Notification>, next: NotifId)
    requires StandsAt(job, seen, rows, next) && forall sub :: sub in page ==> sub !in seen
    ensures FreshOf(page, rows, job.refused, job.env, job.tx) == Fresh(job, page)
  {
    if page != [] {
      var n := |page| - 1;
      LaterPageUnchanged(job, seen, page[..n], rows, next);
      FreshOfExact(seen, job.rows, job.refused, job.env, job.tx);
      OthersDoNotMatter(job.rows, job.env, job.tx, job.w, Fresh(job, seen), job.first, page[n]);
    }
  }

  lemma PageAdvances(job: Job, seen: seq<SubId>, page: seq<SubId>, rows: map<NotifId, Notification>, next: NotifId)
    requires StandsAt(job, seen, rows, next)
    ensures StandsAt(job, seen + page, rows + NewRows(job.env, job.tx, job.w, Fresh(job, page), next),
                     next + |Fresh(job, page)|)
  {
    hide NewRows, FreshOf;
    FreshOfConcat(seen, page, job.rows, job.refused, job.env, job.tx);
    NewRowsConcat(job.env, job.tx, job.w, Fresh(job, seen), Fresh(job, page), job.first);
    SumAssociates(job.rows, NewRows(job.env, job.tx, job.w, Fresh(job, seen), job.first),
                  NewRows(job.env, job.tx, job.w, Fresh(job, page), next));
  }

  /** The page behind a cursor is the first page of what is left, and moving the cursor to
      its last subscriber leaves the pages after it. */
  lemma PageSplits(subs: seq<Subscriber>, env: EnvId, after: SubId)
    requires Ordered(subs) && Matching(subs, env, after) != []
    ensures var rest, page := Matching(subs, env, after), FindPageAfter(subs, env, after, BATCH_SIZE);
            && page != [] && page == rest[..|page|]
            && Matching(subs, env, page[|page| - 1]) == rest[|page|..]
            && Pages(rest) == [page] + Pages(rest[|page|..])
            && NoRepeats(page) && forall x :: x in rest[|page|..] ==> x !in page
  {
    var rest, page := Matching(subs, env, after), FindPageAfter(subs, env, after, BATCH_SIZE);
    CursorAdvances(subs, env, after, |page| - 1);
    MatchingAscends(subs, env, after);
    if |page| == |rest| { assert rest[|page|..] == []; }
  }

  datatype Lookup = Missing | LookupError | Found(w: Resolved, active: bool)

  /** The cursor behind some subscribers: the last of them, or zero. */
  function CursorAfter(seen: seq<SubId>): SubId { if seen == [] then 0 else seen[|seen| - 1] }

  /** How a walk that did the given pages ended, by the outcomes of the enqueues it requested:
      it failed exactly when the read of the next page fails or its last enqueue did; every
      enqueue before that was accepted. */
  ghost predicate Ended(failed: bool, unreadable: set<SubId>, seen: seq<SubId>, before: seq<bool>, after: seq<bool>) {
    && before <= after
    && (forall i :: |before| <= i < |after| - 1 ==> after[i])
    && (failed <==>
          || (|before| < |after| && !after[|after| - 1])
          || ((|before| < |after| ==> after[|after| - 1]) && CursorAfter(seen) in unreadable))
  }

  /** The broadcast handler. A page read fails at the cursors in `unreadable`; a failed read
      or enqueue fails the handler, which is then re-run from the start against the store it
      left. `done` counts the pages whose trigger task was requested. */
  method Broadcast(store: Notifications, q: Queue, subs: seq<Subscriber>, unreadable: set<SubId>, env: EnvId,
                   tx: string, lookup: Lookup)
    returns (failed: bool, ghost done: nat)
    requires store.Valid() && q.Valid() && Ordered(subs)
    modifies store, q
    ensures store.Valid() && q.Valid()
    ensures !lookup.Found? || !lookup.active ==>
      failed == lookup.LookupError? && store.rows == old(store.rows) && q.requested == old(q.requested)
    ensures lookup.Found? && lookup.active ==>
      var job := Job(env, tx, lookup.w, old(store.rows), store.refused, old(store.next));
      var pages := Pages(Audience(subs, env));
      && done <= |pages| && (!failed ==> done == |pages|)
      && StandsAt(job, Flatten(pages[..done]), store.rows, store.next)
      && q.requested == old(q.requested) + PageTasks(job, pages[..done])
      && Ended(failed, unreadable, Flatten(pages[..done]), old(q.outcomes), q.outcomes)
  {
    done := 0;
    if lookup.Missing? {
      return false, 0;
    }
    if lookup.LookupError? {
      return true, 0;
    }
    if !lookup.active {
      return false, 0;
    }
    failed, done := WalkAudience(store, q, subs, unreadable, env, tx, lookup.w);
  }

  /** The cursor stands before page `done`: the pages so far are `seen`, those to come are
      the pages of what the cursor still matches. */
  ghost predicate CursorAt(subs: seq<Subscriber>, env: EnvId, after: SubId, pages: seq<seq<SubId>>, done: nat,
                           seen: seq<SubId>) {
    && done <= |pages| && seen == Flatten(pages[..done])
    && pages[done..] == Pages(Matching(subs, env, after))
    && forall x :: x in Matching(subs, env, after) ==> x !in seen
  }

  lemma CursorMoves(subs: seq<Subscriber>, env: EnvId, after: SubId, pages: seq<seq<SubId>>, done: nat,
                    seen: seq<SubId>)
    requires Ordered(subs) && CursorAt(subs, env, after, pages, done, seen) && Matching(subs, env, after) != []
    ensures var page := FindPageAfter(subs, env, after, BATCH_SIZE);
            && page != [] && NoRepeats(page) && (forall x :: x in page ==> x !in seen)
            && done < |pages| && pages[done] == page
            && CursorAt(subs, env, page[|page| - 1], pages, done + 1, seen + page)
            && |Matching(subs, env, page[|page| - 1])| < |Matching(subs, env, after)|
  {
    hide Matching, FindPageAfter;
    var page := FindPageAfter(subs, env, after, BATCH_SIZE);
    PageSplits(subs, env, after);
    assert pages[done..][0] == page && pages[done + 1..] == pages[done..][1..];
    assert pages[..done + 1] == pages[..done] + [page];
    FlattenConcat(pages[..done], [page]);
    FlattenOne(page);
    var rest := Matching(subs, env, after);
    assert forall x :: x in page ==> x in rest;
    assert forall x :: x in rest[|page|..] ==> x in rest;
  }

  /** One page of the walk: create, then request the page's trigger task. */
  method DoPage(store: Notifications, q: Queue, ghost job: Job, ghost seen: seq<SubId>, env: EnvId, tx: string,
                w: Resolved, page: seq<SubId>)
    returns (ok: bool)
    requires store.Valid() && q.Valid() && NoRepeats(page) && StandsAt(job, seen, store.rows, store.next)
    requires job.env == env && job.tx == tx && job.w == w && job.refused == store.refused
    requires forall x :: x in page ==> x !in seen
    modifies store, q
    ensures store.Valid() && q.Valid() && StandsAt(job, seen + page, store.rows, store.next)
    ensures q.requested == old(q.requested) + PageTask(job, seen, page)
    ensures q.outcomes == old(q.outcomes) + if PageTask(job, seen, page) == [] then [] else [ok]
    ensures PageTask(job, seen, page) == [] ==> ok
  {
    hide Accepted, FreshOf, NewRows, NewIds, Has, Blocked;
    LaterPageUnchanged(job, seen, page, store.rows, store.next);
    PageAdvances(job, seen, page, store.rows, store.next);
    var made := CreatePage(store, env, tx, w, page);
    NoneMade(Fresh(job, page), old(store.next));
    if made == map[] {
      assert q.requested + [] == q.requested;
      return true;
    }
    ok := q.Enqueue(TriggerTask(env, w.wf, made));
  }

  lemma NoneMade(subs: seq<SubId>, first: NotifId)
    ensures NewIds(subs, first) == map[] <==> subs == []
  {
    if subs != [] { assert subs[0] in NewIds(subs, first); }
  }

  method WalkAudience(store: Notifications, q: Queue, subs: seq<Subscriber>, unreadable: set<SubId>, env: EnvId,
                      tx: string, w: Resolved)
    returns (failed: bool, ghost done: nat)
    requires store.Valid() && q.Valid() && Ordered(subs)
    modifies store, q
    ensures store.Valid() && q.Valid()
    ensures var job := Job(env, tx, w, old(store.rows), store.refused, old(store.next));
      var pages := Pages(Audience(subs, env));
      && done <= |pages| && (!failed ==> done == |pages|)
      && StandsAt(job, Flatten(pages[..done]), store.rows, store.next)
      && q.requested == old(q.requested) + PageTasks(job, pages[..done])
      && Ended(failed, unreadable, Flatten(pages[..done]), old(q.outcomes), q.outcomes)
  {
    hide Accepted, Matching, StandsAt, PageTask, PageTasks, Flatten;
    ghost var job := Job(env, tx, w, old(store.rows), store.refused, old(store.next));
    ghost var pages := Pages(Audience(subs, env));
    ghost var seen: seq<SubId> := [];
    var lastID: SubId := 0;
    done := 0;
    StartsHere(job);
    NoPages(job);
    assert pages[..0] == [] && pages[0..] == pages;
    while true
      invariant store.Valid() && q.Valid() && CursorAt(subs, env, lastID, pages, done, seen)
      invariant StandsAt(job, seen, store.rows, store.next)
      invariant q.requested == old(q.requested) + PageTasks(job, pages[..done])
      invariant lastID == CursorAfter(seen)
      invariant old(q.outcomes) <= q.outcomes && forall i :: |old(q.outcomes)| <= i < |q.outcomes| ==> q.outcomes[i]
      decreases |Matching(subs, env, lastID)|
    {
      if lastID in unreadable {
        return true, done;
      }
      var page := FindPageAfter(subs, env, lastID, BATCH_SIZE);
      if |page| == 0 {
        break;
      }
      CursorMoves(subs, env, lastID, pages, done, seen);
      lastID := page[|page| - 1];
      var ok := DoPage(store, q, job, seen, env, tx, w, page);
      PagesAdvance(job, pages, done, page);
      seen, done := seen + page, done + 1;
      if !ok {
        return true, done;
      }
    }
    return false, done;
  }

  lemma StartsHere(job: Job)
    requires forall n :: n in job.rows ==> n < job.first
    ensures StandsAt(job, [], job.rows, job.first)
  {
  }

  lemma NoPages(job: Job)
    ensures Flatten([]) == [] && PageTasks(job, []) == []
  {
  }

  lemma PagesAdvance(job: Job, pages: seq<seq<SubId>>, done: nat, page: seq<SubId>)
    requires done < |pages| && pages[done] == page
    ensures Flatten(pages[..done + 1]) == Flatten(pages[..done]) + page
    ensures PageTasks(job, pages[..done + 1]) == PageTasks(job, pages[..done])
      + PageTask(job, Flatten(pages[..done]), page)
  {
    assert pages[..done + 1] == pages[..done] + [page];
    FlattenConcat(pages[..done], [page]);
    FlattenOne(page);
    assert pages[..done + 1][..done] == pages[..done];
  }

  // ---------------------------------------------------------------------------------
  // Who gets what
  // ---------------------------------------------------------------------------------

  lemma NewIdsLast(subs: seq<SubId>, first: NotifId)
    requires subs != []
    ensures var n := |subs| - 1; NewIds(subs, first) == NewIds(subs[..n], first)[subs[n] := first + n]
  {
  }

  lemma SumSnoc(a: map<SubId, NotifId>, b: map<SubId, NotifId>, k: SubId, v: NotifId,
                sum: map<SubId, NotifId>, more: map<SubId, NotifId>, all: map<SubId, NotifId>)
    requires sum == a + b && more == b[k := v] && all == sum[k := v]
    ensures all == a + more
  {
  }

  lemma NewIdsOfNone(a: seq<SubId>, b: seq<SubId>, first: NotifId)
    requires b == []
    ensures NewIds(a + b, first) == NewIds(a, first) + NewIds(b, first + |a|)
  {
    assert a + b == a && NewIds(b, first + |a|) == map[];
  }

  lemma NewIdsSnoc(a: seq<SubId>, b: seq<SubId>, first: NotifId)
    requires b != [] && NewIds(a + b[..|b| - 1], first) == NewIds(a, first) + NewIds(b[..|b| - 1], first + |a|)
    ensures NewIds(a + b, first) == NewIds(a, first) + NewIds(b, first + |a|)
  {
    hide NewIds;
    var n := |b| - 1;
    assert (a + b)[..|a + b| - 1] == a + b[..n];
    NewIdsLast(a + b, first);
    NewIdsLast(b, first + |a|);
    SumSnoc(NewIds(a, first), NewIds(b[..n], first + |a|), b[n], first + |a| + n,
            NewIds(a + b[..n], first), NewIds(b, first + |a|), NewIds(a + b, first));
  }

  lemma {:induction false} NewIdsConcat(a: seq<SubId>, b: seq<SubId>, first: NotifId)
    ensures NewIds(a + b, first) == NewIds(a, first) + NewIds(b, first + |a|)
  {
    if b == [] {
      NewIdsOfNone(a, b, first);
    } else {
      NewIdsConcat(a, b[..|b| - 1], first);
      NewIdsSnoc(a, b, first);
    }
  }

  /** Every task hands out something, each as `ids` says, and no two the same. */
  ghost predicate HandOut(tasks: seq<Item>, ids: map<SubId, NotifId>) {
    && (forall t :: t in tasks ==> t.TriggerTask? && t.entries != map[])
    && (forall i, sub :: 0 <= i < |tasks| && sub in tasks[i].entries ==>
        sub in ids && ids[sub] == tasks[i].entries[sub])
    && (forall i, j, sub :: 0 <= i < j < |tasks| && sub in tasks[i].entries ==> sub !in tasks[j].entries)
  }

  /** Trigger tasks whose maps together are `ids`, without overlap. */
  ghost predicate Covers(tasks: seq<Item>, ids: map<SubId, NotifId>) {
    HandOut(tasks, ids) && forall sub :: sub in ids ==> exists i :: 0 <= i < |tasks| && sub in tasks[i].entries
  }

  lemma HandOutMore(tasks: seq<Item>, ids: map<SubId, NotifId>, t: Item, more: map<SubId, NotifId>)
    requires HandOut(tasks, ids) && t.TriggerTask? && t.entries == more && more != map[] && more.Keys !! ids.Keys
    ensures HandOut(tasks + [t], ids + more)
  {
    var all := tasks + [t];
    assert all[|tasks|] == t && forall i :: 0 <= i < |tasks| ==> all[i] == tasks[i];
  }

  lemma CoversMore(tasks: seq<Item>, ids: map<SubId, NotifId>, t: Item, more: map<SubId, NotifId>)
    requires Covers(tasks, ids) && t.TriggerTask? && t.entries == more && more != map[] && more.Keys !! ids.Keys
    ensures Covers(tasks + [t], ids + more)
  {
    HandOutMore(tasks, ids, t, more);
    var all := tasks + [t];
    forall sub | sub in ids + more ensures exists i :: 0 <= i < |all| && sub in all[i].entries {
      if sub in more { assert sub in all[|tasks|].entries; }
      else {
        var i :| 0 <= i < |tasks| && sub in tasks[i].entries;
        assert sub in all[i].entries;
      }
    }
  }

  /** The trigger tasks of a walk hand out each created notification exactly once: their
      maps together are the fresh subscribers onto their ids, and no two overlap. */
  lemma {:induction false} PageTasksCover(job: Job, pages: seq<seq<SubId>>)
    requires NoRepeats(Flatten(pages))
    ensures Covers(PageTasks(job, pages), NewIds(Fresh(job, Flatten(pages)), job.first))
  {
    if pages != [] {
      hide NewIds, FreshOf;
      var n := |pages| - 1;
      var before, page := Flatten(pages[..n]), pages[n];
      assert pages == pages[..n] + [page];
      FlattenConcat(pages[..n], [page]);
      FlattenOne(page);
      assert before == Flatten(pages)[..|before|] && page == Flatten(pages)[|before|..];
      PageTasksCover(job, pages[..n]);
      PageCovers(job, before, page, PageTasks(job, pages[..n]));
    }
  }

  lemma PageCovers(job: Job, before: seq<SubId>, page: seq<SubId>, tasks: seq<Item>)
    requires NoRepeats(before + page) && Covers(tasks, NewIds(Fresh(job, before), job.first))
    ensures Covers(tasks + PageTask(job, before, page), NewIds(Fresh(job, before + page), job.first))
  {
    hide Covers, NewIds, FreshOf;
    var f, g := Fresh(job, before), Fresh(job, page);
    FreshOfConcat(before, page, job.rows, job.refused, job.env, job.tx);
    if g == [] {
      assert Fresh(job, before + page) == f && tasks + [] == tasks;
    } else {
      FullPageCovers(job, f, g, tasks, before, page);
      OneTask(job, before, page);
    }
  }

  lemma FullPageCovers(job: Job, f: seq<SubId>, g: seq<SubId>, tasks: seq<Item>, before: seq<SubId>, page: seq<SubId>)
    requires f == Fresh(job, before) && g == Fresh(job, page) && g != []
    requires NoRepeats(before + page) && Covers(tasks, NewIds(f, job.first))
    ensures Covers(tasks + [TriggerTask(job.env, job.w.wf, NewIds(g, job.first + |f|))], NewIds(f + g, job.first))
  {
    hide Covers, NewIds, FreshOf;
    var more := NewIds(g, job.first + |f|);
    NewIdsConcat(f, g, job.first);
    NoneMade(g, job.first + |f|);
    FreshDisjoint(job, before, page);
    CoversMore(tasks, NewIds(f, job.first), TriggerTask(job.env, job.w.wf, more), more);
  }

  lemma OneTask(job: Job, before: seq<SubId>, page: seq<SubId>)
    requires Fresh(job, page) != []
    ensures PageTask(job, before, page)
         == [TriggerTask(job.env, job.w.wf, NewIds(Fresh(job, page), job.first + |Fresh(job, before)|))]
  {
    hide NewIds, FreshOf;
  }

  lemma FreshDisjoint(job: Job, before: seq<SubId>, page: seq<SubId>)
    requires NoRepeats(before + page)
    ensures forall a, b: NotifId :: NewIds(Fresh(job, page), a).Keys !! NewIds(Fresh(job, before), b).Keys
  {
    hide NewIds;
    FreshOfExact(before, job.rows, job.refused, job.env, job.tx);
    FreshOfExact(page, job.rows, job.refused, job.env, job.tx);
    SplitApart(before, page);
  }

  lemma SplitApart(a: seq<SubId>, b: seq<SubId>)
    requires NoRepeats(a + b)
    ensures forall x :: x in b ==> x !in a
  {
    var all := a + b;
    forall i, j | 0 <= i < |a| && 0 <= j < |b| ensures a[i] != b[j] {
      assert a[i] == all[i] && b[j] == all[|a| + j];
    }
  }

  /** Everyone a walk has seen and could create has a notification. */
  lemma SeenIsServed(job: Job, seen: seq<SubId>, rows: map<NotifId, Notification>, next: NotifId, sub: SubId)
    requires StandsAt(job, seen, rows, next) && sub in seen && sub !in job.refused
    ensures Has(rows, job.env, job.tx, sub)
  {
    hide NewIds, FreshOf, PendingRows;
    FreshOfExact(seen, job.rows, job.refused, job.env, job.tx);
    if Blocked(job.rows, job.refused, job.env, job.tx, sub) {
      var n :| n in job.rows && job.rows[n].env == job.env && job.rows[n].tx == job.tx && job.rows[n].sub == sub;
      assert rows[n] == job.rows[n];
    } else {
      NewIdsRange(Fresh(job, seen), job.first, sub);
      var n := NewIds(Fresh(job, seen), job.first)[sub];
      assert rows[n].sub == sub;
    }
  }

  /** A walk that visited the whole audience leaves every subscriber of the environment
      that could be created with a notification for the transaction; the unique index
      makes it the only one. */
  lemma AudienceIsServed(job: Job, subs: seq<Subscriber>, rows: map<NotifId, Notification>, next: NotifId,
                         s: Subscriber)
    requires Ordered(subs) && s in subs && s.env == job.env && s.id !in job.refused
    requires StandsAt(job, Audience(subs, job.env), rows, next)
    ensures Has(rows, job.env, job.tx, s.id)
  {
    hide StandsAt, Has, Matching;
    MatchingMembers(subs, job.env, 0);
    var i :| 0 <= i < |subs| && subs[i] == s;
    assert Matches(subs[i], job.env, 0) && s.id in Audience(subs, job.env);
    SeenIsServed(job, Audience(subs, job.env), rows, next, s.id);
  }

  lemma FailsByEnqueue(failed: bool, seen: seq<SubId>, before: seq<bool>, after: seq<bool>)
    requires Ended(failed, {}, seen, before, after)
    ensures failed <==> exists i :: |before| <= i < |after| && !after[i]
  {
  }

  lemma AudienceIs(subs: seq<Subscriber>, env: EnvId)
    requires Ordered(subs)
    ensures forall id :: id in Audience(subs, env) <==> exists s :: s in subs && s.env == env && s.id == id
  {
    MatchingMembers(subs, env, 0);
    hide Matching;
    forall id | exists s :: s in subs && s.env == env && s.id == id ensures id in Audience(subs, env) {
      var s :| s in subs && s.env == env && s.id == id;
      var i :| 0 <= i < |subs| && subs[i] == s;
      assert Matches(subs[i], env, 0);
    }
  }

  /** With every page readable, a broadcast visits its audience in ceil(n / 100) pages, everyone once
      and in id order, leaves everyone a notification and triggers exactly those it created,
      unless an enqueue fails. */
  method BroadcastToAll(store: Notifications, q: Queue, subs: seq<Subscriber>, env: EnvId, tx: string, w: Resolved)
      returns (failed: bool)
    requires store.Valid() && q.Valid() && Ordered(subs) && store.refused == {}
    modifies store, q
    ensures store.Valid() && q.Valid()
    ensures var all := Audience(subs, env);
      var job := Job(env, tx, w, old(store.rows), {}, old(store.next));
      && Increasing(all)
      && (forall id :: id in all <==> exists s :: s in subs && s.env == env && s.id == id)
      && (failed <==> exists i :: |old(q.outcomes)| <= i < |q.outcomes| && !q.outcomes[i])
      && |Pages(all)| == (|all| + 99) / 100 && Flatten(Pages(all)) == all
      && (!failed ==>
            && (forall s :: s in subs && s.env == env ==> Has(store.rows, env, tx, s.id))
            && q.requested == old(q.requested) + PageTasks(job, Pages(all))
            && Covers(PageTasks(job, Pages(all)), NewIds(Fresh(job, all), job.first)))
  {
    ghost var all := Audience(subs, env);
    AudienceIs(subs, env);
    ghost var job := Job(env, tx, w, store.rows, {}, store.next);
    ghost var done;
    hide Ended, Matching, StandsAt, Covers;
    ghost var outcomes := q.outcomes;
    failed, done := Broadcast(store, q, subs, {}, env, tx, Found(w, true));
    FailsByEnqueue(failed, Flatten(Pages(all)[..done]), outcomes, q.outcomes);
    PagesCover(all);
    MatchingAscends(subs, env, 0);
    PageTasksCover(job, Pages(all));
    if !failed {
      assert Pages(all)[..done] == Pages(all);
      forall s | s in subs && s.env == env ensures Has(store.rows, env, tx, s.id) {
        AudienceIsServed(job, subs, store.rows, store.next, s);
      }
    }
  }
}
