/** What a stored subscriber says after any history of upserts, token removals and presence
    writes. */
module SubscriberHistory {
  import opened Common
  import opened Values
  import opened Dotted
  import opened Documents
  import opened SubscriberUpdates

  // ---------------------------------------------------------------------------------
  // The effect of one upsert
  // ---------------------------------------------------------------------------------

  /** `us` are the operations of `ops`, each once, in whatever order. */
  ghost predicate Enumerates(us: seq<Update>, ops: map<Path, Op>) {
    NoRepeats(us) && forall u :: u in us <==> u.path in ops && ops[u.path] == u.op
  }

  ghost function SeedOps(sub: map<string, Doc>, now: Value): map<Path, Op>
    requires Marshaled(sub)
  {
    map p | p in (set k | k in Seeds(sub, now) :: [k]) && |p| == 1 && p[0] in Seeds(sub, now) ::
        Set(Seeds(sub, now)[p[0]])
  }

  /** The operations of an upsert; a new row gets the seeds as well. */
  ghost function UpsertOps(stored: Option<Doc>, sub: map<string, Doc>, now: Value): map<Path, Op>
    requires Marshaled(sub)
  {
    if stored.Some? then TopOps(sub) + ChannelOps(sub) else TopOps(sub) + ChannelOps(sub) + SeedOps(sub, now)
  }

  function Base(stored: Option<Doc>): Doc { if stored.Some? then stored.value else Sub(map[]) }

  /** What field k of the row holds afterwards: the supplied value, the merged channels,
      a seed of a new row, or what was stored. */
  function After(stored: Option<Doc>, sub: map<string, Doc>, now: Value, k: string): Option<Doc>
    requires Marshaled(sub)
  {
    if Written(sub, k) then Some(sub[k])
    else if k == "channels" && Supplies(sub["channels"]) then Merge(Field(stored, k), sub["channels"])
    else if stored.None? && k in Seeds(sub, now) then Some(Seeds(sub, now)[k])
    else Field(stored, k)
  }

  function Upserted(stored: Option<Doc>, sub: map<string, Doc>, now: Value): Doc
    requires Marshaled(sub)
  {
    var stock := if stored.Some? && stored.value.Sub? then stored.value.fields.Keys else {};
    Sub(map k | k in stock + sub.Keys + Seeds(sub, now).Keys && After(stored, sub, now, k).Some?
          :: After(stored, sub, now, k).value)
  }

  lemma TailsOfOps(us: seq<Update>, ops: map<Path, Op>, k: string)
    requires Enumerates(us, ops) && Inner(us)
    ensures NoRepeats(Tails(us, k))
    ensures forall t :: t in Tails(us, k) <==> [k] + t.path in ops && ops[[k] + t.path] == t.op
  {
    TailsMembers(us, k);
    TailsNoRepeats(us, k);
  }

  /** A field with one write of its own. */
  lemma OneWrite(us: seq<Update>, ops: map<Path, Op>, k: string, v: Doc, d: Option<Doc>)
    requires Enumerates(us, ops) && Inner(us)
    requires forall p: Path :: p != [] && p[0] == k && p in ops <==> p == [k]
    requires [k] in ops && ops[[k]] == Set(v)
    ensures ApplyAll(d, Tails(us, k)) == Ok(Some(v))
  {
    TailsOfOps(us, ops, k);
    var u := Update([], Set(v));
    forall t ensures t in Tails(us, k) <==> t == u {
      assert [k] + [] == [k];
      if [k] + t.path == [k] { assert t.path == []; }
      assert ([k] + t.path)[0] == k;
    }
    OnlyOne(Tails(us, k), u);
    assert ApplyAll(d, []) == Ok(d) && [u][..0] == [];
  }

  lemma NoWrite(us: seq<Update>, ops: map<Path, Op>, k: string, d: Option<Doc>)
    requires Enumerates(us, ops) && Inner(us)
    requires forall p: Path :: p in ops && p != [] ==> p[0] != k
    ensures ApplyAll(d, Tails(us, k)) == Ok(d)
  {
    TailsOfOps(us, ops, k);
    forall t ensures t !in Tails(us, k) { assert ([k] + t.path)[0] == k; }
    if Tails(us, k) != [] { FirstIsMember(Tails(us, k)); }
  }

  lemma FirstIsMember(us: seq<Update>)
    requires us != []
    ensures us[0] in us
  {
  }

  /** The channel writes list what the channels document supplies. */
  lemma ChannelTails(us: seq<Update>, ops: map<Path, Op>, sub: map<string, Doc>)
    requires Marshaled(sub) && Enumerates(us, ops) && Inner(us)
    requires forall p: Path :: p != [] && p[0] == "channels" ==>
      (p in ops <==> p in ChannelOps(sub)) && (p in ops ==> ops[p] == ChannelOps(sub)[p])
    ensures Lists(Tails(us, "channels"), sub["channels"])
  {
    TailsOfOps(us, ops, "channels");
    OpsAtMembers(["channels"], sub["channels"]);
    forall t ensures t in Tails(us, "channels") <==> IsUpdateOf(t, sub["channels"]) {
      var p := ["channels"] + t.path;
      assert p[|["channels"]|..] == t.path && p[0] == "channels";
    }
  }

  lemma SeedOpsMembers(sub: map<string, Doc>, now: Value)
    requires Marshaled(sub)
    ensures forall p :: p in SeedOps(sub, now) <==> |p| == 1 && p[0] in Seeds(sub, now)
    ensures forall p :: p in SeedOps(sub, now) ==> SeedOps(sub, now)[p] == Set(Seeds(sub, now)[p[0]])
  {
    forall p: Path | |p| == 1 ensures p in (set k | k in Seeds(sub, now) :: [k]) <==> p[0] in Seeds(sub, now) {
      assert p == [p[0]];
    }
  }

  /** The writes with head k: one of its own, the channel writes, or none. */
  lemma WritesAt(stored: Option<Doc>, sub: map<string, Doc>, now: Value, k: string, p: Path)
    requires Marshaled(sub) && p != [] && p[0] == k
    ensures var ops := UpsertOps(stored, sub, now);
      && (Written(sub, k) ==> (p in ops <==> p == [k]) && (p in ops ==> ops[p] == Set(sub[k])))
      && (k == "channels" && Supplies(sub["channels"]) ==>
            (p in ops <==> p in ChannelOps(sub)) && (p in ops ==> ops[p] == ChannelOps(sub)[p]))
      && (!Written(sub, k) && !(k == "channels" && Supplies(sub["channels"])) ==>
            && (p in ops <==> p == [k] && stored.None? && k in Seeds(sub, now))
            && (p in ops ==> ops[p] == Set(Seeds(sub, now)[k])))
  {
    hide TopOps, ChannelOps, SeedOps, Supplies, PlainKeys;
    TopOpsMembers(sub);
    ChannelOpsMembers(sub);
    SeedOpsMembers(sub, now);
    assert p == [k] <==> |p| == 1;
    if p in ChannelOps(sub) { assert |p| >= 2 && k == "channels"; }
  }

  lemma UpsertOpsInner(stored: Option<Doc>, sub: map<string, Doc>, now: Value, us: seq<Update>)
    requires Marshaled(sub) && Enumerates(us, UpsertOps(stored, sub, now))
    ensures Inner(us)
  {
    hide TopOps, ChannelOps, SeedOps;
    TopOpsMembers(sub);
    ChannelOpsMembers(sub);
    SeedOpsMembers(sub, now);
  }

  /** Field by field, the writes of an upsert leave what After says. */
  lemma UpsertField(stored: Option<Doc>, sub: map<string, Doc>, now: Value, us: seq<Update>, k: string)
    requires Marshaled(sub) && Enumerates(us, UpsertOps(stored, sub, now)) && Inner(us)
    requires stored.None? || stored.value.Sub?
    requires Fits(Field(stored, "channels"), sub["channels"])
    ensures ApplyAll(Field(Some(Base(stored)), k), Tails(us, k)) == Ok(After(stored, sub, now, k))
  {
    hide UpsertOps, ApplyAll, Merge, Supplies, Fits;
    var ops := UpsertOps(stored, sub, now);
    var d := Field(Some(Base(stored)), k);
    assert d == Field(stored, k);
    WritesAt(stored, sub, now, k, [k]);
    if Written(sub, k) {
      forall p: Path | p != [] && p[0] == k ensures p in ops <==> p == [k] { WritesAt(stored, sub, now, k, p); }
      OneWrite(us, ops, k, sub[k], d);
    } else if k == "channels" && Supplies(sub["channels"]) {
      forall p: Path | p != [] && p[0] == k
        ensures (p in ops <==> p in ChannelOps(sub)) && (p in ops ==> ops[p] == ChannelOps(sub)[p])
      {
        WritesAt(stored, sub, now, k, p);
      }
      ChannelTails(us, ops, sub);
      UpdatesMerge(d, sub["channels"], Tails(us, k));
    } else if stored.None? && k in Seeds(sub, now) {
      forall p: Path | p != [] && p[0] == k ensures p in ops <==> p == [k] { WritesAt(stored, sub, now, k, p); }
      OneWrite(us, ops, k, Seeds(sub, now)[k], d);
    } else {
      forall p: Path | p in ops && p != [] ensures p[0] != k { if p[0] == k { WritesAt(stored, sub, now, k, p); } }
      NoWrite(us, ops, k, d);
    }
  }

  /** The compiled upsert, applied in any order to a row whose channels the supplied ones
      fit, overwrites what the caller supplied, merges the channels and leaves the rest; a
      new row is seeded with the defaults the caller left out. */
  lemma UpsertMeaning(stored: Option<Doc>, sub: map<string, Doc>, now: Value, us: seq<Update>)
    requires Marshaled(sub) && Enumerates(us, UpsertOps(stored, sub, now))
    requires stored.None? || stored.value.Sub?
    requires Fits(Field(stored, "channels"), sub["channels"])
    ensures ApplyAll(Some(Base(stored)), us) == Ok(Some(Upserted(stored, sub, now)))
  {
    hide UpsertOps, Merge, Supplies, Fits, ApplyAll;
    UpsertOpsInner(stored, sub, now, us);
    var d := Some(Base(stored));
    ApplyByField(d, us);
    forall k ensures ApplyAll(Field(d, k), Tails(us, k)) == Ok(After(stored, sub, now, k)) {
      UpsertField(stored, sub, now, us, k);
    }
    assert forall k :: ApplyAll(Field(d, k), Tails(us, k)).Ok?;
    var r := ApplyAll(d, us).value;
    assert forall k :: Field(r, k) == After(stored, sub, now, k);
    EqualByFields(r, stored, sub, now);
  }

  lemma EqualByFields(r: Option<Doc>, stored: Option<Doc>, sub: map<string, Doc>, now: Value)
    requires Marshaled(sub) && r.Some? && r.value.Sub?
    requires forall k :: Field(r, k) == After(stored, sub, now, k)
    ensures r.value == Upserted(stored, sub, now)
  {
    hide Merge, Supplies;
    var u := Upserted(stored, sub, now);
    forall k ensures k in r.value.fields <==> k in u.fields
      ensures k in u.fields ==> r.value.fields[k] == u.fields[k]
    {
      assert Field(r, k) == After(stored, sub, now, k);
    }
  }

  // ---------------------------------------------------------------------------------
  // Histories
  // ---------------------------------------------------------------------------------

  /** The shape the channel model gives every subscriber: a document per channel, with token
      arrays under push and scalars under the others. */
  ghost predicate Typed(channels: Doc) {
    && channels.Sub?
    && forall c :: c in channels.fields ==>
         && channels.fields[c].Sub?
         && forall f :: f in channels.fields[c].fields ==>
              if c == "push" then channels.fields[c].fields[f].Array? else channels.fields[c].fields[f].Leaf?
  }

  datatype Event =
    | Upsert(sub: map<string, Doc>, now: Value)
    | RemoveTokens(fcm: seq<Value>, apns: seq<Value>, now: Value)
    | SetOnline(online: bool, now: Value)

  ghost predicate WellTyped(e: Event) {
    e.Upsert? ==> Marshaled(e.sub) && Typed(e.sub["channels"])
  }

  function Without(items: seq<Value>, gone: seq<Value>): seq<Value> {
    if items == [] then []
    else Without(items[..|items| - 1], gone) + if items[|items| - 1] in gone then [] else [items[|items| - 1]]
  }

  /** The removed tokens of one list. */
  function Gone(e: Event, list: string): seq<Value>
    requires e.RemoveTokens?
  {
    if list == "fcmTokens" then e.fcm else if list == "apnsTokens" then e.apns else []
  }

  /** $pull leaves a list that is not there alone. */
  function Pulled(push: Doc, e: Event): Doc
    requires e.RemoveTokens?
  {
    if !push.Sub? then push
    else Sub(map f | f in push.fields ::
               if push.fields[f].Array? && Gone(e, f) != [] then Array(Without(push.fields[f].items, Gone(e, f)))
               else push.fields[f])
  }

  /** A removal that names no token only reads the row. */
  function RemovePushTokens(row: Doc, e: Event): Doc
    requires e.RemoveTokens?
  {
    if !row.Sub? || (e.fcm == [] && e.apns == []) then row
    else
      var channels := Field(Some(row), "channels");
      var push := Field(channels, "push");
      var fields := row.fields["updatedAt" := Leaf(e.now)];
      Sub(if push.None? then fields
          else fields["channels" := Sub(channels.value.fields["push" := Pulled(push.value, e)])])
  }

  function SetOnlineStatus(row: Doc, e: Event): Doc
    requires e.SetOnline?
  {
    if !row.Sub? then row
    else
      var fields := row.fields["isOnline" := Leaf(Bool(e.online))]["updatedAt" := Leaf(e.now)];
      Sub(if e.online then fields["lastOnlineAt" := Leaf(e.now)] else fields)
  }

  ghost predicate AllTyped(events: seq<Event>) {
    forall i :: 0 <= i < |events| ==> WellTyped(events[i])
  }

  /** The stored row, if any, after a history. Only an upsert creates a row. */
  ghost function Stored(events: seq<Event>): Option<Doc>
    requires AllTyped(events)
  {
    if events == [] then None
    else
      var before := Stored(events[..|events| - 1]);
      var e := events[|events| - 1];
      Next(before, e)
  }

  ghost function Next(row: Option<Doc>, e: Event): Option<Doc>
    requires WellTyped(e)
  {
    if e.Upsert? then Some(Upserted(row, e.sub, e.now))
    else if row.None? then None
    else if e.RemoveTokens? then Some(RemovePushTokens(row.value, e))
    else Some(SetOnlineStatus(row.value, e))
  }

  ghost predicate GoodRow(d: Option<Doc>) {
    d.Some? ==> d.value.Sub? && "channels" in d.value.fields && Typed(d.value.fields["channels"])
  }

  lemma TypedFits(d: Option<Doc>, channels: Doc)
    requires Typed(channels) && (d.Some? ==> Typed(d.value))
    ensures Fits(d, channels)
    ensures var m := Merge(d, channels); m.Some? ==> Typed(m.value)
  {
    forall c | c in channels.fields
      ensures Fits(Field(d, c), channels.fields[c])
      ensures var m := Merge(Field(d, c), channels.fields[c]);
        m.Some? ==> m.value.Sub? && forall f :: f in m.value.fields ==>
            if c == "push" then m.value.fields[f].Array? else m.value.fields[f].Leaf?
    {
      forall f | f in channels.fields[c].fields
        ensures Fits(Field(Field(d, c), f), channels.fields[c].fields[f])
        ensures var m := Merge(Field(Field(d, c), f), channels.fields[c].fields[f]);
          m.Some? ==> if c == "push" then m.value.Array? else m.value.Leaf?
      {
      }
    }
  }

  lemma UpsertedField(row: Option<Doc>, sub: map<string, Doc>, now: Value, k: string)
    requires Marshaled(sub)
    ensures Field(Some(Upserted(row, sub, now)), k) == After(row, sub, now, k)
  {
    hide Merge, Supplies;
  }

  lemma NextStaysGood(row: Option<Doc>, e: Event)
    requires GoodRow(row) && WellTyped(e)
    ensures GoodRow(Next(row, e))
  {
    if e.Upsert? {
      TypedFits(Field(row, "channels"), e.sub["channels"]);
      UpsertedField(row, e.sub, e.now, "channels");
    }
  }

  lemma {:induction false} StoredIsGood(events: seq<Event>)
    requires AllTyped(events)
    ensures GoodRow(Stored(events))
    ensures Stored(events).Some? <==> exists e :: e in events && e.Upsert?
  {
    if events != [] {
      var n := |events| - 1;
      StoredIsGood(events[..n]);
      assert events[n] in events && events == events[..n] + [events[n]];
      NextStaysGood(Stored(events[..n]), events[n]);
    }
  }

  /** What one event does to a field. */
  ghost predicate Steps(row: Option<Doc>, e: Event, next: Option<Doc>, k: string)
    requires WellTyped(e)
  {
    && (e.Upsert? ==> next.Some? && Field(next, k) == After(row, e.sub, e.now, k))
    && (!e.Upsert? ==> next.Some? == row.Some?)
    && (!e.Upsert? && k !in {"channels", "isOnline", "lastOnlineAt", "updatedAt"} ==> Field(next, k) == Field(row, k))
    && (e.SetOnline? && row.Some? && k == "isOnline" ==> Field(next, k) == Some(Leaf(Bool(e.online))))
    && (e.RemoveTokens? && k == "isOnline" ==> Field(next, k) == Field(row, k))
  }

  lemma NextSteps(row: Option<Doc>, e: Event, k: string)
    requires GoodRow(row) && WellTyped(e)
    ensures Steps(row, e, Next(row, e), k)
  {
    if e.Upsert? {
      hide Upserted, After;
      UpsertedField(row, e.sub, e.now, k);
    }
  }

  function PushField(row: Option<Doc>, f: string): Option<Doc> { Field(Field(Field(row, "channels"), "push"), f) }

  /** What the other events do to a stored row: a presence write sets the presence, and the time
      of going online; a token removal takes the named tokens out of their own lists. Both
      renew updatedAt, unless the removal names nothing, and neither touches anything else. */
  lemma EventEffects(row: Doc, e: Event, k: string)
    requires GoodRow(Some(row)) && !e.Upsert?
    ensures var next := Next(Some(row), e);
      && next.Some?
      && (e.SetOnline? && k == "isOnline" ==> Field(next, k) == Some(Leaf(Bool(e.online))))
      && (e.SetOnline? && e.online && k == "lastOnlineAt" ==> Field(next, k) == Some(Leaf(e.now)))
      && (e.SetOnline? && k !in {"isOnline", "updatedAt"} && !(e.online && k == "lastOnlineAt") ==>
          Field(next, k) == Field(Some(row), k))
      && (e.SetOnline? || e.fcm != [] || e.apns != [] ==> Field(next, "updatedAt") == Some(Leaf(e.now)))
      && (e.RemoveTokens? && e.fcm == [] && e.apns == [] ==> next.value == row)
      && (e.RemoveTokens? && k !in {"channels", "updatedAt"} ==> Field(next, k) == Field(Some(row), k))
      && (e.RemoveTokens? ==> forall c :: c != "push" ==>
          Field(Field(next, "channels"), c) == Field(Field(Some(row), "channels"), c))
      && (e.RemoveTokens? && k !in {"fcmTokens", "apnsTokens"} ==> PushField(next, k) == PushField(Some(row), k))
      && (e.RemoveTokens? ==> TokensOf(next, "fcmTokens") == Without(TokensOf(Some(row), "fcmTokens"), e.fcm))
      && (e.RemoveTokens? ==> TokensOf(next, "apnsTokens") == Without(TokensOf(Some(row), "apnsTokens"), e.apns))
  {
    if e.RemoveTokens? {
      RemoveTokensExact(Some(row), e, "fcmTokens");
      RemoveTokensExact(Some(row), e, "apnsTokens");
      OtherFieldsStay(row, e);
    }
  }

  lemma OtherFieldsStay(row: Doc, e: Event)
    requires GoodRow(Some(row)) && e.RemoveTokens?
    ensures var next := Next(Some(row), e);
      && (forall k :: k !in {"channels", "updatedAt"} ==> Field(next, k) == Field(Some(row), k))
      && (forall c :: c != "push" ==> Field(Field(next, "channels"), c) == Field(Field(Some(row), "channels"), c))
      && (forall f :: f !in {"fcmTokens", "apnsTokens"} ==> PushField(next, f) == PushField(Some(row), f))
  {
  }

  lemma LastEvent(events: seq<Event>, k: string)
    requires AllTyped(events) && events != []
    ensures var n := |events| - 1;
      && AllTyped(events[..n]) && GoodRow(Stored(events[..n]))
      && Steps(Stored(events[..n]), events[n], Stored(events), k)
  {
    hide Next, Steps;
    var n := |events| - 1;
    StoredIsGood(events[..n]);
    NextSteps(Stored(events[..n]), events[n], k);
  }

  /** createdAt is the time of the first upsert. */
  lemma {:induction false} CreatedAtFirstUpsert(events: seq<Event>, i: nat)
    requires AllTyped(events)
    requires i < |events| && events[i].Upsert? && forall j :: 0 <= j < i ==> !events[j].Upsert?
    ensures Field(Stored(events), "createdAt") == Some(Leaf(events[i].now))
  {
    var n := |events| - 1;
    LastEvent(events, "createdAt");
    StoredIsGood(events[..n]);
    if i < n {
      CreatedAtFirstUpsert(events[..n], i);
      assert events[..n][i] in events[..n];
    }
  }

  /** isOnline is the last presence write to the row: an upsert does not reset it. */
  lemma {:induction false} OnlineIsLastPresence(events: seq<Event>, i: nat)
    requires AllTyped(events)
    requires i < |events| && events[i].SetOnline? && Stored(events[..i]).Some?
    requires forall j :: i < j < |events| ==> !events[j].SetOnline?
    ensures Stored(events).Some? && Field(Stored(events), "isOnline") == Some(Leaf(Bool(events[i].online)))
  {
    hide Next, Field, GoodRow;
    var n := |events| - 1;
    LastEvent(events, "isOnline");
    if i < n {
      assert events[..n][..i] == events[..i];
      OnlineIsLastPresence(events[..n], i);
    }
  }

  /** A row nobody has written presence to is offline. */
  lemma {:induction false} OfflineByDefault(events: seq<Event>)
    requires AllTyped(events) && Stored(events).Some?
    requires forall j :: 0 <= j < |events| && events[j].SetOnline? ==> Stored(events[..j]).None?
    ensures Field(Stored(events), "isOnline") == Some(OFFLINE)
  {
    var n := |events| - 1;
    LastEvent(events, "isOnline");
    if Stored(events[..n]).Some? {
      forall j | 0 <= j < n ensures events[..n][..j] == events[..j] { }
      OfflineByDefault(events[..n]);
    }
  }

  predicate NamesLocale(e: Event) {
    e.Upsert? && "locale" in e.sub && e.sub["locale"] != Leaf(Str(""))
  }

  /** locale is the last non-empty one supplied. */
  lemma {:induction false} LocaleIsLastSupplied(events: seq<Event>, i: nat)
    requires AllTyped(events)
    requires i < |events| && NamesLocale(events[i]) && forall j :: i < j < |events| ==> !NamesLocale(events[j])
    ensures Stored(events).Some? && Field(Stored(events), "locale") == Some(events[i].sub["locale"])
  {
    LastEvent(events, "locale");
    if i < |events| - 1 { LocaleIsLastSupplied(events[..|events| - 1], i); }
  }

  lemma {:induction false} LocaleByDefault(events: seq<Event>)
    requires AllTyped(events) && Stored(events).Some?
    requires forall j :: 0 <= j < |events| ==> !NamesLocale(events[j])
    ensures Field(Stored(events), "locale") == Some(DEFAULT_LOCALE)
  {
    LastEvent(events, "locale");
    if Stored(events[..|events| - 1]).Some? { LocaleByDefault(events[..|events| - 1]); }
  }

  // --- push tokens -------------------------------------------------------------------

  /** A token list of a channels document. */
  function Tokens(channels: Option<Doc>, list: string): seq<Value> {
    var d := Field(Field(channels, "push"), list);
    if d.Some? && d.value.Array? then d.value.items else []
  }

  function TokensOf(row: Option<Doc>, list: string): seq<Value> { Tokens(Field(row, "channels"), list) }

  function Supplied(e: Event, list: string): seq<Value> {
    if e.Upsert? && "channels" in e.sub then Tokens(Some(e.sub["channels"]), list) else []
  }

  predicate Removes(e: Event, list: string, t: Value) {
    e.RemoveTokens? && ((list == "fcmTokens" && t in e.fcm) || (list == "apnsTokens" && t in e.apns))
  }

  lemma {:induction false} UnionExact(a: seq<Value>, b: seq<Value>)
    ensures forall x :: x in Union(a, b) <==> x in a || x in b
    ensures NoRepeats(a) ==> NoRepeats(Union(a, b))
    decreases |b|
  {
    if b != [] {
      var a1 := if b[0] in a then a else a + [b[0]];
      assert b == [b[0]] + b[1..];
      UnionExact(a1, b[1..]);
    }
  }

  lemma {:induction false} WithoutExact(a: seq<Value>, gone: seq<Value>)
    ensures forall x :: x in Without(a, gone) <==> x in a && x !in gone
    ensures NoRepeats(a) ==> NoRepeats(Without(a, gone))
  {
    if a != [] {
      var n := |a| - 1;
      WithoutExact(a[..n], gone);
      assert a == a[..n] + [a[n]];
      if NoRepeats(a) { assert a[n] !in a[..n]; }
    }
  }

  lemma MergeField(d: Option<Doc>, s: Doc, k: string)
    requires s.Sub? && (d.None? || d.value.Sub?)
    ensures Field(Merge(d, s), k) == if k in s.fields then Merge(Field(d, k), s.fields[k]) else Field(d, k)
  {
    if !Supplies(s) && k in s.fields { SuppliesNothing(Field(d, k), s.fields[k]); }
  }

  /** Merging unites the token lists. */
  lemma MergeTokens(d: Option<Doc>, s: Doc, list: string)
    requires Typed(s) && (d.Some? ==> Typed(d.value))
    ensures Tokens(Merge(d, s), list) == Union(Tokens(d, list), Tokens(Some(s), list))
  {
    MergeField(d, s, "push");
    if "push" in s.fields {
      MergeField(Field(d, "push"), s.fields["push"], list);
    }
  }

  lemma UpsertTokens(row: Option<Doc>, e: Event, list: string)
    requires GoodRow(row) && WellTyped(e) && e.Upsert?
    ensures TokensOf(Next(row, e), list) == Union(TokensOf(row, list), Supplied(e, list))
  {
    hide Merge, Supplies, Typed, PlainKeys;
    UpsertedField(row, e.sub, e.now, "channels");
    MergeTokens(Field(row, "channels"), e.sub["channels"], list);
    if !Supplies(e.sub["channels"]) { SuppliesNothing(Field(row, "channels"), e.sub["channels"]); }
  }

  lemma RemoveTokensExact(row: Option<Doc>, e: Event, list: string)
    requires GoodRow(row) && e.RemoveTokens? && list in {"fcmTokens", "apnsTokens"}
    ensures TokensOf(Next(row, e), list) == Without(TokensOf(row, list), Gone(e, list))
  {
    if Gone(e, list) == [] { WithoutNothing(TokensOf(row, list)); }
  }

  lemma {:induction false} WithoutNothing(a: seq<Value>)
    ensures Without(a, []) == a
  {
    if a != [] {
      WithoutNothing(a[..|a| - 1]);
      assert a == a[..|a| - 1] + [a[|a| - 1]];
    }
  }

  /** Some upsert supplied the token and no later removal named it. */
  ghost predicate Held(events: seq<Event>, list: string, t: Value) {
    exists i :: 0 <= i < |events| && t in Supplied(events[i], list)
      && forall j :: i < j < |events| ==> !Removes(events[j], list, t)
  }

  lemma HeldStep(events: seq<Event>, list: string, t: Value)
    requires events != []
    ensures var n := |events| - 1;
      Held(events, list, t) <==>
          t in Supplied(events[n], list) || (Held(events[..n], list, t) && !Removes(events[n], list, t))
  {
    var n := |events| - 1;
    assert forall i :: 0 <= i < n ==> events[..n][i] == events[i];
  }

  /** Each token list is free of duplicates and holds exactly the tokens supplied and not
      removed since. */
  lemma {:induction false} TokensAreHeld(events: seq<Event>, list: string)
    requires AllTyped(events) && list in {"fcmTokens", "apnsTokens"}
    ensures NoRepeats(TokensOf(Stored(events), list))
    ensures forall t :: t in TokensOf(Stored(events), list) <==> Held(events, list, t)
  {
    if events != [] {
      hide Upserted, Merge, Typed, Held, Supplied, RemovePushTokens, TokensOf;
      var n := |events| - 1;
      var before, e := Stored(events[..n]), events[n];
      TokensAreHeld(events[..n], list);
      StoredIsGood(events[..n]);
      forall t ensures Held(events, list, t) <==>
          t in Supplied(e, list) || (Held(events[..n], list, t) && !Removes(e, list, t)) {
        HeldStep(events, list, t);
      }
      LastTokens(before, e, list);
    }
  }

  lemma LastTokens(before: Option<Doc>, e: Event, list: string)
    requires GoodRow(before) && WellTyped(e) && list in {"fcmTokens", "apnsTokens"}
    requires NoRepeats(TokensOf(before, list))
    ensures NoRepeats(TokensOf(Next(before, e), list))
    ensures forall t :: t in TokensOf(Next(before, e), list) <==>
      t in Supplied(e, list) || (t in TokensOf(before, list) && !Removes(e, list, t))
  {
    if e.Upsert? {
      UpsertTokens(before, e, list);
      UnionExact(TokensOf(before, list), Supplied(e, list));
    } else if e.RemoveTokens? {
      RemoveTokensExact(before, e, list);
      WithoutExact(TokensOf(before, list), Gone(e, list));
    } else {
      assert TokensOf(Next(before, e), list) == TokensOf(before, list);
    }
  }
}
