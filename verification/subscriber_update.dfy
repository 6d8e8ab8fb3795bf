/** Compiling a subscriber into an upsert that writes only what the caller supplied. */
module SubscriberUpdates {
  import opened Common
  import opened Values
  import opened Dotted
  import opened Documents

  /** The three stages of an update document under construction, keyed by dotted path.
      `ops` is the same $set and $addToSet content, keyed by the parts of the paths. */
  class Stages {
    var set_: map<string, Doc>
    var addToSet: map<string, seq<Value>>
    var insert: map<string, Doc>
    ghost var ops: map<Path, Op>

    ghost predicate Valid()
      reads `set_, `addToSet, `ops
    {
      && (forall p :: p in ops ==> p != [] && AllDotFree(p))
      && (forall p :: p in ops && ops[p].Set? ==> Join(p) in set_ && set_[Join(p)] == ops[p].d)
      && (forall p :: p in ops && ops[p].AddToSet? ==> Join(p) in addToSet && addToSet[Join(p)] == ops[p].items)
      && (forall s :: s in set_ ==> exists p :: p in ops && ops[p].Set? && Join(p) == s)
      && (forall s :: s in addToSet ==> exists p :: p in ops && ops[p].AddToSet? && Join(p) == s)
    }

    constructor ()
      ensures Valid() && ops == map[] && set_ == map[] && addToSet == map[] && insert == map[]
    {
      set_, addToSet, insert, ops := map[], map[], map[], map[];
    }

    /** Records one more write, at a path that has none yet. */
    method Record(path: string, op: Op, ghost p: Path)
      requires Valid() && p != [] && AllDotFree(p) && path == Join(p) && p !in ops
      modifies this
      ensures Valid() && ops == old(ops)[p := op] && insert == old(insert)
    {
      forall q | q in ops ensures Join(q) != path { if Join(q) == path { JoinInjective(p, q); } }
      match op {
        case Set(d) => set_ := set_[path := d];
        case AddToSet(items) => addToSet := addToSet[path := items];
      }
      ops := ops[p := op];
      forall s | s in set_ ensures exists q :: q in ops && ops[q].Set? && Join(q) == s {
        if s in old(set_) {
          var q :| q in old(ops) && old(ops)[q].Set? && Join(q) == s;
          assert q in ops && ops[q] == old(ops)[q];
        } else { assert p in ops && ops[p] == op; }
      }
      forall s | s in addToSet ensures exists q :: q in ops && ops[q].AddToSet? && Join(q) == s {
        if s in old(addToSet) {
          var q :| q in old(ops) && old(ops)[q].AddToSet? && Join(q) == s;
          assert q in ops && ops[q] == old(ops)[q];
        } else { assert p in ops && ops[p] == op; }
      }
    }
  }

  // ---------------------------------------------------------------------------------
  // Flattening
  // ---------------------------------------------------------------------------------

  /** The writes a document below path p0 is flattened into. */
  ghost function OpsAt(p0: Path, d: Doc): map<Path, Op> {
    map q | q in Under(p0, Paths(d)) && At(Some(d), q[|p0|..]).Some? :: OpOf(At(Some(d), q[|p0|..]).value)
  }

  ghost function Under(p0: Path, ps: set<Path>): (r: set<Path>)
    ensures forall q :: q in r <==> p0 <= q && q[|p0|..] in ps
  {
    var r := set p | p in ps :: p0 + p;
    forall q ensures q in r <==> p0 <= q && q[|p0|..] in ps {
      if p0 <= q { assert q == p0 + q[|p0|..]; }
      if q in r { var p :| p in ps && q == p0 + p; assert q[|p0|..] == p; }
    }
    r
  }

  /** The fields of a document handled so far. */
  function Only(fields: map<string, Doc>, keys: set<string>): map<string, Doc> {
    map k | k in fields && k in keys :: fields[k]
  }

  lemma OpsAtMembers(p0: Path, d: Doc)
    ensures forall q :: q in OpsAt(p0, d) <==> p0 <= q && q[|p0|..] in Paths(d)
    ensures forall q :: q in OpsAt(p0, d) ==>
      At(Some(d), q[|p0|..]).Some? && OpsAt(p0, d)[q] == OpOf(At(Some(d), q[|p0|..]).value)
  {
    forall q | q in Under(p0, Paths(d)) ensures At(Some(d), q[|p0|..]).Some? { PathsLead(d, q[|p0|..]); }
  }

  /** One more field adds exactly the writes below it. */
  lemma OpsOfOneMoreField(p0: Path, fields: map<string, Doc>, keys: set<string>, k: string)
    requires k in fields && k !in keys
    ensures OpsAt(p0, Sub(Only(fields, keys + {k}))) == OpsAt(p0, Sub(Only(fields, keys))) + OpsAt(p0 + [k], fields[k])
    ensures forall q :: q in OpsAt(p0 + [k], fields[k]) ==> q !in OpsAt(p0, Sub(Only(fields, keys)))
  {
    var a, b, c := Sub(Only(fields, keys + {k})), Sub(Only(fields, keys)), fields[k];
    OpsAtMembers(p0, a);
    OpsAtMembers(p0, b);
    OpsAtMembers(p0 + [k], c);
    forall q ensures q in OpsAt(p0, a) <==> q in OpsAt(p0, b) || q in OpsAt(p0 + [k], c)
      ensures q in OpsAt(p0 + [k], c) ==>
        q !in OpsAt(p0, b) && q in OpsAt(p0, a) && OpsAt(p0, a)[q] == OpsAt(p0 + [k], c)[q]
      ensures q in OpsAt(p0, b) ==> q in OpsAt(p0, a) && OpsAt(p0, a)[q] == OpsAt(p0, b)[q]
    {
      if p0 <= q {
        BelowFields(fields, keys, k, q[|p0|..]);
        assert p0 + [k] <= q <==> q[|p0|..] != [] && q[|p0|..][0] == k;
        if p0 + [k] <= q { assert q[|p0 + [k]|..] == q[|p0|..][1..]; }
      }
    }
  }

  lemma BelowFields(fields: map<string, Doc>, keys: set<string>, k: string, p: Path)
    requires k in fields && k !in keys
    ensures var a, b := Sub(Only(fields, keys + {k})), Sub(Only(fields, keys));
      && (p in Paths(a) <==> p in Paths(b) || (p != [] && p[0] == k && p[1..] in Paths(fields[k])))
      && (p in Paths(b) ==> p != [] && p[0] != k && At(Some(a), p) == At(Some(b), p))
      && (p != [] && p[0] == k ==> At(Some(a), p) == At(Some(fields[k]), p[1..]))
  {
    var a, b := Sub(Only(fields, keys + {k})), Sub(Only(fields, keys));
    if p != [] {
      assert p == [p[0]] + p[1..];
      assert p in Paths(a) <==> p[0] in a.fields && p[1..] in Paths(a.fields[p[0]]) by { PathsByHead(a, p); }
      assert p in Paths(b) <==> p[0] in b.fields && p[1..] in Paths(b.fields[p[0]]) by { PathsByHead(b, p); }
    }
  }

  lemma PathsByHead(d: Doc, p: Path)
    requires d.Sub? && p != []
    ensures p in Paths(d) <==> p[0] in d.fields && p[1..] in Paths(d.fields[p[0]])
  {
    assert p == [p[0]] + p[1..];
    if p in Paths(d) {
      var k, q :| k in d.fields && q in Paths(d.fields[k]) && p == [k] + q;
      assert k == p[0] && q == p[1..];
    }
  }

  /** Walks a document in whatever order its keys come, writing each value under its dotted
      path. */
  method FlattenChannels(prefix: string, doc: Doc, u: Stages, ghost p0: Path)
    requires doc.Sub? && PlainKeys(doc)
    requires u.Valid() && p0 != [] && AllDotFree(p0) && prefix == Join(p0)
    requires forall q :: q in OpsAt(p0, doc) ==> q !in u.ops
    modifies u
    ensures u.Valid() && u.ops == old(u.ops) + OpsAt(p0, doc) && u.insert == old(u.insert)
    decreases doc, 1
  {
    hide Stages.Valid, OpsAt, Paths, Only;
    NoFields(p0, doc);
    var todo := doc.fields.Keys;
    ghost var done: set<string> := {};
    while todo != {}
      invariant u.Valid() && u.insert == old(u.insert) && todo <= doc.fields.Keys
      invariant done == doc.fields.Keys - todo
      invariant u.ops == old(u.ops) + OpsAt(p0, Sub(Only(doc.fields, done)))
    {
      var key :| key in todo;
      todo := todo - {key};
      OpsOfOneMoreField(p0, doc.fields, done, key);
      JoinSnoc(p0, key);
      WithinWhole(p0, doc, done + {key});
      SumAssociates(old(u.ops), OpsAt(p0, Sub(Only(doc.fields, done))), OpsAt(p0 + [key], doc.fields[key]));
      FlattenChannelValue(prefix + "." + key, doc.fields[key], u, p0 + [key]);
      done := done + {key};
    }
    assert done == doc.fields.Keys && Sub(doc.fields) == doc;
  }

  lemma NoFields(p0: Path, doc: Doc)
    requires doc.Sub?
    ensures OpsAt(p0, Sub(Only(doc.fields, {}))) == map[] && Only(doc.fields, doc.fields.Keys) == doc.fields
  {
  }

  lemma WithinWhole(p0: Path, doc: Doc, keys: set<string>)
    requires doc.Sub?
    ensures forall q :: q in OpsAt(p0, Sub(Only(doc.fields, keys))) ==> q in OpsAt(p0, doc)
  {
    OpsAtMembers(p0, doc);
    OpsAtMembers(p0, Sub(Only(doc.fields, keys)));
    forall p | p in Paths(Sub(Only(doc.fields, keys))) ensures p in Paths(doc) {
      PathsByHead(Sub(Only(doc.fields, keys)), p);
      PathsByHead(doc, p);
    }
  }

  method FlattenChannelValue(path: string, value: Doc, u: Stages, ghost p: Path)
    requires PlainKeys(value)
    requires u.Valid() && p != [] && AllDotFree(p) && path == Join(p)
    requires forall q :: q in OpsAt(p, value) ==> q !in u.ops
    modifies u
    ensures u.Valid() && u.ops == old(u.ops) + OpsAt(p, value) && u.insert == old(u.insert)
    decreases value, 2
  {
    hide Stages.Valid, OpsAt;
    match value {
      case Sub(_) => FlattenChannels(path, value, u, p);
      case Array(items) =>
        if |items| > 0 {
          SingleOp(p, value);
          u.Record(path, AddToSet(items), p);
        } else {
          NoOps(p, value);
        }
      case Leaf(_) =>
        SingleOp(p, value);
        u.Record(path, Set(value), p);
    }
  }

  lemma NoOps(p: Path, value: Doc)
    requires !Supplies(value)
    ensures OpsAt(p, value) == map[]
  {
    SuppliesPaths(value);
  }

  lemma SingleOp(p: Path, value: Doc)
    requires !value.Sub? && Supplies(value)
    ensures OpsAt(p, value) == map[p := OpOf(value)]
  {
    OpsAtMembers(p, value);
    forall q ensures p <= q && q[|p|..] == [] <==> q == p { if p <= q { assert q == p + q[|p|..]; } }
    assert p[|p|..] == [];
  }

  // ---------------------------------------------------------------------------------
  // The whole update document
  // ---------------------------------------------------------------------------------

  const DEFAULT_LOCALE: Doc := Leaf(Str("en"))
  const NO_CHANNELS: Doc := Sub(map[])
  const OFFLINE: Doc := Leaf(Bool(false))

  /** A marshaled subscriber: plain field names, a channels document of plain field names, a
      locale that may be empty. The free-form data below its field may have any keys. */
  ghost predicate Marshaled(sub: map<string, Doc>) {
    && (forall k :: k in sub ==> DotFree(k))
    && "channels" in sub && sub["channels"].Sub? && PlainKeys(sub["channels"])
    && "locale" in sub && sub["locale"].Leaf? && sub["locale"].v.Str?
  }

  function LocaleOf(sub: map<string, Doc>): string
    requires "locale" in sub && sub["locale"].Leaf? && sub["locale"].v.Str?
  {
    sub["locale"].v.s
  }

  /** The top-level fields an upsert may overwrite. */
  predicate Written(sub: map<string, Doc>, k: string)
    requires "locale" in sub && sub["locale"].Leaf? && sub["locale"].v.Str?
  {
    && k in sub && k !in {"createdAt", "_id", "isOnline", "channels"}
    && (k == "locale" ==> LocaleOf(sub) != "")
  }

  ghost function TopOps(sub: map<string, Doc>): map<Path, Op>
    requires Marshaled(sub)
  {
    map p | p in (set k | k in sub :: [k]) && |p| == 1 && Written(sub, p[0]) :: Set(sub[p[0]])
  }

  /** The seeds of a new row. */
  function Seeds(sub: map<string, Doc>, now: Value): map<string, Doc>
    requires Marshaled(sub)
  {
    map["createdAt" := Leaf(now), "isOnline" := OFFLINE]
      + (if LocaleOf(sub) == "" then map["locale" := DEFAULT_LOCALE] else map[])
      + (if Supplies(sub["channels"]) then map[] else map["channels" := NO_CHANNELS])
  }

  /** A new row is created now, offline, in English unless the caller says otherwise, and with
      no channels unless some are supplied. */
  lemma SeedsAre(sub: map<string, Doc>, now: Value)
    requires Marshaled(sub)
    ensures var seeds := Seeds(sub, now);
      && seeds.Keys == {"createdAt", "isOnline"} + (if sub["locale"] == Leaf(Str("")) then {"locale"} else {})
                       + (if Paths(sub["channels"]) == {} then {"channels"} else {})
      && seeds["createdAt"] == Leaf(now) && seeds["isOnline"] == Leaf(Bool(false))
      && ("locale" in seeds ==> seeds["locale"] == Leaf(Str("en")))
      && ("channels" in seeds ==> seeds["channels"] == Sub(map[]))
  {
    hide PlainKeys, Supplies, Paths;
    SuppliesPaths(sub["channels"]);
  }

  /** Some $set path lies below "channels". */
  method HasChannelPath(setDoc: map<string, Doc>) returns (r: bool)
    ensures r <==> exists s :: s in setDoc && "channels." <= s
  {
    var todo := setDoc.Keys;
    while todo != {}
      invariant todo <= setDoc.Keys
      invariant forall s :: s in setDoc && s !in todo ==> !("channels." <= s)
    {
      var s :| s in todo;
      todo := todo - {s};
      if "channels." <= s {
        return true;
      }
    }
    return false;
  }

  lemma TopOpsMembers(sub: map<string, Doc>)
    requires Marshaled(sub)
    ensures forall p :: p in TopOps(sub) <==> |p| == 1 && Written(sub, p[0])
    ensures forall p :: p in TopOps(sub) ==> TopOps(sub)[p] == Set(sub[p[0]])
    ensures forall p :: p in TopOps(sub) ==> AllDotFree(p)
    ensures forall p :: p in ChannelOps(sub) ==> p !in TopOps(sub)
  {
    forall p | |p| == 1 ensures p in (set k | k in sub :: [k]) <==> p[0] in sub {
      assert p == [p[0]];
    }
    OpsAtMembers(["channels"], sub["channels"]);
    forall p | p in ChannelOps(sub) ensures p !in TopOps(sub) {
      assert p[0] == "channels";
    }
  }

  /** The top-level writes, staged under their own names. */
  lemma TopStages(sub: map<string, Doc>, set_: map<string, Doc>, ops: map<Path, Op>)
    requires Marshaled(sub) && ops == TopOps(sub)
    requires forall k :: k in set_ <==> Written(sub, k)
    requires forall k :: k in set_ ==> k in sub && set_[k] == sub[k]
    ensures forall p :: p in ops ==>
      p != [] && AllDotFree(p) && ops[p].Set? && Join(p) in set_ && set_[Join(p)] == ops[p].d
    ensures forall s :: s in set_ ==> exists p :: p in ops && ops[p].Set? && Join(p) == s
  {
    TopOpsMembers(sub);
    forall s | s in set_ ensures exists p :: p in ops && ops[p].Set? && Join(p) == s {
      assert [s] in ops && Join([s]) == s;
    }
  }

  ghost function ChannelOps(sub: map<string, Doc>): map<Path, Op>
    requires Marshaled(sub)
  {
    OpsAt(["channels"], sub["channels"])
  }

  /** Channel writes lie strictly below "channels". */
  lemma ChannelOpsMembers(sub: map<string, Doc>)
    requires Marshaled(sub)
    ensures forall q :: q in ChannelOps(sub) ==> |q| >= 2 && q[0] == "channels" && q[1..] in Paths(sub["channels"])
    ensures ChannelOps(sub) == map[] <==> !Supplies(sub["channels"])
  {
    OpsAtMembers(["channels"], sub["channels"]);
    SuppliesPaths(sub["channels"]);
    forall q | q in ChannelOps(sub) ensures |q| >= 2 {
      assert q[|["channels"]|..] == q[1..];
    }
    if Supplies(sub["channels"]) {
      var p :| p in Paths(sub["channels"]);
      assert (["channels"] + p)[|["channels"]|..] == p;
      assert ["channels"] + p in ChannelOps(sub);
    }
  }

  lemma LocaleStaged(sub: map<string, Doc>, u: Stages)
    requires Marshaled(sub) && u.Valid() && u.ops == TopOps(sub) + ChannelOps(sub)
    ensures "locale" in u.set_ <==> LocaleOf(sub) != ""
  {
    hide ChannelOps, TopOps;
    TopOpsMembers(sub);
    ChannelOpsMembers(sub);
    assert Join(["locale"]) == "locale" && AllDotFree(["locale"]);
    if "locale" in u.set_ {
      var p :| p in u.ops && u.ops[p].Set? && Join(p) == "locale";
      JoinInjective(p, ["locale"]);
    }
    if LocaleOf(sub) != "" { assert ["locale"] in u.ops; }
  }

  /** A path below "channels" was produced exactly when the channels supply something. */
  lemma ChannelPathStaged(sub: map<string, Doc>, u: Stages)
    requires Marshaled(sub) && u.Valid() && u.ops == TopOps(sub) + ChannelOps(sub)
    ensures (u.addToSet == map[] && forall s :: s in u.set_ ==> !("channels." <= s)) <==> !Supplies(sub["channels"])
  {
    hide ChannelOps, TopOps, Supplies;
    TopOpsMembers(sub);
    ChannelOpsMembers(sub);
    if Supplies(sub["channels"]) {
      var q :| q in ChannelOps(sub);
      assert q in u.ops;
      JoinBelow(q);
    } else {
      forall s | s in u.set_ ensures !("channels." <= s) {
        var p :| p in u.ops && u.ops[p].Set? && Join(p) == s;
        NotBelow(p[0]);
      }
      assert forall p :: p in u.ops ==> u.ops[p].Set?;
    }
  }

  lemma JoinBelow(q: Path)
    requires |q| >= 2 && q[0] == "channels"
    ensures "channels." <= Join(q)
  {
    assert Join(q) == "channels" + "." + Join(q[1..]);
  }

  lemma NotBelow(s: string)
    requires DotFree(s)
    ensures !("channels." <= s)
  {
    if "channels." <= s { DotInside(s); }
  }

  lemma DotInside(s: string)
    requires "channels." <= s
    ensures '.' in s
  {
    assert s[8] == "channels."[8] == '.';
  }

  /** The marshaled fields without those an upsert must not overwrite. */
  method DropManaged(sub: map<string, Doc>) returns (doc: map<string, Doc>)
    requires "locale" in sub && sub["locale"].Leaf? && sub["locale"].v.Str?
    ensures forall k :: k in doc <==> Written(sub, k)
    ensures doc.Keys == sub.Keys - {"createdAt", "_id", "isOnline", "channels"} - if sub["locale"] == Leaf(Str(""))
      then {"locale"} else {}
    ensures forall k :: k in doc ==> k in sub && doc[k] == sub[k]
  {
    doc := sub - {"createdAt"};
    doc := doc - {"_id"};
    doc := doc - {"isOnline"};
    doc := doc - {"channels"};
    if LocaleOf(sub) == "" {
      doc := doc - {"locale"};
    }
  }

  /** Builds the upsert of one subscriber: what the caller supplied goes into $set and
      $addToSet, what a new row needs besides goes into $setOnInsert. */
  method BuildSubscriberUpdate(sub: map<string, Doc>, now: Value) returns (u: Stages)
    requires Marshaled(sub)
    ensures fresh(u) && u.Valid()
    ensures u.ops == TopOps(sub) + ChannelOps(sub)
    ensures u.insert == Seeds(sub, now)
  {
    hide PlainKeys, Supplies, TopOps, ChannelOps, Join, Written;
    var channels := sub["channels"];
    var doc := DropManaged(sub);
    u := new Stages();
    u.set_ := doc;
    u.ops := TopOps(sub);
    TopStages(sub, u.set_, u.ops);
    FinishUpdate(sub, channels, now, u);
  }

  method FinishUpdate(sub: map<string, Doc>, channels: Doc, now: Value, u: Stages)
    requires Marshaled(sub) && channels == sub["channels"] && u.Valid() && u.ops == TopOps(sub)
    modifies u
    ensures u.Valid() && u.ops == TopOps(sub) + ChannelOps(sub) && u.insert == Seeds(sub, now)
  {
    hide Stages.Valid, TopOps, OpsAt, Paths;
    TopOpsMembers(sub);
    assert Join(["channels"]) == "channels" && AllDotFree(["channels"]);
    FlattenChannels("channels", channels, u, ["channels"]);
    LocaleStaged(sub, u);
    ChannelPathStaged(sub, u);
    AddSeeds(sub, now, u);
  }

  method AddSeeds(sub: map<string, Doc>, now: Value, u: Stages)
    requires Marshaled(sub)
    requires "locale" in u.set_ <==> LocaleOf(sub) != ""
    requires (u.addToSet == map[] && forall s :: s in u.set_ ==> !("channels." <= s)) <==> !Supplies(sub["channels"])
    modifies u`insert
    ensures u.insert == Seeds(sub, now)
  {
    hide Supplies, PlainKeys, LocaleOf, Marshaled;
    u.insert := map["createdAt" := Leaf(now), "isOnline" := OFFLINE];
    Added(u.insert, "locale", DEFAULT_LOCALE);
    if "locale" !in u.set_ {
      u.insert := u.insert["locale" := DEFAULT_LOCALE];
    }
    var has := HasChannelPath(u.set_);
    Added(u.insert, "channels", NO_CHANNELS);
    if u.addToSet == map[] && !has {
      u.insert := u.insert["channels" := NO_CHANNELS];
    }
  }

  lemma Added(m: map<string, Doc>, k: string, v: Doc)
    ensures m[k := v] == m + map[k := v] && m == m + map[]
  {
  }

  /** What the stages say, path by path: $set has every field the caller may write under its own
      name and every scalar of the channels under its dotted path, $addToSet every non-empty
      array of the channels under its dotted path. */
  lemma StagesHold(sub: map<string, Doc>, u: Stages)
    requires Marshaled(sub) && u.Valid() && u.ops == TopOps(sub) + ChannelOps(sub)
    ensures forall k ::
      k in sub && k !in {"createdAt", "_id", "isOnline", "channels"}
      && (k == "locale" ==> sub[k] != Leaf(Str(""))) ==>
      k in u.set_ && u.set_[k] == sub[k]
    ensures forall p :: p in Paths(sub["channels"]) ==> At(Some(sub["channels"]), p).Some?
    ensures forall p, v :: p in Paths(sub["channels"]) && At(Some(sub["channels"]), p) == Some(Leaf(v)) ==>
      Join(["channels"] + p) in u.set_ && u.set_[Join(["channels"] + p)] == Leaf(v)
    ensures forall p, items :: p in Paths(sub["channels"]) && At(Some(sub["channels"]), p) == Some(Array(items)) ==>
      Join(["channels"] + p) in u.addToSet && u.addToSet[Join(["channels"] + p)] == items
  {
    TopOpsMembers(sub);
    OpsAtMembers(["channels"], sub["channels"]);
    hide TopOps, ChannelOps, OpsAt, PlainKeys, Join;
    forall k | k in sub && Written(sub, k) ensures k in u.set_ && u.set_[k] == sub[k] {
      JoinOne(k);
      assert [k] in u.ops && u.ops[[k]] == Set(sub[k]);
    }
    forall p | p in Paths(sub["channels"])
      ensures At(Some(sub["channels"]), p).Some? && ["channels"] + p in u.ops
        && u.ops[["channels"] + p] == OpOf(At(Some(sub["channels"]), p).value)
    {
      ChannelOpAt(sub, p);
    }
  }

  lemma ChannelOpAt(sub: map<string, Doc>, p: Path)
    requires Marshaled(sub) && p in Paths(sub["channels"])
    ensures At(Some(sub["channels"]), p).Some? && ["channels"] + p in ChannelOps(sub)
    ensures ChannelOps(sub)[["channels"] + p] == OpOf(At(Some(sub["channels"]), p).value)
  {
    OpsAtMembers(["channels"], sub["channels"]);
    assert (["channels"] + p)[|["channels"]|..] == p;
  }

  /** And neither has anything else. */
  lemma StagesHoldNoMore(sub: map<string, Doc>, u: Stages, s: string)
    requires Marshaled(sub) && u.Valid() && u.ops == TopOps(sub) + ChannelOps(sub)
    ensures s in u.set_ ==>
      || (s in sub && s !in {"createdAt", "_id", "isOnline", "channels"} && (s == "locale" ==> sub[s] != Leaf(Str(""))))
      || exists p :: p in Paths(sub["channels"]) && Join(["channels"] + p) == s
    ensures s in u.addToSet ==> exists p :: p in Paths(sub["channels"]) && Join(["channels"] + p) == s
  {
    hide TopOps, ChannelOps, PlainKeys, Join, Paths, Written;
    if s in u.set_ {
      var p :| p in u.ops && u.ops[p].Set? && Join(p) == s;
      OpIsBelow(sub, p);
      WrittenMeans(sub, s);
    }
    if s in u.addToSet {
      var p :| p in u.ops && u.ops[p].AddToSet? && Join(p) == s;
      OpIsBelow(sub, p);
    }
  }

  lemma WrittenMeans(sub: map<string, Doc>, k: string)
    requires Marshaled(sub)
    ensures Written(sub, k) <==>
      k in sub && k !in {"createdAt", "_id", "isOnline", "channels"} && (k == "locale" ==> sub[k] != Leaf(Str("")))
  {
    hide PlainKeys;
  }

  /** A write is of a field the caller may write, or lies below the channels. */
  lemma OpIsBelow(sub: map<string, Doc>, p: Path)
    requires Marshaled(sub) && p in TopOps(sub) + ChannelOps(sub)
    ensures p in ChannelOps(sub) ==>
      |p| > 0 && p[1..] in Paths(sub["channels"]) && Join(p) == Join(["channels"] + p[1..])
    ensures p !in ChannelOps(sub) ==> TopOps(sub)[p].Set? && Written(sub, Join(p))
  {
    hide TopOps, ChannelOps, PlainKeys, Paths, Written;
    if p in ChannelOps(sub) {
      ChannelOpsMembers(sub);
      assert p == ["channels"] + p[1..];
    } else {
      TopOpsMembers(sub);
      assert p == [p[0]];
      JoinOne(p[0]);
    }
  }

  lemma JoinOne(k: string)
    ensures Join([k]) == k
  {
  }

  // ---------------------------------------------------------------------------------
  // No path conflicts
  // ---------------------------------------------------------------------------------

  /** No supplied value lies inside another. */
  lemma {:induction false} PathsPrefixFree(d: Doc, p: Path, q: Path)
    requires p in Paths(d) && q in Paths(d) && p <= q
    ensures p == q
    decreases |p|
  {
    if d.Sub? {
      var k, p1 :| k in d.fields && p1 in Paths(d.fields[k]) && p == [k] + p1;
      assert q[0] == p[0];
      PathsByHead(d, q);
      assert p1 == p[1..] && p1 <= q[1..];
      PathsPrefixFree(d.fields[k], p1, q[1..]);
      assert q == [k] + q[1..];
    }
  }

  /** The parts of every path of the update, with the stage it is in. */
  ghost predicate InStage(sub: map<string, Doc>, now: Value, stage: int, p: Path)
    requires Marshaled(sub)
  {
    var ops := TopOps(sub) + ChannelOps(sub);
    || (stage == 0 && p in ops && ops[p].Set?)
    || (stage == 1 && p in ops && ops[p].AddToSet?)
    || (stage == 2 && |p| == 1 && p[0] in Seeds(sub, now))
  }

  lemma StagesPrefixFree(sub: map<string, Doc>, now: Value, i: int, p: Path, j: int, q: Path)
    requires Marshaled(sub) && InStage(sub, now, i, p) && InStage(sub, now, j, q) && p <= q
    ensures p == q && i == j
  {
    hide ChannelOps, TopOps, Paths, Supplies;
    TopOpsMembers(sub);
    ChannelOpsMembers(sub);
    assert q[0] == p[0];
    if p in ChannelOps(sub) {
      assert q in ChannelOps(sub);
      PathsPrefixFree(sub["channels"], p[1..], q[1..]);
      assert p == ["channels"] + p[1..] && q == ["channels"] + q[1..];
    } else {
      assert |p| == 1 && p == [p[0]];
      assert q !in ChannelOps(sub) && |q| == 1 && q == [q[0]];
    }
  }

  /** No path of $set, $addToSet or $setOnInsert equals another or is a dotted prefix of
      it, within a stage or across stages: the database accepts every compiled upsert. */
  lemma UpsertHasNoConflict(sub: map<string, Doc>, now: Value, u: Stages, i: int, a: string, j: int, b: string)
    requires Marshaled(sub) && u.Valid()
    requires u.ops == TopOps(sub) + ChannelOps(sub) && u.insert == Seeds(sub, now)
    requires Staged(u, i, a) && Staged(u, j, b) && Conflict(a, b)
    ensures i == j && a == b
  {
    var p := StageParts(sub, now, u, i, a);
    var q := StageParts(sub, now, u, j, b);
    ConflictIsPrefix(p, q);
    if p <= q { StagesPrefixFree(sub, now, i, p, j, q); } else { StagesPrefixFree(sub, now, j, q, i, p); }
  }

  ghost predicate Staged(u: Stages, stage: int, path: string)
    reads u
  {
    || (stage == 0 && path in u.set_)
    || (stage == 1 && path in u.addToSet)
    || (stage == 2 && path in u.insert)
  }

  lemma StageParts(sub: map<string, Doc>, now: Value, u: Stages, stage: int, path: string) returns (p: Path)
    requires Marshaled(sub) && u.Valid()
    requires u.ops == TopOps(sub) + ChannelOps(sub) && u.insert == Seeds(sub, now)
    requires Staged(u, stage, path)
    ensures p != [] && AllDotFree(p) && Join(p) == path && InStage(sub, now, stage, p)
  {
    if stage == 0 {
      p :| p in u.ops && u.ops[p].Set? && Join(p) == path;
    } else if stage == 1 {
      p :| p in u.ops && u.ops[p].AddToSet? && Join(p) == path;
    } else {
      p := [path];
      assert DotFree("createdAt") && DotFree("isOnline") && DotFree("locale") && DotFree("channels");
    }
  }
}
