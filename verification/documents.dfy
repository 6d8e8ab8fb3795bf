/** Stored documents, dotted-path updates on them, and deep merging. */
module Documents {
  import opened Common
  import opened Values
  import opened Dotted

  datatype Doc =
    | Leaf(v: Value)
    | Array(items: seq<Value>)
    | Sub(fields: map<string, Doc>)

  type Path = seq<string>

  /** Every key, at every depth, is free of dots. */
  ghost predicate PlainKeys(d: Doc) {
    d.Sub? ==> forall k :: k in d.fields ==> DotFree(k) && PlainKeys(d.fields[k])
  }

  /** The paths of the values a document supplies: scalars and non-empty arrays. */
  ghost function Paths(d: Doc): set<Path> {
    match d
    case Leaf(_) => {[]}
    case Array(items) => if items == [] then {} else {[]}
    case Sub(fields) => set k, p | k in fields && p in Paths(fields[k]) :: [k] + p
  }

  /** What is stored at a path, if anything. */
  function At(d: Option<Doc>, p: Path): Option<Doc>
    decreases |p|
  {
    if p == [] || d.None? then d else At(Field(d, p[0]), p[1..])
  }

  function Field(d: Option<Doc>, k: string): Option<Doc> {
    if d.Some? && d.value.Sub? && k in d.value.fields then Some(d.value.fields[k]) else None
  }

  // ---------------------------------------------------------------------------------
  // Updates
  // ---------------------------------------------------------------------------------

  /** $set replaces what is at the path; $addToSet adds the items an array lacks. */
  datatype Op = Set(d: Doc) | AddToSet(items: seq<Value>)

  datatype Update = Update(path: Path, op: Op)

  /** The items, then those of `more` not yet present, each once. */
  function Union(items: seq<Value>, more: seq<Value>): seq<Value>
    decreases |more|
  {
    if more == [] then items
    else Union(if more[0] in items then items else items + [more[0]], more[1..])
  }

  /** One update. It creates the documents missing along its path; it is an error to step
      into a value that is not a document, or to add to one that is not an array. */
  function Apply(d: Option<Doc>, p: Path, op: Op): Result<Doc, ()>
    decreases |p|
  {
    if p == [] then
      match op
      case Set(v) => Ok(v)
      case AddToSet(items) =>
        if d.None? then Ok(Array(Union([], items)))
        else if d.value.Array? then Ok(Array(Union(d.value.items, items)))
        else Err(())
    else if d.Some? && !d.value.Sub? then Err(())
    else
      var inner := Apply(Field(d, p[0]), p[1..], op);
      if inner.Err? then inner
      else Ok(Sub((if d.Some? then d.value.fields else map[])[p[0] := inner.value]))
  }

  function ApplyAll(d: Option<Doc>, us: seq<Update>): Result<Option<Doc>, ()> {
    if us == [] then Ok(d)
    else
      var n := |us| - 1;
      var before := ApplyAll(d, us[..n]);
      if before.Err? then before
      else
        var r := Apply(before.value, us[n].path, us[n].op);
        if r.Err? then Err(()) else Ok(Some(r.value))
  }

  /** The updates below field k, seen from there. */
  function Tails(us: seq<Update>, k: string): seq<Update> {
    if us == [] then []
    else
      var n := |us| - 1;
      Tails(us[..n], k) +
        if us[n].path != [] && us[n].path[0] == k then [Update(us[n].path[1..], us[n].op)] else []
  }

  ghost predicate Inner(us: seq<Update>) { forall u :: u in us ==> u.path != [] }

  lemma TailsOneMore(us: seq<Update>, u: Update, k: string)
    requires u.path != []
    ensures Tails(us + [u], k) == if u.path[0] == k then Tails(us, k) + [Update(u.path[1..], u.op)] else Tails(us, k)
  {
    assert (us + [u])[..|us|] == us;
  }

  lemma ApplyOneMore(d: Option<Doc>, us: seq<Update>, u: Update)
    ensures ApplyAll(d, us + [u]) == Then(ApplyAll(d, us), u)
  {
    assert (us + [u])[..|us|] == us;
  }

  function Then(r: Result<Option<Doc>, ()>, u: Update): Result<Option<Doc>, ()> {
    if r.Err? then r
    else
      var next := Apply(r.value, u.path, u.op);
      if next.Err? then Err(()) else Ok(Some(next.value))
  }

  /** Updates below field k add up to what the whole list does there. */
  lemma FieldOneMore(d: Option<Doc>, us: seq<Update>, u: Update, k: string)
    requires u.path != []
    ensures ApplyAll(d, Tails(us + [u], k)) ==
      if u.path[0] == k then Then(ApplyAll(d, Tails(us, k)), Update(u.path[1..], u.op)) else ApplyAll(d, Tails(us, k))
  {
    TailsOneMore(us, u, k);
    ApplyOneMore(d, Tails(us, k), Update(u.path[1..], u.op));
  }

  /** One update below a field changes that field only. */
  lemma ApplyToField(d: Option<Doc>, u: Update)
    requires u.path != [] && (d.None? || d.value.Sub?)
    ensures var inner, r := Apply(Field(d, u.path[0]), u.path[1..], u.op), Apply(d, u.path, u.op);
      && r.Ok? == inner.Ok?
      && (r.Ok? ==> r.value.Sub? && forall k ::
            Field(Some(r.value), k) == if k == u.path[0] then Some(inner.value) else Field(d, k))
  {
  }

  /** The updates act on every field of `d` as that field's own updates do. */
  ghost predicate ByField(d: Option<Doc>, us: seq<Update>) {
    var r := ApplyAll(d, us);
    && (r.Ok? <==> forall k :: ApplyAll(Field(d, k), Tails(us, k)).Ok?)
    && (r.Ok? && us == [] ==> r.value == d)
    && (r.Ok? && us != [] ==> r.value.Some? && r.value.value.Sub?)
    && (r.Ok? ==> forall k :: ApplyAll(Field(d, k), Tails(us, k)) == Ok(Field(r.value, k)))
  }

  /** Updates below different fields do not interact, whatever their order. */
  lemma {:induction false} ApplyByField(d: Option<Doc>, us: seq<Update>)
    requires Inner(us) && (d.None? || d.value.Sub?)
    ensures ByField(d, us)
  {
    if us != [] {
      var n := |us| - 1;
      var before, u := us[..n], us[n];
      assert us == before + [u];
      ApplyByField(d, before);
      ByFieldOneMore(d, before, u);
    }
  }

  lemma ByFieldOneMore(d: Option<Doc>, before: seq<Update>, u: Update)
    requires u.path != [] && (d.None? || d.value.Sub?) && ByField(d, before)
    ensures ByField(d, before + [u])
  {
    hide ApplyAll, Tails, Apply;
    var us := before + [u];
    var h := u.path[0];
    ApplyOneMore(d, before, u);
    forall k ensures ApplyAll(Field(d, k), Tails(us, k)) ==
      if h == k then Then(ApplyAll(Field(d, k), Tails(before, k)), Update(u.path[1..], u.op))
      else ApplyAll(Field(d, k), Tails(before, k))
    {
      FieldOneMore(Field(d, k), before, u, k);
    }
    if ApplyAll(d, before).Ok? {
      ApplyToField(ApplyAll(d, before).value, u);
    } else {
      var k :| ApplyAll(Field(d, k), Tails(before, k)).Err?;
      assert ApplyAll(Field(d, k), Tails(us, k)).Err?;
    }
  }

  // ---------------------------------------------------------------------------------
  // Deep merge
  // ---------------------------------------------------------------------------------

  /** Merging a supplied document into a stored one: scalars overwrite, arrays unite,
      documents merge field by field, and an empty or absent subtree changes nothing. */
  function Merge(d: Option<Doc>, supplied: Doc): Option<Doc>
    decreases supplied
  {
    match supplied
    case Leaf(_) => Some(supplied)
    case Array(items) =>
      if items == [] then d
      else Some(Array(Union(if d.Some? && d.value.Array? then d.value.items else [], items)))
    case Sub(fields) =>
      if !Supplies(supplied) then d
      else
        var stored := if d.Some? && d.value.Sub? then d.value.fields else map[];
        Some(Sub(map k | k in stored.Keys + fields.Keys && (k in fields ==> Merge(Field(d, k), fields[k]).Some?)
                   :: if k in fields then Merge(Field(d, k), fields[k]).value else stored[k]))
  }

  /** The document supplies at least one value. */
  predicate Supplies(supplied: Doc) {
    match supplied
    case Leaf(_) => true
    case Array(items) => items != []
    case Sub(fields) => exists k :: k in fields && Supplies(fields[k])
  }

  /** Where the document supplies something, the stored one has the same shape, or nothing. */
  predicate Fits(d: Option<Doc>, supplied: Doc)
    decreases supplied
  {
    match supplied
    case Leaf(_) => true
    case Array(items) => items == [] || d.None? || d.value.Array?
    case Sub(fields) =>
      Supplies(supplied) ==>
        && (d.None? || d.value.Sub?)
        && forall k :: k in fields ==> Fits(Field(d, k), fields[k])
  }

  lemma {:induction false} SuppliesPaths(d: Doc)
    ensures Supplies(d) <==> Paths(d) != {}
  {
    if d.Sub? {
      forall k | k in d.fields ensures Supplies(d.fields[k]) <==> Paths(d.fields[k]) != {} {
        SuppliesPaths(d.fields[k]);
      }
      if Supplies(d) {
        var k :| k in d.fields && Supplies(d.fields[k]);
        var p :| p in Paths(d.fields[k]);
        assert [k] + p in Paths(d);
      }
    }
  }

  lemma SuppliesNothing(d: Option<Doc>, supplied: Doc)
    requires !Supplies(supplied)
    ensures Merge(d, supplied) == d && Fits(d, supplied)
  {
  }

  function OpOf(d: Doc): Op {
    if d.Array? then AddToSet(d.items) else Set(d)
  }

  /** `us` are the updates of the document's values, each once, in whatever order. */
  ghost predicate Lists(us: seq<Update>, d: Doc) {
    && NoRepeats(us)
    && (forall u :: u in us <==> IsUpdateOf(u, d))
  }

  ghost predicate IsUpdateOf(u: Update, d: Doc) {
    u.path in Paths(d) && At(Some(d), u.path).Some? && u.op == OpOf(At(Some(d), u.path).value)
  }

  lemma {:induction false} PathsLead(d: Doc, p: Path)
    requires p in Paths(d)
    ensures At(Some(d), p).Some? && !At(Some(d), p).value.Sub?
    decreases |p|
  {
    if d.Sub? {
      var k, q :| k in d.fields && q in Paths(d.fields[k]) && p == [k] + q;
      PathsLead(d.fields[k], q);
      assert p[0] == k && p[1..] == q && Field(Some(d), k) == Some(d.fields[k]);
    }
  }

  lemma NoTails(k: string)
    ensures Tails([], k) == []
  {
  }

  lemma {:induction false} TailsMembers(us: seq<Update>, k: string)
    requires Inner(us)
    ensures forall t :: t in Tails(us, k) <==> Update([k] + t.path, t.op) in us
  {
    hide Tails;
    if us == [] {
      NoTails(k);
    }
    if us != [] {
      var n := |us| - 1;
      var before, u := us[..n], us[n];
      assert us == before + [u];
      TailsMembers(before, k);
      TailsOneMore(before, u, k);
      assert u.path == [u.path[0]] + u.path[1..];
      forall t: Update ensures t in Tails(us, k) <==> Update([k] + t.path, t.op) in us {
        assert ([k] + t.path)[0] == k && ([k] + t.path)[1..] == t.path;
        assert Update([k] + t.path, t.op) in us <==>
            Update([k] + t.path, t.op) in before || Update([k] + t.path, t.op) == u;
      }
    }
  }

  lemma {:induction false} TailsNoRepeats(us: seq<Update>, k: string)
    requires Inner(us) && NoRepeats(us)
    ensures NoRepeats(Tails(us, k))
  {
    if us != [] {
      var n := |us| - 1;
      var before, u := us[..n], us[n];
      assert us == before + [u];
      assert forall i :: 0 <= i < n ==> before[i] == us[i];
      TailsNoRepeats(before, k);
      TailsOneMore(before, u, k);
      TailsMembers(before, k);
      assert u.path == [u.path[0]] + u.path[1..] && u !in before;
      var ts := Tails(before, k);
      assert forall i :: 0 <= i < |ts| ==> ts[i] in ts;
    }
  }

  lemma UpdateBelow(t: Update, d: Doc, k: string)
    requires d.Sub?
    ensures IsUpdateOf(Update([k] + t.path, t.op), d) <==> k in d.fields && IsUpdateOf(t, d.fields[k])
  {
    var p := [k] + t.path;
    assert p[1..] == t.path && p[0] == k;
    if k in d.fields {
      assert At(Some(d), p) == At(Some(d.fields[k]), t.path);
    }
    assert p in Paths(d) <==> k in d.fields && t.path in Paths(d.fields[k]) by {
      if p in Paths(d) {
        var k0, q :| k0 in d.fields && q in Paths(d.fields[k0]) && p == [k0] + q;
        assert k0 == p[0] && q == p[1..];
      }
    }
  }

  /** The updates below field k list what the document supplies there. */
  lemma TailsList(us: seq<Update>, d: Doc, k: string)
    requires d.Sub? && Lists(us, d) && Inner(us)
    ensures k in d.fields ==> Lists(Tails(us, k), d.fields[k])
    ensures k !in d.fields ==> Tails(us, k) == []
  {
    TailsMembers(us, k);
    TailsNoRepeats(us, k);
    forall t ensures t in Tails(us, k) <==> k in d.fields && IsUpdateOf(t, d.fields[k]) {
      UpdateBelow(t, d, k);
      assert Update([k] + t.path, t.op) in us <==> IsUpdateOf(Update([k] + t.path, t.op), d);
    }
    assert Tails(us, k) != [] ==> Tails(us, k)[0] in Tails(us, k);
  }

  /** Applying the updates of a document in any order succeeds exactly when it fits the
      stored one, and then the result is the deep merge. */
  lemma {:induction false} UpdatesMerge(d: Option<Doc>, supplied: Doc, us: seq<Update>)
    requires Lists(us, supplied)
    ensures ApplyAll(d, us).Ok? <==> Fits(d, supplied)
    ensures Fits(d, supplied) ==> ApplyAll(d, us) == Ok(Merge(d, supplied))
    decreases supplied
  {
    SuppliesPaths(supplied);
    if !Supplies(supplied) {
      SuppliesNothing(d, supplied);
      Elements(us);
    } else if !supplied.Sub? {
      var u := Update([], OpOf(supplied));
      assert IsUpdateOf(u, supplied);
      OnlyOne(us, u);
      assert ApplyAll(d, []) == Ok(d) && [u][..0] == [];
    } else {
      FieldsMerge(d, supplied, us);
    }
  }

  lemma OnlyOne(us: seq<Update>, u: Update)
    requires NoRepeats(us)
    requires forall x :: x in us <==> x == u
    ensures us == [u]
  {
    assert u in us;
    assert us[0] in us;
    if |us| > 1 { TwoDiffer(us); }
  }

  lemma TwoDiffer(us: seq<Update>)
    requires NoRepeats(us) && |us| > 1
    ensures us[0] in us && us[1] in us && us[0] != us[1]
  {
  }

  lemma Elements(us: seq<Update>)
    ensures forall i :: 0 <= i < |us| ==> us[i] in us
  {
  }

  lemma {:induction false} FieldsMerge(d: Option<Doc>, supplied: Doc, us: seq<Update>)
    requires supplied.Sub? && Supplies(supplied) && Lists(us, supplied)
    ensures ApplyAll(d, us).Ok? <==> Fits(d, supplied)
    ensures Fits(d, supplied) ==> ApplyAll(d, us) == Ok(Merge(d, supplied))
    decreases supplied, 0
  {
    SuppliesPaths(supplied);
    forall u | u in us ensures u.path != [] { assert u.path in Paths(supplied); }
    var p :| p in Paths(supplied);
    PathsLead(supplied, p);
    assert Update(p, OpOf(At(Some(supplied), p).value)) in us;
    if d.Some? && !d.value.Sub? {
      NotADocument(d, us);
    } else {
      ApplyByField(d, us);
      forall k ensures k in supplied.fields ==>
          && (ApplyAll(Field(d, k), Tails(us, k)).Ok? <==> Fits(Field(d, k), supplied.fields[k]))
          && (Fits(Field(d, k), supplied.fields[k]) ==>
                ApplyAll(Field(d, k), Tails(us, k)) == Ok(Merge(Field(d, k), supplied.fields[k])))
        ensures k !in supplied.fields ==> ApplyAll(Field(d, k), Tails(us, k)) == Ok(Field(d, k))
      {
        TailsList(us, supplied, k);
        if k in supplied.fields { UpdatesMerge(Field(d, k), supplied.fields[k], Tails(us, k)); }
      }
      if Fits(d, supplied) {
        assert forall k :: ApplyAll(Field(d, k), Tails(us, k)).Ok?;
        SameFields(ApplyAll(d, us).value, Merge(d, supplied), d, supplied);
      }
    }
  }

  lemma {:induction false} NotADocument(d: Option<Doc>, us: seq<Update>)
    requires d.Some? && !d.value.Sub? && us != [] && Inner(us)
    ensures ApplyAll(d, us).Err?
  {
    if |us| > 1 { NotADocument(d, us[..|us| - 1]); }
    else { assert us[0] in us && us[..0] == []; }
  }

  lemma SameFields(r: Option<Doc>, merged: Option<Doc>, d: Option<Doc>, supplied: Doc)
    requires supplied.Sub? && Supplies(supplied) && merged == Merge(d, supplied)
    requires r.Some? && r.value.Sub?
    requires forall k :: Field(r, k) == if k in supplied.fields then Merge(Field(d, k), supplied.fields[k])
      else Field(d, k)
    ensures r == merged
  {
    forall k ensures Field(merged, k) == Field(r, k) { }
    assert r.value.fields == merged.value.fields by {
      forall k ensures (k in r.value.fields) == (k in merged.value.fields) {
        assert Field(r, k).Some? == Field(merged, k).Some?;
      }
      forall k | k in r.value.fields ensures r.value.fields[k] == merged.value.fields[k] {
        assert Field(r, k) == Field(merged, k);
      }
    }
  }
}
