/** The preference endpoints and the delivery check, over one subscriber's stored rows. */
module Preferences {
  import opened Common
  import opened Channels

  type WfId = nat

  /** A workflow, as the endpoints see it. */
  datatype Workflow = Workflow(id: WfId, defaults: Prefs, active: bool)

  /** A stored row; the global one has no workflow. */
  datatype Row = Row(wf: Option<WfId>, channels: Stored)

  // ---------------------------------------------------------------------------------
  // Precedence
  // ---------------------------------------------------------------------------------

  /** A workflow row wins outright; without one the global row masks the defaults. */
  function ResolveChannelPrefs(workflowPref: Option<Prefs>, globalPref: Option<Prefs>, defaults: Prefs): (r: Prefs)
    requires globalPref.Some? ==> |globalPref.value| == |defaults|
    requires workflowPref.Some? ==> |workflowPref.value| == |defaults|
    ensures |r| == |defaults|
    ensures workflowPref.None? ==> forall i :: 0 <= i < |r| && r[i] ==> defaults[i]
  {
    if workflowPref.Some? then workflowPref.value
    else if globalPref.Some? then Masked(defaults, globalPref.value)
    else defaults
  }

  /** The delivery check. An unknown channel is never enabled. */
  function IsChannelEnabled(t: Table, channel: string, workflowPref: Option<Prefs>, globalPref: Option<Prefs>,
                            defaults: Prefs): (r: bool)
    requires |defaults| == |t| && (globalPref.Some? ==> |globalPref.value| == |t|)
      && (workflowPref.Some? ==> |workflowPref.value| == |t|)
    ensures RowOf(t, channel) == |t| ==> !r
  {
    Lookup(t, ResolveChannelPrefs(workflowPref, globalPref, defaults), channel) == Some(true)
  }

  // ---------------------------------------------------------------------------------
  // One subscriber's rows
  // ---------------------------------------------------------------------------------

  type Rows = map<Option<WfId>, Stored>

  function Decoded(t: Table, rows: Rows, key: Option<WfId>): (p: Option<Prefs>)
    ensures p.Some? ==> |p.value| == |t|
  {
    if key in rows then Some(Decode(t, rows[key])) else None
  }

  /** What governs delivery of a workflow. */
  function Effective(t: Table, rows: Rows, wf: WfId, defaults: Prefs): (p: Prefs)
    requires |defaults| == |t|
    ensures |p| == |t|
  {
    ResolveChannelPrefs(Decoded(t, rows, Some(wf)), Decoded(t, rows, None), defaults)
  }

  /** A query result: the rows, each once, in some order. */
  ghost predicate Lists(found: seq<Row>, rows: Rows) {
    && (forall i, j :: 0 <= i < j < |found| ==> found[i].wf != found[j].wf)
    && (forall i :: 0 <= i < |found| ==> found[i].wf in rows && found[i].channels == rows[found[i].wf])
    && (forall key :: key in rows ==> exists i :: 0 <= i < |found| && found[i].wf == key)
  }

  method LoadStored(found: seq<Row>, ghost rows: Rows) returns (global: Option<Stored>, byWorkflow: map<WfId, Stored>)
    requires Lists(found, rows)
    ensures global == if None in rows then Some(rows[None]) else None
    ensures forall wf :: wf in byWorkflow <==> Some(wf) in rows
    ensures forall wf :: wf in byWorkflow ==> byWorkflow[wf] == rows[Some(wf)]
  {
    global, byWorkflow := None, map[];
    for i := 0 to |found|
      invariant global.Some? <==> exists j :: 0 <= j < i && found[j].wf == None
      invariant global.Some? ==> None in rows && global.value == rows[None]
      invariant forall wf :: wf in byWorkflow <==> exists j :: 0 <= j < i && found[j].wf == Some(wf)
      invariant forall wf :: wf in byWorkflow ==> Some(wf) in rows && byWorkflow[wf] == rows[Some(wf)]
    {
      if found[i].wf.None? {
        global := Some(found[i].channels);
        continue;
      }
      byWorkflow := byWorkflow[found[i].wf.value := found[i].channels];
    }
  }

  /** The two rows that govern one workflow, out of a query for exactly those. */
  method FindForWorkflow(found: seq<Row>, ghost rows: Rows, wf: WfId)
      returns (workflowPref: Option<Stored>, globalPref: Option<Stored>)
    requires Lists(found, map key | key in rows && (key == None || key == Some(wf)) :: rows[key])
    ensures globalPref == if None in rows then Some(rows[None]) else None
    ensures workflowPref == if Some(wf) in rows then Some(rows[Some(wf)]) else None
  {
    ghost var two := map key | key in rows && (key == None || key == Some(wf)) :: rows[key];
    workflowPref, globalPref := None, None;
    for i := 0 to |found|
      invariant globalPref.Some? <==> exists j :: 0 <= j < i && found[j].wf == None
      invariant globalPref.Some? ==> None in two && globalPref.value == two[None]
      invariant workflowPref.Some? <==> exists j :: 0 <= j < i && found[j].wf == Some(wf)
      invariant workflowPref.Some? ==> Some(wf) in two && workflowPref.value == two[Some(wf)]
    {
      if found[i].wf.None? {
        globalPref := Some(found[i].channels);
        continue;
      }
      if found[i].wf.value == wf {
        workflowPref := Some(found[i].channels);
      }
    }
    assert None in rows <==> None in two;
    assert Some(wf) in rows <==> Some(wf) in two;
  }

  datatype OverrideError = UnknownChannel | NothingNamed

  ghost predicate KnownField(t: Table, field: string) {
    exists i :: 0 <= i < |t| && t[i].field == field
  }

  /** What a payload says about a channel: on, off, or nothing (absent or null). */
  function Said(channels: map<string, Option<bool>>, field: string): Option<bool> {
    if field in channels then channels[field] else None
  }

  /** The overrides hold exactly what a payload says of the channels of the table. */
  ghost predicate Names(t: Table, said: map<string, Option<bool>>, overrides: map<string, bool>) {
    && (forall i :: 0 <= i < |t| ==> (t[i].name in overrides <==> Said(said, t[i].field).Some?))
    && (forall i :: 0 <= i < |t| && t[i].name in overrides ==> Said(said, t[i].field) == Some(overrides[t[i].name]))
    && (forall name :: name in overrides ==> exists i :: 0 <= i < |t| && t[i].name == name)
  }

  lemma NamesOneMore(t: Table, said: map<string, Option<bool>>, overrides: map<string, bool>, i: nat, v: Option<bool>)
    requires TableOk(t) && Names(t, said, overrides) && i < |t| && t[i].field !in said
    ensures Names(t, said[t[i].field := v], if v.Some? then overrides[t[i].name := v.value] else overrides)
    ensures KnownField(t, t[i].field)
  {
    var after := if v.Some? then overrides[t[i].name := v.value] else overrides;
    forall j | 0 <= j < |t|
      ensures t[j].name in after <==> Said(said[t[i].field := v], t[j].field).Some?
      ensures t[j].name in after ==> Said(said[t[i].field := v], t[j].field) == Some(after[t[j].name])
    {
      assert j != i ==> t[j].field != t[i].field && t[j].name != t[i].name;
      assert t[i].name !in overrides;
    }
  }

  lemma NothingSaid(t: Table, said: map<string, Option<bool>>, none: map<string, bool>)
    requires Names(t, said, none) && none == map[] && forall f :: f in said ==> KnownField(t, f)
    ensures forall f :: f in said ==> said[f].None?
  {
    forall f | f in said ensures said[f].None? {
      var i :| 0 <= i < |t| && t[i].field == f;
      assert t[i].name !in none;
    }
  }

  lemma SomethingSaid(t: Table, said: map<string, Option<bool>>, out: map<string, bool>)
    requires Names(t, said, out) && out != map[]
    ensures exists f :: f in said && said[f].Some?
  {
    var name :| name in out;
    var i :| 0 <= i < |t| && t[i].name == name;
    assert t[i].field in said;
  }

  lemma NamesNothing(t: Table, said: map<string, Option<bool>>, overrides: map<string, bool>)
    requires said == map[] && overrides == map[]
    ensures Names(t, said, overrides)
  {
  }

  lemma FieldUnknown(t: Table, field: string)
    requires forall i :: 0 <= i < |t| ==> t[i].field != field
    ensures !KnownField(t, field)
  {
  }

  /** What is wrong with a payload: a field that is no channel's comes before nothing being
      said of any channel. */
  ghost function Fault(t: Table, channels: map<string, Option<bool>>): Option<OverrideError> {
    if exists f :: f in channels && !KnownField(t, f) then Some(UnknownChannel)
    else if forall f :: f in channels ==> channels[f].None? then Some(NothingNamed)
    else None
  }

  /** A payload is refused exactly when it has a field that is no channel's, or turns no channel
      on or off. */
  lemma FaultExact(t: Table, channels: map<string, Option<bool>>)
    ensures Fault(t, channels) == Some(UnknownChannel) <==>
      exists f :: f in channels && forall i :: 0 <= i < |t| ==> t[i].field != f
    ensures Fault(t, channels).None? <==>
      && (forall f :: f in channels ==> exists i :: 0 <= i < |t| && t[i].field == f)
      && exists f :: f in channels && channels[f].Some?
  {
  }

  /** What governs a channel of a workflow: the flag in the subscriber's row for the workflow,
      absent meaning off; without such a row the workflow's default, turned off by a global row
      that does not hold the flag. */
  lemma EffectiveExact(t: Table, rows: Rows, wf: WfId, defaults: Prefs, i: nat)
    requires |defaults| == |t| && i < |t|
    ensures var path := "channels." + t[i].field;
      Effective(t, rows, wf, defaults)[i] ==
        if Some(wf) in rows then path in rows[Some(wf)] && rows[Some(wf)][path]
        else defaults[i] && (None in rows ==> path in rows[None] && rows[None][path])
  {
  }

  /** A delivery is let through exactly when its channel is in the table and on. */
  lemma EnabledExact(t: Table, channel: string, own: Option<Prefs>, global: Option<Prefs>, defaults: Prefs, i: nat)
    requires TableOk(t) && i < |t| == |defaults| && t[i].name == channel
    requires (own.Some? ==> |own.value| == |t|) && (global.Some? ==> |global.value| == |t|)
    ensures IsChannelEnabled(t, channel, own, global, defaults) <==>
      if own.Some? then own.value[i] else defaults[i] && (global.Some? ==> global.value[i])
  {
    RowOfEntry(t, i);
  }

  /** The overrides a payload names, by channel name. null leaves a channel alone. */
  method ChannelOverrides(t: Table, channels: map<string, Option<bool>>)
      returns (r: Result<map<string, bool>, OverrideError>)
    requires TableOk(t)
    ensures Fault(t, channels) == if r.Err? then Some(r.error) else None
    ensures r.Ok? ==> r.value != map[] && Names(t, channels, r.value)
  {
    hide RowOf, KnownField, Names, TableOk;
    var out: map<string, bool> := map[];
    var todo := channels.Keys;
    ghost var said: map<string, Option<bool>> := map[];
    NamesNothing(t, said, out);
    while todo != {}
      invariant todo <= channels.Keys && said == channels - todo
      invariant forall f :: f in said ==> KnownField(t, f)
      invariant Names(t, said, out)
    {
      var field :| field in todo;
      var name := ChannelByField(t, field);
      if name.None? {
        FieldUnknown(t, field);
        assert field in channels && !KnownField(t, field);
        return Err(UnknownChannel);
      }
      NamesOneMore(t, said, out, RowOf(t, name.value), channels[field]);
      todo := todo - {field};
      if channels[field].Some? {
        out := out[name.value := channels[field].value];
      }
      said := said[field := channels[field]];
    }
    assert said == channels;
    if |out| == 0 {
      NothingSaid(t, said, out);
      return Err(NothingNamed);
    }
    SomethingSaid(t, said, out);
    return Ok(out);
  }

  /** A mask applied to the named channels: the default where the mask allows it. */
  function Masking(t: Table, p: Prefs, defaults: Prefs, overrides: map<string, bool>): (r: Prefs)
    requires |p| == |defaults| == |t|
    ensures |r| == |t|
    ensures forall i :: 0 <= i < |t| ==>
      r[i] == if t[i].name in overrides then defaults[i] && overrides[t[i].name] else p[i]
  {
    seq(|t|, i requires 0 <= i < |t| => if t[i].name in overrides then defaults[i] && overrides[t[i].name] else p[i])
  }

  /** Channel by channel, overriding with what a payload names is doing what it says, and so is
      masking, as far as the defaults go. */
  lemma OverridesSay(t: Table, channels: map<string, Option<bool>>, overrides: map<string, bool>, p: Prefs,
                     defaults: Prefs, i: nat)
    requires Names(t, channels, overrides) && |p| == |defaults| == |t| && i < |t|
    ensures var f := t[i].field;
      Overridden(t, p, overrides)[i] == if f in channels && channels[f].Some? then channels[f].value else p[i]
    ensures var f := t[i].field;
      Masking(t, p, defaults, overrides)[i] == if f in channels && channels[f].Some? then defaults[i]
          && channels[f].value else p[i]
  {
  }

  /** Overriding a mask and then masking is masking the named channels only. */
  lemma OverriddenMask(t: Table, mask: Prefs, defaults: Prefs, overrides: map<string, bool>)
    requires |mask| == |defaults| == |t|
    ensures Masked(defaults, Overridden(t, mask, overrides)) == Masking(t, Masked(defaults, mask), defaults, overrides)
  {
  }

  /** The two rows a query found govern a workflow as the stored ones do. */
  lemma LoadedIsEffective(t: Table, rows: Rows, wf: Workflow, global: Option<Stored>, own: Option<Stored>)
    requires |wf.defaults| == |t|
    requires global == if None in rows then Some(rows[None]) else None
    requires own == if Some(wf.id) in rows then Some(rows[Some(wf.id)]) else None
    ensures Effective(t, rows, wf.id, wf.defaults) == ResolveChannelPrefs(
      if own.Some? then Some(Decode(t, own.value)) else None,
      if global.Some? then Some(Decode(t, global.value)) else None, wf.defaults)
  {
    hide Decode, ResolveChannelPrefs;
  }

  /** Overriding the global row masks the named channels of a workflow without a row. */
  lemma GlobalRowMasks(t: Table, before: Rows, after: Rows, wf: WfId, defaults: Prefs, overrides: map<string, bool>)
    requires TableOk(t) && |defaults| == |t| && Some(wf) !in before && Some(wf) !in after && None in after
    requires Decode(t, after[None]) == Overridden(t, if None in before then Decode(t, before[None])
      else AllOn(|t|), overrides)
    ensures Effective(t, after, wf, defaults) == Masking(t, Effective(t, before, wf, defaults), defaults, overrides)
  {
    hide Decode, Overridden, Masking;
    OverriddenMask(t, if None in before then Decode(t, before[None]) else AllOn(|t|), defaults, overrides);
    assert Masked(defaults, AllOn(|t|)) == defaults;
  }

  // ---------------------------------------------------------------------------------
  // The endpoints
  // ---------------------------------------------------------------------------------

  datatype Response = Response(wf: Option<WfId>, channels: Prefs, explicit: bool)

  /** A workflow's row of the settings page. */
  function Shown(t: Table, rows: Rows, wf: Workflow): Response
    requires |wf.defaults| == |t|
  {
    Response(Some(wf.id), Effective(t, rows, wf.id, wf.defaults), Some(wf.id) in rows)
  }

  lemma ShownIs(t: Table, rows: Rows, wf: Workflow)
    requires |wf.defaults| == |t|
    ensures Shown(t, rows, wf) == Response(Some(wf.id), Effective(t, rows, wf.id, wf.defaults), Some(wf.id) in rows)
  {
  }

  datatype UpdateError = Invalid(why: OverrideError) | NotFound

  class PreferenceStore {
    var rows: Rows

    constructor ()
      ensures rows == map[]
    {
      rows := map[];
    }

    /** The upsert, on its own: overrides go in either way, the seed only with a new row. */
    method UpdateChannels(t: Table, key: Option<WfId>, c: Change) returns (row: Stored)
      requires TableOk(t) && |c.seed| == |t|
      modifies this
      ensures rows == old(rows)[key := row]
      ensures Decode(t, row) == Overridden(t, if key in old(rows) then Decode(t, old(rows)[key])
        else c.seed, c.overrides)
    {
      var set_, insert := BuildStages(t, c);
      ChangeDecodes(t, c, if key in rows then rows[key] else map[]);
      row := if key in rows then rows[key] + set_ else insert + set_;
      rows := rows[key := row];
    }

    /** Changing a workflow's channels makes its effective channels the old effective ones
        with the named channels overridden, and no other workflow's change. */
    method UpdateWorkflow(t: Table, wf: Option<Workflow>, channels: map<string, Option<bool>>, found: seq<Row>)
      returns (r: Result<Response, UpdateError>, ghost overrides: map<string, bool>)
      requires TableOk(t) && (wf.Some? ==> |wf.value.defaults| == |t|)
      requires wf.Some? ==> Lists(found, map key | key in rows && (key == None || key == Some(wf.value.id)) ::
        rows[key])
      modifies this
      ensures r.Err? ==> rows == old(rows)
      ensures r.Ok? <==> Fault(t, channels).None? && wf.Some? && wf.value.active
      ensures r.Err? ==> r.error == if Fault(t, channels).Some? then Invalid(Fault(t, channels).value) else NotFound
      ensures r.Ok? ==> overrides != map[]
      ensures r.Ok? ==> r.value.channels == Overridden(t, Effective(t, old(rows), wf.value.id, wf.value.defaults),
        overrides)
      ensures r.Ok? ==> r.value == Response(Some(wf.value.id), Effective(t, rows, wf.value.id, wf.value.defaults), true)
      ensures r.Ok? ==> Names(t, channels, overrides)
      ensures forall other, defaults: Prefs :: |defaults| == |t| && (wf.None? || other != wf.value.id) ==>
        Effective(t, rows, other, defaults) == Effective(t, old(rows), other, defaults)
    {
      hide Fault, Names, RowOf, TableOk;
      overrides := map[];
      var named := ChannelOverrides(t, channels);
      if named.Err? {
        return Err(Invalid(named.error)), overrides;
      }
      overrides := named.value;
      if wf.None? || !wf.value.active {
        return Err(NotFound), overrides;
      }
      var workflowPref, globalPref := FindForWorkflow(found, rows, wf.value.id);
      var seed := ResolveChannelPrefs(
        if workflowPref.Some? then Some(Decode(t, workflowPref.value)) else None,
        if globalPref.Some? then Some(Decode(t, globalPref.value)) else None,
        wf.value.defaults);
      var row := UpdateChannels(t, Some(wf.value.id), Change(named.value, seed));
      return Ok(Response(Some(wf.value.id), Decode(t, row), true)), overrides;
    }

    /** The global row only ever masks: it never enables a channel beyond a workflow's
        defaults and leaves workflows with a row of their own alone. A named channel of the
        others becomes its default masked by the override; the rest keep their value. */
    method UpdateGlobal(t: Table, channels: map<string, Option<bool>>)
        returns (r: Result<Response, UpdateError>, ghost overrides: map<string, bool>)
      requires TableOk(t)
      modifies this
      ensures r.Err? ==> rows == old(rows)
      ensures r.Ok? <==> Fault(t, channels).None?
      ensures r.Err? ==> r.error == Invalid(Fault(t, channels).value)
      ensures r.Ok? ==> overrides != map[] && Names(t, channels, overrides)
      ensures r.Ok? ==> None in rows && r.value == Response(None, Decode(t, rows[None]), true)
      ensures forall wf: WfId, defaults: Prefs :: |defaults| == |t| && Some(wf) in old(rows) ==>
        Effective(t, rows, wf, defaults) == Effective(t, old(rows), wf, defaults)
      ensures r.Ok? ==> forall wf: WfId, defaults: Prefs | |defaults| == |t| && Some(wf) !in old(rows) ::
        Effective(t, rows, wf, defaults) == Masking(t, Effective(t, old(rows), wf, defaults), defaults, overrides)
    {
      hide Fault, Names, Overridden, Masking, RowOf, Decode;
      overrides := map[];
      var named := ChannelOverrides(t, channels);
      if named.Err? {
        return Err(Invalid(named.error)), overrides;
      }
      overrides := named.value;
      var all := AllChannelsEnabled(t);
      ghost var before := rows;
      var row := UpdateChannels(t, None, Change(named.value, all));
      forall wf: WfId, defaults: Prefs | |defaults| == |t| && Some(wf) !in before
        ensures Effective(t, rows, wf, defaults) == Masking(t, Effective(t, before, wf, defaults), defaults, overrides)
      {
        GlobalRowMasks(t, before, rows, wf, defaults, overrides);
      }
      return Ok(Response(None, Decode(t, row), true)), overrides;
    }

    /** A workflow's row of the page, from the rows that were loaded. */
    method WorkflowRow(t: Table, wf: Workflow, global: Option<Stored>, own: Option<Stored>) returns (r: Response)
      requires |wf.defaults| == |t| && global == if None in rows then Some(rows[None]) else None
      requires own == if Some(wf.id) in rows then Some(rows[Some(wf.id)]) else None
      ensures r == Shown(t, rows, wf)
    {
      LoadedIsEffective(t, rows, wf, global, own);
      var resolved := ResolveChannelPrefs(
        if own.Some? then Some(Decode(t, own.value)) else None,
        if global.Some? then Some(Decode(t, global.value)) else None,
        wf.defaults);
      return Response(Some(wf.id), resolved, own.Some?);
    }

    /** The settings page: the global row, then one row per active workflow, each with the
        channels that govern its delivery. */
    method GetAll(t: Table, workflows: seq<Workflow>, found: seq<Row>) returns (out: seq<Response>)
      requires TableOk(t) && Lists(found, rows) && forall i :: 0 <= i < |workflows| ==> |workflows[i].defaults| == |t|
      ensures |out| == 1 + |workflows|
      ensures out[0] == Response(None, if None in rows then Decode(t, rows[None]) else AllOn(|t|), None in rows)
      ensures forall i :: 0 <= i < |workflows| ==>
        out[i + 1] == Response(Some(workflows[i].id), Effective(t, rows, workflows[i].id, workflows[i].defaults),
            Some(workflows[i].id) in rows)
    {
      hide Decode, RowOf, Effective, ResolveChannelPrefs, Shown, TableOk, Lists;
      var global, byWorkflow := LoadStored(found, rows);
      var all := AllChannelsEnabled(t);
      out := [Response(None, if global.Some? then Decode(t, global.value) else all, global.Some?)];
      for i := 0 to |workflows|
        invariant |out| == 1 + i
        invariant out[0] == Response(None, if None in rows then Decode(t, rows[None]) else AllOn(|t|), None in rows)
        invariant forall j :: 0 <= j < i ==> out[j + 1] == Shown(t, rows, workflows[j])
      {
        var wf := workflows[i];
        var own := if wf.id in byWorkflow then Some(byWorkflow[wf.id]) else None;
        var row := WorkflowRow(t, wf, global, own);
        out := out + [row];
      }
      forall i | 0 <= i < |workflows|
        ensures out[i + 1] == Response(Some(workflows[i].id),
          Effective(t, rows, workflows[i].id, workflows[i].defaults), Some(workflows[i].id) in rows)
      {
        ShownIs(t, rows, workflows[i]);
      }
    }

    /** The check a delivery makes, from its two row lookups. */
    method DeliveryAllows(t: Table, wf: Workflow, channel: string) returns (allowed: bool)
      requires TableOk(t) && |wf.defaults| == |t|
      ensures allowed <==> Lookup(t, Effective(t, rows, wf.id, wf.defaults), channel) == Some(true)
    {
      var workflowPref := if Some(wf.id) in rows then Some(Decode(t, rows[Some(wf.id)])) else None;
      var globalPref := if None in rows then Some(Decode(t, rows[None])) else None;
      allowed := IsChannelEnabled(t, channel, workflowPref, globalPref, wf.defaults);
    }

    /** What the settings page shows for a channel is what delivery does with it. */
    method ShownIsUsed(t: Table, workflows: seq<Workflow>, found: seq<Row>, i: nat, channel: string)
        returns (shown: bool, used: bool)
      requires TableOk(t) && Lists(found, rows) && forall j :: 0 <= j < |workflows| ==> |workflows[j].defaults| == |t|
      requires i < |workflows|
      ensures shown == used
    {
      var out := GetAll(t, workflows, found);
      assert out[i + 1].channels == Effective(t, rows, workflows[i].id, workflows[i].defaults);
      var value, _ := Get(t, out[i + 1].channels, channel);
      shown := value;
      used := DeliveryAllows(t, workflows[i], channel);
    }
  }
}
