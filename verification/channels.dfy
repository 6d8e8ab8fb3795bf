/** The channel table and the per-channel preference values it drives. Everything here works
    for a table of any length with distinct names and distinct fields. */
module Channels {
  import opened Common

  datatype Channel = Channel(name: string, field: string)

  type Table = seq<Channel>

  ghost predicate TableOk(t: Table) {
    forall i, j :: 0 <= i < j < |t| ==> t[i].name != t[j].name && t[i].field != t[j].field
  }

  const CHANNELS: Table := [
    Channel("email", "email"), Channel("sms", "sms"), Channel("push", "push"), Channel("in_app", "inApp"),
    Channel("slack", "slack"), Channel("ms_teams", "msTeams"), Channel("telegram", "telegram")]

  /** One flag per row of the table. */
  type Prefs = seq<bool>

  /** The row of a channel name, or |t|. */
  function RowOf(t: Table, name: string): (i: nat)
    ensures i <= |t| && (forall j :: 0 <= j < i ==> t[j].name != name) && (i < |t| ==> t[i].name == name)
  {
    if t == [] || t[0].name == name then 0 else 1 + RowOf(t[1..], name)
  }

  lemma RowOfEntry(t: Table, i: nat)
    requires TableOk(t) && i < |t|
    ensures RowOf(t, t[i].name) == i
  {
  }

  /** The channel names in table order. */
  method ChannelNames(t: Table) returns (names: seq<string>)
    ensures |names| == |t| && forall i :: 0 <= i < |t| ==> names[i] == t[i].name
  {
    names := [];
    for i := 0 to |t|
      invariant |names| == i && forall j :: 0 <= j < i ==> names[j] == t[j].name
    {
      names := names + [t[i].name];
    }
  }

  /** The field a channel occupies, for known channels. */
  method ChannelBSONField(t: Table, channel: string) returns (field: Option<string>)
    ensures field == if RowOf(t, channel) < |t| then Some(t[RowOf(t, channel)].field) else None
  {
    for i := 0 to |t|
      invariant forall j :: 0 <= j < i ==> t[j].name != channel
    {
      if t[i].name == channel {
        return Some(t[i].field);
      }
    }
    return None;
  }

  /** The inverse: the channel of a field. It undoes ChannelBSONField exactly. */
  method ChannelByField(t: Table, field: string) returns (channel: Option<string>)
    requires TableOk(t)
    ensures channel.None? <==> forall i :: 0 <= i < |t| ==> t[i].field != field
    ensures channel.Some? ==> RowOf(t, channel.value) < |t| && t[RowOf(t, channel.value)].field == field
  {
    for i := 0 to |t|
      invariant forall j :: 0 <= j < i ==> t[j].field != field
    {
      if t[i].field == field {
        RowOfEntry(t, i);
        return Some(t[i].name);
      }
    }
    return None;
  }

  /** The flag of a channel; an unknown name has none. */
  function Lookup(t: Table, p: Prefs, channel: string): Option<bool>
    requires |p| == |t|
  {
    var i := RowOf(t, channel);
    if i < |t| then Some(p[i]) else None
  }

  method Get(t: Table, p: Prefs, channel: string) returns (value: bool, ok: bool)
    requires |p| == |t|
    ensures ok == Lookup(t, p, channel).Some?
    ensures value == (ok && Lookup(t, p, channel).value)
  {
    for i := 0 to |t|
      invariant forall j :: 0 <= j < i ==> t[j].name != channel
    {
      if t[i].name == channel {
        return p[i], true;
      }
    }
    return false, false;
  }

  /** A preference value updated in place. */
  class ChannelPrefs {
    var on: Prefs

    constructor (on: Prefs)
      ensures this.on == on
    {
      this.on := on;
    }

    /** Sets one channel and no other; an unknown name changes nothing. */
    method Set(t: Table, channel: string, value: bool) returns (ok: bool)
      requires |on| == |t| && TableOk(t)
      modifies this
      ensures |on| == |t| && ok == Lookup(t, old(on), channel).Some?
      ensures ok ==> Lookup(t, on, channel) == Some(value)
      ensures forall other :: other != channel || !ok ==> Lookup(t, on, other) == Lookup(t, old(on), other)
    {
      for i := 0 to |t|
        invariant on == old(on) && forall j :: 0 <= j < i ==> t[j].name != channel
      {
        if t[i].name == channel {
          on := on[i := value];
          return true;
        }
      }
      return false;
    }
  }

  /** Channel-wise conjunction. */
  function Masked(p: Prefs, mask: Prefs): (r: Prefs)
    requires |p| == |mask|
    ensures |r| == |p| && forall i :: 0 <= i < |r| ==> r[i] == (p[i] && mask[i])
  {
    seq(|p|, i requires 0 <= i < |p| => p[i] && mask[i])
  }

  method And(t: Table, p: Prefs, mask: Prefs) returns (out: Prefs)
    requires |p| == |mask| == |t|
    ensures out == Masked(p, mask)
  {
    out := seq(|t|, _ => false);
    for i := 0 to |t|
      invariant |out| == |t| && forall j :: 0 <= j < i ==> out[j] == (p[j] && mask[j])
    {
      out := out[i := p[i] && mask[i]];
    }
  }

  function AllOn(n: nat): (r: Prefs)
    ensures |r| == n && forall i :: 0 <= i < n ==> r[i]
  {
    seq(n, _ => true)
  }

  method AllChannelsEnabled(t: Table) returns (out: Prefs)
    ensures out == AllOn(|t|)
    ensures forall p: Prefs :: |p| == |t| ==> Masked(p, out) == p
  {
    out := seq(|t|, _ => false);
    for i := 0 to |t|
      invariant |out| == |t| && forall j :: 0 <= j < i ==> out[j]
    {
      out := out[i := true];
    }
  }

  // ---------------------------------------------------------------------------------
  // Stored rows
  // ---------------------------------------------------------------------------------

  /** A stored preference document: its channel flags by dotted path. */
  type Stored = map<string, bool>

  function PathOf(c: Channel): string { "channels." + c.field }

  lemma PathsDiffer(t: Table, i: nat, j: nat)
    requires TableOk(t) && i < |t| && j < |t| && PathOf(t[i]) == PathOf(t[j])
    ensures i == j
  {
    assert PathOf(t[i])[9..] == t[i].field && PathOf(t[j])[9..] == t[j].field;
  }

  /** What a stored document means: an absent channel reads as off. */
  function Decode(t: Table, row: Stored): (p: Prefs)
    ensures |p| == |t| && forall i :: 0 <= i < |t| ==> p[i] == (PathOf(t[i]) in row && row[PathOf(t[i])])
  {
    seq(|t|, i requires 0 <= i < |t| => PathOf(t[i]) in row && row[PathOf(t[i])])
  }

  /** A channel update: the named channels, and the values a new row takes for the others. */
  datatype Change = Change(overrides: map<string, bool>, seed: Prefs)

  /** The flags a change leaves: the overrides over what was there. */
  function Overridden(t: Table, p: Prefs, overrides: map<string, bool>): (r: Prefs)
    requires |p| == |t|
    ensures |r| == |t|
    ensures forall i :: 0 <= i < |t| ==> r[i] == if t[i].name in overrides then overrides[t[i].name] else p[i]
  {
    seq(|t|, i requires 0 <= i < |t| => if t[i].name in overrides then overrides[t[i].name] else p[i])
  }

  /** The $set stage of a change over the first n channels: the named ones. */
  function SetStage(t: Table, overrides: map<string, bool>, n: nat): Stored
    requires n <= |t|
  {
    if n == 0 then map[]
    else
      var before, c := SetStage(t, overrides, n - 1), t[n - 1];
      if c.name in overrides then before[PathOf(c) := overrides[c.name]] else before
  }

  /** The $setOnInsert stage: the others, under the seed. */
  function InsertStage(t: Table, c: Change, n: nat): Stored
    requires n <= |t| == |c.seed|
  {
    if n == 0 then map[]
    else
      var before, ch := InsertStage(t, c, n - 1), t[n - 1];
      if ch.name in c.overrides then before else before[PathOf(ch) := c.seed[n - 1]]
  }

  /** The paths of the first n channels. */
  function PathsUpTo(t: Table, n: nat): set<string>
    requires n <= |t|
  {
    if n == 0 then {} else PathsUpTo(t, n - 1) + {PathOf(t[n - 1])}
  }

  lemma {:induction false} PathIsNew(t: Table, n: nat, i: nat)
    requires TableOk(t) && n <= i < |t|
    ensures PathOf(t[i]) !in PathsUpTo(t, n)
  {
    hide PathOf;
    if n > 0 {
      PathIsNew(t, n - 1, i);
      if PathOf(t[n - 1]) == PathOf(t[i]) { PathsDiffer(t, n - 1, i); }
    }
  }

  /** Every channel path is in exactly one stage. */
  lemma {:induction false} StagesPartition(t: Table, c: Change, n: nat)
    requires TableOk(t) && n <= |t| == |c.seed|
    ensures SetStage(t, c.overrides, n).Keys !! InsertStage(t, c, n).Keys
    ensures SetStage(t, c.overrides, n).Keys + InsertStage(t, c, n).Keys == PathsUpTo(t, n)
  {
    hide PathOf;
    if n > 0 {
      StagesPartition(t, c, n - 1);
      PathIsNew(t, n - 1, n - 1);
    }
  }

  /** A named channel is staged under its override, another one under its seed. */
  lemma {:induction false} StagedAt(t: Table, c: Change, n: nat, i: nat)
    requires TableOk(t) && i < n <= |t| == |c.seed|
    ensures var set_, insert := SetStage(t, c.overrides, n), InsertStage(t, c, n);
      if t[i].name in c.overrides then PathOf(t[i]) in set_ && set_[PathOf(t[i])] == c.overrides[t[i].name]
      else PathOf(t[i]) !in set_ && PathOf(t[i]) in insert && insert[PathOf(t[i])] == c.seed[i]
  {
    hide PathOf;
    StagesPartition(t, c, n - 1);
    PathIsNew(t, n - 1, n - 1);
    if i < n - 1 {
      StagedAt(t, c, n - 1, i);
      if PathOf(t[i]) == PathOf(t[n - 1]) { PathsDiffer(t, i, n - 1); }
    }
  }

  method BuildStages(t: Table, c: Change) returns (set_: Stored, insert: Stored)
    requires TableOk(t) && |c.seed| == |t|
    ensures set_ == SetStage(t, c.overrides, |t|) && insert == InsertStage(t, c, |t|)
  {
    set_, insert := map[], map[];
    var names := ChannelNames(t);
    for i := 0 to |names|
      invariant set_ == SetStage(t, c.overrides, i) && insert == InsertStage(t, c, i)
    {
      RowOfEntry(t, i);
      var field := ChannelBSONField(t, names[i]);
      if field.None? {
        continue;
      }
      var path := "channels." + field.value;
      if names[i] in c.overrides {
        set_ := set_[path := c.overrides[names[i]]];
        continue;
      }
      var v, _ := Get(t, c.seed, names[i]);
      insert := insert[path := v];
    }
  }

  /** Applying a change to a stored row overrides the named channels and nothing else;
      inserting it gives the seed with the overrides. */
  lemma ChangeDecodes(t: Table, c: Change, row: Stored)
    requires TableOk(t) && |c.seed| == |t|
    ensures Decode(t, row + SetStage(t, c.overrides, |t|)) == Overridden(t, Decode(t, row), c.overrides)
    ensures Decode(t, InsertStage(t, c, |t|) + SetStage(t, c.overrides, |t|)) == Overridden(t, c.seed, c.overrides)
  {
    hide PathOf, SetStage, InsertStage;
    var set_, insert := SetStage(t, c.overrides, |t|), InsertStage(t, c, |t|);
    forall i | 0 <= i < |t|
      ensures Decode(t, row + set_)[i] == Overridden(t, Decode(t, row), c.overrides)[i]
      ensures Decode(t, insert + set_)[i] == Overridden(t, c.seed, c.overrides)[i]
    {
      StagedAt(t, c, |t|, i);
    }
  }

  lemma CanonicalTable()
    ensures TableOk(CHANNELS)
  {
    assert "email"[0] == 'e' && "sms"[1] == 'm' && "slack"[1] == 'l';
  }
}
