/** Concurrent channel updates of one preference row. An upsert probes for the row, then
    commits: an update of what it found, or an insert that the unique index rejects if a
    row has appeared meanwhile. A rejected call is retried once. */
module PreferenceRace {
  import opened Common
  import opened Channels

  type Handle = nat

  /** A call in progress: whether this is its retry, and what its probe found, if done. */
  datatype Call = Call(change: Change, retried: bool, probe: Option<bool>)

  datatype State = State(
    row: Option<Stored>,
    calls: map<Handle, Call>,
    log: seq<Change>,     // committed, in commit order
    errors: nat)          // calls that failed for good

  const Start: State := State(None, map[], [], 0)

  datatype Action =
    | Arrive(h: Handle, change: Change)
    | Probe(h: Handle)
    | Commit(h: Handle)

  ghost predicate ChangeOk(t: Table, c: Change) { |c.seed| == |t| }

  ghost predicate AllOk(t: Table, log: seq<Change>) { forall i :: 0 <= i < |log| ==> ChangeOk(t, log[i]) }

  function SetOf(t: Table, c: Change): Stored { SetStage(t, c.overrides, |t|) }

  function InsertOf(t: Table, c: Change): Stored
    requires |c.seed| == |t|
  {
    InsertStage(t, c, |t|)
  }

  ghost function Do(t: Table, s: State, a: Action): State {
    match a
    case Arrive(h, c) =>
      if h !in s.calls && ChangeOk(t, c) then s.(calls := s.calls[h := Call(c, false, None)]) else s
    case Probe(h) =>
      if h in s.calls && s.calls[h].probe.None? then
        s.(calls := s.calls[h := s.calls[h].(probe := Some(s.row.Some?))])
      else s
    case Commit(h) =>
      if h !in s.calls || s.calls[h].probe.None? || |s.calls[h].change.seed| != |t| then s
      else
        var call := s.calls[h];
        var done := s.(calls := s.calls - {h}, log := s.log + [call.change]);
        if call.probe.value then
          // Rows are never deleted, so the one that was found is still there.
          (if s.row.None? then s.(errors := s.errors + 1, calls := s.calls - {h})
           else done.(row := Some(s.row.value + SetOf(t, call.change))))
        else if s.row.None? then
          done.(row := Some(InsertOf(t, call.change) + SetOf(t, call.change)))
        else if call.retried then s.(errors := s.errors + 1, calls := s.calls - {h})
        else s.(calls := s.calls[h := Call(call.change, true, None)])
  }

  ghost function Run(t: Table, actions: seq<Action>): State {
    if actions == [] then Start else Do(t, Run(t, actions[..|actions| - 1]), actions[|actions| - 1])
  }

  /** The flags after a sequence of committed changes: the first inserts, the others
      override. */
  ghost function Replay(t: Table, log: seq<Change>): Prefs
    requires log != [] && AllOk(t, log)
    ensures |Replay(t, log)| == |t|
  {
    var n := |log| - 1;
    if n == 0 then Overridden(t, log[0].seed, log[0].overrides)
    else Overridden(t, Replay(t, log[..n]), log[n].overrides)
  }

  ghost predicate Inv(t: Table, s: State) {
    && s.errors == 0
    && (s.row.Some? <==> s.log != [])
    && AllOk(t, s.log)
    && (s.row.Some? ==> Decode(t, s.row.value) == Replay(t, s.log))
    // A retry happens only once the row exists, so its probe finds it.
    && (forall h :: h in s.calls ==>
          && ChangeOk(t, s.calls[h].change)
          && (s.calls[h].retried ==> s.row.Some? && s.calls[h].probe != Some(false))
          && (s.calls[h].probe == Some(true) ==> s.row.Some?))
  }

  lemma CommitKeepsInv(t: Table, s: State, h: Handle)
    requires TableOk(t) && Inv(t, s) && h in s.calls && s.calls[h].probe.Some?
    ensures Inv(t, Do(t, s, Commit(h)))
  {
    var c := s.calls[h].change;
    ChangeDecodes(t, c, if s.row.Some? then s.row.value else map[]);
    assert (s.log + [c])[..|s.log|] == s.log;
  }

  lemma {:induction false} RunKeepsInv(t: Table, actions: seq<Action>)
    requires TableOk(t)
    ensures Inv(t, Run(t, actions))
  {
    if actions != [] {
      var n := |actions| - 1;
      RunKeepsInv(t, actions[..n]);
      var s, a := Run(t, actions[..n]), actions[n];
      if a.Commit? && a.h in s.calls && s.calls[a.h].probe.Some? { CommitKeepsInv(t, s, a.h); }
    }
  }

  /** In every interleaving no call fails: one retry always suffices. A row exists exactly
      once some call has committed, and it holds the replay of the commits. */
  lemma OneRetrySuffices(t: Table, actions: seq<Action>)
    requires TableOk(t)
    ensures var s := Run(t, actions);
      && s.errors == 0
      && (s.row.Some? <==> s.log != [])
      && AllOk(t, s.log)
      && (s.row.Some? ==> Decode(t, s.row.value) == Replay(t, s.log))
  {
    RunKeepsInv(t, actions);
  }

  /** In no reachable state can a commit fail: a row that a probe found is there, and no retry
      has probed before the row was there. */
  lemma NoCommitFails(t: Table, actions: seq<Action>, h: Handle)
    requires TableOk(t)
    ensures var s := Run(t, actions);
      h in s.calls && s.calls[h].probe.Some? ==>
        && (s.calls[h].probe.value ==> s.row.Some?)
        && (!s.calls[h].probe.value && s.row.Some? ==> !s.calls[h].retried)
  {
    RunKeepsInv(t, actions);
  }

  /** Each channel ends as the last committed override that names it. */
  lemma {:induction false} LastOverrideWins(t: Table, log: seq<Change>, ch: nat, i: nat)
    requires AllOk(t, log) && ch < |t| && i < |log|
    requires t[ch].name in log[i].overrides && forall j :: i < j < |log| ==> t[ch].name !in log[j].overrides
    ensures Replay(t, log)[ch] == log[i].overrides[t[ch].name]
  {
    if i < |log| - 1 {
      LastOverrideWins(t, log[..|log| - 1], ch, i);
    }
  }

  /** A channel nobody named keeps the seed of the call that inserted the row. */
  lemma {:induction false} SeedOtherwise(t: Table, log: seq<Change>, ch: nat)
    requires AllOk(t, log) && ch < |t| && log != []
    requires forall j :: 0 <= j < |log| ==> t[ch].name !in log[j].overrides
    ensures Replay(t, log)[ch] == log[0].seed[ch]
  {
    if |log| > 1 {
      SeedOtherwise(t, log[..|log| - 1], ch);
    }
  }

  /** No update is lost: after any interleaving, every channel reads as the last committed
      override naming it, or as the inserting call's seed. */
  lemma NoLostUpdate(t: Table, actions: seq<Action>, ch: nat)
    requires TableOk(t) && ch < |t| && Run(t, actions).row.Some?
    ensures var s := Run(t, actions);
      && s.log != [] && |s.log[0].seed| == |t|
      && (forall i | 0 <= i < |s.log| && t[ch].name in s.log[i].overrides ::
            (forall j :: i < j < |s.log| ==> t[ch].name !in s.log[j].overrides) ==>
              Decode(t, s.row.value)[ch] == s.log[i].overrides[t[ch].name])
      && ((forall j :: 0 <= j < |s.log| ==> t[ch].name !in s.log[j].overrides) ==>
            Decode(t, s.row.value)[ch] == s.log[0].seed[ch])
  {
    RunKeepsInv(t, actions);
    var s := Run(t, actions);
    forall i | 0 <= i < |s.log| && t[ch].name in s.log[i].overrides
                 && forall j :: i < j < |s.log| ==> t[ch].name !in s.log[j].overrides
      ensures Replay(t, s.log)[ch] == s.log[i].overrides[t[ch].name]
    {
      LastOverrideWins(t, s.log, ch, i);
    }
    if forall j :: 0 <= j < |s.log| ==> t[ch].name !in s.log[j].overrides { SeedOtherwise(t, s.log, ch); }
  }

  /** Left alone, a call that has arrived commits within two attempts. */
  lemma {:induction false} CallCommits(t: Table, s: State, h: Handle) returns (actions: seq<Action>)
    requires TableOk(t) && Inv(t, s) && h in s.calls
    ensures |actions| <= 4 && (s.calls[h].retried ==> |actions| <= 2) && (s.calls[h].probe.Some? ==> |actions| <= 3)
    ensures s.calls[h].retried && s.calls[h].probe.Some? ==> |actions| <= 1
    ensures var u := RunFrom(t, s, actions);
      u.calls == s.calls - {h} && u.errors == 0 && u.row.Some? && u.log == s.log + [s.calls[h].change]
    decreases !s.calls[h].retried, s.calls[h].probe.None?
  {
    var call := s.calls[h];
    var a := if call.probe.None? then Probe(h) else Commit(h);
    var s1 := Do(t, s, a);
    if call.probe.Some? { CommitKeepsInv(t, s, h); }
    assert Inv(t, s1);
    if h in s1.calls {
      var rest := CallCommits(t, s1, h);
      actions := [a] + rest;
      assert actions[1..] == rest;
    } else {
      actions := [a];
      assert actions[1..] == [];
      assert RunFrom(t, s1, []) == s1;
    }
  }

  ghost function RunFrom(t: Table, s: State, actions: seq<Action>): State
    decreases |actions|
  {
    if actions == [] then s else RunFrom(t, Do(t, s, actions[0]), actions[1..])
  }

  /** Whatever other calls are in progress, a new call that is left alone from then on commits
      its change, once, and leaves the others as they are. */
  lemma NewCallCommits(t: Table, before: seq<Action>, h: Handle, c: Change) returns (actions: seq<Action>)
    requires TableOk(t) && |c.seed| == |t| && h !in Run(t, before).calls
    ensures |actions| <= 5
    ensures var s, u := Run(t, before), Run(t, before + actions);
      u.log == s.log + [c] && u.row.Some? && u.errors == 0 && u.calls == s.calls
  {
    RunKeepsInv(t, before);
    var s := Run(t, before);
    var s1 := Do(t, s, Arrive(h, c));
    assert Inv(t, s1);
    var rest := CallCommits(t, s1, h);
    actions := [Arrive(h, c)] + rest;
    assert actions[1..] == rest;
    RunsOn(t, before, actions);
  }

  lemma {:induction false} RunsOn(t: Table, before: seq<Action>, actions: seq<Action>)
    ensures Run(t, before + actions) == RunFrom(t, Run(t, before), actions)
    decreases |actions|
  {
    if actions == [] {
      assert before + actions == before;
    } else {
      var next := before + [actions[0]];
      assert next[..|before|] == before && before + actions == next + actions[1..];
      RunsOn(t, next, actions[1..]);
    }
  }
}
