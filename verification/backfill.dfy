/** The startup pass over stored preference rows: a channel added to the table after a global
    row was written is absent from it, reads as off, and would silence the channel. */
module Backfill {
  import opened Common
  import opened Channels
  import opened Preferences

  predicate Missing(row: Row, path: string) {
    row.wf.None? && path !in row.channels
  }

  function FillRow(row: Row, path: string): Row {
    if Missing(row, path) then Row(None, row.channels[path := true]) else row
  }

  /** How many rows lack a path. */
  function CountMissing(rows: seq<Row>, path: string): (n: nat)
    ensures n == 0 <==> forall k :: 0 <= k < |rows| ==> !Missing(rows[k], path)
  {
    if rows == [] then 0
    else
      var n := CountMissing(rows[..|rows| - 1], path);
      assert forall k :: 0 <= k < |rows| - 1 ==> rows[..|rows| - 1][k] == rows[k];
      if Missing(rows[|rows| - 1], path) then n + 1 else n
  }

  /** The global rows without a path. */
  function Lacking(rows: seq<Row>, path: string): set<int> {
    set k | 0 <= k < |rows| && rows[k].wf == None && path !in rows[k].channels
  }

  /** The count is the number of these. */
  lemma {:induction false} CountsMissing(rows: seq<Row>, path: string)
    ensures CountMissing(rows, path) == |Lacking(rows, path)|
  {
    if rows == [] {
      assert Lacking(rows, path) == {};
    } else {
      var n := |rows| - 1;
      CountsMissing(rows[..n], path);
      LackingOneMore(rows, path);
      hide Lacking;
    }
  }

  lemma LackingOneMore(rows: seq<Row>, path: string)
    requires rows != []
    ensures var n := |rows| - 1;
      |Lacking(rows, path)| == |Lacking(rows[..n], path)| + if Missing(rows[n], path) then 1 else 0
  {
    var n := |rows| - 1;
    var before := Lacking(rows[..n], path);
    assert Lacking(rows, path) == if rows[n].wf == None && path !in rows[n].channels then before + {n} else before;
  }

  /** How many of the first n channels the global rows lack, over all rows. */
  function Holes(t: Table, rows: seq<Row>, n: nat): nat
    requires n <= |t|
  {
    if n == 0 then 0 else Holes(t, rows, n - 1) + |Lacking(rows, "channels." + t[n - 1].field)|
  }

  lemma SameLacking(t: Table, was: seq<Row>, mid: seq<Row>, n: nat)
    requires n < |t| && |was| == |mid| && TableOk(t) && forall k :: 0 <= k < |was| ==> FilledIn(t, was[k], mid[k], n)
    ensures Lacking(mid, PathOf(t[n])) == Lacking(was, PathOf(t[n]))
  {
    var path := PathOf(t[n]);
    forall k | 0 <= k < |was| ensures k in Lacking(mid, path) <==> k in Lacking(was, path) {
      assert FilledIn(t, was[k], mid[k], n);
      if path in mid[k].channels && path !in was[k].channels {
        var i :| 0 <= i < n && path == PathOf(t[i]);
        PathsDiffer(t, i, n);
      }
    }
  }

  lemma HolesGrow(t: Table, was: seq<Row>, mid: seq<Row>, n: nat)
    requires n < |t| && |was| == |mid| && TableOk(t) && forall k :: 0 <= k < |was| ==> FilledIn(t, was[k], mid[k], n)
    ensures Holes(t, was, n + 1) == Holes(t, was, n) + CountMissing(mid, PathOf(t[n]))
  {
    SameLacking(t, was, mid, n);
    CountsMissing(mid, PathOf(t[n]));
  }

  /** No global row lacks any of the first n channels. */
  ghost predicate Complete(t: Table, rows: seq<Row>, n: nat)
    requires n <= |t|
  {
    forall k, i :: 0 <= k < |rows| && 0 <= i < n ==> !Missing(rows[k], PathOf(t[i]))
  }

  /** A row with the first n channels filled in: stored flags kept, absent ones on. */
  ghost predicate FilledIn(t: Table, was: Row, row: Row, n: nat)
    requires n <= |t|
  {
    && row.wf == was.wf
    && (was.wf.Some? ==> row == was)
    && (forall path :: path in was.channels ==> path in row.channels && row.channels[path] == was.channels[path])
    && (forall path :: path in row.channels && path !in was.channels ==>
      row.channels[path] && exists i :: 0 <= i < n && path == PathOf(t[i]))
  }

  class Collection {
    var rows: seq<Row>

    constructor (rows: seq<Row>)
      ensures this.rows == rows
    {
      this.rows := rows;
    }

    /** One multi-row update: the path goes in where it is missing. */
    method UpdateMissing(path: string) returns (modified: nat)
      modifies this
      ensures |rows| == |old(rows)| && forall k :: 0 <= k < |rows| ==> rows[k] == FillRow(old(rows)[k], path)
      ensures modified == CountMissing(old(rows), path)
    {
      modified := 0;
      for k := 0 to |rows|
        invariant |rows| == |old(rows)|
        invariant forall j :: 0 <= j < k ==> rows[j] == FillRow(old(rows)[j], path)
        invariant forall j :: k <= j < |rows| ==> rows[j] == old(rows)[j]
        invariant modified == CountMissing(old(rows)[..k], path)
      {
        assert old(rows)[..k + 1][..k] == old(rows)[..k];
        if Missing(rows[k], path) {
          rows := rows[k := FillRow(rows[k], path)];
          modified := modified + 1;
        }
      }
      assert old(rows)[..|rows|] == old(rows);
    }

    /** The pass fills in one channel after the other, and stops at the first one whose update
        fails (its path is in `failing`). Every global row then has the channels done, with the
        stored flags kept and the absent ones on; workflow rows are untouched. It reports 0
        exactly when those were complete, and then nothing has changed: so after an error a
        re-run resumes where the pass stopped, and after a success a second one does nothing. */
    method BackfillGlobalChannels(t: Table, failing: set<string>) returns (total: nat, ok: bool, ghost done: nat)
      requires TableOk(t)
      modifies this
      ensures done <= |t| && (forall i :: 0 <= i < done ==> PathOf(t[i]) !in failing)
      ensures ok <==> done == |t|
      ensures !ok ==> PathOf(t[done]) in failing
      ensures |rows| == |old(rows)| && Complete(t, rows, done)
      ensures forall k :: 0 <= k < |rows| ==> FilledIn(t, old(rows)[k], rows[k], done)
      ensures forall k :: 0 <= k < |rows| && old(rows)[k].wf.Some? ==> rows[k] == old(rows)[k]
      ensures total == Holes(t, old(rows), done)
      ensures total == 0 <==> Complete(t, old(rows), done)
      ensures total == 0 ==> rows == old(rows)
    {
      hide FilledIn, Complete, CountMissing, FillRow, Holes;
      total, done := 0, 0;
      FilledAtStart(t, rows);
      var names := ChannelNames(t);
      for i := 0 to |names|
        invariant done == i && forall j :: 0 <= j < i ==> PathOf(t[j]) !in failing
        invariant |rows| == |old(rows)| && Complete(t, rows, i)
        invariant forall k :: 0 <= k < |rows| ==> FilledIn(t, old(rows)[k], rows[k], i)
        invariant forall k :: 0 <= k < |rows| && old(rows)[k].wf.Some? ==> rows[k] == old(rows)[k]
        invariant total == Holes(t, old(rows), i)
        invariant total == 0 <==> Complete(t, old(rows), i)
        invariant total == 0 ==> rows == old(rows)
      {
        RowOfEntry(t, i);
        var field := ChannelBSONField(t, names[i]);
        var path := "channels." + field.value;
        if path in failing {
          return total, false, done;
        }
        label before:
        var modified := UpdateMissing(path);
        HolesGrow(t, old(rows), old@before(rows), i);
        FillKeeps(t, old(rows), old@before(rows), rows, i);
        WorkflowRowsStay(t, old(rows), rows, i + 1);
        total := total + modified;
        done := i + 1;
      }
      ok := true;
    }
  }

  lemma WorkflowRowsStay(t: Table, was: seq<Row>, rows: seq<Row>, n: nat)
    requires n <= |t| && |was| == |rows| && forall k :: 0 <= k < |rows| ==> FilledIn(t, was[k], rows[k], n)
    ensures forall k :: 0 <= k < |rows| && was[k].wf.Some? ==> rows[k] == was[k]
  {
  }

  lemma FilledAtStart(t: Table, rows: seq<Row>)
    ensures Complete(t, rows, 0) && Holes(t, rows, 0) == 0 && forall k :: 0 <= k < |rows| ==>
      FilledIn(t, rows[k], rows[k], 0)
  {
  }

  /** One more channel filled in. */
  lemma FillKeeps(t: Table, was: seq<Row>, mid: seq<Row>, rows: seq<Row>, i: nat)
    requires i < |t| && |was| == |mid| == |rows| && Complete(t, mid, i)
    requires forall k :: 0 <= k < |mid| ==> FilledIn(t, was[k], mid[k], i)
    requires forall k :: 0 <= k < |rows| ==> rows[k] == FillRow(mid[k], PathOf(t[i]))
    ensures Complete(t, rows, i + 1)
    ensures forall k :: 0 <= k < |rows| ==> FilledIn(t, was[k], rows[k], i + 1)
    ensures CountMissing(mid, PathOf(t[i])) == 0 ==> rows == mid
    ensures CountMissing(mid, PathOf(t[i])) == 0 && was == mid ==> Complete(t, was, i + 1)
    ensures Complete(t, was, i + 1) ==> Complete(t, was, i) && (was == mid ==> CountMissing(mid, PathOf(t[i])) == 0)
  {
    hide PathOf;
    forall k | 0 <= k < |rows| ensures FilledIn(t, was[k], rows[k], i + 1) {
      assert FilledIn(t, was[k], mid[k], i);
    }
  }

  /** What the pass means for a subscriber: the mask allows every channel they never
      turned off, and keeps what they did turn off. */
  lemma BackfilledMask(t: Table, was: Row, row: Row, i: nat)
    requires i < |t| && was.wf.None? && FilledIn(t, was, row, |t|) && !Missing(row, PathOf(t[i]))
    ensures Decode(t, row.channels)[i] == (PathOf(t[i]) in was.channels ==> was.channels[PathOf(t[i])])
  {
  }
}
