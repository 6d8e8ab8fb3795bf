/** Workflow definitions and the two halves of a run: the steps the trigger handler
    enqueues directly, and the steps a control step's handler resumes with. */
module Workflows {
  import opened Common
  import opened Values

  datatype Condition = Condition(field: string, operator: string, value: Value)

  datatype Wait = Wait(amount: int, unit: string)

  datatype DigestConfig = DigestConfig(amount: int, unit: string, key: string)

  datatype Step = Step(
    kind: string,
    enabled: bool,
    conditions: seq<Condition>,
    delay: Option<Wait>,
    digest: Option<DigestConfig>)

  /** One entry of an evaluated workflow. */
  datatype Planned = Planned(index: nat, step: Step, skipped: bool)

  const MAX_RETRIES: nat := 3
  const BACKOFF_BASE_MS: nat := 30_000
  const BACKOFF_MULTIPLIER: nat := 4

  predicate IsControl(kind: string) {
    kind == "delay" || kind == "digest"
  }

  /** A control step that is not skipped and has the configuration it needs to wait. */
  predicate Arms(p: Planned) {
    && !p.skipped
    && ((p.step.kind == "delay" && p.step.delay.Some?) || (p.step.kind == "digest" && p.step.digest.Some?))
  }

  /** A channel step that survived evaluation. */
  predicate Sends(p: Planned) {
    !p.skipped && !IsControl(p.step.kind)
  }

  /** What every evaluation of `steps` looks like: one entry per step, in order, and a
      step that is off by default is skipped. */
  ghost predicate IsPlan(steps: seq<Step>, plan: seq<Planned>) {
    && |plan| == |steps|
    && forall i :: 0 <= i < |plan| ==>
         plan[i].index == i && plan[i].step == steps[i] && (!steps[i].enabled ==> plan[i].skipped)
  }

  /** The first position at or after `from` whose step arms, or |plan|. */
  function StopAt(plan: seq<Planned>, from: nat): (c: nat)
    requires from <= |plan|
    ensures from <= c <= |plan|
    ensures forall i :: from <= i < c ==> !Arms(plan[i])
    ensures c < |plan| ==> Arms(plan[c])
    decreases |plan| - from
  {
    if from == |plan| || Arms(plan[from]) then from else StopAt(plan, from + 1)
  }

  /** The first control-type step at or after `from`, configured or not, or |steps|. */
  function NextControl(steps: seq<Step>, from: nat): (c: nat)
    requires from <= |steps|
    ensures from <= c <= |steps|
    ensures forall i :: from <= i < c ==> !IsControl(steps[i].kind)
    ensures c < |steps| ==> IsControl(steps[c].kind)
    decreases |steps| - from
  {
    if from == |steps| || IsControl(steps[from].kind) then from else NextControl(steps, from + 1)
  }

  /** The step indices the trigger loop enqueues from position `from` on. */
  function Direct(plan: seq<Planned>, from: nat): seq<nat>
    requires from <= |plan|
    decreases |plan| - from
  {
    if from == |plan| || Arms(plan[from]) then []
    else (if Sends(plan[from]) then [plan[from].index] else []) + Direct(plan, from + 1)
  }

  /** The step indices a resumed workflow enqueues from position `from` on. */
  function Following(steps: seq<Step>, from: nat): seq<nat>
    decreases |steps| - from
  {
    if from >= |steps| || IsControl(steps[from].kind) then [] else [from] + Following(steps, from + 1)
  }

  /** Everything a plan delivers when nothing fails: the direct steps, then, once the
      control step that stopped the loop fires, the steps that follow it. */
  function Delivered(steps: seq<Step>, plan: seq<Planned>): seq<nat>
    requires |plan| == |steps|
  {
    var c := StopAt(plan, 0);
    Direct(plan, 0) + (if c < |plan| then Following(steps, c + 1) else [])
  }

  predicate Increasing(s: seq<nat>) {
    forall i, j :: 0 <= i < j < |s| ==> s[i] < s[j]
  }

  lemma ConsIncreasing(x: nat, s: seq<nat>)
    requires Increasing(s) && forall y :: y in s ==> x < y
    ensures Increasing([x] + s)
  {
    forall j | 0 <= j < |s| ensures x < s[j] {
      assert s[j] in s;
    }
  }

  lemma DirectStep(steps: seq<Step>, plan: seq<Planned>, from: nat)
    requires IsPlan(steps, plan) && from < |plan| && !Arms(plan[from])
    ensures Direct(plan, from) == (if Sends(plan[from]) then [from] else []) + Direct(plan, from + 1)
    ensures [] + Direct(plan, from + 1) == Direct(plan, from + 1)
  {
  }

  lemma {:induction false} DirectExact(steps: seq<Step>, plan: seq<Planned>, from: nat)
    requires IsPlan(steps, plan) && from <= |plan|
    ensures forall i :: i in Direct(plan, from) <==> from <= i < StopAt(plan, from) && Sends(plan[i])
    ensures Increasing(Direct(plan, from))
    decreases |plan| - from
  {
    if from < |plan| && !Arms(plan[from]) {
      DirectExact(steps, plan, from + 1);
      DirectStep(steps, plan, from);
      hide IsPlan, Direct, Sends;
      ConsIncreasing(from, Direct(plan, from + 1));
    }
  }

  lemma {:induction false} FollowingExact(steps: seq<Step>, from: nat)
    requires from <= |steps|
    ensures forall i :: i in Following(steps, from) <==> from <= i < NextControl(steps, from)
    ensures Increasing(Following(steps, from))
    decreases |steps| - from
  {
    if from < |steps| && !IsControl(steps[from].kind) {
      FollowingExact(steps, from + 1);
      ConsIncreasing(from, Following(steps, from + 1));
    }
  }

  lemma IncreasingConcat(d: seq<nat>, f: seq<nat>, c: nat)
    requires Increasing(d) && Increasing(f) && (forall x :: x in d ==> x < c) && (forall y :: y in f ==> c < y)
    ensures Increasing(d + f) && forall x :: x in d + f <==> x in d || x in f
  {
    forall x, y | 0 <= x < |d| && 0 <= y < |f| ensures d[x] < f[y] {
      assert d[x] in d && f[y] in f;
    }
  }

  lemma DeliveredInTwo(steps: seq<Step>, plan: seq<Planned>)
    requires IsPlan(steps, plan)
    ensures var c := StopAt(plan, 0);
            forall i :: i in Delivered(steps, plan) <==>
              || (0 <= i < c && Sends(plan[i]))
              || (c < i < |steps| && forall j :: c < j <= i ==> !IsControl(steps[j].kind))
    ensures Increasing(Delivered(steps, plan))
  {
    hide Sends, Direct, Following, IsControl, Arms, Increasing;
    var c := StopAt(plan, 0);
    DirectExact(steps, plan, 0);
    if c < |plan| {
      FollowingExact(steps, c + 1);
      var d, f := Direct(plan, 0), Following(steps, c + 1);
      IncreasingConcat(d, f, c);
      var end := NextControl(steps, c + 1);
      forall i ensures (i in f) <==> c < i < |steps| && forall j :: c < j <= i ==> !IsControl(steps[j].kind) {
        if c < i < |steps| && end <= i { assert IsControl(steps[end].kind); }
      }
    } else {
      assert Direct(plan, 0) + [] == Direct(plan, 0);
    }
  }

  /** The surviving delay and digest steps that have their configuration. */
  function Waiting(plan: seq<Planned>): (w: set<nat>)
    ensures forall j :: j in w <==> 0 <= j < |plan| && Arms(plan[j])
  {
    set j: nat | j < |plan| && !plan[j].skipped
      && ((plan[j].step.kind == "delay" && plan[j].step.delay.Some?)
          || (plan[j].step.kind == "digest" && plan[j].step.digest.Some?))
  }

  /** Which steps a workflow run delivers, and that it delivers none of them twice: with c the
      first waiting step, if any, exactly the surviving channel steps before c and the channel
      steps behind c up to the next delay or digest step of any kind, surviving or not. */
  lemma DeliveredExact(steps: seq<Step>, plan: seq<Planned>) returns (c: nat)
    requires IsPlan(steps, plan)
    ensures if Waiting(plan) == {} then c == |plan| else c in Waiting(plan) && forall j :: j in Waiting(plan) ==> c <= j
    ensures forall i :: i in Delivered(steps, plan) <==>
      && 0 <= i < |steps| && steps[i].kind != "delay" && steps[i].kind != "digest"
      && ((i < c && !plan[i].skipped) || (c < i && forall j :: c < j < i ==>
          steps[j].kind != "delay" && steps[j].kind != "digest"))
    ensures Increasing(Delivered(steps, plan))
  {
    DeliveredInTwo(steps, plan);
    hide Delivered, Increasing, Arms, IsControl;
    c := StopAt(plan, 0);
    forall i: nat
      ensures i in Delivered(steps, plan) <==>
        && i < |steps| && steps[i].kind != "delay" && steps[i].kind != "digest"
        && ((i < c && !plan[i].skipped) || (c < i && forall j :: c < j < i ==>
            steps[j].kind != "delay" && steps[j].kind != "digest"))
    {
      if c < i < |steps| { NoControlUpTo(steps, c, i); }
      assert i < c ==> (Sends(plan[i]) <==> !plan[i].skipped && !IsControl(steps[i].kind));
    }
  }

  lemma NoControlUpTo(steps: seq<Step>, c: nat, i: nat)
    requires c < i < |steps|
    ensures (forall j :: c < j <= i ==> !IsControl(steps[j].kind))
      <==> !IsControl(steps[i].kind) && forall j :: c < j < i ==> steps[j].kind != "delay" && steps[j].kind != "digest"
  {
  }

  // ---------------------------------------------------------------------------------
  // Delivery-status rows
  // ---------------------------------------------------------------------------------

  datatype Status =
    | Pending
    | Sent
    | Failed
    | Skipped
    | Confirmed // "delivered": the feed reads it, no handler writes it

  datatype Row = Row(channel: string, status: Status)

  /** One pending row per channel step, in step order. */
  function PendingRows(steps: seq<Step>): (rows: seq<Row>)
    ensures forall r :: r in rows ==> r.status == Pending
    ensures forall i :: 0 <= i < |steps| && !IsControl(steps[i].kind) ==> Row(steps[i].kind, Pending) in rows
    ensures forall r :: r in rows ==> exists i ::
      0 <= i < |steps| && !IsControl(steps[i].kind) && steps[i].kind == r.channel
  {
    if steps == [] then []
    else
      var rest := PendingRows(steps[..|steps| - 1]);
      var last := steps[|steps| - 1];
      if IsControl(last.kind) then rest else rest + [Row(last.kind, Pending)]
  }

  method BuildChannelDeliveries(steps: seq<Step>) returns (rows: seq<Row>)
    ensures rows == PendingRows(steps)
  {
    rows := [];
    for i := 0 to |steps|
      invariant rows == PendingRows(steps[..i])
    {
      assert steps[..i + 1][..i] == steps[..i];
      if IsControl(steps[i].kind) {
        continue;
      }
      rows := rows + [Row(steps[i].kind, Pending)];
    }
    assert steps[..|steps|] == steps;
  }

  /** The channel steps among the first n. */
  function ChannelSteps(steps: seq<Step>, n: nat): set<nat>
    requires n <= |steps|
  {
    set j: nat | j < n && steps[j].kind != "delay" && steps[j].kind != "digest"
  }

  lemma NoChannelSteps(steps: seq<Step>)
    ensures |PendingRows(steps[..0])| == 0 == |ChannelSteps(steps, 0)|
  {
    assert ChannelSteps(steps, 0) == {};
  }

  lemma ChannelStepsGrow(steps: seq<Step>, n: nat)
    requires n < |steps|
    ensures |ChannelSteps(steps, n + 1)| == |ChannelSteps(steps, n)| + if IsControl(steps[n].kind) then 0 else 1
  {
    var before, after := ChannelSteps(steps, n), ChannelSteps(steps, n + 1);
    assert after == if IsControl(steps[n].kind) then before else before + {n};
  }

  lemma PendingRowsGrow(steps: seq<Step>, n: nat)
    requires n < |steps|
    ensures PendingRows(steps[..n + 1])
      == PendingRows(steps[..n]) + if IsControl(steps[n].kind) then [] else [Row(steps[n].kind, Pending)]
  {
    assert steps[..n + 1][..n] == steps[..n];
  }

  function RowCount(steps: seq<Step>, n: nat): nat
    requires n <= |steps|
  {
    |PendingRows(steps[..n])|
  }

  lemma RowCountGrows(steps: seq<Step>, n: nat)
    requires n < |steps|
    ensures RowCount(steps, n + 1) == RowCount(steps, n) + if IsControl(steps[n].kind) then 0 else 1
  {
    PendingRowsGrow(steps, n);
    hide PendingRows;
  }

  lemma {:induction false} CountsAgree(steps: seq<Step>, n: nat)
    requires n <= |steps|
    ensures RowCount(steps, n) == |ChannelSteps(steps, n)|
  {
    if n == 0 {
      NoChannelSteps(steps);
    } else {
      hide RowCount, ChannelSteps, IsControl;
      CountsAgree(steps, n - 1);
      ChannelStepsGrow(steps, n - 1);
      RowCountGrows(steps, n - 1);
    }
  }

  /** There are as many rows as channel steps, repeated channels included. */
  lemma RowsAreChannelSteps(steps: seq<Step>, n: nat)
    requires n <= |steps|
    ensures |PendingRows(steps[..n])| == |ChannelSteps(steps, n)|
  {
    CountsAgree(steps, n);
    hide PendingRows, ChannelSteps;
  }

  /** Each channel step's row stands behind those of the channel steps before it. */
  lemma {:induction false} RowsInStepOrder(steps: seq<Step>, n: nat, k: nat)
    requires k < n <= |steps| && steps[k].kind != "delay" && steps[k].kind != "digest"
    ensures |ChannelSteps(steps, k)| < |PendingRows(steps[..n])|
    ensures PendingRows(steps[..n])[|ChannelSteps(steps, k)|] == Row(steps[k].kind, Pending)
  {
    hide PendingRows, ChannelSteps;
    PendingRowsGrow(steps, n - 1);
    if k == n - 1 {
      RowsAreChannelSteps(steps, k);
    } else {
      RowsInStepOrder(steps, n - 1, k);
    }
  }

  /** No two channel steps share a channel. */
  ghost predicate DistinctChannels(steps: seq<Step>) {
    forall i, j :: 0 <= i < j < |steps| && !IsControl(steps[i].kind) && !IsControl(steps[j].kind) ==>
      steps[i].kind != steps[j].kind
  }

  ghost predicate DistinctRows(rows: seq<Row>) {
    forall i, j :: 0 <= i < j < |rows| ==> rows[i].channel != rows[j].channel
  }

  lemma {:induction false} DistinctChannelsGiveDistinctRows(steps: seq<Step>)
    requires DistinctChannels(steps)
    ensures DistinctRows(PendingRows(steps))
  {
    if steps != [] {
      var n := |steps| - 1;
      DistinctChannelsGiveDistinctRows(steps[..n]);
      var rest := PendingRows(steps[..n]);
      if !IsControl(steps[n].kind) {
        forall i | 0 <= i < |rest| ensures rest[i].channel != steps[n].kind {
          assert rest[i] in rest;
        }
      }
    }
  }

  /** Writes the first row of a channel, as a positional-operator update does; a
      notification without such a row is left alone. */
  function SetStatus(rows: seq<Row>, channel: string, status: Status): (r: seq<Row>)
    ensures |r| == |rows|
    ensures forall i :: 0 <= i < |rows| ==> r[i].channel == rows[i].channel
    ensures forall i :: 0 <= i < |rows| && rows[i].channel != channel ==> r[i] == rows[i]
  {
    if rows == [] then []
    else if rows[0].channel == channel then [rows[0].(status := status)] + rows[1..]
    else [rows[0]] + SetStatus(rows[1..], channel, status)
  }

  /** With distinct rows, a status write changes exactly the row of its channel. */
  lemma {:induction false} SetStatusExact(rows: seq<Row>, channel: string, status: Status)
    requires DistinctRows(rows)
    ensures forall i :: 0 <= i < |rows| ==>
      SetStatus(rows, channel, status)[i] == if rows[i].channel == channel then rows[i].(status := status) else rows[i]
  {
    if rows != [] && rows[0].channel != channel {
      SetStatusExact(rows[1..], channel, status);
    }
  }

  /** A row can be written at all exactly when no earlier row has its channel. */
  lemma {:induction false} WritableIffFirst(rows: seq<Row>, j: nat)
    requires j < |rows|
    ensures (exists channel, status :: SetStatus(rows, channel, status)[j] != rows[j])
      <==> forall i :: 0 <= i < j ==> rows[i].channel != rows[j].channel
  {
    if i: nat :| i < j && rows[i].channel == rows[j].channel {
      forall channel, status ensures SetStatus(rows, channel, status)[j] == rows[j] {
        if channel == rows[j].channel { RepeatedChannelWritesFirstRow(rows, i, j, status); }
      }
    } else {
      var status := if rows[j].status == Pending then Sent else Pending;
      FirstRowIsWritten(rows, j, status);
      assert SetStatus(rows, rows[j].channel, status)[j] != rows[j];
    }
  }

  lemma {:induction false} FirstRowIsWritten(rows: seq<Row>, j: nat, status: Status)
    requires j < |rows| && forall i :: 0 <= i < j ==> rows[i].channel != rows[j].channel
    ensures SetStatus(rows, rows[j].channel, status)[j] == rows[j].(status := status)
  {
    if j > 0 {
      assert forall i :: 0 <= i < j - 1 ==> rows[1..][i] == rows[i + 1];
      FirstRowIsWritten(rows[1..], j - 1, status);
    }
  }

  /** With a repeated channel the write always lands on the first row. */
  lemma {:induction false} RepeatedChannelWritesFirstRow(rows: seq<Row>, i: nat, j: nat, status: Status)
    requires i < j < |rows| && rows[i].channel == rows[j].channel
    ensures SetStatus(rows, rows[j].channel, status)[j] == rows[j]
  {
    if rows[0].channel != rows[j].channel {
      RepeatedChannelWritesFirstRow(rows[1..], i - 1, j - 1, status);
    }
  }

  /** Every row with an earlier row of its channel is pending. */
  ghost predicate LaterRowsPending(rows: seq<Row>) {
    forall i, j :: 0 <= i < j < |rows| && rows[i].channel == rows[j].channel ==> rows[j].status == Pending
  }

  lemma WritesKeepLaterRowsPending(rows: seq<Row>, channel: string, status: Status)
    requires LaterRowsPending(rows)
    ensures LaterRowsPending(SetStatus(rows, channel, status))
  {
    var after := SetStatus(rows, channel, status);
    forall i, j | 0 <= i < j < |after| && after[i].channel == after[j].channel ensures after[j].status == Pending {
      if channel == rows[j].channel { RepeatedChannelWritesFirstRow(rows, i, j, status); }
    }
  }

  /** Some in-app row went out: what the feed and the badge select. */
  ghost predicate DeliveredInApp(rows: seq<Row>) {
    exists i :: 0 <= i < |rows| && rows[i].channel == "in_app" && (rows[i].status.Sent? || rows[i].status.Confirmed?)
  }
}
