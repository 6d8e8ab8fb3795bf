/** The delivery handler: what one run of a delivery task decides, and what a whole chain of
    runs and retries amounts to. */
module Deliveries {
  import opened Common
  import opened Channels
  import opened Workflows
  import Preferences
  import RateLimits

  // ---------------------------------------------------------------------------------
  // Backoff
  // ---------------------------------------------------------------------------------

  datatype Policy = Policy(retries: nat, base: nat, mult: nat)

  const POLICY := Policy(MAX_RETRIES, BACKOFF_BASE_MS, BACKOFF_MULTIPLIER)

  function Power(b: nat, e: nat): nat {
    if e == 0 then 1 else Power(b, e - 1) * b
  }

  /** The wait before the k-th retry. */
  function Backoff(p: Policy, k: nat): nat { p.base * Power(p.mult, k) }

  method NextRetryDelay(p: Policy, attempt: nat) returns (next: nat, backoff: nat, ok: bool)
    ensures ok <==> attempt < p.retries
    ensures ok ==> next == attempt + 1 && backoff == Backoff(p, next)
    ensures !ok ==> next == attempt && backoff == 0
  {
    if attempt >= p.retries {
      return attempt, 0, false;
    }
    next := attempt + 1;
    backoff := p.base;
    for i := 0 to next
      invariant backoff == Backoff(p, i)
    {
      Reassociate(p.base, Power(p.mult, i), p.mult);
      backoff := backoff * p.mult;
    }
    ok := true;
  }

  lemma Reassociate(a: int, b: int, c: int)
    ensures (a * b) * c == a * (b * c)
  {
  }

  /** The waits of the first n retries. */
  function Waits(p: Policy, n: nat): (r: seq<nat>)
    ensures |r| == n && forall k :: 0 <= k < n ==> r[k] == Backoff(p, k + 1)
  {
    if n == 0 then [] else Waits(p, n - 1) + [Backoff(p, n)]
  }

  function Sum(s: seq<nat>): nat {
    if s == [] then 0 else Sum(s[..|s| - 1]) + s[|s| - 1]
  }

  /** The closed form of the total wait. */
  lemma {:induction false} TotalWait(p: Policy, n: nat)
    ensures (p.mult - 1) * Sum(Waits(p, n)) == p.base * (Power(p.mult, n + 1) - p.mult)
  {
    if n == 0 {
      assert Power(p.mult, 1) == p.mult;
    } else {
      TotalWait(p, n - 1);
      assert Waits(p, n)[..n - 1] == Waits(p, n - 1);
      GeometricStep(p.base, p.mult, Power(p.mult, n), Sum(Waits(p, n - 1)));
    }
  }

  lemma GeometricStep(base: int, mult: int, power: int, sum: int)
    requires (mult - 1) * sum == base * (power - mult)
    ensures (mult - 1) * (sum + base * power) == base * (power * mult - mult)
  {
    Reassociate(mult - 1, base, power);
    assert (mult - 1) * (sum + base * power) == (mult - 1) * sum + (mult - 1) * (base * power);
    assert (mult - 1) * (base * power) == base * (power * mult) - base * power by {
      assert base * (power * mult) == (base * power) * mult;
    }
    assert base * (power * mult - mult) == base * (power * mult) - base * mult;
  }

  // ---------------------------------------------------------------------------------
  // One run
  // ---------------------------------------------------------------------------------

  datatype Contact = Contact(
    email: string, phone: string, slack: string, msTeams: string, telegram: string,
    fcm: seq<string>, apns: seq<string>)

  datatype Task = Task(key: RateLimits.Key, notif: nat, channel: string, step: int, attempt: nat, transactional: bool)

  datatype Workflow = Workflow(steps: seq<Step>, defaults: Prefs)

  datatype Primary = Found(usable: bool) | Absent | Broken

  /** What the outside answers during one run. */
  datatype World = World(
    subscriber: Option<Contact>,      // None: the lookup fails
    notification: bool,
    workflow: Option<Workflow>,
    workflowPref: Option<Prefs>,      // a failed preference lookup reads as no row
    globalPref: Option<Prefs>,
    limiter: bool,                    // the rate-limit store answers
    now: int,
    primary: Primary,                 // the channel's primary integration; usable: a provider is built from it
    push: Option<seq<string>>,        // the active push integrations' providers
    fcmUsable: bool,
    apnsUsable: bool,
    accepts: bool,                    // the provider takes the message
    fcmAccepts: seq<bool>,            // the same per token
    apnsAccepts: seq<bool>,
    marshals: bool,
    enqueues: bool,
    written: bool)                    // the status write takes effect

  ghost predicate Fits(t: Table, w: World) {
    && (w.workflow.Some? ==> |w.workflow.value.defaults| == |t|)
    && (w.workflowPref.Some? ==> |w.workflowPref.value| == |t|)
    && (w.globalPref.Some? ==> |w.globalPref.value| == |t|)
  }

  datatype Message = Message(provider: string, recipient: string)

  datatype Verdict =
    | Error(dead: bool)     // the run fails; dead: it is not run again
    | Write(status: Status) // the channel's status is written
    | Retry                 // another attempt is scheduled
    | Delivered             // a transactional send, which has no status

  datatype Run = Run(verdict: Verdict, messages: seq<Message>)

  /** Where a channel reaches a subscriber; "" when it does not. */
  function Address(c: Contact, channel: string): string {
    if channel == "email" then c.email
    else if channel == "sms" then c.phone
    else if channel == "slack" then c.slack
    else if channel == "ms_teams" then c.msTeams
    else if channel == "telegram" then c.telegram
    else ""
  }

  function Accepted(replies: seq<bool>, i: nat): bool { i < |replies| && replies[i] }

  function ToTokens(provider: string, tokens: seq<string>): (m: seq<Message>)
    ensures |m| == |tokens| && forall i :: 0 <= i < |m| ==> m[i] == Message(provider, tokens[i])
  {
    seq(|tokens|, i requires 0 <= i < |tokens| => Message(provider, tokens[i]))
  }

  function StepOf(w: World, task: Task): Option<Step>
    requires w.workflow.Some?
  {
    var steps := w.workflow.value.steps;
    if 0 <= task.step < |steps| then Some(steps[task.step]) else None
  }

  /** The provider rejected the message. */
  function Rejected(p: Policy, task: Task, w: World): Verdict {
    if task.attempt < p.retries && w.marshals then Retry
    else if task.transactional then Error(true)
    else Write(Failed)
  }

  function RunTransactional(p: Policy, task: Task, w: World): Run
    requires w.subscriber.Some?
  {
    var address := Address(w.subscriber.value, task.channel);
    if address == "" then Run(Error(true), [])
    else
      match w.primary
      case Absent => Run(Error(true), [])
      case Broken => Run(Error(false), [])
      case Found(usable) =>
        if !usable then Run(Error(false), [])
        else Run(if w.accepts then Delivered else Rejected(p, task, w), [Message("primary", address)])
  }

  /** The messages of a push delivery. */
  function PushMessages(w: World): seq<Message>
    requires w.subscriber.Some? && w.push.Some?
  {
    (if "fcm" in w.push.value && w.fcmUsable then ToTokens("fcm", w.subscriber.value.fcm) else []) +
    (if "apns" in w.push.value && w.apnsUsable then ToTokens("apns", w.subscriber.value.apns) else [])
  }

  /** Some token of some usable provider took the message. */
  ghost predicate PushReaches(w: World)
    requires w.subscriber.Some? && w.push.Some?
  {
    || ("fcm" in w.push.value && w.fcmUsable && exists i ::
        0 <= i < |w.subscriber.value.fcm| && Accepted(w.fcmAccepts, i))
    || ("apns" in w.push.value && w.apnsUsable && exists i ::
        0 <= i < |w.subscriber.value.apns| && Accepted(w.apnsAccepts, i))
  }

  ghost function RunPush(task: Task, w: World): Run
    requires w.subscriber.Some? && w.workflow.Some?
  {
    if w.push.None? then Run(Error(false), [])
    else if "fcm" !in w.push.value && "apns" !in w.push.value then Run(Write(Failed), [])
    else if StepOf(w, task).None? then Run(Error(true), [])
    else Run(Write(if PushReaches(w) then Sent else Failed), PushMessages(w))
  }

  function RunPrimary(p: Policy, task: Task, w: World): Run
    requires w.subscriber.Some? && w.workflow.Some?
  {
    match w.primary
    case Absent => Run(Write(Failed), [])
    case Broken => Run(Error(false), [])
    case Found(usable) =>
      if !usable then Run(Error(false), [])
      else if StepOf(w, task).None? then Run(Error(true), [])
      else Run(if w.accepts then Write(Sent) else Rejected(p, task, w),
               [Message("primary", Address(w.subscriber.value, StepOf(w, task).value.kind))])
  }

  predicate Reached(w: World) {
    w.subscriber.Some? && w.notification && w.workflow.Some?
  }

  predicate Enabled(t: Table, task: Task, w: World)
    requires w.workflow.Some? && Fits(t, w)
  {
    Preferences.IsChannelEnabled(t, task.channel, w.workflowPref, w.globalPref, w.workflow.value.defaults)
  }

  /** One run of a delivery task. */
  ghost function RunOf(p: Policy, t: Table, task: Task, w: World, exceeded: bool): Run
    requires Fits(t, w)
  {
    if w.subscriber.None? then Run(Error(false), [])
    else if task.transactional then RunTransactional(p, task, w)
    else if !Reached(w) then Run(Error(false), [])
    else if exceeded || !Enabled(t, task, w) then Run(Write(Skipped), [])
    else if task.channel == "in_app" then
      if StepOf(w, task).None? then Run(Error(true), []) else Run(Write(Sent), [])
    else if task.channel == "push" then RunPush(task, w)
    else RunPrimary(p, task, w)
  }

  /** The channel's flag that governs a delivery: the workflow row's, else the workflow's
      default as far as the global row lets it. */
  lemma EnabledIs(t: Table, task: Task, w: World, i: nat)
    requires TableOk(t) && w.workflow.Some? && Fits(t, w) && i < |t| && t[i].name == task.channel
    ensures Enabled(t, task, w) <==>
      if w.workflowPref.Some? then w.workflowPref.value[i]
      else w.workflow.value.defaults[i] && (w.globalPref.Some? ==> w.globalPref.value[i])
  {
    Preferences.EnabledExact(t, task.channel, w.workflowPref, w.globalPref, w.workflow.value.defaults, i);
  }

  /** What a run of a workflow delivery decides, and when. Nothing is sent once the limit or
      the preferences stop it; a failing run has sent nothing, so running it again is safe. */
  lemma WorkflowRunMeaning(p: Policy, t: Table, task: Task, w: World, exceeded: bool)
    requires Fits(t, w) && !task.transactional
    requires w.subscriber.Some? && w.notification && w.workflow.Some?
    ensures var r, steps := RunOf(p, t, task, w, exceeded), w.workflow.value.steps;
      var allowed := !exceeded && Enabled(t, task, w);
      var live := 0 <= task.step < |steps|;
      && (r.verdict == Write(Skipped) <==> !allowed)
      && (r.verdict == Write(Sent) <==>
        && allowed && live
        && (if task.channel == "in_app" then true
            else if task.channel == "push" then w.push.Some? && PushReaches(w)
            else w.primary == Found(true) && w.accepts))
      && (r.verdict == Write(Failed) <==>
        && allowed && task.channel != "in_app"
        && (if task.channel == "push" then
              w.push.Some? && (("fcm" !in w.push.value && "apns" !in w.push.value) || (live && !PushReaches(w)))
            else
              || w.primary.Absent?
              || (w.primary == Found(true) && live && !w.accepts && (task.attempt >= p.retries || !w.marshals))))
      && (r.verdict == Retry <==>
        && allowed && live && task.channel != "push" && task.channel != "in_app"
        && w.primary == Found(true) && !w.accepts && task.attempt < p.retries && w.marshals)
      && (r.verdict == Error(true) <==>
        && allowed && !live
        && (if task.channel == "in_app" then true
            else if task.channel == "push" then w.push.Some? && ("fcm" in w.push.value || "apns" in w.push.value)
            else w.primary == Found(true)))
      && !r.verdict.Delivered?
  {
  }

  /** The messages of a run: the ones to its tokens for a push, one to the address the step has
      now otherwise, and none in-app or where the run stops earlier. */
  lemma MessagesMeaning(p: Policy, t: Table, task: Task, w: World, exceeded: bool)
    requires Fits(t, w) && !task.transactional
    requires w.subscriber.Some? && w.notification && w.workflow.Some?
    ensures var r, steps, c := RunOf(p, t, task, w, exceeded), w.workflow.value.steps, w.subscriber.value;
      r.messages ==
        (if exceeded || !Enabled(t, task, w) || !(0 <= task.step < |steps|) || task.channel == "in_app" then []
        else if task.channel == "push" && w.push.None? then []
        else if task.channel == "push" then
          (if "fcm" in w.push.value && w.fcmUsable
              then seq(|c.fcm|, i requires 0 <= i < |c.fcm| => Message("fcm", c.fcm[i])) else [])
          + (if "apns" in w.push.value && w.apnsUsable
              then seq(|c.apns|, i requires 0 <= i < |c.apns| => Message("apns", c.apns[i])) else [])
        else if w.primary != Found(true) then []
        else [Message("primary",
          match steps[task.step].kind
          case "email" => c.email
          case "sms" => c.phone
          case "slack" => c.slack
          case "ms_teams" => c.msTeams
          case "telegram" => c.telegram
          case _ => "")])
  {
    if w.push.Some? {
      PushMessagesAre(w);
    }
  }

  lemma PushMessagesAre(w: World)
    requires w.subscriber.Some? && w.push.Some?
    ensures var c := w.subscriber.value;
      PushMessages(w) ==
      (if "fcm" in w.push.value && w.fcmUsable
          then seq(|c.fcm|, i requires 0 <= i < |c.fcm| => Message("fcm", c.fcm[i])) else [])
      + (if "apns" in w.push.value && w.apnsUsable
          then seq(|c.apns|, i requires 0 <= i < |c.apns| => Message("apns", c.apns[i])) else [])
  {
    var c := w.subscriber.value;
    assert ToTokens("fcm", c.fcm) == seq(|c.fcm|, i requires 0 <= i < |c.fcm| => Message("fcm", c.fcm[i]));
    assert ToTokens("apns", c.apns) == seq(|c.apns|, i requires 0 <= i < |c.apns| => Message("apns", c.apns[i]));
  }

  /** A push is sent exactly when the reply for some token of some usable provider accepts. */
  lemma PushReachesIff(w: World)
    requires w.subscriber.Some? && w.push.Some?
    ensures PushReaches(w) <==>
      || ("fcm" in w.push.value && w.fcmUsable
          && exists i :: 0 <= i < |w.subscriber.value.fcm| && i < |w.fcmAccepts| && w.fcmAccepts[i])
      || ("apns" in w.push.value && w.apnsUsable
          && exists i :: 0 <= i < |w.subscriber.value.apns| && i < |w.apnsAccepts| && w.apnsAccepts[i])
  {
    if i: nat :| i < |w.subscriber.value.fcm| && i < |w.fcmAccepts| && w.fcmAccepts[i] {
      assert Accepted(w.fcmAccepts, i);
    }
    if i: nat :| i < |w.subscriber.value.apns| && i < |w.apnsAccepts| && w.apnsAccepts[i] {
      assert Accepted(w.apnsAccepts, i);
    }
  }

  /** A run whose lookups fail has done nothing and is run again; no run that errs has sent
      anything, so running it again is safe. */
  lemma ErringRunsSendNothing(p: Policy, t: Table, task: Task, w: World, exceeded: bool)
    requires Fits(t, w) && !task.transactional
    ensures w.subscriber.None? || !w.notification || w.workflow.None? ==>
      RunOf(p, t, task, w, exceeded) == Run(Error(false), [])
    ensures RunOf(p, t, task, w, exceeded).verdict.Error? ==> RunOf(p, t, task, w, exceeded).messages == []
  {
  }

  /** Where a channel reaches a subscriber. */
  lemma AddressesAre(c: Contact, channel: string)
    ensures Address(c, "email") == c.email && Address(c, "sms") == c.phone && Address(c, "slack") == c.slack
    ensures Address(c, "ms_teams") == c.msTeams && Address(c, "telegram") == c.telegram
    ensures channel !in {"email", "sms", "slack", "ms_teams", "telegram"} ==> Address(c, channel) == ""
  {
  }

  /** A template send has no status: it is delivered, retried, or fails, and what fails is
      run again exactly when nothing can have been sent and trying again could help. */
  lemma TransactionalRunMeaning(p: Policy, t: Table, task: Task, w: World, exceeded: bool)
    requires Fits(t, w) && task.transactional
    ensures var r := RunOf(p, t, task, w, exceeded);
      var sends := w.subscriber.Some? && Address(w.subscriber.value, task.channel) != "" && w.primary == Found(true);
      && r.messages == (if sends then [Message("primary", Address(w.subscriber.value, task.channel))] else [])
      && !r.verdict.Write?
      && (r.verdict.Delivered? <==> sends && w.accepts)
      && (r.verdict == Retry <==> sends && !w.accepts && task.attempt < p.retries && w.marshals)
      && (r.verdict == Error(false) <==>
        || w.subscriber.None?
        || (Address(w.subscriber.value, task.channel) != "" && (w.primary.Broken? || w.primary == Found(false))))
  {
  }

  // ---------------------------------------------------------------------------------
  // The handler
  // ---------------------------------------------------------------------------------

  datatype Scheduled = Scheduled(task: Task, delay: nat)

  /** The answer of the rate-limit check; a store that fails lets the delivery pass. */
  function Exceeded(cfg: RateLimits.Config, records: RateLimits.Records, key: RateLimits.Key, w: World): bool {
    w.limiter && !RateLimits.Do(cfg, records, RateLimits.Call(key, w.now)).1
  }

  class DeliveryHandler {
    var rows: map<nat, seq<Row>>
    var queue: seq<Scheduled>
    var messages: seq<Message>
    const limits: RateLimits.RateLimitStore
    const cfg: RateLimits.Config
    const policy: Policy

    constructor (policy: Policy, cfg: RateLimits.Config, limits: RateLimits.RateLimitStore)
      ensures this.policy == policy && this.cfg == cfg && this.limits == limits
      ensures rows == map[] && queue == [] && messages == []
    {
      this.policy, this.cfg, this.limits := policy, cfg, limits;
      rows, queue, messages := map[], [], [];
    }

    method UpdateChannelStatus(notif: nat, channel: string, status: Status, written: bool)
      modifies this`rows
      ensures rows == Marked(old(rows), notif, channel, status, written)
      ensures rows.Keys == old(rows).Keys && forall n :: n in rows && n != notif ==> rows[n] == old(rows)[n]
      ensures written && notif in rows ==> FirstRowSet(old(rows)[notif], rows[notif], channel, status)
      ensures !written ==> rows == old(rows)
    {
      if notif in rows { SetStatusFirst(rows[notif], channel, status); }
      if written && notif in rows {
        rows := rows[notif := SetStatus(rows[notif], channel, status)];
      }
    }

    /** Schedules the next attempt, if one remains. A failed enqueue goes unnoticed. */
    method ScheduleRetry(task: Task, w: World) returns (ok: bool)
      modifies this`queue
      ensures ok <==> task.attempt < policy.retries && w.marshals
      ensures queue == old(queue) + if ok && w.enqueues
        then [Scheduled(task.(attempt := task.attempt + 1), Backoff(policy, task.attempt + 1))] else []
    {
      var next, backoff, more := NextRetryDelay(policy, task.attempt);
      if !more || !w.marshals {
        return false;
      }
      if w.enqueues {
        queue := queue + [Scheduled(task.(attempt := next), backoff)];
      }
      return true;
    }

    method ProcessTransactional(task: Task, w: World) returns (v: Verdict)
      requires w.subscriber.Some? && task.transactional
      modifies this
      ensures v == RunTransactional(policy, task, w).verdict && rows == old(rows)
      ensures messages == old(messages) + RunTransactional(policy, task, w).messages
      ensures queue == Queued(policy, old(queue), task, v, w)
    {
      var address := Address(w.subscriber.value, task.channel);
      if address == "" || w.primary.Absent? {
        return Error(true);
      }
      if w.primary.Broken? || !w.primary.usable {
        return Error(false);
      }
      messages := messages + [Message("primary", address)];
      if w.accepts {
        return Delivered;
      }
      var ok := ScheduleRetry(task, w);
      return if ok then Retry else Error(true);
    }

    /** Sends to every token, going on after a rejection. */
    method SendToTokens(provider: string, tokens: seq<string>, replies: seq<bool>) returns (any: bool)
      modifies this`messages
      ensures messages == old(messages) + ToTokens(provider, tokens)
      ensures any <==> exists i :: 0 <= i < |tokens| && Accepted(replies, i)
    {
      any := false;
      for i := 0 to |tokens|
        invariant messages == old(messages) + ToTokens(provider, tokens)[..i]
        invariant any <==> exists j :: 0 <= j < i && Accepted(replies, j)
      {
        messages := messages + [Message(provider, tokens[i])];
        if Accepted(replies, i) {
          any := true;
        }
      }
    }

    method DeliverPush(task: Task, w: World) returns (v: Verdict)
      requires w.subscriber.Some? && w.workflow.Some?
      modifies this
      ensures v == RunPush(task, w).verdict && queue == old(queue)
      ensures messages == old(messages) + RunPush(task, w).messages
      ensures rows == MarkedBy(old(rows), task.notif, "push", v, w)
    {
      if w.push.None? {
        return Error(false);
      }
      var fcm, apns := false, false;
      for i := 0 to |w.push.value|
        invariant fcm <==> "fcm" in w.push.value[..i]
        invariant apns <==> "apns" in w.push.value[..i]
      {
        if w.push.value[i] == "fcm" {
          fcm := true;
        } else if w.push.value[i] == "apns" {
          apns := true;
        }
      }
      assert w.push.value[..|w.push.value|] == w.push.value;
      if !fcm && !apns {
        UpdateChannelStatus(task.notif, "push", Failed, w.written);
        return Write(Failed);
      }
      if StepOf(w, task).None? {
        return Error(true);
      }
      var anySent := false;
      if fcm && |w.subscriber.value.fcm| > 0 && w.fcmUsable {
        anySent := SendToTokens("fcm", w.subscriber.value.fcm, w.fcmAccepts);
      }
      if apns && |w.subscriber.value.apns| > 0 && w.apnsUsable {
        var any := SendToTokens("apns", w.subscriber.value.apns, w.apnsAccepts);
        anySent := anySent || any;
      }
      v := Write(if anySent then Sent else Failed);
      UpdateChannelStatus(task.notif, "push", v.status, w.written);
    }

    method DeliverInApp(task: Task, w: World) returns (v: Verdict)
      requires w.workflow.Some?
      modifies this`rows
      ensures v == if StepOf(w, task).None? then Error(true) else Write(Sent)
      ensures rows == MarkedBy(old(rows), task.notif, "in_app", v, w)
      ensures forall n :: n in rows && n != task.notif ==> n in old(rows) && rows[n] == old(rows)[n]
      ensures
        v.Write? && w.written && task.notif in rows
        && (exists r :: r in rows[task.notif] && r.channel == "in_app") ==>
        DeliveredInApp(rows[task.notif])
    {
      if task.notif in rows { SentIsDelivered(rows[task.notif]); }
      if StepOf(w, task).None? {
        return Error(true);
      }
      UpdateChannelStatus(task.notif, "in_app", Sent, w.written);
      return Write(Sent);
    }

    method DeliverPrimary(task: Task, w: World) returns (v: Verdict)
      requires w.subscriber.Some? && w.workflow.Some? && !task.transactional
      modifies this
      ensures v == RunPrimary(policy, task, w).verdict
      ensures messages == old(messages) + RunPrimary(policy, task, w).messages
      ensures rows == MarkedBy(old(rows), task.notif, task.channel, v, w)
      ensures queue == Queued(policy, old(queue), task, v, w)
    {
      if w.primary.Absent? {
        UpdateChannelStatus(task.notif, task.channel, Failed, w.written);
        return Write(Failed);
      }
      if w.primary.Broken? || !w.primary.usable {
        return Error(false);
      }
      var step := StepOf(w, task);
      if step.None? {
        return Error(true);
      }
      messages := messages + [Message("primary", Address(w.subscriber.value, step.value.kind))];
      if !w.accepts {
        var ok := ScheduleRetry(task, w);
        if ok {
          return Retry;
        }
        UpdateChannelStatus(task.notif, task.channel, Failed, w.written);
        return Write(Failed);
      }
      UpdateChannelStatus(task.notif, task.channel, Sent, w.written);
      return Write(Sent);
    }

    /** A run does exactly what RunOf says: the messages it names, the one status write or
        the one retry, and nothing else; the limiter counts it only once its lookups hold. */
    method ProcessTask(t: Table, task: Task, w: World) returns (v: Verdict)
      requires TableOk(t) && Fits(t, w)
      modifies this, limits
      ensures var r := RunOf(policy, t, task, w, Exceeded(cfg, old(limits.records), task.key, w));
        && v == r.verdict
        && messages == old(messages) + r.messages
        && rows == MarkedBy(old(rows), task.notif, task.channel, v, w)
        && queue == Queued(policy, old(queue), task, v, w)
      ensures rows.Keys == old(rows).Keys && forall n :: n in rows && (n != task.notif || !v.Write? || !w.written) ==>
        rows[n] == old(rows)[n]
      ensures v.Write? && w.written && task.notif in rows ==>
        FirstRowSet(old(rows)[task.notif], rows[task.notif], task.channel, v.status)
      ensures queue == old(queue) + if v.Retry? && w.enqueues
        then [Scheduled(task.(attempt := task.attempt + 1), policy.base * Power(policy.mult, task.attempt + 1))] else []
      ensures limits.records ==
        if !task.transactional && Reached(w) && w.limiter
            then RateLimits.Do(cfg, old(limits.records), RateLimits.Call(task.key, w.now)).0
        else old(limits.records)
    {
      MarkedIs(rows, task.notif, task.channel, w);
      hide Enabled, RateLimits.Do, SetStatus, FirstRowSet;
      if w.subscriber.None? {
        return Error(false);
      }
      if task.transactional {
        v := ProcessTransactional(task, w);
        return;
      }
      if !w.notification || w.workflow.None? {
        return Error(false);
      }
      var exceeded := false;
      if w.limiter {
        exceeded := limits.CheckRateLimit(cfg, task.key, w.now);
      }
      if exceeded {
        UpdateChannelStatus(task.notif, task.channel, Skipped, w.written);
        return Write(Skipped);
      }
      if !Enabled(t, task, w) {
        UpdateChannelStatus(task.notif, task.channel, Skipped, w.written);
        return Write(Skipped);
      }
      if task.channel == "in_app" {
        v := DeliverInApp(task, w);
      } else if task.channel == "push" {
        v := DeliverPush(task, w);
      } else {
        v := DeliverPrimary(task, w);
      }
    }
  }

  /** The first row of a channel, if any, has the status, and nothing else has changed. */
  ghost predicate FirstRowSet(before: seq<Row>, after: seq<Row>, channel: string, status: Status) {
    && |after| == |before|
    && forall i :: 0 <= i < |before| ==>
         after[i] == if before[i].channel == channel && forall j :: 0 <= j < i ==> before[j].channel != channel
                     then Row(channel, status) else before[i]
  }

  lemma SetStatusFirst(rows: seq<Row>, channel: string, status: Status)
    ensures FirstRowSet(rows, SetStatus(rows, channel, status), channel, status)
  {
    forall i | 0 <= i < |rows| && rows[i].channel == channel
      ensures SetStatus(rows, channel, status)[i] ==
        if forall j :: 0 <= j < i ==> rows[j].channel != channel then Row(channel, status) else rows[i]
    {
      if j: nat :| j < i && rows[j].channel == channel {
        RepeatedChannelWritesFirstRow(rows, j, i, status);
      } else {
        FirstRowIsWritten(rows, i, status);
      }
    }
  }

  /** Marking an in-app row sent puts the notification into the feed. */
  lemma SentIsDelivered(rows: seq<Row>)
    ensures (exists r :: r in rows && r.channel == "in_app") ==> DeliveredInApp(SetStatus(rows, "in_app", Sent))
  {
    if r :| r in rows && r.channel == "in_app" {
      var i := SentAt(rows, r);
    }
  }

  lemma {:induction false} SentAt(rows: seq<Row>, r: Row) returns (i: nat)
    requires r in rows && r.channel == "in_app"
    ensures i < |SetStatus(rows, "in_app", Sent)| && SetStatus(rows, "in_app", Sent)[i] == Row("in_app", Sent)
  {
    if rows[0].channel == "in_app" {
      i := 0;
    } else {
      assert r in rows[1..];
      var j := SentAt(rows[1..], r);
      i := j + 1;
    }
  }

  function Marked(rows: map<nat, seq<Row>>, notif: nat, channel: string, status: Status,
                  written: bool): map<nat, seq<Row>> {
    if written && notif in rows then rows[notif := SetStatus(rows[notif], channel, status)] else rows
  }

  /** The rows a verdict leaves. */
  function MarkedBy(rows: map<nat, seq<Row>>, notif: nat, channel: string, v: Verdict, w: World): map<nat, seq<Row>> {
    if v.Write? then Marked(rows, notif, channel, v.status, w.written) else rows
  }

  lemma MarkedIs(rows: map<nat, seq<Row>>, notif: nat, channel: string, w: World)
    ensures forall v: Verdict :: MarkedBy(rows, notif, channel, v, w).Keys == rows.Keys
    ensures forall v: Verdict, n :: n in rows && (n != notif || !v.Write? || !w.written) ==>
      MarkedBy(rows, notif, channel, v, w)[n] == rows[n]
    ensures forall v: Verdict :: v.Write? && w.written && notif in rows ==>
      FirstRowSet(rows[notif], MarkedBy(rows, notif, channel, v, w)[notif], channel, v.status)
  {
    hide SetStatus;
    if notif in rows {
      forall v: Verdict | v.Write?
        ensures FirstRowSet(rows[notif], SetStatus(rows[notif], channel, v.status), channel, v.status) {
        SetStatusFirst(rows[notif], channel, v.status);
      }
    }
  }

  /** The queue a verdict leaves. */
  function Queued(p: Policy, queue: seq<Scheduled>, task: Task, v: Verdict, w: World): seq<Scheduled> {
    if v.Retry? && w.enqueues then queue + [Scheduled(task.(attempt := task.attempt + 1), Backoff(p, task.attempt + 1))]
    else queue
  }

  // ---------------------------------------------------------------------------------
  // A chain of runs
  // ---------------------------------------------------------------------------------

  /** One delivery over all its runs: the task still to run, how many messages went out,
      the waits between attempts and the statuses written. */
  datatype Chain = Chain(task: Option<Task>, messages: nat, waits: seq<nat>, statuses: seq<Status>)

  /** What a run meets: the answers of the outside and of the rate limiter, and whether the
      queue archives the task should this run fail (its re-runs are used up). */
  datatype Meeting = Meeting(w: World, exceeded: bool, last: bool)

  ghost predicate AllFit(t: Table, ms: seq<Meeting>) {
    forall i :: 0 <= i < |ms| ==> Fits(t, ms[i].w)
  }

  ghost function Advance(p: Policy, t: Table, c: Chain, m: Meeting): Chain
    requires Fits(t, m.w)
  {
    if c.task.None? then c
    else
      var task, r := c.task.value, RunOf(p, t, c.task.value, m.w, m.exceeded);
      var sent := c.messages + |r.messages|;
      match r.verdict
      case Error(dead) => Chain(if dead || m.last then None else c.task, sent, c.waits, c.statuses)
      case Write(status) => Chain(None, sent, c.waits, if m.w.written then c.statuses + [status] else c.statuses)
      case Delivered => Chain(None, sent, c.waits, c.statuses)
      case Retry =>
        if m.w.enqueues then
          Chain(Some(task.(attempt := task.attempt + 1)), sent, c.waits + [Backoff(p, task.attempt + 1)], c.statuses)
        else Chain(None, sent, c.waits, c.statuses)
  }

  /** The runs of a fresh delivery. */
  ghost function ChainOf(p: Policy, t: Table, task: Task, ms: seq<Meeting>): Chain
    requires AllFit(t, ms)
  {
    if ms == [] then Chain(Some(task), 0, [], [])
    else Advance(p, t, ChainOf(p, t, task, ms[..|ms| - 1]), ms[|ms| - 1])
  }

  /** While a chain is alive, its attempt counts its messages and its waits. */
  ghost predicate OnTrack(p: Policy, task: Task, c: Chain) {
    && c.waits == Waits(p, |c.waits|) && |c.waits| <= p.retries
    && |c.statuses| <= 1
    && (c.task.Some? ==>
      c.statuses == [] && c.messages == |c.waits| && c.task.value == task.(attempt := |c.waits|))
    && (c.task.None? ==> |c.waits| <= c.messages <= |c.waits| + 1)
  }

  lemma AdvanceKeepsTrack(p: Policy, t: Table, task: Task, c: Chain, m: Meeting)
    requires Fits(t, m.w) && task.attempt == 0 && task.channel != "push" && OnTrack(p, task, c)
    ensures OnTrack(p, task, Advance(p, t, c, m))
  {
    hide Enabled, Backoff;
    if c.task.Some? && RunOf(p, t, c.task.value, m.w, m.exceeded).verdict.Retry? {
      assert Waits(p, |c.waits| + 1) == c.waits + [Backoff(p, |c.waits| + 1)];
    }
  }

  /** A single-provider delivery sends at most retries + 1 messages, however often its runs
      fail and are repeated; it waits base * mult^k before its k-th retry, writes at most
      one status, and its total wait has a closed form. */
  lemma {:induction false} ChainIsBounded(p: Policy, t: Table, task: Task, ms: seq<Meeting>)
    requires AllFit(t, ms) && task.attempt == 0 && task.channel != "push"
    ensures var c := ChainOf(p, t, task, ms);
      && OnTrack(p, task, c)
      && c.messages <= p.retries + 1
      && |c.statuses| <= 1
      && (forall k :: 0 <= k < |c.waits| ==> c.waits[k] == p.base * Power(p.mult, k + 1))
      && (p.mult - 1) * Sum(c.waits) == p.base * (Power(p.mult, |c.waits| + 1) - p.mult)
  {
    hide Advance, Power;
    if ms == [] {
      NoWaits(p, task);
    } else {
      ChainIsBounded(p, t, task, ms[..|ms| - 1]);
      AdvanceKeepsTrack(p, t, task, ChainOf(p, t, task, ms[..|ms| - 1]), ms[|ms| - 1]);
    }
    TotalWait(p, |ChainOf(p, t, task, ms).waits|);
  }

  lemma NoWaits(p: Policy, task: Task)
    requires task.attempt == 0
    ensures OnTrack(p, task, Chain(Some(task), 0, [], []))
  {
  }

  /** The limit and the preferences let the delivery through. */
  ghost predicate Allowed(t: Table, task: Task, m: Meeting)
    requires Fits(t, m.w)
  {
    Reached(m.w) && !m.exceeded && Enabled(t, task, m.w)
  }

  /** A run in which everything works but the provider. */
  ghost predicate OnlyRejected(t: Table, task: Task, m: Meeting)
    requires Fits(t, m.w)
  {
    && Allowed(t, task, m) && 0 <= task.step < |m.w.workflow.value.steps|
    && m.w.primary == Found(true) && !m.w.accepts && m.w.marshals && m.w.enqueues && m.w.written
  }

  /** A provider that keeps rejecting gets exactly retries + 1 messages, and then the
      delivery has failed: the bound is reached and no attempt is lost. */
  lemma {:induction false} GivesUpAfterLastRetry(p: Policy, t: Table, task: Task, ms: seq<Meeting>)
    requires AllFit(t, ms) && task.attempt == 0 && !task.transactional
    requires task.channel != "push" && task.channel != "in_app" && |ms| <= p.retries + 1
    requires forall i :: 0 <= i < |ms| ==> OnlyRejected(t, task, ms[i])
    ensures var c := ChainOf(p, t, task, ms);
      && c.messages == |ms|
      && (|ms| <= p.retries ==> c.task == Some(task.(attempt := |ms|)) && |c.waits| == |ms| && c.statuses == [])
      && (|ms| == p.retries + 1 ==> c.task.None? && |c.waits| == p.retries && c.statuses == [Failed])
  {
    hide Backoff;
    if ms != [] {
      GivesUpAfterLastRetry(p, t, task, ms[..|ms| - 1]);
      assert OnlyRejected(t, task, ms[|ms| - 1]);
    }
  }

  /** With the shipped constants: 4 messages at most, and 42 minutes of waiting. */
  lemma ShippedPolicy(t: Table, task: Task, ms: seq<Meeting>)
    requires AllFit(t, ms) && task.attempt == 0 && task.channel != "push"
    ensures var c := ChainOf(POLICY, t, task, ms);
      c.messages <= 4 && Sum(c.waits) <= 42 * 60 * 1000 && (|c.waits| == 3 ==> Sum(c.waits) == 42 * 60 * 1000)
  {
    ChainIsBounded(POLICY, t, task, ms);
    PowersOfFour(|ChainOf(POLICY, t, task, ms).waits|);
  }

  /** With the shipped constants, a provider that keeps rejecting gets four messages, two, eight
      and 32 minutes apart; then the delivery has failed. */
  lemma ShippedRejections(t: Table, task: Task, ms: seq<Meeting>)
    requires AllFit(t, ms) && task.attempt == 0 && !task.transactional
    requires task.channel != "push" && task.channel != "in_app" && |ms| == 4
    requires forall i :: 0 <= i < |ms| ==> OnlyRejected(t, task, ms[i])
    ensures var c := ChainOf(POLICY, t, task, ms);
      c.task.None? && c.messages == 4 && c.statuses == [Failed] && c.waits == [120_000, 480_000, 1_920_000]
  {
    hide OnlyRejected;
    GivesUpAfterLastRetry(POLICY, t, task, ms);
    ChainIsBounded(POLICY, t, task, ms);
    var c := ChainOf(POLICY, t, task, ms);
    assert Power(4, 1) == 4 && Power(4, 2) == 16 && Power(4, 3) == 64;
    assert c.waits[0] == 30_000 * Power(4, 1) && c.waits[1] == 30_000 * Power(4, 2)
        && c.waits[2] == 30_000 * Power(4, 3);
  }

  lemma PowersOfFour(n: nat)
    requires n <= 3
    ensures Power(4, n + 1) <= 256 && (n == 3 ==> Power(4, n + 1) == 256)
  {
    assert Power(4, 1) == 4 && Power(4, 2) == 16 && Power(4, 3) == 64 && Power(4, 4) == 256;
  }

  // ---------------------------------------------------------------------------------
  // Recorded outcomes
  // ---------------------------------------------------------------------------------

  /** The provider rejects, an attempt is left, and its enqueue fails unnoticed. */
  ghost predicate LosesRetry(p: Policy, t: Table, task: Task, m: Meeting)
    requires Fits(t, m.w)
  {
    && Allowed(t, task, m) && task.channel != "in_app" && task.channel != "push"
    && m.w.primary == Found(true) && 0 <= task.step < |m.w.workflow.value.steps| && !m.w.accepts
    && task.attempt < p.retries && m.w.marshals && !m.w.enqueues
  }

  /** The step index has gone stale and the channel is otherwise ready: the task is
      dead-lettered. */
  ghost predicate DeadLetters(t: Table, task: Task, m: Meeting)
    requires Fits(t, m.w)
  {
    && Allowed(t, task, m) && !(0 <= task.step < |m.w.workflow.value.steps|)
    && (if task.channel == "in_app" then true
        else if task.channel == "push" then m.w.push.Some? && ("fcm" in m.w.push.value || "apns" in m.w.push.value)
        else m.w.primary == Found(true))
  }

  /** The run decides a status: it is stopped by the limit or the preferences, the channel
      has no integration, or the channel's last word is spoken. */
  ghost predicate Decides(p: Policy, t: Table, task: Task, m: Meeting)
    requires Fits(t, m.w)
  {
    && Reached(m.w)
    && (if !Allowed(t, task, m) then true
        else if task.channel == "in_app" then 0 <= task.step < |m.w.workflow.value.steps|
        else if task.channel == "push" then
          m.w.push.Some? && (("fcm" !in m.w.push.value && "apns" !in m.w.push.value)
              || 0 <= task.step < |m.w.workflow.value.steps|)
        else
          || m.w.primary.Absent?
          || (m.w.primary == Found(true) && 0 <= task.step < |m.w.workflow.value.steps|
              && (m.w.accepts || task.attempt >= p.retries || !m.w.marshals)))
  }

  /** A status is decided and its write fails unnoticed. */
  ghost predicate LosesWrite(p: Policy, t: Table, task: Task, m: Meeting)
    requires Fits(t, m.w)
  {
    Decides(p, t, task, m) && !m.w.written
  }

  /** A lookup fails, or no provider can be built, for the last time the queue tries. */
  ghost predicate Archives(t: Table, task: Task, m: Meeting)
    requires Fits(t, m.w)
  {
    && m.last
    && (|| !Reached(m.w)
        || (&& Allowed(t, task, m) && task.channel != "in_app"
            && (if task.channel == "push" then m.w.push.None?
                else m.w.primary.Broken? || m.w.primary == Found(false))))
  }

  /** The run of a live chain after which nothing remains: no task and no status. */
  ghost predicate Unrecorded(p: Policy, t: Table, c: Chain, m: Meeting)
    requires Fits(t, m.w)
  {
    && c.task.Some?
    && (|| LosesRetry(p, t, c.task.value, m)
        || DeadLetters(t, c.task.value, m)
        || LosesWrite(p, t, c.task.value, m)
        || Archives(t, c.task.value, m))
  }

  /** A workflow delivery ends without a recorded status in exactly four ways: a lost retry,
      a stale step index, a lost status write, a task archived after failing too often. */
  lemma EndsUnrecordedIff(p: Policy, t: Table, c: Chain, m: Meeting)
    requires Fits(t, m.w) && c.task.Some? && !c.task.value.transactional && c.statuses == []
    ensures var d := Advance(p, t, c, m);
      (d.task.None? && d.statuses == [] <==> Unrecorded(p, t, c, m)) && |d.statuses| <= 1
    ensures var d := Advance(p, t, c, m);
      d.task.Some? ==> d.statuses == [] && !d.task.value.transactional
  {
    hide Enabled, Backoff;
  }

  /** No run of the chain lost the outcome. */
  ghost predicate NothingLost(p: Policy, t: Table, task: Task, ms: seq<Meeting>)
    requires AllFit(t, ms)
  {
    forall i :: 0 <= i < |ms| ==> !Unrecorded(p, t, ChainOf(p, t, task, ms[..i]), ms[i])
  }

  lemma NothingLostSnoc(p: Policy, t: Table, task: Task, ms: seq<Meeting>)
    requires AllFit(t, ms) && ms != []
    ensures var n := |ms| - 1;
      NothingLost(p, t, task, ms) ==
        (NothingLost(p, t, task, ms[..n]) && !Unrecorded(p, t, ChainOf(p, t, task, ms[..n]), ms[n]))
  {
    hide ChainOf, Unrecorded;
    var n := |ms| - 1;
    assert forall i :: 0 <= i < n ==> ms[..n][..i] == ms[..i] && ms[..n][i] == ms[i];
  }

  /** Over every chain of runs of a workflow delivery: once it has ended, its status row has
      been written exactly once if and only if no run lost the outcome; until then nothing
      has been written or lost. */
  lemma {:induction false} RecordedOnceIff(p: Policy, t: Table, task: Task, ms: seq<Meeting>)
    requires AllFit(t, ms) && !task.transactional
    ensures var c := ChainOf(p, t, task, ms);
      && |c.statuses| <= 1
      && (c.task.None? ==> (|c.statuses| == 1 <==> NothingLost(p, t, task, ms)))
      && (c.task.Some? ==> c.statuses == [] && !c.task.value.transactional && NothingLost(p, t, task, ms))
  {
    hide Advance, LosesRetry, DeadLetters, LosesWrite, Archives, NothingLost;
    if ms == [] {
      NothingLostYet(p, t, task, ms);
    } else {
      var n := |ms| - 1;
      RecordedOnceIff(p, t, task, ms[..n]);
      NothingLostSnoc(p, t, task, ms);
      var c := ChainOf(p, t, task, ms[..n]);
      if c.task.Some? {
        EndsUnrecordedIff(p, t, c, ms[n]);
      } else {
        EndedStays(p, t, c, ms[n]);
      }
    }
  }

  lemma NothingLostYet(p: Policy, t: Table, task: Task, ms: seq<Meeting>)
    requires ms == [] && AllFit(t, ms)
    ensures NothingLost(p, t, task, ms)
  {
  }

  lemma EndedStays(p: Policy, t: Table, c: Chain, m: Meeting)
    requires Fits(t, m.w) && c.task.None?
    ensures Advance(p, t, c, m) == c
  {
  }
}
