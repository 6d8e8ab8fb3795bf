/** The fixed-window rate limiter: one counter per subscriber, channel and aligned window,
    with records that a TTL sweep may remove once they have expired. */
module RateLimits {
  /** Whose deliveries are counted. */
  datatype Key = Key(env: nat, sub: nat, channel: string)

  type Width = w: int | 0 < w witness 1

  /** A channel's limit: the window length and how many deliveries pass in one window. */
  datatype Limit = Limit(w: Width, most: int)

  /** The channels that have a limit; the others are never checked. */
  type Config = map<string, Limit>

  datatype Slot = Slot(key: Key, start: int)
  datatype Record = Record(count: nat, expireAt: int)
  type Records = map<Slot, Record>

  /** The aligned window an instant falls in. */
  function WindowStart(now: int, w: Width): (start: int)
    ensures start <= now < start + w
  {
    now - now % w
  }

  /** Where windows start. */
  predicate Boundary(start: int, w: Width) {
    WindowStart(start, w) == start
  }

  lemma Times(a: int, b: int, w: Width)
    requires a <= b
    ensures a * w <= b * w
  {
    assert (b - a) * w >= 0;
  }

  lemma WindowNumber(now: int, w: Width, k: int)
    requires k * w <= now < (k + 1) * w
    ensures WindowStart(now, w) == k * w
  {
    var q := now / w;
    assert now == q * w + now % w;
    assert (q + 1) * w == q * w + w;
    if q < k {
      Times(q + 1, k, w);
    } else if q > k {
      Times(k + 1, q, w);
    }
  }

  /** Exactly the instants of a window have it as their window, and the next boundary is
      one window further. */
  lemma OneWindow(now: int, w: Width, start: int)
    requires Boundary(start, w)
    ensures start <= now < start + w <==> WindowStart(now, w) == start
    ensures Boundary(start + w, w)
  {
    var k := start / w;
    assert start == k * w && (k + 1) * w == start + w && (k + 2) * w == start + w + w by {
      assert (k + 1) * w == k * w + w && (k + 2) * w == k * w + w + w;
    }
    if start <= now < start + w {
      WindowNumber(now, w, k);
    }
    WindowNumber(start + w, w, k + 1);
  }

  lemma StartsAtBoundary(now: int, w: Width)
    ensures Boundary(WindowStart(now, w), w)
  {
    var q := now / w;
    assert now == q * w + now % w;
    assert (q + 1) * w == q * w + w;
    WindowNumber(q * w, w, q);
  }

  /** The slot a call counts against. */
  function SlotAt(key: Key, now: int, limit: Limit): Slot {
    Slot(key, WindowStart(now, limit.w))
  }

  /** The counter after one more call; a new record lives for two windows. */
  function Incremented(records: Records, slot: Slot, limit: Limit): Record {
    if slot in records then records[slot].(count := records[slot].count + 1)
    else Record(1, slot.start + 2 * limit.w)
  }

  class RateLimitStore {
    var records: Records

    constructor ()
      ensures records == map[]
    {
      records := map[];
    }

    method IncrementAndCheck(slot: Slot, limit: Limit) returns (exceeded: bool)
      modifies this
      ensures records == old(records)[slot := Incremented(old(records), slot, limit)]
      ensures exceeded <==> records[slot].count > limit.most
    {
      if slot !in records {
        records := records[slot := Record(0, slot.start + 2 * limit.w)];
      }
      records := records[slot := records[slot].(count := records[slot].count + 1)];
      exceeded := records[slot].count > limit.most;
    }

    /** The check a delivery makes: an unlimited channel passes without touching a counter. */
    method CheckRateLimit(cfg: Config, key: Key, now: int) returns (exceeded: bool)
      modifies this
      ensures (records, !exceeded) == Do(cfg, old(records), Call(key, now))
      ensures key.channel !in cfg ==> !exceeded && records == old(records)
    {
      exceeded := false;
      if key.channel in cfg {
        var limit := cfg[key.channel];
        exceeded := IncrementAndCheck(Slot(key, WindowStart(now, limit.w)), limit);
      }
    }

    /** A TTL sweep removes some of the expired records. */
    method Expire(gone: set<Slot>, now: int)
      modifies this
      ensures records == Swept(old(records), gone, now)
      ensures forall slot :: slot in records ==> slot in old(records) && records[slot] == old(records)[slot]
      ensures forall slot :: slot in old(records) && (old(records)[slot].expireAt > now || slot !in gone) ==>
        slot in records
      ensures forall slot :: slot in gone && slot in old(records) && old(records)[slot].expireAt <= now ==>
        slot !in records
    {
      records := map slot | slot in records && !(slot in gone && records[slot].expireAt <= now) :: records[slot];
    }
  }

  // ---------------------------------------------------------------------------------
  // Runs
  // ---------------------------------------------------------------------------------

  datatype Event =
    | Call(key: Key, now: int)
    | Sweep(gone: set<Slot>, now: int)

  function Swept(records: Records, gone: set<Slot>, now: int): Records {
    map slot | slot in records && !(slot in gone && records[slot].expireAt <= now) :: records[slot]
  }

  /** One event: the records it leaves, and whether it is a call that passes. */
  function Do(cfg: Config, records: Records, e: Event): (Records, bool) {
    match e
    case Sweep(gone, now) => (Swept(records, gone, now), false)
    case Call(key, now) =>
      if key.channel !in cfg then (records, true)
      else
        var limit := cfg[key.channel];
        var slot := SlotAt(key, now, limit);
        var record := Incremented(records, slot, limit);
        (records[slot := record], record.count <= limit.most)
  }

  function Run(cfg: Config, trace: seq<Event>): Records {
    if trace == [] then map[] else Do(cfg, Run(cfg, trace[..|trace| - 1]), trace[|trace| - 1]).0
  }

  /** Does the last call of a run pass? */
  predicate LastPasses(cfg: Config, trace: seq<Event>)
    requires trace != []
  {
    Do(cfg, Run(cfg, trace[..|trace| - 1]), trace[|trace| - 1]).1
  }

  ghost predicate Ordered(trace: seq<Event>) {
    forall i, j :: 0 <= i < j < |trace| ==> trace[i].now <= trace[j].now
  }

  /** A call of a key in the time span [from, till). */
  predicate CallDuring(e: Event, key: Key, from: int, till: int) {
    e.Call? && e.key == key && from <= e.now < till
  }

  /** The calls of a key in a time span. */
  function Calls(trace: seq<Event>, key: Key, from: int, till: int): nat {
    if trace == [] then 0
    else
      Calls(trace[..|trace| - 1], key, from, till)
      + (if CallDuring(trace[|trace| - 1], key, from, till) then 1 else 0)
  }

  /** The ones that passed. */
  function Passes(cfg: Config, trace: seq<Event>, key: Key, from: int, till: int): nat {
    if trace == [] then 0
    else
      var passed := CallDuring(trace[|trace| - 1], key, from, till) && LastPasses(cfg, trace);
      Passes(cfg, trace[..|trace| - 1], key, from, till) + if passed then 1 else 0
  }

  /** A counter tells the truth about its window: it holds the calls made in the window, and
      it is missing only before the first of them or once two windows have gone by. */
  ghost predicate Accurate(cfg: Config, trace: seq<Event>, slot: Slot)
    requires slot.key.channel in cfg
  {
    var limit, records := cfg[slot.key.channel], Run(cfg, trace);
    var calls := Calls(trace, slot.key, slot.start, slot.start + limit.w);
    && (slot in records ==> records[slot] == Record(calls, slot.start + 2 * limit.w))
    && (slot !in records && calls > 0 ==> slot.start + 2 * limit.w <= trace[|trace| - 1].now)
  }

  /** TTL expiry never resets a counter still in its window: counters are accurate after
      every run in which time does not go back. */
  lemma {:induction false} CountersAreAccurate(cfg: Config, trace: seq<Event>, slot: Slot)
    requires slot.key.channel in cfg && Boundary(slot.start, cfg[slot.key.channel].w) && Ordered(trace)
    ensures Accurate(cfg, trace, slot)
  {
    if trace != [] {
      var before, e := trace[..|trace| - 1], trace[|trace| - 1];
      CountersAreAccurate(cfg, before, slot);
      if e.Call? && e.key == slot.key {
        OneWindow(e.now, cfg[slot.key.channel].w, slot.start);
      }
    }
  }

  function Least(a: int, b: int): int { if a < b then a else b }

  /** How many deliveries a limit lets through in a window; a negative one lets none. */
  function Quota(limit: Limit): nat { if limit.most < 0 then 0 else limit.most }

  /** Each aligned window passes exactly the first calls up to the limit. */
  lemma {:induction false} WindowPasses(cfg: Config, trace: seq<Event>, slot: Slot)
    requires slot.key.channel in cfg && Boundary(slot.start, cfg[slot.key.channel].w) && Ordered(trace)
    ensures var limit := cfg[slot.key.channel];
      Passes(cfg, trace, slot.key, slot.start, slot.start + limit.w)
        == Least(Calls(trace, slot.key, slot.start, slot.start + limit.w), Quota(limit))
  {
    if trace != [] {
      var before, e := trace[..|trace| - 1], trace[|trace| - 1];
      WindowPasses(cfg, before, slot);
      CountersAreAccurate(cfg, before, slot);
      if e.Call? && e.key == slot.key {
        OneWindow(e.now, cfg[slot.key.channel].w, slot.start);
      }
    }
  }

  /** A span of one window's length meets at most two aligned windows. */
  lemma {:induction false} SpanMeetsTwo(cfg: Config, trace: seq<Event>, key: Key, from: int, start: int, w: Width)
    requires start <= from < start + w
    ensures Passes(cfg, trace, key, from, from + w)
      <= Passes(cfg, trace, key, start, start + w) + Passes(cfg, trace, key, start + w, start + w + w)
  {
    hide LastPasses;
    if trace != [] {
      SpanMeetsTwo(cfg, trace[..|trace| - 1], key, from, start, w);
    }
  }

  /** Any span of one window's length, aligned or not, passes at most twice the limit. */
  lemma AnySpanPassesAtMostTwice(cfg: Config, trace: seq<Event>, key: Key, from: int)
    requires key.channel in cfg && Ordered(trace)
    ensures Passes(cfg, trace, key, from, from + cfg[key.channel].w) <= 2 * Quota(cfg[key.channel])
  {
    hide WindowStart, Boundary, Passes;
    var w := cfg[key.channel].w;
    var start := WindowStart(from, w);
    StartsAtBoundary(from, w);
    OneWindow(from, w, start);
    SpanMeetsTwo(cfg, trace, key, from, start, w);
    WindowPasses(cfg, trace, Slot(key, start));
    WindowPasses(cfg, trace, Slot(key, start + w));
  }

  // ---------------------------------------------------------------------------------
  // Twice the limit is reached
  // ---------------------------------------------------------------------------------

  /** n calls at one instant, then n at another. */
  function Bursts(key: Key, n: nat, first: int, second: int): seq<Event> {
    seq(n, _ => Call(key, first)) + seq(n, _ => Call(key, second))
  }

  lemma {:induction false} CallsOfBurst(before: seq<Event>, key: Key, n: nat, at: int, from: int, till: int)
    ensures Calls(before + seq(n, _ => Call(key, at)), key, from, till)
      == Calls(before, key, from, till) + if from <= at < till then n else 0
  {
    var trace := before + seq(n, _ => Call(key, at));
    if n == 0 {
      assert trace == before;
    } else {
      CallsOfBurst(before, key, n - 1, at, from, till);
      assert trace[..|trace| - 1] == before + seq(n - 1, _ => Call(key, at));
    }
  }

  lemma {:induction false} SpanHoldsBoth(cfg: Config, trace: seq<Event>, key: Key, w: Width)
    requires forall i :: 0 <= i < |trace| ==> w - 1 <= trace[i].now <= w
    ensures Passes(cfg, trace, key, w - 1, w - 1 + w) >= Passes(cfg, trace, key, 0, w)
      + Passes(cfg, trace, key, w, w + w)
      || w == 1
  {
    hide LastPasses;
    if trace != [] {
      var before := trace[..|trace| - 1];
      assert forall i :: 0 <= i < |before| ==> before[i] == trace[i];
      SpanHoldsBoth(cfg, before, key, w);
    }
  }

  lemma StartsAtZero(w: Width)
    ensures Boundary(0, w) && Boundary(w, w)
  {
    WindowNumber(0, w, 0);
    OneWindow(0, w, 0);
  }

  lemma NoCalls(key: Key, from: int, till: int)
    ensures Calls([], key, from, till) == 0
  {
  }

  /** The bound is reached: calls on either side of a boundary pass twice the limit within
      one window's length, for every limit and every window longer than one tick. */
  lemma TwiceIsReached(cfg: Config, key: Key)
    requires key.channel in cfg && cfg[key.channel].w > 1
    ensures var limit := cfg[key.channel];
      var trace := Bursts(key, Quota(limit), limit.w - 1, limit.w);
      Ordered(trace) && Passes(cfg, trace, key, limit.w - 1, limit.w - 1 + limit.w) == 2 * Quota(limit)
  {
    hide WindowStart, Boundary, Passes, Calls;
    var limit := cfg[key.channel];
    var n, w := Quota(limit), limit.w;
    var first, second := seq(n, _ => Call(key, w - 1)), seq(n, _ => Call(key, w));
    var trace := Bursts(key, n, w - 1, w);
    assert trace == first + second && [] + first == first;
    assert Calls([], key, 0, w) == 0 && Calls([], key, w, w + w) == 0 by { NoCalls(key, 0, w); NoCalls(key, w, w + w); }
    CallsOfBurst([], key, n, w - 1, 0, w);
    CallsOfBurst(first, key, n, w, 0, w);
    CallsOfBurst([], key, n, w - 1, w, w + w);
    CallsOfBurst(first, key, n, w, w, w + w);
    StartsAtZero(w);
    WindowPasses(cfg, trace, Slot(key, 0));
    WindowPasses(cfg, trace, Slot(key, w));
    SpanHoldsBoth(cfg, trace, key, w);
    AnySpanPassesAtMostTwice(cfg, trace, key, w - 1);
  }
}
