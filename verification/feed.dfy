/** The in-app feed: which notifications a subscriber is shown, how many of them are unseen,
    and what marking them does. */
module Feeds {
  import opened Common
  import opened Workflows

  type NoteId = nat
  type EnvId = nat
  type SubId = nat

  datatype Note = Note(env: EnvId, sub: SubId, seen: bool, read: bool, archived: bool, rows: seq<Row>)

  type Notes = map<NoteId, Note>

  predicate OwnedBy(notes: Notes, id: NoteId, env: EnvId, sub: SubId) {
    id in notes && notes[id].env == env && notes[id].sub == sub
  }

  // ---------------------------------------------------------------------------------
  // Queries
  // ---------------------------------------------------------------------------------

  datatype FeedFilter = FeedFilter(read: Option<bool>, seen: Option<bool>, archived: bool)

  /** The notifications a feed query selects. */
  ghost function Feed(notes: Notes, env: EnvId, sub: SubId, f: FeedFilter): set<NoteId> {
    set id | id in notes
      && OwnedBy(notes, id, env, sub) && DeliveredInApp(notes[id].rows)
      && (f.read.Some? ==> notes[id].read == f.read.value)
      && (f.seen.Some? ==> notes[id].seen == f.seen.value)
      && (!f.archived ==> !notes[id].archived)
  }

  /** The notifications behind the unseen badge. */
  ghost function Unseen(notes: Notes, env: EnvId, sub: SubId): set<NoteId> {
    set id | id in notes
      && OwnedBy(notes, id, env, sub) && !notes[id].seen && !notes[id].archived && DeliveredInApp(notes[id].rows)
  }

  /** A notification is in the feed of exactly its own subscriber in its own environment, once
      its in-app row went out, as far as the filter lets it through. */
  lemma InFeed(notes: Notes, id: NoteId, env: EnvId, sub: SubId, f: FeedFilter)
    requires id in notes
    ensures id in Feed(notes, env, sub, f) <==>
      && notes[id].env == env && notes[id].sub == sub
      && (exists row ::
          row in notes[id].rows && row.channel == "in_app" && (row.status == Sent || row.status == Confirmed))
      && (f.read == None || f.read == Some(notes[id].read))
      && (f.seen == None || f.seen == Some(notes[id].seen))
      && (f.archived || !notes[id].archived)
  {
    var rows := notes[id].rows;
    if row :| row in rows && row.channel == "in_app" && (row.status == Sent || row.status == Confirmed) {
      var i :| 0 <= i < |rows| && rows[i] == row;
    }
  }

  /** The badge counts what the feed shows as unseen. */
  lemma BadgeMatchesFeed(notes: Notes, env: EnvId, sub: SubId)
    ensures |Unseen(notes, env, sub)| == |Feed(notes, env, sub, FeedFilter(None, Some(false), false))|
  {
    assert Unseen(notes, env, sub) == Feed(notes, env, sub, FeedFilter(None, Some(false), false));
  }

  /** Seen and unseen notifications make up the feed. */
  lemma SeenAndUnseenMakeFeed(notes: Notes, env: EnvId, sub: SubId, f: FeedFilter)
    requires f.seen.None?
    ensures |Feed(notes, env, sub, f)|
      == |Feed(notes, env, sub, f.(seen := Some(true)))| + |Feed(notes, env, sub, f.(seen := Some(false)))|
  {
    var seen, unseen := Feed(notes, env, sub, f.(seen := Some(true))), Feed(notes, env, sub, f.(seen := Some(false)));
    assert Feed(notes, env, sub, f) == seen + unseen && seen !! unseen;
  }

  // ---------------------------------------------------------------------------------
  // Operations
  // ---------------------------------------------------------------------------------

  datatype Op =
    | Create(id: NoteId, env: EnvId, sub: SubId, steps: seq<Step>)
    | MarkSeen(env: EnvId, sub: SubId, id: NoteId)
    | MarkRead(env: EnvId, sub: SubId, id: NoteId)
    | MarkArchived(env: EnvId, sub: SubId, id: NoteId)
    | BulkMarkSeen(env: EnvId, sub: SubId, ids: seq<NoteId>)
    | BulkMarkRead(env: EnvId, sub: SubId, ids: seq<NoteId>)
    | UpdateChannelStatus(id: NoteId, channel: string, status: Status)
    | Expire(id: NoteId)

  function Listed(ids: seq<NoteId>): set<NoteId> {
    set i | 0 <= i < |ids| :: ids[i]
  }

  /** The listed notifications of one subscriber, changed. */
  function Marked(notes: Notes, ids: set<NoteId>, env: EnvId, sub: SubId, read: bool): Notes {
    map id | id in notes ::
      if id in ids && OwnedBy(notes, id, env, sub) then notes[id].(seen := true, read := read || notes[id].read)
      else notes[id]
  }

  function After(notes: Notes, op: Op): Notes {
    match op
    case Create(id, env, sub, steps) =>
      if id in notes then notes else notes[id := Note(env, sub, false, false, false, PendingRows(steps))]
    case MarkSeen(env, sub, id) => Marked(notes, {id}, env, sub, false)
    case MarkRead(env, sub, id) => Marked(notes, {id}, env, sub, true)
    case MarkArchived(env, sub, id) =>
      if OwnedBy(notes, id, env, sub) then notes[id := notes[id].(archived := true)] else notes
    case BulkMarkSeen(env, sub, ids) => Marked(notes, Listed(ids), env, sub, false)
    case BulkMarkRead(env, sub, ids) => Marked(notes, Listed(ids), env, sub, true)
    case UpdateChannelStatus(id, channel, status) =>
      if id in notes then notes[id := notes[id].(rows := SetStatus(notes[id].rows, channel, status))] else notes
    case Expire(id) => notes - {id}
  }

  class NotificationStore {
    var notes: Notes

    constructor ()
      ensures notes == map[]
    {
      notes := map[];
    }

    /** One matched document is changed; none matching is an error. */
    method MarkSeen(env: EnvId, sub: SubId, id: NoteId) returns (found: bool)
      modifies this
      ensures notes == After(old(notes), Op.MarkSeen(env, sub, id))
      ensures found <==> id in old(notes) && old(notes)[id].env == env && old(notes)[id].sub == sub
      ensures found ==> notes == old(notes)[id := old(notes)[id].(seen := true)]
      ensures !found ==> notes == old(notes)
    {
      found := OwnedBy(notes, id, env, sub);
      if found {
        notes := notes[id := notes[id].(seen := true)];
      }
    }

    method MarkRead(env: EnvId, sub: SubId, id: NoteId) returns (found: bool)
      modifies this
      ensures notes == After(old(notes), Op.MarkRead(env, sub, id))
      ensures found <==> id in old(notes) && old(notes)[id].env == env && old(notes)[id].sub == sub
      ensures found ==> notes == old(notes)[id := old(notes)[id].(seen := true, read := true)]
      ensures !found ==> notes == old(notes)
    {
      found := OwnedBy(notes, id, env, sub);
      if found {
        notes := notes[id := notes[id].(read := true, seen := true)];
      }
    }

    method MarkArchived(env: EnvId, sub: SubId, id: NoteId) returns (found: bool)
      modifies this
      ensures notes == After(old(notes), Op.MarkArchived(env, sub, id))
      ensures found <==> id in old(notes) && old(notes)[id].env == env && old(notes)[id].sub == sub
      ensures found ==> notes == old(notes)[id := old(notes)[id].(archived := true)]
      ensures !found ==> notes == old(notes)
      ensures forall f: FeedFilter | !f.archived :: Feed(notes, env, sub, f) == Feed(old(notes), env, sub, f) - {id}
      ensures forall f: FeedFilter | f.archived :: Feed(notes, env, sub, f) == Feed(old(notes), env, sub, f)
      ensures Unseen(notes, env, sub) == Unseen(old(notes), env, sub) - {id}
    {
      hide DeliveredInApp;
      found := OwnedBy(notes, id, env, sub);
      if found {
        notes := notes[id := notes[id].(archived := true)];
      }
    }

    /** A bulk mark lowers the subscriber's badge by exactly the number of distinct listed
        notifications that were on it. */
    method BulkMark(env: EnvId, sub: SubId, ids: seq<NoteId>, read: bool)
      modifies this
      ensures notes == After(old(notes), if read then BulkMarkRead(env, sub, ids) else BulkMarkSeen(env, sub, ids))
      ensures notes.Keys == old(notes).Keys && forall id :: id in notes ==>
        notes[id] == if id in ids && old(notes)[id].env == env && old(notes)[id].sub == sub
          then old(notes)[id].(seen := true, read := read || old(notes)[id].read) else old(notes)[id]
      ensures |Unseen(notes, env, sub)| == |Unseen(old(notes), env, sub)| - |Unseen(old(notes), env, sub) * Listed(ids)|
    {
      BulkMarkCounts(notes, env, sub, ids, read);
      notes := Marked(notes, Listed(ids), env, sub, read);
    }

    /** Touches no mark, no other notification and no other channel's rows; only the in-app
        channel can change what a feed holds, and only of this notification. */
    method UpdateChannelStatus(id: NoteId, channel: string, status: Status)
      modifies this
      ensures notes == After(old(notes), Op.UpdateChannelStatus(id, channel, status))
      ensures notes.Keys == old(notes).Keys && forall n :: n in notes ==>
        notes[n] == old(notes)[n].(rows := notes[n].rows)
      ensures forall n :: n in notes && n != id ==> notes[n] == old(notes)[n]
      ensures forall env, sub, f: FeedFilter ::
        FeedChange(old(notes), notes, env, sub, f) <= if channel == "in_app" then {id} else {}
    {
      hide DeliveredInApp, Feed, SetStatus;
      forall env, sub, f: FeedFilter
        ensures FeedChange(notes, After(notes, Op.UpdateChannelStatus(id, channel, status)), env, sub, f)
          <= if channel == "in_app" then {id} else {}
      {
        StatusChangesFeed(notes, id, channel, status, env, sub, f);
      }
      if id in notes {
        notes := notes[id := notes[id].(rows := SetStatus(notes[id].rows, channel, status))];
      }
    }
  }

  // ---------------------------------------------------------------------------------
  // The badge
  // ---------------------------------------------------------------------------------

  lemma Leave<T>(s: set<T>, gone: set<T>)
    ensures |s - gone| == |s| - |s * gone|
  {
    assert s == (s - gone) + (s * gone);
  }

  lemma BulkMarkCounts(notes: Notes, env: EnvId, sub: SubId, ids: seq<NoteId>, read: bool)
    ensures var after := After(notes, if read then BulkMarkRead(env, sub, ids) else BulkMarkSeen(env, sub, ids));
      |Unseen(after, env, sub)| == |Unseen(notes, env, sub)| - |Unseen(notes, env, sub) * Listed(ids)|
  {
    var after := After(notes, if read then BulkMarkRead(env, sub, ids) else BulkMarkSeen(env, sub, ids));
    assert Unseen(after, env, sub) == Unseen(notes, env, sub) - Listed(ids);
    Leave(Unseen(notes, env, sub), Listed(ids));
  }

  /** A bulk read moves exactly the listed ones of a subscriber's feed from its unread to its
      read part; a bulk seen leaves both alone. Either takes them out of the unseen part and
      changes no feed that does not filter. */
  lemma MarksMoveFeeds(notes: Notes, env: EnvId, sub: SubId, ids: seq<NoteId>, read: bool, f: FeedFilter)
    requires f.read == None && f.seen == None
    ensures var after := After(notes, if read then BulkMarkRead(env, sub, ids) else BulkMarkSeen(env, sub, ids));
      var listed, unread, isRead, unseen := (set id | id in ids), f.(read := Some(false)), f.(read := Some(true)),
          f.(seen := Some(false));
      && Feed(after, env, sub, f) == Feed(notes, env, sub, f)
      && Feed(after, env, sub, unread) == Feed(notes, env, sub, unread) - (if read then listed else {})
      && Feed(after, env, sub, isRead) == Feed(notes, env, sub, isRead)
          + (if read then Feed(notes, env, sub, f) * listed else {})
      && Feed(after, env, sub, unseen) == Feed(notes, env, sub, unseen) - listed
  {
    hide Feed, After;
    var after := After(notes, if read then BulkMarkRead(env, sub, ids) else BulkMarkSeen(env, sub, ids));
    var unread, isRead, unseen := f.(read := Some(false)), f.(read := Some(true)), f.(seen := Some(false));
    forall id
      ensures id in Feed(after, env, sub, f) <==> id in Feed(notes, env, sub, f)
      ensures id in Feed(after, env, sub, unread) <==> id in Feed(notes, env, sub, unread) && !(read && id in ids)
      ensures id in Feed(after, env, sub, isRead) <==>
        id in Feed(notes, env, sub, isRead) || (read && id in ids && id in Feed(notes, env, sub, f))
      ensures id in Feed(after, env, sub, unseen) <==> id in Feed(notes, env, sub, unseen) && id !in ids
    {
      MovesOne(notes, env, sub, ids, read, f, id);
    }
  }

  lemma MovesOne(notes: Notes, env: EnvId, sub: SubId, ids: seq<NoteId>, read: bool, f: FeedFilter, id: NoteId)
    requires f.read == None && f.seen == None
    ensures MovesAt(notes, After(notes, if read then BulkMarkRead(env, sub, ids) else BulkMarkSeen(env, sub, ids)),
                    env, sub, id in ids, read, f, id)
  {
    hide DeliveredInApp;
  }

  /** One notification across a bulk mark: whether it is listed, and where it is shown. */
  ghost predicate MovesAt(notes: Notes, after: Notes, env: EnvId, sub: SubId, listed: bool, read: bool, f: FeedFilter,
                          id: NoteId) {
    var unread, isRead, unseen := f.(read := Some(false)), f.(read := Some(true)), f.(seen := Some(false));
    && (id in Feed(after, env, sub, f) <==> id in Feed(notes, env, sub, f))
    && (id in Feed(after, env, sub, unread) <==> id in Feed(notes, env, sub, unread) && !(read && listed))
    && (id in Feed(after, env, sub, isRead) <==>
        id in Feed(notes, env, sub, isRead) || (read && listed && id in Feed(notes, env, sub, f)))
    && (id in Feed(after, env, sub, unseen) <==> id in Feed(notes, env, sub, unseen) && !listed)
  }

  lemma MarksLeaveOthers(notes: Notes, env: EnvId, sub: SubId, ids: seq<NoteId>, e: EnvId, other: SubId, f: FeedFilter)
    requires e != env || other != sub
    ensures Feed(After(notes, BulkMarkRead(env, sub, ids)), e, other, f) == Feed(notes, e, other, f)
    ensures Feed(After(notes, BulkMarkSeen(env, sub, ids)), e, other, f) == Feed(notes, e, other, f)
  {
    hide DeliveredInApp;
  }

  /** Whose badge an operation may change: the owner's for a mark or an archive, and that of
      the notification touched for the rest. */
  function Touches(notes: Notes, op: Op, env: EnvId, sub: SubId): set<NoteId> {
    match op
    case Create(id, _, _, _) => {}
    case MarkSeen(e, s, id) => if e == env && s == sub then {id} else {}
    case MarkRead(e, s, id) => if e == env && s == sub then {id} else {}
    case MarkArchived(e, s, id) => if e == env && s == sub then {id} else {}
    case BulkMarkSeen(e, s, ids) => if e == env && s == sub then Listed(ids) else {}
    case BulkMarkRead(e, s, ids) => if e == env && s == sub then Listed(ids) else {}
    case UpdateChannelStatus(id, _, _) => {id}
    case Expire(id) => {id}
  }

  /** Nothing joins the badge but a notification whose in-app row just went out, and nothing
      leaves it but what its owner marked or archived, what expired, or what a status write
      touched. No other subscriber's action changes it. */
  lemma BadgeChanges(notes: Notes, op: Op, env: EnvId, sub: SubId)
    ensures var before, after := Unseen(notes, env, sub), Unseen(After(notes, op), env, sub);
      && before - after <= Touches(notes, op, env, sub)
      && (after - before != {} ==> op.UpdateChannelStatus? && op.channel == "in_app" && after - before == {op.id})
      && ((op.MarkSeen? || op.MarkRead? || op.MarkArchived? || op.BulkMarkSeen? || op.BulkMarkRead?) ==>
        after == before - Touches(notes, op, env, sub))
  {
    hide DeliveredInApp;
    match op {
      case Create(id, e, s, steps) => PendingIsNotDelivered(steps);
      case UpdateChannelStatus(id, channel, status) =>
        if id in notes && channel != "in_app" { OtherRowsKeepDelivery(notes[id].rows, channel, status); }
      case MarkSeen(_, _, _) =>
      case MarkRead(_, _, _) =>
      case MarkArchived(_, _, _) =>
      case BulkMarkSeen(_, _, _) =>
      case BulkMarkRead(_, _, _) =>
      case Expire(_) =>
    }
  }

  /** What enters or leaves a feed from one store to another. */
  ghost function FeedChange(before: Notes, after: Notes, env: EnvId, sub: SubId, f: FeedFilter): set<NoteId> {
    (Feed(after, env, sub, f) - Feed(before, env, sub, f)) + (Feed(before, env, sub, f) - Feed(after, env, sub, f))
  }

  lemma StatusChangesFeed(notes: Notes, id: NoteId, channel: string, status: Status, env: EnvId, sub: SubId,
                          f: FeedFilter)
    ensures FeedChange(notes, After(notes, UpdateChannelStatus(id, channel, status)), env, sub, f)
      <= if channel == "in_app" then {id} else {}
  {
    hide DeliveredInApp, SetStatus;
    if id in notes && channel != "in_app" { OtherRowsKeepDelivery(notes[id].rows, channel, status); }
  }

  lemma PendingIsNotDelivered(steps: seq<Step>)
    ensures !DeliveredInApp(PendingRows(steps))
  {
    var rows := PendingRows(steps);
    forall i | 0 <= i < |rows| ensures rows[i].status.Pending? {
      assert rows[i] in rows;
    }
  }

  /** A new notification is unseen, unread and not archived, and is on nobody's badge yet. */
  lemma NewIsHidden(notes: Notes, id: NoteId, env: EnvId, sub: SubId, steps: seq<Step>, e: EnvId, other: SubId)
    requires id !in notes
    ensures var made := After(notes, Create(id, env, sub, steps));
      && made == notes[id := Note(env, sub, false, false, false, PendingRows(steps))]
      && id !in Unseen(made, e, other)
  {
    PendingIsNotDelivered(steps);
    hide DeliveredInApp, PendingRows;
  }

  /** Once its in-app row is sent, it is on its subscriber's badge and in the unread feed. */
  lemma {:induction false} SentJoinsBadge(notes: Notes, id: NoteId, env: EnvId, sub: SubId, steps: seq<Step>, i: nat)
    requires id in notes && notes[id] == Note(env, sub, false, false, false, PendingRows(steps))
    requires i < |steps| && steps[i].kind == "in_app"
    ensures var sent := After(notes, UpdateChannelStatus(id, "in_app", Sent));
      id in Unseen(sent, env, sub) && id in Feed(sent, env, sub, FeedFilter(Some(false), Some(false), false))
  {
    SentPendingShows(steps, i);
    hide DeliveredInApp, SetStatus, PendingRows, After;
    WrittenRow(notes, id, "in_app", Sent);
  }

  lemma WrittenRow(notes: Notes, id: NoteId, channel: string, status: Status)
    requires id in notes
    ensures After(notes, UpdateChannelStatus(id, channel, status))
      == notes[id := notes[id].(rows := SetStatus(notes[id].rows, channel, status))]
  {
  }

  lemma {:induction false} SentPendingShows(steps: seq<Step>, i: nat)
    requires i < |steps| && steps[i].kind == "in_app"
    ensures DeliveredInApp(SetStatus(PendingRows(steps), "in_app", Sent))
  {
    var rows := PendingRows(steps);
    assert Row("in_app", Pending) in rows;
    hide PendingRows, DeliveredInApp;
    var k: nat :| k < |rows| && rows[k] == Row("in_app", Pending);
    SentShows(rows, k);
  }

  lemma {:induction false} SentShows(rows: seq<Row>, k: nat)
    requires k < |rows| && rows[k].channel == "in_app"
    ensures DeliveredInApp(SetStatus(rows, "in_app", Sent))
  {
    if j: nat :| j < k && rows[j].channel == "in_app" {
      SentShows(rows, j);
    } else {
      FirstRowIsWritten(rows, k, Sent);
    }
  }

  lemma OtherRowsKeepDelivery(rows: seq<Row>, channel: string, status: Status)
    requires channel != "in_app"
    ensures DeliveredInApp(SetStatus(rows, channel, status)) == DeliveredInApp(rows)
  {
    var after := SetStatus(rows, channel, status);
    if DeliveredInApp(after) {
      var i :| 0 <= i < |after| && after[i].channel == "in_app"
          && (after[i].status.Sent? || after[i].status.Confirmed?);
      assert rows[i] == after[i];
    }
    if DeliveredInApp(rows) {
      var i :| 0 <= i < |rows| && rows[i].channel == "in_app" && (rows[i].status.Sent? || rows[i].status.Confirmed?);
      assert after[i] == rows[i];
    }
  }

  // ---------------------------------------------------------------------------------
  // Whole runs
  // ---------------------------------------------------------------------------------

  function Run(ops: seq<Op>): Notes {
    if ops == [] then map[] else After(Run(ops[..|ops| - 1]), ops[|ops| - 1])
  }

  lemma OneMore(ops: seq<Op>, op: Op)
    ensures Run(ops + [op]) == After(Run(ops), op)
  {
    assert (ops + [op])[..|ops|] == ops;
  }

  /** After any history, a notification that is created with an in-app step and whose in-app row
      is then sent is on its subscriber's badge and in the unread feed. */
  lemma DeliveredIsShown(ops: seq<Op>, id: NoteId, env: EnvId, sub: SubId, steps: seq<Step>, i: nat)
    requires id !in Run(ops) && i < |steps| && steps[i].kind == "in_app"
    ensures var notes := Run(ops + [Create(id, env, sub, steps)] + [UpdateChannelStatus(id, "in_app", Sent)]);
      id in Unseen(notes, env, sub) && id in Feed(notes, env, sub, FeedFilter(Some(false), Some(false), false))
  {
    var made := Create(id, env, sub, steps);
    OneMore(ops, made);
    OneMore(ops + [made], UpdateChannelStatus(id, "in_app", Sent));
    NewIsHidden(Run(ops), id, env, sub, steps, env, sub);
    hide Run, After, PendingRows;
    SentJoinsBadge(Run(ops + [made]), id, env, sub, steps, i);
  }

  /** In every reachable store a read notification is a seen one, so a query for read but
      unseen notifications is empty. */
  lemma {:induction false} ReadIsSeen(ops: seq<Op>, env: EnvId, sub: SubId, archived: bool)
    ensures forall id :: id in Run(ops) && Run(ops)[id].read ==> Run(ops)[id].seen
    ensures Feed(Run(ops), env, sub, FeedFilter(Some(true), Some(false), archived)) == {}
  {
    if ops != [] {
      ReadIsSeen(ops[..|ops| - 1], env, sub, archived);
    }
  }

  /** Seen, read and archived are never undone, for as long as a notification exists. */
  lemma {:induction false} MarksLast(ops: seq<Op>, more: seq<Op>, id: NoteId)
    requires id in Run(ops) && forall i :: 0 <= i < |more| ==> more[i] != Expire(id)
    ensures id in Run(ops + more)
    ensures var was, now := Run(ops)[id], Run(ops + more)[id];
      && now.env == was.env && now.sub == was.sub
      && (was.seen ==> now.seen) && (was.read ==> now.read) && (was.archived ==> now.archived)
  {
    if more == [] {
      assert ops + more == ops;
    } else {
      var n := |more| - 1;
      MarksLast(ops, more[..n], id);
      assert (ops + more)[..|ops + more| - 1] == ops + more[..n];
      MarksStay(Run(ops + more[..n]), more[n], id);
      hide After;
    }
  }

  lemma MarksStay(notes: Notes, op: Op, id: NoteId)
    requires id in notes && op != Expire(id)
    ensures id in After(notes, op)
    ensures var was, now := notes[id], After(notes, op)[id];
      && now.env == was.env && now.sub == was.sub
      && (was.seen ==> now.seen) && (was.read ==> now.read) && (was.archived ==> now.archived)
  {
    hide SetStatus, PendingRows;
  }

  /** Between two moments, the badge grows by in-app deliveries only: it is at most what it
      was plus the number of in-app status writes in between. */
  lemma {:induction false} BadgeIsBounded(ops: seq<Op>, more: seq<Op>, env: EnvId, sub: SubId)
    ensures |Unseen(Run(ops + more), env, sub)| <= |Unseen(Run(ops), env, sub)| + InAppWrites(more)
  {
    hide After, Unseen;
    if more == [] {
      assert ops + more == ops;
    } else {
      var n := |more| - 1;
      BadgeIsBounded(ops, more[..n], env, sub);
      assert (ops + more)[..|ops + more| - 1] == ops + more[..n];
      var before := Unseen(Run(ops + more[..n]), env, sub);
      var after := Unseen(Run(ops + more), env, sub);
      BadgeChanges(Run(ops + more[..n]), more[n], env, sub);
      GrowsBy(before, after);
    }
  }

  lemma GrowsBy<T>(before: set<T>, after: set<T>)
    ensures |after| <= |before| + |after - before|
  {
    assert after == (after - before) + (after * before);
    assert before == (after * before) + (before - after);
  }

  function InAppWrites(ops: seq<Op>): nat {
    if ops == [] then 0
    else
      var last := ops[|ops| - 1];
      InAppWrites(ops[..|ops| - 1]) + if last.UpdateChannelStatus? && last.channel == "in_app" then 1 else 0
  }
}
