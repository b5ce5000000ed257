/** The messages page: the list of notifications (entries may be null), the
    filter tabs, the read markers and the unread counter. */
module Inbox {
  import opened Common

  datatype Message = Message(id: string, kind: string, read: bool)

  /** The notification kinds the "requests" tab shows. */
  const RequestKinds: seq<string> := ["join_request", "request_accepted", "request_rejected",
                                      "collaboration_request", "collaboration_accepted", "collaboration_rejected"]

  /** The kinds that have a title of their own. */
  const TitledKinds: seq<string> := ["invitation", "join_request", "request_accepted", "request_rejected",
                                     "removed_from_board", "collaboration_request", "collaboration_accepted",
                                     "collaboration_rejected"]

  /** The tabs whose test reads a field of the entry, and so throws on a null entry. */
  predicate ReadsEntry(filter: string) {
    filter == "unread" || filter == "invitations" || filter == "requests"
  }

  /** The test `filteredMessages` applies to one entry (a null entry only reaches it
      on the tabs that do not read it). */
  predicate Shown(filter: string, m: Option<Message>) {
    if filter == "unread" then m.Some? && !m.value.read
    else if filter == "invitations" then m.Some? && m.value.kind == "invitation"
    else if filter == "requests" then m.Some? && m.value.kind in RequestKinds
    else true
  }

  /** `filteredMessages`: the entries the current tab shows, in list order; `None`
      when the tab's test reads a field of a null entry, which throws. */
  function FilterMessages(ms: seq<Option<Message>>, filter: string): (r: Option<seq<Option<Message>>>)
    ensures r.None? <==> ReadsEntry(filter) && None in ms
    ensures r.Some? ==> SubseqOf(r.value, ms)
    ensures r.Some? ==> forall m :: multiset(r.value)[m] == if Shown(filter, m) then multiset(ms)[m] else 0
    ensures !ReadsEntry(filter) ==> r == Some(ms)
    ensures filter == "unread" && r.Some? ==>
      forall m :: m in r.value <==> m in ms && m.Some? && !m.value.read
    ensures filter == "invitations" && r.Some? ==>
      forall m :: m in r.value <==> m in ms && m.Some? && m.value.kind == "invitation"
    ensures filter == "requests" && r.Some? ==>
      forall m :: m in r.value <==> m in ms && m.Some? && m.value.kind in RequestKinds
  {
    if ReadsEntry(filter) && None in ms then None
    else
      var keep := (m: Option<Message>) => Shown(filter, m);
      FilterIsSubseq(ms, keep);
      if !ReadsEntry(filter) then
        FilterKeepsAll(ms, keep);
        Some(Filter(ms, keep))
      else
        Some(Filter(ms, keep))
  }

  /** The list after `markAsRead(id)`: that id's entries read, everything else as it was. */
  function MarkRead(ms: seq<Option<Message>>, id: string): (r: seq<Option<Message>>)
    ensures |r| == |ms|
    ensures forall i :: 0 <= i < |ms| && ms[i].Some? && ms[i].value.id == id ==>
      r[i] == Some(ms[i].value.(read := true))
    ensures forall i :: 0 <= i < |ms| && !(ms[i].Some? && ms[i].value.id == id) ==> r[i] == ms[i]
  {
    seq(|ms|, i requires 0 <= i < |ms| =>
      if ms[i].Some? && ms[i].value.id == id then Some(ms[i].value.(read := true)) else ms[i])
  }

  /** The list after `markAllAsRead`: every non-null entry read. */
  function MarkAllRead(ms: seq<Option<Message>>): (r: seq<Option<Message>>)
    ensures |r| == |ms|
    ensures forall i :: 0 <= i < |ms| ==> r[i].Some? == ms[i].Some?
    ensures forall i :: 0 <= i < |ms| && ms[i].Some? ==> r[i] == Some(ms[i].value.(read := true))
  {
    seq(|ms|, i requires 0 <= i < |ms| => if ms[i].Some? then Some(ms[i].value.(read := true)) else ms[i])
  }

  /** After marking an id read, no entry with that id is unread; every other unread
      entry still is. */
  lemma MarkReadUnreadView(ms: seq<Option<Message>>, id: string)
    requires None !in ms
    ensures var r := FilterMessages(MarkRead(ms, id), "unread");
      && r.Some?
      && (forall m :: m in r.value ==> m.value.id != id)
      && (forall m :: m in ms && m.Some? && !m.value.read && m.value.id != id ==> m in r.value)
  {
  }

  /** Marking the same id read twice is marking it once. */
  lemma MarkReadIdempotent(ms: seq<Option<Message>>, id: string)
    ensures MarkRead(MarkRead(ms, id), id) == MarkRead(ms, id)
  {
  }

  /** After marking everything read the unread tab is empty; with a null entry it
      throws, as it did before. */
  lemma MarkAllReadEmptiesUnread(ms: seq<Option<Message>>)
    ensures FilterMessages(MarkAllRead(ms), "unread") ==
      if None in ms then None else Some([])
  {
  }

  /** `getMessageTitle`. */
  function MessageTitle(kind: string): (r: string)
    ensures kind in TitledKinds <==> r != "Notification"
  {
    match kind
    case "invitation" => "Board Invitation"
    case "join_request" => "Join Request"
    case "request_accepted" => "Request Accepted"
    case "request_rejected" => "Request Rejected"
    case "removed_from_board" => "Removed from Board"
    case "collaboration_request" => "Collaboration Request"
    case "collaboration_accepted" => "Collaboration Accepted"
    case "collaboration_rejected" => "Collaboration Rejected"
    case _ => "Notification"
  }

  /** Every kind the "requests" tab shows has a title of its own. */
  lemma RequestKindsTitled(kind: string)
    requires kind in RequestKinds
    ensures MessageTitle(kind) != "Notification"
  {
  }

  class MessageList {
    var messages: seq<Option<Message>>
    var unreadCount: int

    constructor (loaded: seq<Option<Message>>, count: int)
      ensures messages == loaded && unreadCount == count
    {
      messages, unreadCount := loaded, count;
    }

    /** `markAsRead`: without an id, without a token, or when the request fails
        nothing changes; otherwise the entry is marked and the counter drops by one
        but never below zero (even when no entry had that id). */
    method MarkAsRead(id: string, hasToken: bool, putOk: bool)
      modifies this
      ensures id == "" || !hasToken || !putOk ==> messages == old(messages) && unreadCount == old(unreadCount)
      ensures id != "" && hasToken && putOk ==>
        && messages == MarkRead(old(messages), id)
        && unreadCount == (if old(unreadCount) - 1 > 0 then old(unreadCount) - 1 else 0)
        && unreadCount >= 0
    {
      if id == "" || !hasToken || !putOk {
        return;
      }
      messages := MarkRead(messages, id);
      unreadCount := if unreadCount - 1 > 0 then unreadCount - 1 else 0;
    }

    /** `markAllAsRead`: unless there is no token or the request fails, every entry is
        marked and the counter is zero. */
    method MarkAllAsRead(hasToken: bool, putOk: bool)
      modifies this
      ensures !hasToken || !putOk ==> messages == old(messages) && unreadCount == old(unreadCount)
      ensures hasToken && putOk ==> messages == MarkAllRead(old(messages)) && unreadCount == 0
    {
      if !hasToken || !putOk {
        return;
      }
      messages := MarkAllRead(messages);
      unreadCount := 0;
    }
  }
}
