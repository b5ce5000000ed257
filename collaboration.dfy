/** The server's collaboration requests: an ADMIN asks to join another ADMIN's
    board; the owner accepts (the requester joins the board as a member) or
    rejects. The database becomes three in-memory collections; a request's id
    is its position in `requests`, which is also its creation order. */
module Collaboration {
  import opened Common

  const Admin: string := "ADMIN"

  datatype Status = Pending | Accepted | Rejected
  datatype User = User(name: string, email: string, role: string)
  datatype Participant = Participant(user: string, role: string)
  datatype Board = Board(title: string, owner: string, members: seq<string>, participants: seq<Participant>)
  datatype Request = Request(board: string, requester: string, boardOwner: string, message: string, status: Status)

  /** An HTTP answer: status code and the `message` of its JSON body. */
  datatype Reply = Reply(status: int, message: string)

  const OnlyAdmins := Reply(403, "Only ADMIN users can send collaboration requests")
  const BoardNotFound := Reply(404, "Board not found")
  const OwnerNotAdmin := Reply(400, "Can only collaborate with ADMIN-owned boards")
  const OwnBoard := Reply(400, "Cannot collaborate on your own board")
  const AlreadyMember := Reply(400, "You are already a member of this board")
  const AlreadyPending := Reply(400, "Collaboration request already pending")
  const SendFailed := Reply(500, "Failed to send collaboration request")
  const Sent := Reply(201, "Collaboration request sent")

  const RequestNotFound := Reply(404, "Collaboration request not found")
  const AlreadyProcessed := Reply(400, "Request already processed")
  const NotOwnerAccept := Reply(403, "Only board owner can accept collaboration requests")
  const NotOwnerReject := Reply(403, "Only board owner can reject collaboration requests")
  const AcceptFailed := Reply(500, "Failed to accept request")
  const RejectFailed := Reply(500, "Failed to reject request")
  const AcceptedReply := Reply(200, "Collaboration request accepted")
  const RejectedReply := Reply(200, "Collaboration request rejected")

  /** Some request from `requester` on `board` is still pending. */
  predicate HasPending(rs: seq<Request>, board: string, requester: string) {
    exists i :: 0 <= i < |rs| && rs[i].board == board && rs[i].requester == requester && rs[i].status == Pending
  }

  /** No two pending requests share a board and a requester. */
  predicate PendingUnique(rs: seq<Request>) {
    forall i, j :: 0 <= i < j < |rs| && rs[i].status == Pending && rs[j].status == Pending ==>
      rs[i].board != rs[j].board || rs[i].requester != rs[j].requester
  }

  /** The guards of `sendCollaborationRequest`, in the order they are tried: the
      first that fails decides the answer; `None` lets the request through. An
      owner whose user record is gone makes the role check throw (500). */
  function SendRefusal(users: map<string, User>, boards: map<string, Board>, rs: seq<Request>,
                       boardId: string, requesterId: string, requesterRole: string): (r: Option<Reply>)
    ensures r.None? <==>
      && requesterRole == Admin && boardId in boards
      && boards[boardId].owner in users && users[boards[boardId].owner].role == Admin
      && boards[boardId].owner != requesterId
      && requesterId !in boards[boardId].members
      && !HasPending(rs, boardId, requesterId)
    // Each guard decides the answer when every earlier one passes.
    ensures requesterRole != Admin ==> r == Some(OnlyAdmins)
    ensures requesterRole == Admin && boardId !in boards ==> r == Some(BoardNotFound)
    ensures requesterRole == Admin && boardId in boards && boards[boardId].owner !in users ==>
      r == Some(SendFailed)
    ensures requesterRole == Admin && boardId in boards && boards[boardId].owner in users ==>
      && (users[boards[boardId].owner].role != Admin ==> r == Some(OwnerNotAdmin))
      && (users[boards[boardId].owner].role == Admin ==>
          && (boards[boardId].owner == requesterId ==> r == Some(OwnBoard))
          && (boards[boardId].owner != requesterId ==>
              && (requesterId in boards[boardId].members ==> r == Some(AlreadyMember))
              && (requesterId !in boards[boardId].members ==>
                  (HasPending(rs, boardId, requesterId) ==> r == Some(AlreadyPending)))))
    ensures r.Some? ==> r.value.status in {400, 403, 404, 500}
  {
    if requesterRole != Admin then Some(OnlyAdmins)
    else if boardId !in boards then Some(BoardNotFound)
    else
      var board := boards[boardId];
      if board.owner !in users then Some(SendFailed)
      else if users[board.owner].role != Admin then Some(OwnerNotAdmin)
      else if board.owner == requesterId then Some(OwnBoard)
      else if requesterId in board.members then Some(AlreadyMember)
      else if HasPending(rs, boardId, requesterId) then Some(AlreadyPending)
      else None
  }

  /** A request let through by the guards keeps pending requests unique. */
  lemma SendKeepsPendingUnique(rs: seq<Request>, q: Request)
    requires PendingUnique(rs)
    requires !HasPending(rs, q.board, q.requester)
    ensures PendingUnique(rs + [q])
  {
  }

  /** Sending the same request again, once the first went through, is refused as already pending. */
  lemma SendTwiceRefused(users: map<string, User>, boards: map<string, Board>, rs: seq<Request>,
                         boardId: string, requesterId: string, role: string, message: string)
    requires SendRefusal(users, boards, rs, boardId, requesterId, role).None?
    ensures var q := Request(boardId, requesterId, boards[boardId].owner, message, Pending);
      SendRefusal(users, boards, rs + [q], boardId, requesterId, role) == Some(AlreadyPending)
  {
    var q := Request(boardId, requesterId, boards[boardId].owner, message, Pending);
    assert (rs + [q])[|rs|] == q;
  }

  /** A decision on another request leaves pending requests unique. */
  lemma DecideKeepsPendingUnique(rs: seq<Request>, i: nat, s: Status)
    requires PendingUnique(rs) && i < |rs| && s != Pending
    ensures PendingUnique(rs[i := rs[i].(status := s)])
  {
  }

  /** The guards shared by accept and reject, in order: an unknown request (404);
      a request whose board is gone makes the lookup throw (500); a caller who does
      not own the board (403); a request no longer pending (400). */
  function DecideRefusal(boards: map<string, Board>, rs: seq<Request>, requestId: nat, userId: string,
                         accept: bool): (r: Option<Reply>)
    ensures r.None? <==>
      requestId < |rs| && rs[requestId].board in boards
      && boards[rs[requestId].board].owner == userId && rs[requestId].status == Pending
    // Each guard decides the answer when every earlier one passes.
    ensures requestId >= |rs| ==> r == Some(RequestNotFound)
    ensures requestId < |rs| && rs[requestId].board !in boards ==>
      r == Some(if accept then AcceptFailed else RejectFailed)
    ensures requestId < |rs| && rs[requestId].board in boards && boards[rs[requestId].board].owner != userId ==>
      r == Some(if accept then NotOwnerAccept else NotOwnerReject)
    ensures requestId < |rs| && rs[requestId].board in boards && boards[rs[requestId].board].owner == userId
            && rs[requestId].status != Pending ==>
      r == Some(AlreadyProcessed)
    ensures r == Some(AlreadyProcessed) ==> requestId < |rs| && rs[requestId].status != Pending
  {
    if requestId >= |rs| then Some(RequestNotFound)
    else if rs[requestId].board !in boards then Some(if accept then AcceptFailed else RejectFailed)
    else if boards[rs[requestId].board].owner != userId then Some(if accept then NotOwnerAccept else NotOwnerReject)
    else if rs[requestId].status != Pending then Some(AlreadyProcessed)
    else None
  }

  /** No repeated entry. */
  predicate NoDuplicates(s: seq<string>) {
    forall i, j :: 0 <= i < j < |s| ==> s[i] != s[j]
  }

  /** No user holds two participant entries. */
  predicate UniqueParticipants(ps: seq<Participant>) {
    forall i, j :: 0 <= i < j < |ps| ==> ps[i].user != ps[j].user
  }

  predicate IsParticipant(ps: seq<Participant>, user: string) {
    exists i :: 0 <= i < |ps| && ps[i].user == user
  }

  /** Appends the user to the members unless already there. */
  function AddMember(members: seq<string>, user: string): (r: seq<string>)
    ensures user in r
    ensures members <= r
    ensures user in members ==> r == members
    ensures user !in members ==> r == members + [user]
    ensures NoDuplicates(members) ==> NoDuplicates(r)
  {
    if user in members then members else members + [user]
  }

  /** Appends a participant entry with the "member" role unless the user already has one. */
  function AddParticipant(ps: seq<Participant>, user: string): (r: seq<Participant>)
    ensures IsParticipant(r, user)
    ensures ps <= r
    ensures IsParticipant(ps, user) ==> r == ps
    ensures !IsParticipant(ps, user) ==> r == ps + [Participant(user, "member")]
    ensures UniqueParticipants(ps) ==> UniqueParticipants(r)
  {
    if IsParticipant(ps, user) then ps
    else
      var r := ps + [Participant(user, "member")];
      assert r[|ps|].user == user;
      r
  }

  /** What accepting does to the board: the requester joins as member and participant. */
  function Join(b: Board, user: string): (r: Board)
    ensures r.title == b.title && r.owner == b.owner
    ensures r.members == AddMember(b.members, user) && r.participants == AddParticipant(b.participants, user)
  {
    b.(members := AddMember(b.members, user), participants := AddParticipant(b.participants, user))
  }

  /** Joining twice is joining once. */
  lemma JoinIdempotent(b: Board, user: string)
    ensures Join(Join(b, user), user) == Join(b, user)
  {
  }

  /** The ids of the requests `keep` selects among the first `n`, newest (highest id) first. */
  function NewestFirst(rs: seq<Request>, keep: Request -> bool, n: nat): (r: seq<nat>)
    requires n <= |rs|
    ensures forall k :: 0 <= k < |r| ==> r[k] < n && keep(rs[r[k]])
    ensures forall i :: 0 <= i < n && keep(rs[i]) ==> i in r
    ensures forall a, b :: 0 <= a < b < |r| ==> r[a] > r[b]
  {
    if n == 0 then []
    else if keep(rs[n - 1]) then [n - 1] + NewestFirst(rs, keep, n - 1)
    else NewestFirst(rs, keep, n - 1)
  }

  /** A pending request on a board `userId` owns. */
  predicate Incoming(boards: map<string, Board>, q: Request, userId: string) {
    q.status == Pending && q.board in boards && boards[q.board].owner == userId
  }

  /** `getCollaborationRequests`: exactly the pending requests on the caller's boards, newest first. */
  function IncomingRequests(boards: map<string, Board>, rs: seq<Request>, userId: string): (r: seq<nat>)
    ensures forall k :: 0 <= k < |r| ==> r[k] < |rs| && Incoming(boards, rs[r[k]], userId)
    ensures forall i :: 0 <= i < |rs| && Incoming(boards, rs[i], userId) ==> i in r
    ensures forall a, b :: 0 <= a < b < |r| ==> r[a] > r[b]
  {
    NewestFirst(rs, (q: Request) => Incoming(boards, q, userId), |rs|)
  }

  /** `getSentCollaborationRequests`: every request the caller sent, in any status, newest first. */
  function SentRequests(rs: seq<Request>, userId: string): (r: seq<nat>)
    ensures forall k :: 0 <= k < |r| ==> r[k] < |rs| && rs[r[k]].requester == userId
    ensures forall i :: 0 <= i < |rs| && rs[i].requester == userId ==> i in r
    ensures forall a, b :: 0 <= a < b < |r| ==> r[a] > r[b]
  {
    NewestFirst(rs, (q: Request) => q.requester == userId, |rs|)
  }

  class RequestStore {
    var users: map<string, User>
    var boards: map<string, Board>
    var requests: seq<Request>

    ghost predicate Valid()
      reads this
    {
      PendingUnique(requests)
    }

    constructor (users0: map<string, User>, boards0: map<string, Board>)
      ensures Valid()
      ensures users == users0 && boards == boards0 && requests == []
    {
      users, boards, requests := users0, boards0, [];
    }

    /** `sendCollaborationRequest`: a refused request changes nothing; otherwise it is
        stored as pending with the board's owner. Looking up the requester's name
        afterwards throws when the user record is gone (500), but the request stays. */
    method Send(boardId: string, requesterId: string, requesterRole: string, message: string) returns (reply: Reply)
      requires Valid()
      modifies this`requests
      ensures Valid()
      ensures var refusal := SendRefusal(users, boards, old(requests), boardId, requesterId, requesterRole);
        && (refusal.Some? ==> reply == refusal.value && requests == old(requests))
        && (refusal.None? ==>
              && requests == old(requests) + [Request(boardId, requesterId, boards[boardId].owner, message, Pending)]
              && reply == (if requesterId in users then Sent else SendFailed))
    {
      var refusal := SendRefusal(users, boards, requests, boardId, requesterId, requesterRole);
      if refusal.Some? {
        return refusal.value;
      }
      var q := Request(boardId, requesterId, boards[boardId].owner, message, Pending);
      SendKeepsPendingUnique(requests, q);
      requests := requests + [q];
      reply := if requesterId in users then Sent else SendFailed;
    }

    /** `acceptCollaborationRequest`: after the guards, the status becomes accepted and is
        saved; then the requester joins the board. A missing requester record throws
        before the board is touched, a missing owner record throws after (both 500). */
    method Accept(requestId: nat, userId: string) returns (reply: Reply)
      requires Valid()
      modifies this`requests, this`boards
      ensures Valid()
      ensures |requests| == |old(requests)|
      ensures forall i :: 0 <= i < |requests| && old(requests)[i].status != Pending ==> requests[i] == old(requests)[i]
      ensures var refusal := DecideRefusal(old(boards), old(requests), requestId, userId, true);
        && (refusal.Some? ==> reply == refusal.value && requests == old(requests) && boards == old(boards))
        && (refusal.None? ==>
              var q := old(requests)[requestId];
              && requests == old(requests)[requestId := q.(status := Accepted)]
              && (q.requester !in users ==> boards == old(boards) && reply == AcceptFailed)
              && (q.requester in users ==>
                    && boards == old(boards)[q.board := Join(old(boards)[q.board], q.requester)]
                    && reply == (if q.boardOwner in users then AcceptedReply else AcceptFailed)))
    {
      var refusal := DecideRefusal(boards, requests, requestId, userId, true);
      if refusal.Some? {
        return refusal.value;
      }
      var q := requests[requestId];
      DecideKeepsPendingUnique(requests, requestId, Accepted);
      requests := requests[requestId := q.(status := Accepted)];
      if q.requester !in users {
        return AcceptFailed;
      }
      boards := boards[q.board := Join(boards[q.board], q.requester)];
      reply := if q.boardOwner in users then AcceptedReply else AcceptFailed;
    }

    /** `rejectCollaborationRequest`: after the same guards the status becomes rejected;
        the board is never written. The notification needs both the requester's and the
        owner's records (500 when either is gone, after the status is saved). */
    method Reject(requestId: nat, userId: string) returns (reply: Reply)
      requires Valid()
      modifies this`requests
      ensures Valid()
      ensures |requests| == |old(requests)|
      ensures forall i :: 0 <= i < |requests| && old(requests)[i].status != Pending ==> requests[i] == old(requests)[i]
      ensures var refusal := DecideRefusal(boards, old(requests), requestId, userId, false);
        && (refusal.Some? ==> reply == refusal.value && requests == old(requests))
        && (refusal.None? ==>
              var q := old(requests)[requestId];
              && requests == old(requests)[requestId := q.(status := Rejected)]
              && reply == (if q.requester in users && q.boardOwner in users then RejectedReply else RejectFailed))
    {
      var refusal := DecideRefusal(boards, requests, requestId, userId, false);
      if refusal.Some? {
        return refusal.value;
      }
      var q := requests[requestId];
      DecideKeepsPendingUnique(requests, requestId, Rejected);
      requests := requests[requestId := q.(status := Rejected)];
      reply := if q.requester in users && q.boardOwner in users then RejectedReply else RejectFailed;
    }
  }
}
