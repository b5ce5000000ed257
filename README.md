# Collaborative board: card workspace, collaboration requests, inbox

A Dafny model of three parts of a collaborative board application.

- **The card workspace.** This is a canvas of text, shape and image elements joined by connectors. It covers:
  - the geometry of dragging, resizing and anchoring elements on a 1600×1200 canvas;
  - the list updates applied for local edits and for events received on the card's socket room;
  - keeping uploaded images' inline data out of what is synced and saved (a local key→data cache restores it);
  - the connector tool;
  - how connectors are resolved against the live elements when drawn;
  - the debounced autosave.
- **The server's collaboration requests.** An ADMIN asks to join another ADMIN's board behind an ordered chain of guards. The owner accepts, which makes the requester a member and participant, or rejects. A request is pending until then, and accepted or rejected for good.
- **The messages page.** This covers the filter tabs, marking messages read, the unread counter and the titles of notification kinds.

Modules:
- `Common`: `Option`, order-preserving `Filter`, and the subsequence relation.
- `Geometry`: the pure canvas geometry.
- `Canvas`: element and connector values, their list transformations, and connector drawing.
- `Images`: cleaning for save, and restoring from the cache.
- `Workspace`: the `CardWorkspace` class, one method per handler.
- `Collaboration`: the `RequestStore` class over users, boards and requests.
- `Inbox`: the `MessageList` class and the pure filter and marking functions.

Several things outside the code become explicit state or parameters:
- The network, the clock and the browser:
  - What a handler sends on the socket is appended to `outbox`, and only when the workspace has a socket.
  - Each document PUT is appended to `writes`.
  - Request outcomes (`putOk`, `putStatus`, a `CardResponse`) are parameters.
  - Time is a virtual clock advanced by `AdvanceClock`.
  - Ids that the code derives from `Date.now()` are parameters.
- localStorage is the map `cache`.
- A JavaScript value that may be missing is an `Option`. For strings, `""` stands for any falsy value.
- Coordinates are `real`.
- A handler that would throw a TypeError leaves the state as it was. Drawing a connector yields `Throws` in that case.
- A database collection becomes a map or a sequence. A collaboration request's id is its index, which is also its creation order, so "newest first" means descending ids.

Where a description of the system and the code disagree, the model follows the code:
- **A resize is not kept within the canvas.** An east or south drag that would cross the canvas edge moves the box back, so its west (north) edge moves too. `Geometry.ResizeEastShiftsWestEdge` exhibits this. A box wider (taller) than the canvas leaves it, and `Geometry.ResizeEastCanLeaveCanvas` exhibits a 2100-wide box.
- **An autosave timer that is already armed still fires after a 404 has set the error.** Its callback was built before the error existed, so its own error test never triggers. Only the effect that arms the timer checks the error.
- **A manual save does not cancel the armed autosave timer.**
- **A manual save that fails does not set the error.**
- **There is no outbound queue for socket events.** Without a socket, nothing is sent.

## Model

| member | source | states |
|---|---|---|
| Geometry.ConstrainToBounds | collab/client/src/pages/CardWorkspace.jsx:257-261 | the position is never negative; a box that fits the canvas ends on it; a position already inside is unchanged; a box wider/taller than the canvas goes to 0, one past the edge is pulled back to the edge |
| Geometry.ResizeHandleAt | collab/client/src/pages/CardWorkspace.jsx:263-287 | the scan returns no handle without a size, otherwise the first of nw, ne, sw, se, n, s, e, w strictly within 10 on both axes, or none when no handle is |
| Geometry.HandleAtIsFirstHit | collab/client/src/pages/CardWorkspace.jsx:263-287 | the hit test as a value has the same first-hit characterisation |
| Geometry.ScanHandlesFindsFirstHit | collab/client/src/pages/CardWorkspace.jsx:280-286 | the scan from any handle on, past handles that missed, finds the first hit or proves there is none |
| Geometry.Stretch | collab/client/src/pages/CardWorkspace.jsx:296-331 | per handle: a dragged east (south) edge moves by the mouse delta and a dragged west (north) edge by the delta the other way, with the side floored at 50; the opposite edge stays; an axis the handle does not name is unchanged |
| Geometry.Resize | collab/client/src/pages/CardWorkspace.jsx:289-349 | along each axis where the stretched box stays on the canvas, the result is the stretched box, so the dragged edges follow the mouse; where it does not, a box past the far edge is pushed back to end on it and one past the near edge or larger than the canvas goes to 0; a west (north) edge clamped to 0 makes the box reach to the start's right (bottom) edge, and every other size is the stretched one; the result is never at a negative position nor below 50 wide/high; n/s keep width and x, e/w keep height and y; west handles keep the right edge and north handles the bottom edge; a result that fits the canvas lies on it |
| Geometry.ResizeEastShiftsWestEdge | collab/client/src/pages/CardWorkspace.jsx:324-335 | an east drag that would cross the right edge moves the box left: a 100-wide box at x = 1000 dragged by 1000 becomes 1100 wide at x = 500 |
| Geometry.ResizeWestPinnedAtZero | collab/client/src/pages/CardWorkspace.jsx:333-345 | a west drag past the left edge pins the box at 0 and stretches it to the start's right edge |
| Geometry.ResizeEastCanLeaveCanvas | collab/client/src/pages/CardWorkspace.jsx:324-335 | a box wider than the canvas is not capped: an east drag of a box at the origin gives a 2100-wide box past the right edge |
| Geometry.AnchorPoints | collab/client/src/pages/CardWorkspace.jsx:485-497 | no anchors without a size; otherwise top, right, bottom, left, each at the midpoint of its side |
| Geometry.AnchorsAreEdgeHandles | collab/client/src/pages/CardWorkspace.jsx:485-497 | the four anchors sit exactly on the n, e, s, w resize handles |
| Canvas.ApplyPatch | collab/client/src/pages/CardWorkspace.jsx:393-397 | the patched field takes the new value (content, font size, colour or one format flag of a text; the text of a shape) and every other field keeps its own, including id, position and size; a patch for a field the kind lacks leaves the element as it is |
| Canvas.ClampFontSize | collab/client/src/pages/CardWorkspace.jsx:416 | the font size stays within [8, 72], in-range sizes are kept, out-of-range ones go to the nearer bound |
| Common.Filter | collab/client/src/pages/CardWorkspace.jsx:150-152 | exactly the elements that pass remain, each as many times as before, in order |
| Common.Find | collab/client/src/pages/CardWorkspace.jsx:399 | none exactly when no element passes, otherwise the first one that does |
| Canvas.RemoveElement | collab/client/src/pages/CardWorkspace.jsx:150-152 | exactly the elements with another id remain, each as many times as before |
| Canvas.UpsertElement | collab/client/src/pages/CardWorkspace.jsx:124-134 | the received element is last and no other element carries its id |
| Canvas.ReplaceElement | collab/client/src/pages/CardWorkspace.jsx:136-148 | every element with the id is replaced wholesale by the received one, every other element is kept in place |
| Canvas.PatchElements | collab/client/src/pages/CardWorkspace.jsx:393-397 | every element keeps its place and its id; those with the id get the patch merged onto them, the others are kept |
| Canvas.PatchThenFind | collab/client/src/pages/CardWorkspace.jsx:393-402 | the element found after a merge update is the one found before, patched: this is what is broadcast |
| Canvas.PatchLastWriteWins | collab/client/src/pages/CardWorkspace.jsx:393-397 | of two merge updates of the same field of the same id, the second wins |
| Canvas.PatchTwice | collab/client/src/pages/CardWorkspace.jsx:393-397 | on one element, of two patches of the same field the second wins |
| Canvas.PatchesOfDifferentFieldsCommute | collab/client/src/pages/CardWorkspace.jsx:393-397 | merge updates of different fields can be applied in either order |
| Canvas.PatchesCommute | collab/client/src/pages/CardWorkspace.jsx:393-397 | on one element, patches of different fields commute |
| Canvas.PatchAbsentElement | collab/client/src/pages/CardWorkspace.jsx:393-397 | a merge update for an id no element has changes nothing |
| Canvas.FindElement | collab/client/src/pages/CardWorkspace.jsx:399 | none exactly when no element has the id, otherwise the first element that has it |
| Canvas.RemoveElementSubseq | collab/client/src/pages/CardWorkspace.jsx:150-152 | deleting keeps the remaining elements' order |
| Canvas.RemoveElementIdempotent | collab/client/src/pages/CardWorkspace.jsx:150-152 | deleting an id twice is deleting it once |
| Canvas.RemoveAbsentElement | collab/client/src/pages/CardWorkspace.jsx:150-152 | deleting an id no element has changes nothing |
| Canvas.UpsertElementPlacesLast | collab/client/src/pages/CardWorkspace.jsx:124-134 | after an add event exactly one element has the id, it is last, and the others are the previous list without it, in order |
| Canvas.ReplaceAbsentElement | collab/client/src/pages/CardWorkspace.jsx:136-148 | an update event for an absent id changes nothing (no resurrection) |
| Canvas.ReplaceElementKeepsIds | collab/client/src/pages/CardWorkspace.jsx:136-148 | an update event neither adds nor drops an id |
| Canvas.RemoveConnector | collab/client/src/pages/CardWorkspace.jsx:158-160 | exactly the connectors with another id remain, each as many times as before |
| Canvas.UpsertConnector | collab/client/src/pages/CardWorkspace.jsx:154-156 | the received connector is last and is the only one with its id; the others are the previous ones with another id |
| Canvas.RemoveConnectorIdempotent | collab/client/src/pages/CardWorkspace.jsx:158-160 | deleting a connector twice is deleting it once |
| Canvas.RemoveConnectorSubseq | collab/client/src/pages/CardWorkspace.jsx:531-534 | deleting a connector keeps the others' order |
| Canvas.UpsertConnectorPlacesLast | collab/client/src/pages/CardWorkspace.jsx:154-156 | after an add event exactly one connector has the id, it is last, and the others are the previous ones with another id, in order and each as many times as before |
| Canvas.PickAnchor | collab/client/src/pages/CardWorkspace.jsx:889-890 | nothing without a recorded anchor or without anchors; otherwise the first current anchor with the recorded id, or the first anchor when none has it |
| Canvas.PickAnchorDrawnAt | collab/client/src/pages/CardWorkspace.jsx:889-890 | the anchor picked for a recorded end is where that end is drawn |
| Canvas.DrawConnector | collab/client/src/pages/CardWorkspace.jsx:879-890 | hidden exactly when one of its elements is missing; a line exactly when both elements have a size and both ends a recorded anchor (otherwise it throws); each end of a line is at the current anchor with the recorded id, or at the first anchor when none has it |
| Canvas.DrawnEndsFollowElements | collab/client/src/pages/CardWorkspace.jsx:879-890 | an end recorded at a side is drawn at that side's current midpoint, wherever the element now is; an unknown side is drawn at the top midpoint |
| Canvas.PickAnchorFirstMatch | collab/client/src/pages/CardWorkspace.jsx:889 | a recorded anchor with the id of the first current anchor resolves to that anchor |
| Canvas.DrawConnectors | collab/client/src/pages/CardWorkspace.jsx:879-891 | one drawing per connector, in connector order |
| Canvas.DeletedEndpointHides | collab/client/src/pages/CardWorkspace.jsx:667-673 | after an element is deleted, every connector attached to it is hidden, not an error |
| Images.CleanElement | collab/client/src/pages/CardWorkspace.jsx:22-30 | an image with an inline data url gets its storage key (or "image-placeholder") as url; every other element is unchanged |
| Images.CleanElementsForSave | collab/client/src/pages/CardWorkspace.jsx:21-32 | length and order are kept and each element is cleaned |
| Images.PlaceholderNotInline | collab/client/src/pages/CardWorkspace.jsx:26 | the placeholder is not itself inline data |
| Images.CleanedHasNoPayload | collab/client/src/pages/CardWorkspace.jsx:21-32 | after cleaning, an image url that still starts with "data:" is the image's own storage key, never its payload |
| Images.CleanIdempotent | collab/client/src/pages/CardWorkspace.jsx:21-32 | cleaning twice is cleaning once |
| Images.RestoreElement | collab/client/src/pages/CardWorkspace.jsx:112-118 | an image with a key whose cached value is non-empty gets that value as url; everything else is unchanged |
| Images.RestoreElements | collab/client/src/pages/CardWorkspace.jsx:175-181 | every element of a loaded list is restored, length and order kept |
| Images.BroadcastUploadIsClean | collab/client/src/pages/CardWorkspace.jsx:473-479 | the copy of an upload sent to the room is exactly what cleaning the element gives |
| Images.UploadRoundTrip | collab/client/src/pages/CardWorkspace.jsx:457-467 | restoring the cleaned upload from the cache the upload wrote gives back the uploaded element |
| Images.MissingKeyLeavesReference | collab/client/src/pages/CardWorkspace.jsx:128-131 | a client whose cache lacks the key keeps the key as url |
| Images.RestoreUndoesClean | collab/client/src/pages/CardWorkspace.jsx:175-181 | loading a saved list with a cache holding every image's data gives back the list as it was before saving |
| Workspace.ConnectorStep | collab/client/src/pages/CardWorkspace.jsx:499-529 | outside connector mode nothing happens; the first click records the element with its top anchor; a click on another element creates exactly one connector, with the default style, from the recorded end to the clicked element's top anchor, and leaves the mode; a second click on the same element changes nothing; no connector joins an element to itself |
| Workspace.ToolConnectorDrawsTopToTop | collab/client/src/pages/CardWorkspace.jsx:499-529 | a connector made by two clicks on two sized elements is drawn from the current top midpoint of the first to that of the second |
| Workspace.CardWorkspace.constructor | collab/client/src/pages/CardWorkspace.jsx:42-76 | the workspace starts empty, without selection, gesture or error, with the given cache |
| Workspace.CardWorkspace.Broadcast | collab/client/src/pages/CardWorkspace.jsx:368 | an event is sent only when there is a socket |
| Workspace.CardWorkspace.LoadCard | collab/client/src/pages/CardWorkspace.jsx:165-196 | the lists present in the answer replace the local ones (images restored) and the error clears; a failure keeps the lists and records not-found for 404, a load failure otherwise |
| Workspace.CardWorkspace.RemoteWorkspaceUpdate | collab/client/src/pages/CardWorkspace.jsx:109-121 | a snapshot replaces each list it carries, images restored |
| Workspace.CardWorkspace.RemoteElementAdded | collab/client/src/pages/CardWorkspace.jsx:124-134 | the restored element is upserted to the end |
| Workspace.CardWorkspace.RemoteElementUpdated | collab/client/src/pages/CardWorkspace.jsx:136-148 | the restored element replaces the one with its id, if any |
| Workspace.CardWorkspace.RemoteElementDeleted | collab/client/src/pages/CardWorkspace.jsx:150-152 | the id is removed |
| Workspace.CardWorkspace.RemoteConnectorAdded | collab/client/src/pages/CardWorkspace.jsx:154-156 | the connector is upserted to the end |
| Workspace.CardWorkspace.RemoteConnectorDeleted | collab/client/src/pages/CardWorkspace.jsx:158-160 | the connector id is removed |
| Workspace.CardWorkspace.AddShape | collab/client/src/pages/CardWorkspace.jsx:353-370 | the default shape is appended without an id check and sent |
| Workspace.CardWorkspace.AddText | collab/client/src/pages/CardWorkspace.jsx:374-391 | the default text box is appended at the given point and sent |
| Workspace.CardWorkspace.AddImage | collab/client/src/pages/CardWorkspace.jsx:430-446 | a blank url changes nothing; otherwise the linked image is appended and sent |
| Workspace.CardWorkspace.UploadImage | collab/client/src/pages/CardWorkspace.jsx:448-481 | the data goes into the cache under the key; the element keeps data and key; the copy sent carries the key as url |
| Workspace.CardWorkspace.PatchAndBroadcast | collab/client/src/pages/CardWorkspace.jsx:393-403 | the patch is merged onto the id's elements, and the first element with the id before the update, patched, is sent if there is one |
| Workspace.CardWorkspace.UpdateTextElement | collab/client/src/pages/CardWorkspace.jsx:393-403 | as above for a text patch |
| Workspace.CardWorkspace.UpdateShapeText | collab/client/src/pages/CardWorkspace.jsx:655-665 | as above for a shape's text |
| Workspace.CardWorkspace.EditSelectedText | collab/client/src/pages/CardWorkspace.jsx:405-426 | without a selected text element nothing changes; otherwise the list and the selection both get the patch, and the patched list element is sent |
| Workspace.CardWorkspace.ToggleFormat | collab/client/src/pages/CardWorkspace.jsx:405-411 | the selected text's bold/italic/underline flag is negated, in the list and in the selection (nothing else of it changes), and the updated list element is sent |
| Workspace.CardWorkspace.ChangeFontSize | collab/client/src/pages/CardWorkspace.jsx:413-419 | the selected text's size becomes the clamped sum, always within [8, 72], in the list and in the selection (nothing else of it changes), and the updated list element is sent |
| Workspace.CardWorkspace.ChangeColor | collab/client/src/pages/CardWorkspace.jsx:421-426 | the selected text's colour is set in the list and in the selection, and the updated list element is sent |
| Workspace.CardWorkspace.DeleteSelected | collab/client/src/pages/CardWorkspace.jsx:667-673 | the selected element is removed and the deletion sent, connectors untouched, selection cleared |
| Workspace.CardWorkspace.ElementMouseDown | collab/client/src/pages/CardWorkspace.jsx:560-594 | a press on a handle starts a resize from the element's box; otherwise, in connector mode, it is exactly one connector-tool step; otherwise it starts a drag from the element's position |
| Workspace.CardWorkspace.MouseMove | collab/client/src/pages/CardWorkspace.jsx:596-633 | a resize replaces the selected element by the resize of the start box by the total delta; a drag moves it to the clamped start position plus delta; otherwise nothing changes |
| Workspace.CardWorkspace.MouseUp | collab/client/src/pages/CardWorkspace.jsx:635-643 | a finished gesture sends the selected element once, and the gesture ends |
| Workspace.CardWorkspace.ToggleConnectorMode | collab/client/src/pages/CardWorkspace.jsx:1043-1044 | the mode flips and the recorded start is dropped |
| Workspace.CardWorkspace.ConnectorClick | collab/client/src/pages/CardWorkspace.jsx:499-529 | the tool state and the connector list change exactly as the connector step says, and a created connector is sent |
| Workspace.CardWorkspace.DeleteConnector | collab/client/src/pages/CardWorkspace.jsx:531-534 | the connector is removed and the deletion sent |
| Workspace.CardWorkspace.AutosaveEffect | collab/client/src/pages/CardWorkspace.jsx:222-226 | without an error and with a non-empty workspace the timer is re-armed with the current lists, due 2000 ms from now; otherwise it is left alone |
| Workspace.CardWorkspace.AdvanceClock | collab/client/src/pages/CardWorkspace.jsx:199-220 | a timer that comes due PUTs the cleaned snapshot of the last call once and disarms; a 404 answer sets the card-deleted error |
| Workspace.AutosaveDebounces | collab/client/src/pages/CardWorkspace.jsx:199-226 | three edits 500 ms apart, each re-arming the timer, then a quiet 2000 ms give exactly one PUT, of the lists after the last edit |
| Workspace.CardWorkspace.SaveNow | collab/client/src/pages/CardWorkspace.jsx:228-253 | with an error nothing is saved; otherwise the cleaned document is PUT and, on success, sent to the room |
| Collaboration.SendRefusal | collab/server/controllers/collaborationRequestController.js:19-53 | a send passes exactly when the requester is ADMIN, the board exists, its owner is ADMIN and is not the requester, the requester is not a member and has nothing pending there; each guard, once the earlier ones pass, decides the answer: 403 not ADMIN, 404 no board, 500 owner record gone, 400 owner not ADMIN, 400 own board, 400 already a member, 400 already pending |
| Collaboration.SendKeepsPendingUnique | collab/server/controllers/collaborationRequestController.js:44-62 | a request that passed the guards never creates a second pending request for the same board and requester |
| Collaboration.SendTwiceRefused | collab/server/controllers/collaborationRequestController.js:44-53 | repeating a send that went through is refused as already pending |
| Collaboration.DecideRefusal | collab/server/controllers/collaborationRequestController.js:147-159 | accept and reject proceed exactly for a known, still pending request on an existing board the caller owns; each guard, once the earlier ones pass, decides the answer: 404 unknown id, 500 board gone, 403 not the owner, 400 already decided |
| Collaboration.DecideKeepsPendingUnique | collab/server/controllers/collaborationRequestController.js:161-163 | deciding a request keeps pending requests unique |
| Collaboration.AddMember | collab/server/controllers/collaborationRequestController.js:166-168 | the requester becomes a member, existing members are kept as a prefix, and no duplicate appears |
| Collaboration.AddParticipant | collab/server/controllers/collaborationRequestController.js:171-181 | the requester gets a "member" entry unless they have one, existing entries are kept as a prefix, and no user gets two |
| Collaboration.Join | collab/server/controllers/collaborationRequestController.js:165-183 | accepting changes only the board's members and participants |
| Collaboration.JoinIdempotent | collab/server/controllers/collaborationRequestController.js:165-183 | joining twice is joining once |
| Collaboration.NewestFirst | collab/server/controllers/collaborationRequestController.js:104-110 | exactly the selected requests, by strictly decreasing id |
| Collaboration.IncomingRequests | collab/server/controllers/collaborationRequestController.js:95-117 | exactly the pending requests on boards the caller owns, newest first |
| Collaboration.SentRequests | collab/server/controllers/collaborationRequestController.js:120-134 | exactly the requests the caller sent, newest first |
| Collaboration.RequestStore.Send | collab/server/controllers/collaborationRequestController.js:13-92 | a refused send changes nothing; otherwise one pending request with the board's owner is appended, answered 201 (500 when the requester's record is gone); pending requests stay unique |
| Collaboration.RequestStore.Accept | collab/server/controllers/collaborationRequestController.js:137-235 | after the guards the request becomes accepted and the requester joins the board; a decided request never changes again; pending requests stay unique |
| Collaboration.RequestStore.Reject | collab/server/controllers/collaborationRequestController.js:238-296 | after the guards the request becomes rejected and no board is touched; a decided request never changes again |
| Inbox.FilterMessages | collab/client/src/pages/Messages.jsx:294-307 | "all" and unknown tabs keep everything; "unread", "invitations" and "requests" keep exactly the unread, invitation and six request kinds, each entry as many times as before; the result keeps list order; a null entry makes those three tabs throw |
| Inbox.MarkRead | collab/client/src/pages/Messages.jsx:97-99 | only the entries with the id become read; null entries and order are kept |
| Inbox.MarkAllRead | collab/client/src/pages/Messages.jsx:125 | every non-null entry becomes read; null entries stay |
| Inbox.MarkReadUnreadView | collab/client/src/pages/Messages.jsx:97-99 | after marking an id read, the unread tab shows nothing with that id and still shows every other unread entry |
| Inbox.MarkReadIdempotent | collab/client/src/pages/Messages.jsx:97-99 | marking an id twice is marking it once |
| Inbox.MarkAllReadEmptiesUnread | collab/client/src/pages/Messages.jsx:125 | after marking all read the unread tab is empty (or throws, as before, on a null entry) |
| Inbox.MessageTitle | collab/client/src/pages/Messages.jsx:271-292 | total; a kind has a title other than "Notification" exactly when it is one of the eight known kinds |
| Inbox.RequestKindsTitled | collab/client/src/pages/Messages.jsx:298-305 | every kind the requests tab shows has its own title |
| Inbox.MessageList.constructor | collab/client/src/pages/Messages.jsx:15-18 | the list and counter as loaded |
| Inbox.MessageList.MarkAsRead | collab/client/src/pages/Messages.jsx:77-108 | without id, token or a successful request nothing changes; otherwise the id is marked and the counter becomes max(0, counter - 1), never negative |
| Inbox.MessageList.MarkAllAsRead | collab/client/src/pages/Messages.jsx:110-134 | without a token or a successful request nothing changes; otherwise every entry is marked and the counter is 0 |

## Left out

- The socket wrapper module (`collab/client/src/utils/socket.js`) and socket construction: connection, rooms and reconnection are network behaviour; the model records what is sent.
- Everything that renders (JSX, the toolbar, the properties panel), DOM mouse-coordinate conversion, `alert`, navigation and focus calls: mouse coordinates are inputs.
- `activeTool`, `editingTextId`, `loading`, `card`, the double-click handler and the canvas click that clears the selection: UI state that no modelled property reads.
- Other Messages.jsx handlers (fetching messages and the unread count, accepting/rejecting invitations, join and collaboration requests from the inbox, icons): network calls followed by a refetch.
- The 401 branch of the read markers, which removes the token and navigates: it changes no modelled state.
- Emails, notification records and real-time emits of the controller are not modelled, and the model assumes they succeed. The mail helpers are awaited inside the handlers' `try`, so in the code a failing mail turns the reply into a 500 after the request state has already been saved.
- Request ordering ties: creation order stands for `createdAt`, so two requests created in the same millisecond are ordered by creation.
- Participant `joinedAt` timestamps and populated user/board fields in responses.
- Malformed ids (a database cast error answers 500): ids are positions or map keys.
- localStorage quota errors when an upload is cached: the write is assumed to succeed.
- Stale closures: a handler that reads a list captured before an awaited call (upload, the read markers) is modelled as reading the current one; concurrent interleavings of handlers are not modelled.
- Real-time convergence between clients: nothing in the code orders or versions concurrent edits.
- Workspace.CardWorkspace.AdvanceClock: the workspace has one debounce timer. In the code the debounced function is rebuilt whenever the error changes, and a timer armed by the previous one is not cancelled by calls to the new one. The model does not capture that second timer.
- Workspace.IsBlank: approximates JavaScript's `trim()` whitespace by space, tab, line feed, carriage return, vertical tab, form feed, no-break space and byte-order mark, not every Unicode space separator.
- Workspace.CardWorkspace.ElementMouseDown: a drag start keeps the old width and height in `elementStart` where the code leaves them undefined; they are never read during a drag.
- Canvas.ApplyPatch: a patch naming a field the element's kind does not have (a text patch on a shape or image, or the shape-text patch on a text or image) leaves the element as it is. The code adds the stray field, then sends and saves it. This happens only when elements of different kinds share an id, because the handlers send text patches for text elements and shape text for shapes.
- Inbox.Message: `read` is a boolean; a message without the field reads as unread, which is the same outcome.
