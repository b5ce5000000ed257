/** The per-card workspace component as a state machine: the element and
    connector lists, selection and the drag/resize gesture, the connector tool,
    the local image cache, what is broadcast on the card's socket room, and the
    debounced autosave over a virtual clock. Each method is one handler of the
    component; the network and the browser are parameters (see README). */
module Workspace {
  import opened Common
  import opened Geometry
  import opened Canvas
  import opened Images

  /** What the workspace broadcasts to the card's room. */
  datatype SyncEvent =
    | ElementAdd(element: Element)
    | ElementUpdate(element: Element)
    | ElementDelete(elementId: string)
    | ConnectorAdd(connector: Connector)
    | ConnectorDelete(connectorId: string)
    | WorkspaceSave(document: Document)

  /** The persisted unit: a card's elements and connectors. */
  datatype Document = Document(elements: seq<Element>, connectors: seq<Connector>)

  /** The answer to the card request: the card's lists (each possibly absent) or an HTTP status. */
  datatype CardResponse =
    | CardLoaded(elements: Option<seq<Element>>, connectors: Option<seq<Connector>>)
    | CardLoadFailed(status: int)

  /** An armed debounce timer: the arguments of the last call and when it fires. */
  datatype PendingSave = PendingSave(snapshot: Document, due: nat)

  const AutosaveDelay: nat := 2000
  const CardNotFound: string := "Card not found. It may have been deleted."
  const CardLoadFailure: string := "Failed to load workspace. Please try again."
  const CardDeleted: string := "Card was deleted. Autosave disabled."
  const DefaultConnectorStyle: ConnectorStyle := ConnectorStyle("straight", "#8b5cf6", 2)

  function NewShape(id: string, shape: string): Element {
    Element(id, Point(300.0, 200.0), Some(Size(200.0, 150.0)),
            Shape(shape, "#8b5cf6", 3, "rgba(139, 92, 246, 0.1)", "", 0))
  }

  function NewText(id: string, x: real, y: real): Element {
    Element(id, Point(x, y), Some(Size(250.0, 80.0)),
            Text("Double-click to edit", 16, "#ffffff", false, false, false))
  }

  function LinkedImage(id: string, url: string): Element {
    Element(id, Point(200.0, 200.0), Some(Size(300.0, 300.0)), Image(url, ""))
  }

  /** The string holds nothing but whitespace (trimming leaves it empty). */
  predicate IsBlank(s: string) {
    forall i :: 0 <= i < |s| ==> s[i] in {' ', '\t', '\n', '\r', '\U{B}', '\U{C}', '\U{A0}', '\U{FEFF}'}
  }

  /** The first of the anchors (none when there are none). */
  function FirstAnchor(points: seq<Anchor>): Option<Anchor> {
    if points == [] then None else Some(points[0])
  }

  /** The connector tool: whether it is on, and the end recorded by the first click. */
  datatype ToolState = ToolState(mode: bool, start: Option<Endpoint>)
  /** The tool after a click on an element, and the connector that click created, if any. */
  datatype ToolStep = ToolStep(tool: ToolState, added: Option<Connector>)

  function Added(step: ToolStep): seq<Connector> {
    if step.added.Some? then [step.added.value] else []
  }

  /** `handleConnectorClick` on element `e`: outside connector mode nothing happens;
      the first click records the element with its first (top) anchor; a click on
      another element creates one connector between the two and leaves connector
      mode; a second click on the same element changes nothing. */
  function ConnectorStep(t: ToolState, e: Element, connectorId: string): (r: ToolStep)
    ensures !t.mode ==> r == ToolStep(t, None)
    ensures t.mode && t.start.None? ==>
      && r.added.None? && r.tool.mode && r.tool.start.Some?
      && r.tool.start.value.elementId == e.id
      && r.tool.start.value.anchor == FirstAnchor(AnchorPoints(e.position, e.size))
      && (e.size.Some? ==> r.tool.start.value.anchor.Some? && r.tool.start.value.anchor.value.id == "top")
    ensures t.mode && t.start.Some? && t.start.value.elementId == e.id ==> r == ToolStep(t, None)
    ensures t.mode && t.start.Some? && t.start.value.elementId != e.id ==>
      && r.tool == ToolState(false, None) && r.added.Some?
      && r.added.value == Connector(connectorId, t.start.value,
                                    Endpoint(e.id, FirstAnchor(AnchorPoints(e.position, e.size))), DefaultConnectorStyle)
    ensures r.added.Some? ==> r.added.value.from.elementId != r.added.value.to.elementId
  {
    var anchor := FirstAnchor(AnchorPoints(e.position, e.size));
    if !t.mode then ToolStep(t, None)
    else if t.start.None? then ToolStep(ToolState(true, Some(Endpoint(e.id, anchor))), None)
    else if t.start.value.elementId != e.id then
      ToolStep(ToolState(false, None), Some(Connector(connectorId, t.start.value, Endpoint(e.id, anchor), DefaultConnectorStyle)))
    else ToolStep(t, None)
  }

  /** Two clicks of the connector tool on two different sized elements produce a
      connector that is drawn from the top midpoint of the first to the top
      midpoint of the second, wherever they are now. */
  lemma ToolConnectorDrawsTopToTop(elements: seq<Element>, first: Element, second: Element, connectorId: string)
    requires first.id != second.id && first.size.Some? && second.size.Some?
    requires FindElement(elements, first.id) == Some(first) && FindElement(elements, second.id) == Some(second)
    ensures var click1 := ConnectorStep(ToolState(true, None), first, connectorId);
      var click2 := ConnectorStep(click1.tool, second, connectorId);
      && click2.added.Some?
      && DrawConnector(elements, click2.added.value)
         == Line(Point(first.position.x + first.size.value.width / 2.0, first.position.y),
                 Point(second.position.x + second.size.value.width / 2.0, second.position.y))
  {
    var fromPoints := AnchorPoints(first.position, first.size);
    var toPoints := AnchorPoints(second.position, second.size);
    var click1 := ConnectorStep(ToolState(true, None), first, connectorId);
    assert click1.tool.start == Some(Endpoint(first.id, Some(fromPoints[0])));
    var click2 := ConnectorStep(click1.tool, second, connectorId);
    var c := click2.added.value;
    assert c.from == Endpoint(first.id, Some(fromPoints[0])) && c.to == Endpoint(second.id, Some(toPoints[0]));
    PickAnchorFirstMatch(fromPoints, c.from.anchor);
    PickAnchorFirstMatch(toPoints, c.to.anchor);
  }

  /** What `debouncedSave` is called with, after cleaning: the document sent on a save. */
  function SavedDocument(d: Document): Document {
    Document(CleanElementsForSave(d.elements), d.connectors)
  }

  class CardWorkspace {
    var elements: seq<Element>
    var connectors: seq<Connector>
    var selected: Option<Element>
    var error: Option<string>

    // the drag/resize gesture
    var dragging: bool
    var resizing: bool
    var handle: Option<Handle>
    var dragStart: Point
    var elementStart: Box

    // the connector tool
    var connectorMode: bool
    var connectorStart: Option<Endpoint>

    /** localStorage: storage key -> data URL. */
    var cache: map<string, string>
    /** Whether the component holds a socket; without one nothing is broadcast. */
    var online: bool
    /** Every event broadcast so far, oldest first. */
    var outbox: seq<SyncEvent>

    // autosave: the virtual clock (ms), the armed timer, and every document PUT so far
    var now: nat
    var pending: Option<PendingSave>
    var writes: seq<Document>

    ghost predicate Valid()
      reads this
    {
      resizing ==> handle.Some?
    }

    constructor (storage: map<string, string>, hasSocket: bool)
      ensures Valid()
      ensures elements == [] && connectors == [] && selected.None? && error.None?
      ensures !dragging && !resizing && handle.None? && !connectorMode && connectorStart.None?
      ensures cache == storage && online == hasSocket && outbox == []
      ensures now == 0 && pending.None? && writes == []
    {
      elements, connectors, selected, error := [], [], None, None;
      dragging, resizing, handle := false, false, None;
      dragStart, elementStart := Point(0.0, 0.0), Box(0.0, 0.0, 0.0, 0.0);
      connectorMode, connectorStart := false, None;
      cache, online, outbox := storage, hasSocket, [];
      now, pending, writes := 0, None, [];
    }

    /** Sends an event to the card's room when there is a socket. */
    method Broadcast(ev: SyncEvent)
      modifies this`outbox
      ensures outbox == old(outbox) + if online then [ev] else []
    {
      if online {
        outbox := outbox + [ev];
      }
    }

    // ----- loading and remote events -------------------------------------

    /** `fetchCard`: on success the lists present in the answer replace the local
        ones (images rehydrated from the cache) and the error clears; on failure the
        error says whether the card is gone (404) or could not be loaded. */
    method LoadCard(response: CardResponse)
      modifies this`elements, this`connectors, this`error
      ensures response.CardLoaded? ==>
        && elements == (if response.elements.Some? then RestoreElements(response.elements.value, cache) else old(elements))
        && connectors == (if response.connectors.Some? then response.connectors.value else old(connectors))
        && error.None?
      ensures response.CardLoadFailed? ==>
        && elements == old(elements) && connectors == old(connectors)
        && error == Some(if response.status == 404 then CardNotFound else CardLoadFailure)
    {
      match response
      case CardLoaded(els, cons) =>
        if els.Some? {
          elements := RestoreElements(els.value, cache);
        }
        if cons.Some? {
          connectors := cons.value;
        }
        error := None;
      case CardLoadFailed(status) =>
        error := Some(if status == 404 then CardNotFound else CardLoadFailure);
    }

    /** `workspace:update`: a full snapshot replaces the lists that it carries. */
    method RemoteWorkspaceUpdate(els: Option<seq<Element>>, cons: Option<seq<Connector>>)
      modifies this`elements, this`connectors
      ensures elements == if els.Some? then RestoreElements(els.value, cache) else old(elements)
      ensures connectors == if cons.Some? then cons.value else old(connectors)
    {
      if els.Some? {
        elements := RestoreElements(els.value, cache);
      }
      if cons.Some? {
        connectors := cons.value;
      }
    }

    /** `element:added`: upsert that moves the (rehydrated) element to the end. */
    method RemoteElementAdded(e: Element)
      modifies this`elements
      ensures elements == UpsertElement(old(elements), RestoreElement(e, cache))
    {
      elements := UpsertElement(elements, RestoreElement(e, cache));
    }

    /** `element:updated`: wholesale replacement of the element with that id, if any. */
    method RemoteElementUpdated(e: Element)
      modifies this`elements
      ensures elements == ReplaceElement(old(elements), RestoreElement(e, cache))
    {
      elements := ReplaceElement(elements, RestoreElement(e, cache));
    }

    /** `element:deleted`. */
    method RemoteElementDeleted(id: string)
      modifies this`elements
      ensures elements == RemoveElement(old(elements), id)
    {
      elements := RemoveElement(elements, id);
    }

    /** `connector:added`. */
    method RemoteConnectorAdded(c: Connector)
      modifies this`connectors
      ensures connectors == UpsertConnector(old(connectors), c)
    {
      connectors := UpsertConnector(connectors, c);
    }

    /** `connector:deleted`. */
    method RemoteConnectorDeleted(id: string)
      modifies this`connectors
      ensures connectors == RemoveConnector(old(connectors), id)
    {
      connectors := RemoveConnector(connectors, id);
    }

    // ----- local additions ------------------------------------------------

    /** `handleAddShape`: appends a default shape (no duplicate-id check) and broadcasts it. */
    method AddShape(id: string, shape: string)
      modifies this`elements, this`outbox
      ensures elements == old(elements) + [NewShape(id, shape)]
      ensures outbox == old(outbox) + if online then [ElementAdd(NewShape(id, shape))] else []
    {
      elements := elements + [NewShape(id, shape)];
      Broadcast(ElementAdd(NewShape(id, shape)));
    }

    /** `handleAddText`: appends a default text box at the given point and broadcasts it. */
    method AddText(id: string, x: real, y: real)
      modifies this`elements, this`outbox
      ensures elements == old(elements) + [NewText(id, x, y)]
      ensures outbox == old(outbox) + if online then [ElementAdd(NewText(id, x, y))] else []
    {
      elements := elements + [NewText(id, x, y)];
      Broadcast(ElementAdd(NewText(id, x, y)));
    }

    /** `handleAddImage`: a blank url is ignored; otherwise the linked image is
        appended (with no storage key) and broadcast. */
    method AddImage(id: string, url: string)
      modifies this`elements, this`outbox
      ensures IsBlank(url) ==> elements == old(elements) && outbox == old(outbox)
      ensures !IsBlank(url) ==> elements == old(elements) + [LinkedImage(id, url)]
      ensures !IsBlank(url) ==> outbox == old(outbox) + if online then [ElementAdd(LinkedImage(id, url))] else []
    {
      if IsBlank(url) {
        return;
      }
      elements := elements + [LinkedImage(id, url)];
      Broadcast(ElementAdd(LinkedImage(id, url)));
    }

    /** `handleImageUpload` once the file is read: the data URL goes into the cache
        under the fresh key, the element keeps both, and the broadcast copy carries
        the key as url. No file: nothing happens. */
    method UploadImage(id: string, storageKey: string, file: Option<string>)
      modifies this`elements, this`outbox, this`cache
      ensures file.None? ==> elements == old(elements) && outbox == old(outbox) && cache == old(cache)
      ensures file.Some? ==> cache == old(cache)[storageKey := file.value]
      ensures file.Some? ==> elements == old(elements) + [UploadedImage(id, storageKey, file.value)]
      ensures file.Some? ==>
        outbox == old(outbox) + (if online then [ElementAdd(UploadedImage(id, storageKey, file.value).(kind := Image(storageKey, storageKey)))] else [])
    {
      if file.None? {
        return;
      }
      cache := cache[storageKey := file.value];
      var e := UploadedImage(id, storageKey, file.value);
      elements := elements + [e];
      Broadcast(ElementAdd(e.(kind := Image(storageKey, storageKey))));
    }

    // ----- local edits ------------------------------------------------------

    /** Merge-updates every element with the id and broadcasts the first of them,
        patched, if there is one. */
    method PatchAndBroadcast(id: string, p: Patch)
      modifies this`elements, this`outbox
      ensures elements == PatchElements(old(elements), id, p)
      ensures outbox == old(outbox) +
        if online && FindElement(old(elements), id).Some?
        then [ElementUpdate(ApplyPatch(FindElement(old(elements), id).value, p))] else []
    {
      PatchThenFind(elements, id, p);
      elements := PatchElements(elements, id, p);
      var updated := FindElement(elements, id);
      if updated.Some? {
        Broadcast(ElementUpdate(updated.value));
      }
    }

    /** `updateTextElement`. */
    method UpdateTextElement(id: string, p: Patch)
      modifies this`elements, this`outbox
      ensures elements == PatchElements(old(elements), id, p)
      ensures outbox == old(outbox) +
        if online && FindElement(old(elements), id).Some?
        then [ElementUpdate(ApplyPatch(FindElement(old(elements), id).value, p))] else []
    {
      PatchAndBroadcast(id, p);
    }

    /** `updateShapeText`. */
    method UpdateShapeText(id: string, text: string)
      modifies this`elements, this`outbox
      ensures elements == PatchElements(old(elements), id, SetShapeText(text))
      ensures outbox == old(outbox) +
        if online && FindElement(old(elements), id).Some?
        then [ElementUpdate(ApplyPatch(FindElement(old(elements), id).value, SetShapeText(text)))] else []
    {
      PatchAndBroadcast(id, SetShapeText(text));
    }

    /** The toolbar's text edits: apply the patch to the selected text element in the
        list and to the selection itself; without a selected text element, nothing. */
    method EditSelectedText(p: Patch)
      modifies this`elements, this`outbox, this`selected
      ensures !(old(selected).Some? && old(selected).value.kind.Text?) ==>
        elements == old(elements) && outbox == old(outbox) && selected == old(selected)
      ensures old(selected).Some? && old(selected).value.kind.Text? ==>
        && elements == PatchElements(old(elements), old(selected).value.id, p)
        && selected == Some(ApplyPatch(old(selected).value, p))
        && outbox == old(outbox) +
          if online && FindElement(old(elements), old(selected).value.id).Some?
          then [ElementUpdate(ApplyPatch(FindElement(old(elements), old(selected).value.id).value, p))] else []
    {
      if selected.None? || !selected.value.kind.Text? {
        return;
      }
      var sel := selected.value;
      UpdateTextElement(sel.id, p);
      selected := Some(ApplyPatch(sel, p));
    }

    /** `handleTextFormatChange`: flips bold, italic or underline of the selected text. */
    method ToggleFormat(f: Format)
      modifies this`elements, this`outbox, this`selected
      ensures !(old(selected).Some? && old(selected).value.kind.Text?) ==>
        elements == old(elements) && outbox == old(outbox) && selected == old(selected)
      ensures old(selected).Some? && old(selected).value.kind.Text? ==>
        var patch := SetFormat(f, !FormatOf(old(selected).value.kind, f));
        && selected == Some(ApplyPatch(old(selected).value, patch))
        && selected.value.kind.Text? && FormatOf(selected.value.kind, f) == !FormatOf(old(selected).value.kind, f)
        && elements == PatchElements(old(elements), old(selected).value.id, patch)
        && outbox == old(outbox) +
          if online && FindElement(old(elements), old(selected).value.id).Some?
          then [ElementUpdate(ApplyPatch(FindElement(old(elements), old(selected).value.id).value, patch))] else []
    {
      if selected.None? || !selected.value.kind.Text? {
        return;
      }
      EditSelectedText(SetFormat(f, !FormatOf(selected.value.kind, f)));
    }

    /** `handleFontSizeChange`: steps the selected text's font size, kept within [8, 72]. */
    method ChangeFontSize(delta: int)
      modifies this`elements, this`outbox, this`selected
      ensures !(old(selected).Some? && old(selected).value.kind.Text?) ==>
        elements == old(elements) && outbox == old(outbox) && selected == old(selected)
      ensures old(selected).Some? && old(selected).value.kind.Text? ==>
        var patch := SetFontSize(ClampFontSize(old(selected).value.kind.fontSize + delta));
        && selected == Some(ApplyPatch(old(selected).value, patch))
        && selected.value.kind.Text? && 8 <= selected.value.kind.fontSize <= 72
        && elements == PatchElements(old(elements), old(selected).value.id, patch)
        && outbox == old(outbox) +
          if online && FindElement(old(elements), old(selected).value.id).Some?
          then [ElementUpdate(ApplyPatch(FindElement(old(elements), old(selected).value.id).value, patch))] else []
    {
      if selected.None? || !selected.value.kind.Text? {
        return;
      }
      EditSelectedText(SetFontSize(ClampFontSize(selected.value.kind.fontSize + delta)));
    }

    /** `handleColorChange`. */
    method ChangeColor(color: string)
      modifies this`elements, this`outbox, this`selected
      ensures !(old(selected).Some? && old(selected).value.kind.Text?) ==>
        elements == old(elements) && outbox == old(outbox) && selected == old(selected)
      ensures old(selected).Some? && old(selected).value.kind.Text? ==>
        && selected == Some(ApplyPatch(old(selected).value, SetColor(color)))
        && elements == PatchElements(old(elements), old(selected).value.id, SetColor(color))
        && outbox == old(outbox) +
          if online && FindElement(old(elements), old(selected).value.id).Some?
          then [ElementUpdate(ApplyPatch(FindElement(old(elements), old(selected).value.id).value, SetColor(color)))] else []
    {
      EditSelectedText(SetColor(color));
    }

    /** `handleDeleteElement`: removes the selected element and clears the selection;
        connectors attached to it stay (and are then hidden when drawn). */
    method DeleteSelected()
      modifies this`elements, this`outbox, this`selected
      ensures old(selected).None? ==> elements == old(elements) && outbox == old(outbox) && selected.None?
      ensures old(selected).Some? ==>
        && elements == RemoveElement(old(elements), old(selected).value.id)
        && outbox == old(outbox) + (if online then [ElementDelete(old(selected).value.id)] else [])
        && selected.None?
    {
      if selected.None? {
        return;
      }
      var id := selected.value.id;
      elements := RemoveElement(elements, id);
      Broadcast(ElementDelete(id));
      selected := None;
    }

    // ----- mouse gestures -------------------------------------------------

    /** `handleElementMouseDown`: on a handle starts a resize from the element's box;
        otherwise, in connector mode, is a connector click; otherwise starts a drag. */
    method ElementMouseDown(e: Element, mouse: Point, connectorId: string)
      requires Valid()
      modifies this`resizing, this`handle, this`elementStart, this`dragging, this`dragStart, this`selected
      modifies this`connectors, this`connectorStart, this`connectorMode, this`outbox
      ensures Valid()
      ensures var h := HandleAt(e.position, e.size, mouse);
        h.Some? ==>
          && e.size.Some? && resizing && handle == h && elementStart == BoxOf(e.position, e.size.value)
          && dragging == old(dragging) && dragStart == mouse && selected == Some(e)
          && connectors == old(connectors) && connectorStart == old(connectorStart)
          && connectorMode == old(connectorMode) && outbox == old(outbox)
      ensures var h := HandleAt(e.position, e.size, mouse);
        h.None? && old(connectorMode) ==>
          && resizing == old(resizing) && handle == old(handle) && elementStart == old(elementStart)
          && dragging == old(dragging) && dragStart == old(dragStart) && selected == old(selected)
          && var step := ConnectorStep(ToolState(old(connectorMode), old(connectorStart)), e, connectorId);
          && ToolState(connectorMode, connectorStart) == step.tool
          && connectors == old(connectors) + Added(step)
          && outbox == old(outbox) + (if online then seq(|Added(step)|, i requires 0 <= i < |Added(step)| => ConnectorAdd(Added(step)[i])) else [])
      ensures var h := HandleAt(e.position, e.size, mouse);
        h.None? && !old(connectorMode) ==>
          && dragging && elementStart == old(elementStart).(x := e.position.x, y := e.position.y)
          && resizing == old(resizing) && handle == old(handle) && dragStart == mouse && selected == Some(e)
          && connectors == old(connectors) && connectorStart == old(connectorStart)
          && connectorMode == old(connectorMode) && outbox == old(outbox)
    {
      var h := ResizeHandleAt(e.position, e.size, mouse);
      if h.Some? {
        resizing, handle := true, h;
        elementStart := BoxOf(e.position, e.size.value);
      } else {
        if connectorMode {
          ConnectorClick(e, connectorId);
          return;
        }
        dragging := true;
        elementStart := elementStart.(x := e.position.x, y := e.position.y);
      }
      dragStart := mouse;
      selected := Some(e);
    }

    /** `handleMouseMove`: recomputes the selected element from the captured start
        box and the total mouse delta (resize takes precedence over drag). A drag
        of an element without a size throws in the source and changes nothing. */
    method MouseMove(mouse: Point)
      requires Valid()
      modifies this`elements, this`selected
      ensures Valid()
      ensures resizing && old(selected).Some? ==>
        var r := Resize(elementStart, handle.value, mouse.x - dragStart.x, mouse.y - dragStart.y);
        var u := old(selected).value.(position := Point(r.x, r.y), size := Some(Size(r.width, r.height)));
        elements == ReplaceElement(old(elements), u) && selected == Some(u)
      ensures !resizing && dragging && old(selected).Some? && old(selected).value.size.Some? ==>
        var sz := old(selected).value.size.value;
        var u := old(selected).value.(position := ConstrainToBounds(elementStart.x + mouse.x - dragStart.x,
                                                                     elementStart.y + mouse.y - dragStart.y,
                                                                     sz.width, sz.height));
        elements == ReplaceElement(old(elements), u) && selected == Some(u)
      ensures old(selected).None? || !(resizing || (dragging && old(selected).value.size.Some?)) ==>
        elements == old(elements) && selected == old(selected)
    {
      if !dragging && !resizing {
        return;
      }
      var dx := mouse.x - dragStart.x;
      var dy := mouse.y - dragStart.y;
      if resizing && selected.Some? {
        var r := Resize(elementStart, handle.value, dx, dy);
        var u := selected.value.(position := Point(r.x, r.y), size := Some(Size(r.width, r.height)));
        elements := ReplaceElement(elements, u);
        selected := Some(u);
      } else if dragging && selected.Some? && selected.value.size.Some? {
        var sz := selected.value.size.value;
        var u := selected.value.(position := ConstrainToBounds(elementStart.x + dx, elementStart.y + dy, sz.width, sz.height));
        elements := ReplaceElement(elements, u);
        selected := Some(u);
      }
    }

    /** `handleMouseUp` (also on leaving the canvas): broadcasts the moved element
        and ends the gesture. */
    method MouseUp()
      modifies this`dragging, this`resizing, this`handle, this`outbox
      ensures Valid()
      ensures !dragging && !resizing && handle.None?
      ensures outbox == old(outbox) +
        if (old(dragging) || old(resizing)) && selected.Some? && online then [ElementUpdate(selected.value)] else []
    {
      if (dragging || resizing) && selected.Some? {
        Broadcast(ElementUpdate(selected.value));
      }
      dragging, resizing, handle := false, false, None;
    }

    // ----- connector tool ---------------------------------------------------

    /** The toolbar's connector button. */
    method ToggleConnectorMode()
      modifies this`connectorMode, this`connectorStart
      ensures connectorMode == !old(connectorMode) && connectorStart.None?
    {
      connectorMode, connectorStart := !connectorMode, None;
    }

    /** `handleConnectorClick`: one step of the connector tool. */
    method ConnectorClick(e: Element, connectorId: string)
      modifies this`connectors, this`connectorStart, this`connectorMode, this`outbox
      ensures var step := ConnectorStep(ToolState(old(connectorMode), old(connectorStart)), e, connectorId);
        && ToolState(connectorMode, connectorStart) == step.tool
        && connectors == old(connectors) + Added(step)
        && outbox == old(outbox) + (if online then seq(|Added(step)|, i requires 0 <= i < |Added(step)| => ConnectorAdd(Added(step)[i])) else [])
    {
      var step := ConnectorStep(ToolState(connectorMode, connectorStart), e, connectorId);
      connectorMode, connectorStart := step.tool.mode, step.tool.start;
      if step.added.Some? {
        connectors := connectors + [step.added.value];
        Broadcast(ConnectorAdd(step.added.value));
      }
    }

    /** `deleteConnector` (the marker on a drawn connector). */
    method DeleteConnector(id: string)
      modifies this`connectors, this`outbox
      ensures connectors == RemoveConnector(old(connectors), id)
      ensures outbox == old(outbox) + if online then [ConnectorDelete(id)] else []
    {
      connectors := RemoveConnector(connectors, id);
      Broadcast(ConnectorDelete(id));
    }

    // ----- saving -------------------------------------------------------------

    /** The effect that runs after the lists change: unless there is an error or the
        workspace is empty, (re)arm the debounce timer with the current lists. */
    method AutosaveEffect()
      modifies this`pending
      ensures error.None? && (|elements| > 0 || |connectors| > 0) ==>
        pending == Some(PendingSave(Document(elements, connectors), now + AutosaveDelay))
      ensures !(error.None? && (|elements| > 0 || |connectors| > 0)) ==> pending == old(pending)
    {
      if error.None? && (|elements| > 0 || |connectors| > 0) {
        pending := Some(PendingSave(Document(elements, connectors), now + AutosaveDelay));
      }
    }

    /** Lets `dt` ms pass. A timer that comes due fires: the cleaned snapshot is PUT,
        and a 404 answer disables autosave with an error. An already-armed timer fires
        even after an error (it holds the callback built before the error). */
    method AdvanceClock(dt: nat, putStatus: int)
      modifies this`now, this`pending, this`writes, this`error
      ensures now == old(now) + dt
      ensures old(pending).Some? && old(pending).value.due <= now ==>
        && writes == old(writes) + [SavedDocument(old(pending).value.snapshot)]
        && pending.None?
        && error == if putStatus == 404 then Some(CardDeleted) else old(error)
      ensures !(old(pending).Some? && old(pending).value.due <= now) ==>
        writes == old(writes) && pending == old(pending) && error == old(error)
    {
      now := now + dt;
      if pending.Some? && pending.value.due <= now {
        writes := writes + [SavedDocument(pending.value.snapshot)];
        pending := None;
        if putStatus == 404 {
          error := Some(CardDeleted);
        }
      }
    }

    /** `saveWorkspace`: refused while there is an error; otherwise PUTs the cleaned
        document at once and, when the PUT succeeds, broadcasts it. It does not touch
        the armed autosave timer. */
    method SaveNow(putOk: bool)
      modifies this`writes, this`outbox
      ensures error.Some? ==> writes == old(writes) && outbox == old(outbox)
      ensures error.None? ==> writes == old(writes) + [SavedDocument(Document(elements, connectors))]
      ensures error.None? ==>
        outbox == old(outbox) + (if putOk && online then [WorkspaceSave(SavedDocument(Document(elements, connectors)))] else [])
    {
      if error.Some? {
        return;
      }
      var doc := SavedDocument(Document(elements, connectors));
      writes := writes + [doc];
      if putOk {
        Broadcast(WorkspaceSave(doc));
      }
    }
  }
  /** The debounce saves once, at the trailing edge, with the latest lists: three
      edits 500 ms apart, each followed by the autosave effect, and then 2000 quiet
      ms give exactly one PUT, of the workspace after the third edit. */
  method AutosaveDebounces() returns (writes: seq<Document>)
    ensures writes == [SavedDocument(Document([NewText("a", 0.0, 0.0), NewText("b", 0.0, 0.0),
                                               NewText("c", 0.0, 0.0)], []))]
  {
    var w := new CardWorkspace(map[], false);
    w.AddText("a", 0.0, 0.0);
    w.AutosaveEffect();
    w.AdvanceClock(500, 200);
    assert w.writes == [];
    w.AddText("b", 0.0, 0.0);
    w.AutosaveEffect();
    w.AdvanceClock(500, 200);
    assert w.writes == [];
    w.AddText("c", 0.0, 0.0);
    var last := Document([NewText("a", 0.0, 0.0), NewText("b", 0.0, 0.0), NewText("c", 0.0, 0.0)], []);
    assert w.elements == last.elements && w.connectors == [] && w.error.None?;
    w.AutosaveEffect();
    assert w.pending == Some(PendingSave(last, 3000));
    w.AdvanceClock(1999, 200);
    assert w.writes == [];
    w.AdvanceClock(1, 200);
    writes := w.writes;
  }
}
