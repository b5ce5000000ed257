/** The card canvas document: elements and connectors, the list transformations
    the workspace applies to them (local edits and remote socket events), and how
    connectors are resolved against the live elements when drawn. */
module Canvas {
  import opened Common
  import opened Geometry

  datatype Format = Bold | Italic | Underline

  /** The kind-specific payload of an element (its `type` field and what goes with it). */
  datatype Kind =
    | Text(content: string, fontSize: int, color: string, bold: bool, italic: bool, underline: bool)
    | Shape(shape: string, strokeColor: string, strokeWidth: int, fill: string, text: string, rotation: int)
      /** `storageKey == ""` stands for a missing key (both are falsy in JavaScript). */
    | Image(url: string, storageKey: string)

  datatype Element = Element(id: string, position: Point, size: Option<Size>, kind: Kind)

  /** One end of a connector: the element it is attached to and the anchor recorded
      when it was drawn (`None` stands for `undefined`, recorded for an element without a size). */
  datatype Endpoint = Endpoint(elementId: string, anchor: Option<Anchor>)
  datatype ConnectorStyle = ConnectorStyle(line: string, color: string, width: int)
  datatype Connector = Connector(id: string, from: Endpoint, to: Endpoint, style: ConnectorStyle)

  /** A partial update spread onto an element: one field and its new value. */
  datatype Patch =
    | SetContent(content: string)
    | SetFontSize(fontSize: int)
    | SetFormat(format: Format, on: bool)
    | SetColor(color: string)
    | SetShapeText(text: string)

  function FormatOf(k: Kind, f: Format): bool
    requires k.Text?
  {
    match f
    case Bold => k.bold
    case Italic => k.italic
    case Underline => k.underline
  }

  /** The patch sets a field of text elements. */
  predicate IsTextPatch(p: Patch) {
    p.SetContent? || p.SetFontSize? || p.SetFormat? || p.SetColor?
  }

  /** Both patches write the same field. */
  predicate SameField(p: Patch, q: Patch) {
    || (p.SetContent? && q.SetContent?)
    || (p.SetFontSize? && q.SetFontSize?)
    || (p.SetFormat? && q.SetFormat? && p.format == q.format)
    || (p.SetColor? && q.SetColor?)
    || (p.SetShapeText? && q.SetShapeText?)
  }

  /** Merges a patch onto an element: the patched field takes the new value and
      every other field keeps its own. Text patches are only sent for text elements
      and the shape-text patch only for shapes; a patch that names a field the
      element's kind does not have leaves the element as it is (see README). */
  function ApplyPatch(e: Element, p: Patch): (r: Element)
    ensures r.id == e.id && r.position == e.position && r.size == e.size
    ensures e.kind.Text? && p.SetContent? ==> r.kind == e.kind.(content := p.content)
    ensures e.kind.Text? && p.SetFontSize? ==> r.kind == e.kind.(fontSize := p.fontSize)
    ensures e.kind.Text? && p.SetColor? ==> r.kind == e.kind.(color := p.color)
    ensures e.kind.Text? && p.SetFormat? ==>
      && r.kind.Text? && r.kind.content == e.kind.content && r.kind.fontSize == e.kind.fontSize
      && r.kind.color == e.kind.color
      && FormatOf(r.kind, p.format) == p.on
      && forall f :: f != p.format ==> FormatOf(r.kind, f) == FormatOf(e.kind, f)
    ensures e.kind.Shape? && p.SetShapeText? ==> r.kind == e.kind.(text := p.text)
    ensures !(e.kind.Text? && IsTextPatch(p)) && !(e.kind.Shape? && p.SetShapeText?) ==> r == e
  {
    match (e.kind, p)
    case (Text(_, _, _, _, _, _), SetContent(c)) => e.(kind := e.kind.(content := c))
    case (Text(_, _, _, _, _, _), SetFontSize(n)) => e.(kind := e.kind.(fontSize := n))
    case (Text(_, _, _, _, _, _), SetColor(c)) => e.(kind := e.kind.(color := c))
    case (Text(_, _, _, _, _, _), SetFormat(Bold, b)) => e.(kind := e.kind.(bold := b))
    case (Text(_, _, _, _, _, _), SetFormat(Italic, b)) => e.(kind := e.kind.(italic := b))
    case (Text(_, _, _, _, _, _), SetFormat(Underline, b)) => e.(kind := e.kind.(underline := b))
    case (Shape(_, _, _, _, _, _), SetShapeText(t)) => e.(kind := e.kind.(text := t))
    case _ => e
  }

  /** The font-size step of the toolbar: the new size is kept within [8, 72]. */
  function ClampFontSize(n: int): (r: int)
    ensures 8 <= r <= 72
    ensures 8 <= n <= 72 ==> r == n
    ensures n < 8 ==> r == 8
    ensures n > 72 ==> r == 72
  {
    if n < 8 then 8 else if n > 72 then 72 else n
  }

  // ---------------------------------------------------------------------------
  // Element list transformations

  /** Deleting an id: the elements with another id remain, each as often as before. */
  function RemoveElement(s: seq<Element>, id: string): (r: seq<Element>)
    ensures forall e :: e in r <==> e in s && e.id != id
    ensures forall e :: multiset(r)[e] == if e.id != id then multiset(s)[e] else 0
  {
    Filter(s, (e: Element) => e.id != id)
  }

  /** An upsert that moves the element to the end: the elements with another id,
      then the received one. */
  function UpsertElement(s: seq<Element>, e: Element): (r: seq<Element>)
    ensures |r| >= 1 && r[|r| - 1] == e
    ensures forall i :: 0 <= i < |r| - 1 ==> r[i].id != e.id
    ensures forall x :: x in r <==> x == e || (x in s && x.id != e.id)
  {
    RemoveElement(s, e.id) + [e]
  }

  /** Wholesale replacement of every element carrying the received element's id;
      nothing is added when the id is absent. */
  function ReplaceElement(s: seq<Element>, e: Element): (r: seq<Element>)
    ensures |r| == |s|
    ensures forall i :: 0 <= i < |s| ==> r[i] == (if s[i].id == e.id then e else s[i])
  {
    seq(|s|, i requires 0 <= i < |s| => if s[i].id == e.id then e else s[i])
  }

  /** The local merge update: every element with the id gets the patch merged
      onto it, in place; the others are kept. */
  function PatchElements(s: seq<Element>, id: string, p: Patch): (r: seq<Element>)
    ensures |r| == |s|
    ensures forall i :: 0 <= i < |s| ==> r[i].id == s[i].id
    ensures forall i :: 0 <= i < |s| && s[i].id != id ==> r[i] == s[i]
    ensures forall i :: 0 <= i < |s| && s[i].id == id ==> r[i] == ApplyPatch(s[i], p)
  {
    seq(|s|, i requires 0 <= i < |s| => if s[i].id == id then ApplyPatch(s[i], p) else s[i])
  }

  /** The first element with the id. */
  function FindElement(s: seq<Element>, id: string): (r: Option<Element>)
    ensures r.None? <==> forall e :: e in s ==> e.id != id
    ensures r.Some? ==> r.value in s && r.value.id == id
    ensures r.Some? ==> exists k :: 0 <= k < |s| && s[k] == r.value && forall j :: 0 <= j < k ==> s[j].id != id
  {
    Find(s, (e: Element) => e.id == id)
  }

  /** The element found after a merge update is the one found before, patched:
      this is the element the workspace broadcasts. */
  lemma PatchThenFind(s: seq<Element>, id: string, p: Patch)
    ensures FindElement(PatchElements(s, id, p), id)
         == if FindElement(s, id).Some? then Some(ApplyPatch(FindElement(s, id).value, p)) else None
  {
    var r := PatchElements(s, id, p);
    var before := FindElement(s, id);
    var after := FindElement(r, id);
    if before.Some? {
      var k :| 0 <= k < |s| && s[k] == before.value && forall j :: 0 <= j < k ==> s[j].id != id;
      assert r[k] in r && r[k].id == id;
      var k' :| 0 <= k' < |r| && r[k'] == after.value && forall j :: 0 <= j < k' ==> r[j].id != id;
      assert s[k'].id == id;
      assert k' == k;
    } else {
      forall e | e in r
        ensures e.id != id
      {
        var i :| 0 <= i < |r| && r[i] == e;
        assert s[i] in s;
      }
    }
  }

  /** Of two merge updates of the same field, the second wins. */
  lemma PatchLastWriteWins(s: seq<Element>, id: string, p: Patch, q: Patch)
    requires SameField(p, q)
    ensures PatchElements(PatchElements(s, id, p), id, q) == PatchElements(s, id, q)
  {
    var r1 := PatchElements(PatchElements(s, id, p), id, q);
    var r2 := PatchElements(s, id, q);
    forall i | 0 <= i < |s| && s[i].id == id
      ensures r1[i] == r2[i]
    {
      PatchTwice(s[i], p, q);
    }
  }

  /** Of two patches of the same field on one element, the second wins. */
  lemma PatchTwice(e: Element, p: Patch, q: Patch)
    requires SameField(p, q)
    ensures ApplyPatch(ApplyPatch(e, p), q) == ApplyPatch(e, q)
  {
    if e.kind.Text? && p.SetFormat? {
      var a := ApplyPatch(ApplyPatch(e, p), q);
      var b := ApplyPatch(e, q);
      assert FormatOf(a.kind, Bold) == FormatOf(b.kind, Bold);
      assert FormatOf(a.kind, Italic) == FormatOf(b.kind, Italic);
      assert FormatOf(a.kind, Underline) == FormatOf(b.kind, Underline);
    }
  }

  /** Merge updates of different fields commute. */
  lemma PatchesOfDifferentFieldsCommute(s: seq<Element>, id: string, p: Patch, q: Patch)
    requires !SameField(p, q)
    ensures PatchElements(PatchElements(s, id, p), id, q) == PatchElements(PatchElements(s, id, q), id, p)
  {
    var r1 := PatchElements(PatchElements(s, id, p), id, q);
    var r2 := PatchElements(PatchElements(s, id, q), id, p);
    forall i | 0 <= i < |s| && s[i].id == id
      ensures r1[i] == r2[i]
    {
      PatchesCommute(s[i], p, q);
    }
  }

  /** Patches of different fields on one element commute. */
  lemma PatchesCommute(e: Element, p: Patch, q: Patch)
    requires !SameField(p, q)
    ensures ApplyPatch(ApplyPatch(e, p), q) == ApplyPatch(ApplyPatch(e, q), p)
  {
    if e.kind.Text? && p.SetFormat? && q.SetFormat? {
      var a := ApplyPatch(ApplyPatch(e, p), q);
      var b := ApplyPatch(ApplyPatch(e, q), p);
      assert FormatOf(a.kind, Bold) == FormatOf(b.kind, Bold);
      assert FormatOf(a.kind, Italic) == FormatOf(b.kind, Italic);
      assert FormatOf(a.kind, Underline) == FormatOf(b.kind, Underline);
    } else {
      match p
      case SetContent(_) =>
      case SetFontSize(_) =>
      case SetFormat(_, _) =>
      case SetColor(_) =>
      case SetShapeText(_) =>
    }
  }

  /** A merge update for an id no element carries changes nothing. */
  lemma PatchAbsentElement(s: seq<Element>, id: string, p: Patch)
    requires forall e :: e in s ==> e.id != id
    ensures PatchElements(s, id, p) == s
  {
  }

  lemma {:induction false} RemoveElementSubseq(s: seq<Element>, id: string)
    ensures SubseqOf(RemoveElement(s, id), s)
  {
    FilterIsSubseq(s, (e: Element) => e.id != id);
  }

  /** Deleting an id twice is deleting it once. */
  lemma {:induction false} RemoveElementIdempotent(s: seq<Element>, id: string)
    ensures RemoveElement(RemoveElement(s, id), id) == RemoveElement(s, id)
  {
    FilterIdempotent(s, (e: Element) => e.id != id);
  }

  /** Deleting an id no element carries changes nothing. */
  lemma {:induction false} RemoveAbsentElement(s: seq<Element>, id: string)
    requires forall e :: e in s ==> e.id != id
    ensures RemoveElement(s, id) == s
  {
    FilterKeepsAll(s, (e: Element) => e.id != id);
  }

  /** After `element:added`, the element is the only one with its id, it is last,
      and the other elements keep their relative order. */
  lemma {:induction false} UpsertElementPlacesLast(s: seq<Element>, e: Element)
    ensures var r := UpsertElement(s, e);
      && (forall i :: 0 <= i < |r| && r[i].id == e.id ==> i == |r| - 1)
      && r[..|r| - 1] == RemoveElement(s, e.id)
      && SubseqOf(r[..|r| - 1], s)
  {
    var r := UpsertElement(s, e);
    assert r[..|r| - 1] == RemoveElement(s, e.id);
    RemoveElementSubseq(s, e.id);
  }

  /** `element:updated` for an id that is not on the canvas changes nothing:
      a deleted element is not resurrected. */
  lemma ReplaceAbsentElement(s: seq<Element>, e: Element)
    requires forall x :: x in s ==> x.id != e.id
    ensures ReplaceElement(s, e) == s
  {
  }

  /** Replacing never introduces an id and never drops one. */
  lemma ReplaceElementKeepsIds(s: seq<Element>, e: Element)
    ensures var r := ReplaceElement(s, e);
      forall i :: 0 <= i < |s| ==> r[i].id == s[i].id
  {
  }

  // ---------------------------------------------------------------------------
  // Connector list transformations

  /** Deleting a connector id: the connectors with another id remain, each as often as before. */
  function RemoveConnector(cs: seq<Connector>, id: string): (r: seq<Connector>)
    ensures forall c :: c in r <==> c in cs && c.id != id
    ensures forall c :: multiset(r)[c] == if c.id != id then multiset(cs)[c] else 0
  {
    Filter(cs, (c: Connector) => c.id != id)
  }

  /** An upsert that moves the received connector to the end. */
  function UpsertConnector(cs: seq<Connector>, c: Connector): (r: seq<Connector>)
    ensures |r| >= 1 && r[|r| - 1] == c
    ensures forall i :: 0 <= i < |r| - 1 ==> r[i].id != c.id
    ensures forall x :: x in r <==> x == c || (x in cs && x.id != c.id)
  {
    RemoveConnector(cs, c.id) + [c]
  }

  lemma {:induction false} RemoveConnectorIdempotent(cs: seq<Connector>, id: string)
    ensures RemoveConnector(RemoveConnector(cs, id), id) == RemoveConnector(cs, id)
  {
    FilterIdempotent(cs, (c: Connector) => c.id != id);
  }

  lemma {:induction false} RemoveConnectorSubseq(cs: seq<Connector>, id: string)
    ensures SubseqOf(RemoveConnector(cs, id), cs)
  {
    FilterIsSubseq(cs, (c: Connector) => c.id != id);
  }

  /** After `connector:added`, the connector is the only one with its id, it is
      last, and the others are the previous ones with another id, in order and
      each as often as before. */
  lemma {:induction false} UpsertConnectorPlacesLast(cs: seq<Connector>, c: Connector)
    ensures var r := UpsertConnector(cs, c);
      && (forall i :: 0 <= i < |r| && r[i].id == c.id ==> i == |r| - 1)
      && r[..|r| - 1] == RemoveConnector(cs, c.id)
      && SubseqOf(r[..|r| - 1], cs)
      && forall x :: multiset(r)[x] == if x.id != c.id then multiset(cs)[x] else if x == c then 1 else 0
  {
    var r := UpsertConnector(cs, c);
    assert r[..|r| - 1] == RemoveConnector(cs, c.id);
    RemoveConnectorSubseq(cs, c.id);
  }

  // ---------------------------------------------------------------------------
  // Drawing connectors

  /** What drawing one connector produces: a line between two points, nothing
      (an endpoint element is missing), or a thrown TypeError (an endpoint has no
      recorded anchor, or its element has no size and so no anchor points). */
  datatype Drawn = Line(from: Point, to: Point) | Hidden | Throws

  /** The anchor an end of a connector is drawn at: the first current anchor with
      the recorded anchor's id, or else the first current anchor; none when nothing
      is recorded or there are no anchors (both throw when drawn). */
  function PickAnchor(points: seq<Anchor>, stored: Option<Anchor>): (r: Option<Anchor>)
    ensures stored.None? || points == [] ==> r.None?
    ensures stored.Some? && (exists i :: 0 <= i < |points| && points[i].id == stored.value.id) ==>
      && r.Some? && r.value.id == stored.value.id
      && exists k :: 0 <= k < |points| && points[k] == r.value
                     && forall j :: 0 <= j < k ==> points[j].id != stored.value.id
    ensures stored.Some? && points != [] && (forall i :: 0 <= i < |points| ==> points[i].id != stored.value.id) ==>
      r == Some(points[0])
  {
    if stored.None? || points == [] then None
    else
      var found := Find(points, (p: Anchor) => p.id == stored.value.id);
      if found.Some? then found else Some(points[0])
  }

  /** A recorded anchor whose id is that of the first current anchor resolves to it. */
  lemma PickAnchorFirstMatch(points: seq<Anchor>, stored: Option<Anchor>)
    requires points != [] && stored.Some? && points[0].id == stored.value.id
    ensures PickAnchor(points, stored) == Some(points[0])
  {
  }

  /** `p` is where an end recorded with anchor `stored` is drawn among the current
      anchors `points`: at the anchor with that id, or at the first one when none has it. */
  predicate DrawnAt(points: seq<Anchor>, stored: Anchor, p: Point) {
    || (exists a :: a in points && a.id == stored.id && p == Point(a.x, a.y))
    || (points != [] && (forall a :: a in points ==> a.id != stored.id) && p == Point(points[0].x, points[0].y))
  }

  /** Both ends' elements exist and have a size, and both ends have a recorded anchor. */
  predicate Drawable(elements: seq<Element>, c: Connector) {
    && FindElement(elements, c.from.elementId).Some? && FindElement(elements, c.from.elementId).value.size.Some?
    && FindElement(elements, c.to.elementId).Some? && FindElement(elements, c.to.elementId).value.size.Some?
    && c.from.anchor.Some? && c.to.anchor.Some?
  }

  /** The current anchors of the element an end is attached to (requires it to exist). */
  function EndAnchors(elements: seq<Element>, end: Endpoint): seq<Anchor>
    requires FindElement(elements, end.elementId).Some?
  {
    var e := FindElement(elements, end.elementId).value;
    AnchorPoints(e.position, e.size)
  }

  /** Resolves one connector against the live elements: missing endpoints hide it,
      and each end is drawn at the current anchor point with the recorded anchor's id,
      falling back to the first (top) anchor. */
  function DrawConnector(elements: seq<Element>, c: Connector): (d: Drawn)
    ensures FindElement(elements, c.from.elementId).None? || FindElement(elements, c.to.elementId).None? <==> d.Hidden?
    ensures d.Line? <==> Drawable(elements, c)
    ensures d.Line? ==>
      && DrawnAt(EndAnchors(elements, c.from), c.from.anchor.value, d.from)
      && DrawnAt(EndAnchors(elements, c.to), c.to.anchor.value, d.to)
  {
    var fromElement := FindElement(elements, c.from.elementId);
    var toElement := FindElement(elements, c.to.elementId);
    if fromElement.None? || toElement.None? then Hidden
    else if c.from.anchor.None? || c.to.anchor.None? then Throws
    else
      var fromPoints := AnchorPoints(fromElement.value.position, fromElement.value.size);
      var toPoints := AnchorPoints(toElement.value.position, toElement.value.size);
      var fromAnchor := PickAnchor(fromPoints, c.from.anchor);
      var toAnchor := PickAnchor(toPoints, c.to.anchor);
      if fromAnchor.None? || toAnchor.None? then Throws
      else
        PickAnchorDrawnAt(fromPoints, c.from.anchor);
        PickAnchorDrawnAt(toPoints, c.to.anchor);
        Line(Point(fromAnchor.value.x, fromAnchor.value.y), Point(toAnchor.value.x, toAnchor.value.y))
  }

  /** The anchor picked for a recorded end is where that end is drawn. */
  lemma PickAnchorDrawnAt(points: seq<Anchor>, stored: Option<Anchor>)
    requires stored.Some? && points != []
    ensures var r := PickAnchor(points, stored);
      r.Some? && DrawnAt(points, stored.value, Point(r.value.x, r.value.y))
  {
    var r := PickAnchor(points, stored);
    if exists i :: 0 <= i < |points| && points[i].id == stored.value.id {
      assert r.value in points;
    }
  }

  /** An end recorded at a side is drawn at the current midpoint of that side of
      its element, wherever the element has moved or however it was resized; an end
      recorded with an unknown side is drawn at the top midpoint. */
  lemma DrawnEndsFollowElements(elements: seq<Element>, c: Connector)
    requires Drawable(elements, c)
    ensures var d := DrawConnector(elements, c);
      var fromPoints := EndAnchors(elements, c.from);
      var toPoints := EndAnchors(elements, c.to);
      && d.Line?
      && (forall k :: 0 <= k < 4 && fromPoints[k].id == c.from.anchor.value.id ==>
            d.from == Point(fromPoints[k].x, fromPoints[k].y))
      && (forall k :: 0 <= k < 4 && toPoints[k].id == c.to.anchor.value.id ==>
            d.to == Point(toPoints[k].x, toPoints[k].y))
      && (c.from.anchor.value.id !in SideNames ==> d.from == Point(fromPoints[0].x, fromPoints[0].y))
      && (c.to.anchor.value.id !in SideNames ==> d.to == Point(toPoints[0].x, toPoints[0].y))
  {
    var d := DrawConnector(elements, c);
    DrawnAtSide(EndAnchors(elements, c.from), c.from.anchor.value, d.from);
    DrawnAtSide(EndAnchors(elements, c.to), c.to.anchor.value, d.to);
  }

  /** Among anchors named by the four distinct side names, an end is drawn at the
      anchor of its recorded side, or at the first one for an unknown side. */
  lemma DrawnAtSide(points: seq<Anchor>, stored: Anchor, p: Point)
    requires |points| == 4 && [points[0].id, points[1].id, points[2].id, points[3].id] == SideNames
    requires DrawnAt(points, stored, p)
    ensures forall k :: 0 <= k < 4 && points[k].id == stored.id ==> p == Point(points[k].x, points[k].y)
    ensures stored.id !in SideNames ==> p == Point(points[0].x, points[0].y)
  {
    if exists a :: a in points && a.id == stored.id && p == Point(a.x, a.y) {
      var a :| a in points && a.id == stored.id && p == Point(a.x, a.y);
      var i :| 0 <= i < 4 && points[i] == a;
      assert stored.id in SideNames by { assert SideNames[i] == stored.id; }
    } else {
      assert forall a :: a in points ==> a.id != stored.id;
      assert forall k :: 0 <= k < 4 ==> points[k] in points;
    }
  }

  /** `renderConnectors`: one drawing per connector, in connector order. */
  function DrawConnectors(elements: seq<Element>, cs: seq<Connector>): (r: seq<Drawn>)
    ensures |r| == |cs|
    ensures forall i :: 0 <= i < |cs| ==> r[i] == DrawConnector(elements, cs[i])
  {
    seq(|cs|, i requires 0 <= i < |cs| => DrawConnector(elements, cs[i]))
  }

  /** Deleting an element leaves its connectors in place but hides them:
      a dangling reference is not an error. */
  lemma DeletedEndpointHides(elements: seq<Element>, cs: seq<Connector>, id: string)
    ensures var r := DrawConnectors(RemoveElement(elements, id), cs);
      forall i :: 0 <= i < |cs| && (cs[i].from.elementId == id || cs[i].to.elementId == id) ==> r[i] == Hidden
  {
  }
}
