/** Image externalisation: uploaded images are kept out of the synced and saved
    document. Their inline `data:` URL lives in a local key-value cache (the
    browser's localStorage, here a map) and the document carries the key instead. */
module Images {
  import opened Common
  import opened Geometry
  import opened Canvas

  const Placeholder: string := "image-placeholder"
  const DataPrefix: string := "data:"

  /** The url is an inline payload. */
  predicate IsInline(url: string) { DataPrefix <= url }

  /** One element as `cleanElementsForSave` writes it: an image whose url is inline
      gets its storage key (or the placeholder) as url; everything else is unchanged. */
  function CleanElement(e: Element): (r: Element)
    ensures r.id == e.id && r.position == e.position && r.size == e.size
    ensures !(e.kind.Image? && IsInline(e.kind.url)) ==> r == e
    ensures e.kind.Image? && IsInline(e.kind.url) ==>
      r.kind == Image(if e.kind.storageKey != "" then e.kind.storageKey else Placeholder, e.kind.storageKey)
  {
    match e.kind
    case Image(url, key) =>
      if IsInline(url) then e.(kind := Image(if key != "" then key else Placeholder, key)) else e
    case _ => e
  }

  /** `cleanElementsForSave`: what is sent to the server on save. */
  function CleanElementsForSave(s: seq<Element>): (r: seq<Element>)
    ensures |r| == |s|
    ensures forall i :: 0 <= i < |s| ==> r[i] == CleanElement(s[i])
  {
    seq(|s|, i requires 0 <= i < |s| => CleanElement(s[i]))
  }

  lemma PlaceholderNotInline()
    ensures !IsInline(Placeholder)
  {
    assert Placeholder[0] != DataPrefix[0];
  }

  /** Inline payloads never leave the client: an image still carrying an inline url
      after cleaning carries its own storage key as url. */
  lemma CleanedHasNoPayload(s: seq<Element>)
    ensures var r := CleanElementsForSave(s);
      forall i :: 0 <= i < |r| && r[i].kind.Image? && IsInline(r[i].kind.url) ==>
        r[i].kind.url == r[i].kind.storageKey
  {
    PlaceholderNotInline();
  }

  /** Cleaning an already-cleaned list changes nothing. */
  lemma CleanIdempotent(s: seq<Element>)
    ensures CleanElementsForSave(CleanElementsForSave(s)) == CleanElementsForSave(s)
  {
  }

  /** The element is an image with a (non-empty) key under which the cache holds a non-empty value. */
  predicate Rehydrates(e: Element, cache: map<string, string>) {
    e.kind.Image? && e.kind.storageKey != "" && e.kind.storageKey in cache && cache[e.kind.storageKey] != ""
  }

  /** An image whose storage key has a non-empty cached value gets that value as url,
      otherwise it keeps its own url; every other element is unchanged. */
  function RestoreElement(e: Element, cache: map<string, string>): (r: Element)
    ensures r.id == e.id && r.position == e.position && r.size == e.size
    ensures r.kind.Image? == e.kind.Image?
    ensures e.kind.Image? ==> r.kind.storageKey == e.kind.storageKey
    ensures Rehydrates(e, cache) ==> r.kind.url == cache[e.kind.storageKey]
    ensures !Rehydrates(e, cache) ==> r == e
  {
    match e.kind
    case Image(url, key) =>
      if key != "" && key in cache && cache[key] != "" then e.(kind := Image(cache[key], key)) else e
    case _ => e
  }

  /** Restoring every element of a received or loaded list. */
  function RestoreElements(s: seq<Element>, cache: map<string, string>): (r: seq<Element>)
    ensures |r| == |s|
    ensures forall i :: 0 <= i < |s| ==> r[i] == RestoreElement(s[i], cache)
  {
    seq(|s|, i requires 0 <= i < |s| => RestoreElement(s[i], cache))
  }

  /** The element created by an upload: the inline data for display and the key for sync. */
  function UploadedImage(id: string, storageKey: string, data: string): Element {
    Element(id, Point(200.0, 200.0), Some(Size(300.0, 300.0)), Image(data, storageKey))
  }

  /** The copy of an uploaded image that is broadcast carries only the key,
      which is what cleaning produces from a data URL. */
  lemma BroadcastUploadIsClean(id: string, storageKey: string, data: string)
    requires storageKey != "" && IsInline(data)
    ensures var e := UploadedImage(id, storageKey, data);
      CleanElement(e) == e.(kind := Image(storageKey, storageKey))
  {
  }

  /** Round trip: after the upload put `data` under `storageKey`, restoring the cleaned
      element gives back the element as uploaded. */
  lemma UploadRoundTrip(id: string, storageKey: string, data: string, cache: map<string, string>)
    requires storageKey != ""
    ensures var e := UploadedImage(id, storageKey, data);
      RestoreElement(CleanElement(e), cache[storageKey := data]) == e
  {
  }

  /** A viewer whose cache lacks the key is left with the key as url, not the image. */
  lemma MissingKeyLeavesReference(id: string, storageKey: string, data: string, cache: map<string, string>)
    requires storageKey != "" && IsInline(data) && storageKey !in cache
    ensures RestoreElement(CleanElement(UploadedImage(id, storageKey, data)), cache).kind.url == storageKey
  {
  }

  /** The element can be fully rehydrated from the cache: every image with a key
      has its url stored under the key, and no inline image lacks a key. */
  predicate Restorable(e: Element, cache: map<string, string>) {
    e.kind.Image? ==>
      (e.kind.storageKey != "" ==> e.kind.storageKey in cache && cache[e.kind.storageKey] == e.kind.url)
      && (e.kind.storageKey == "" ==> !IsInline(e.kind.url))
  }

  /** Round trip for a whole document: loading what was saved, with a cache that
      holds every image's data, gives back the document as it was before saving. */
  lemma {:induction false} RestoreUndoesClean(s: seq<Element>, cache: map<string, string>)
    requires forall e :: e in s ==> Restorable(e, cache)
    ensures RestoreElements(CleanElementsForSave(s), cache) == s
  {
    var r := RestoreElements(CleanElementsForSave(s), cache);
    forall i | 0 <= i < |s| ensures r[i] == s[i] {
      assert Restorable(s[i], cache);
    }
  }
}
