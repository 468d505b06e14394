/** The browser side of saving a file: object URLs over blobs, the
    temporary `<a download>` link, and the saves the user sees. Object
    URLs are abstract handles numbered in creation order. */
module Delivery {
  import opened Wrappers
  import opened JsText

  /** A response body; its bytes play no part in the rules modelled. */
  datatype Blob = Blob(bytes: seq<bv8>)

  /** A link target: an object URL minted by `URL.createObjectURL`, or any
      other URL text. */
  datatype Url = ObjectUrl(id: nat) | TextUrl(text: JsString)

  /** One save the browser performed: the link's `href` and `download`
      name, and the blob the `href` resolved to when the link was clicked
      (`None` when it named no live object URL). */
  datatype Save = Save(href: Url, name: JsString, content: Option<Blob>)

  /** The state the delivery code touches: the live object URLs and the
      next handle to mint, how many were created and revoked, how many
      children the document body has, and every save so far. */
  datatype Browser = Browser(
    store: map<nat, Blob>,
    nextId: nat,
    created: nat,
    revoked: nat,
    children: nat,
    saves: seq<Save>)

  /** Handles still to be minted are not live yet. */
  predicate HandlesFresh(b: Browser) {
    forall id :: id in b.store ==> id < b.nextId
  }

  /** The blob a link target currently designates. */
  function Resolve(b: Browser, u: Url): Option<Blob> {
    match u
    case ObjectUrl(id) => if id in b.store then Some(b.store[id]) else None
    case TextUrl(_) => None
  }

  /** `URL.createObjectURL(blob)`: a fresh handle, live from now on;
      every other URL resolves as before. */
  function CreateObjectUrl(b: Browser, blob: Blob): (r: (Browser, Url))
    requires HandlesFresh(b)
    ensures HandlesFresh(r.0)
    ensures r.1 == ObjectUrl(b.nextId) && b.nextId !in b.store
    ensures Resolve(r.0, r.1) == Some(blob)
    ensures forall v :: v != r.1 ==> Resolve(r.0, v) == Resolve(b, v)
    ensures r.0.store.Keys == b.store.Keys + {b.nextId}
    ensures r.0.nextId == b.nextId + 1 && r.0.created == b.created + 1
    ensures r.0.saves == b.saves && r.0.children == b.children && r.0.revoked == b.revoked
  {
    (b.(store := b.store[b.nextId := blob], nextId := b.nextId + 1, created := b.created + 1),
     ObjectUrl(b.nextId))
  }

  /** `URL.revokeObjectURL(url)`: the handle stops resolving; other URLs
      are unaffected. Revoking a URL that is not live is a no-op, so
      `revoked` counts the handles actually released. */
  function RevokeObjectUrl(b: Browser, u: Url): (r: Browser)
    ensures Resolve(r, u).None?
    ensures forall v :: v != u ==> Resolve(r, v) == Resolve(b, v)
    ensures r.revoked == if Resolve(b, u).Some? then b.revoked + 1 else b.revoked
    ensures Resolve(b, u).None? ==> r == b
    ensures r.nextId == b.nextId && r.created == b.created
    ensures r.saves == b.saves && r.children == b.children
  {
    match u
    case ObjectUrl(id) =>
      if id in b.store then b.(store := b.store - {id}, revoked := b.revoked + 1) else b
    case TextUrl(_) => b
  }

  /** Create an `<a>` with the given `href` and `download` attributes,
      append it to the body, click it and remove it again. The click saves
      whatever `href` designates at that moment under `name`. */
  function SaveThroughLink(b: Browser, href: Url, name: JsString): (r: Browser)
    ensures r.saves == b.saves + [Save(href, name, Resolve(b, href))]
    ensures r.children == b.children
    ensures r.store == b.store && r.nextId == b.nextId
    ensures r.created == b.created && r.revoked == b.revoked
  {
    var appended := b.(children := b.children + 1);
    var clicked := appended.(saves := appended.saves + [Save(href, name, Resolve(appended, href))]);
    clicked.(children := clicked.children - 1)
  }

  /** The generator's `downloadFile(data, filename)`: mint an object URL
      for the blob, save it through a temporary link, then revoke the URL.
      The save carries exactly the given blob and name, and no handle or
      body child outlives the call. */
  function DownloadFile(b: Browser, data: Blob, filename: JsString): (r: Browser)
    requires HandlesFresh(b)
    ensures HandlesFresh(r)
    ensures r.saves == b.saves + [Save(ObjectUrl(b.nextId), filename, Some(data))]
    ensures r.store == b.store
    ensures r.children == b.children
    ensures r.created == b.created + 1 && r.revoked == b.revoked + 1
    ensures r.nextId == b.nextId + 1
    ensures Resolve(r, ObjectUrl(b.nextId)).None?
  {
    var (minted, url) := CreateObjectUrl(b, data);
    var saved := SaveThroughLink(minted, url, filename);
    RevokeObjectUrl(saved, url)
  }

  /** The number of object URLs created and not yet revoked does not
      change across a download, whatever state it starts from. */
  lemma DownloadFileBalanced(b: Browser, data: Blob, filename: JsString)
    requires HandlesFresh(b)
    ensures DownloadFile(b, data, filename).created - DownloadFile(b, data, filename).revoked
      == b.created - b.revoked
    ensures |DownloadFile(b, data, filename).store| == |b.store|
  {
  }
}
