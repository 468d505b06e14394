/** The deferred download page: it reads a hand-off record from the
    navigation state, sends the user back to `/` when the record lacks a
    file URL or a filename, and otherwise offers a button that saves the
    carried URL under the carried name. */
module DownloadPage {
  import opened Wrappers
  import opened JsText
  import opened Delivery

  /** The fields destructured from `location.state`; `None` is `undefined`. */
  datatype HandOff = HandOff(
    fileUrl: Option<Url>,
    filename: Option<JsString>,
    topic: Option<JsString>,
    slides: Option<int>)

  /** What the page shows when it renders: the filename, the topic and
      slide count as carried, and the download button. */
  datatype View = View(filename: JsString, topic: Option<JsString>, slides: Option<int>)

  /** The outcome of mounting the page: whether the effect navigates to
      `/`, and what is rendered (`None` for `return null`). */
  datatype Mounted = Mounted(navigatesHome: bool, view: Option<View>)

  /** `location.state || {}`: a missing state reads as an empty record. */
  function Fields(state: Option<HandOff>): (h: HandOff)
    ensures state.None? ==> h.fileUrl.None? && h.filename.None? && h.topic.None? && h.slides.None?
    ensures state.Some? ==> h == state.value
  {
    state.GetOr(HandOff(None, None, None, None))
  }

  /** JavaScript truthiness of a URL string: only the empty string is
      falsy; a minted object URL is never empty. */
  predicate UrlTruthy(u: Option<Url>): (r: bool)
    ensures !r <==> u.None? || u == Some(TextUrl([]))
  {
    match u
    case None => false
    case Some(ObjectUrl(_)) => true
    case Some(TextUrl(t)) => t != []
  }

  /** JavaScript truthiness of the filename: `undefined` and `""` are
      falsy, every other string is truthy. */
  predicate NameTruthy(n: Option<JsString>): (r: bool)
    ensures !r <==> n.None? || n == Some([])
  {
    n.Some? && n.value != []
  }

  /** `fileUrl && filename`: the guard shared by the effect, the render
      and the click handler. */
  predicate Ready(h: HandOff): (r: bool)
    ensures r <==> h.fileUrl.Some? && h.fileUrl != Some(TextUrl([]))
                   && h.filename.Some? && |h.filename.value| > 0
  {
    UrlTruthy(h.fileUrl) && NameTruthy(h.filename)
  }

  /** Mounting the page: the effect navigates home exactly when the guard
      fails, and exactly then the page renders nothing; otherwise it shows
      the carried filename, topic and slide count. */
  function Mount(state: Option<HandOff>): (r: Mounted)
    ensures r.navigatesHome <==> !Ready(Fields(state))
    ensures r.view.None? <==> r.navigatesHome
    ensures r.view.Some? ==>
      && r.view.value.filename == Fields(state).filename.value
      && r.view.value.topic == Fields(state).topic
      && r.view.value.slides == Fields(state).slides
  {
    var h := Fields(state);
    if !UrlTruthy(h.fileUrl) || !NameTruthy(h.filename) then Mounted(true, None)
    else Mounted(false, Some(View(h.filename.value, h.topic, h.slides)))
  }

  /** The button's `handleDownload`: when the guard holds, save exactly the
      carried URL under exactly the carried name through a temporary link;
      otherwise do nothing. The URL is never revoked here. */
  function HandleDownload(h: HandOff, b: Browser): (r: Browser)
    ensures !Ready(h) ==> r == b
    ensures Ready(h) ==>
      r.saves == b.saves + [Save(h.fileUrl.value, h.filename.value, Resolve(b, h.fileUrl.value))]
    ensures r.store == b.store && r.nextId == b.nextId
    ensures r.created == b.created && r.revoked == b.revoked
    ensures r.children == b.children
  {
    if UrlTruthy(h.fileUrl) && NameTruthy(h.filename) then
      SaveThroughLink(b, h.fileUrl.value, h.filename.value)
    else
      b
  }

  /** Only the file URL and the filename decide the redirect; the topic
      and slide count never do. */
  lemma RedirectIgnoresMetadata(h1: HandOff, h2: HandOff)
    requires h1.fileUrl == h2.fileUrl && h1.filename == h2.filename
    ensures Mount(Some(h1)).navigatesHome == Mount(Some(h2)).navigatesHome
  {
  }

  /** An absent or empty hand-off redirects and renders no download
      controls. */
  lemma EmptyHandOffRedirects(state: Option<HandOff>)
    requires state == None || state == Some(HandOff(None, None, None, None))
    ensures Mount(state) == Mounted(true, None)
  {
  }

  /** Clicking twice saves the same artifact twice: two identical saves,
      the hand-off untouched and the URL still resolving as before. */
  lemma RepeatedDownloadIsIdentical(h: HandOff, b: Browser)
    requires Ready(h)
    ensures
      var once := HandleDownload(h, b);
      var twice := HandleDownload(h, once);
      && |twice.saves| == |b.saves| + 2
      && twice.saves[|b.saves|] == twice.saves[|b.saves| + 1]
      && Resolve(twice, h.fileUrl.value) == Resolve(b, h.fileUrl.value)
  {
  }
}
