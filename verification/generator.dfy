/** The generator form: its three pieces of state, the guards on its
    inputs, the submit handler and the settlement of the request it sends.
    The asynchronous handler is split at its `await`: `HandleGenerate` is
    the part that runs when the user submits, `Complete` the part that
    runs when the request resolves or rejects, reached through the
    `Settle` event. */
module Generator {
  import opened Wrappers
  import opened JsText
  import SlideCount
  import opened Filename
  import opened Messages
  import opened Delivery

  /** The component's state: `topic`, `slides` and `isGenerating`. */
  datatype Ui = Ui(topic: JsString, slides: int, isGenerating: bool)

  /** The values the running handler read when it was entered. */
  datatype Attempt = Attempt(topic: JsString, slides: int)

  /** The outbound request: its `topic` and `slides` parameters and its
      timeout in milliseconds. */
  datatype Request = Request(topic: JsString, slides: int, timeoutMs: int)

  datatype Toast = SuccessToast(message: string) | ErrorToast(message: string)

  /** How the request ends: a body with an optional `content-disposition`
      header, or an error with an optional `code` and an optional response
      status. */
  datatype Response =
    | Ok(data: Blob, contentDisposition: Option<JsString>)
    | Failed(code: Option<string>, status: Option<int>)

  /** Everything the form affects: its state, the attempt awaiting a
      response, the requests sent, the toasts shown, the failures written
      to the console, the browser, and how many times the handler ran. */
  datatype Machine = Machine(
    ui: Ui,
    inFlight: Option<Attempt>,
    requests: seq<Request>,
    toasts: seq<Toast>,
    logged: seq<Response>,
    browser: Browser,
    handled: nat)

  /** What can happen to the form. `EditSlides` carries the `parseInt`
      result of the field's text, `None` for NaN. `KeyDown` is a key
      pressed in the topic input, the only element with a key handler, so
      Enter in the slides field does nothing. */
  datatype Event =
    | EditTopic(value: JsString)
    | EditSlides(parsed: Option<int>)
    | KeyDown(key: string)
    | ClickGenerate
    | Settle(response: Response)

  const RequestTimeoutMs := 60000

  /** Both inputs are disabled while a request is in flight. */
  predicate InputsDisabled(ui: Ui): (r: bool)
    ensures r <==> ui.isGenerating
    ensures r ==> ButtonDisabled(ui)
  {
    ui.isGenerating
  }

  /** `disabled={!topic.trim() || isGenerating}` on the button. */
  predicate ButtonDisabled(ui: Ui): (r: bool)
    ensures !r <==> !ui.isGenerating && exists i :: 0 <= i < |ui.topic| && !IsTrimmable(ui.topic[i])
    ensures ui.topic == [] ==> r
  {
    IsBlank(ui.topic) || ui.isGenerating
  }

  /** The form as first rendered, over a given browser. */
  function Init(b: Browser): (m: Machine)
    ensures m.ui == Ui([], SlideCount.DefaultSlides, false) && SlideCount.InRange(m.ui.slides)
    ensures m.inFlight.None? && m.requests == [] && m.toasts == [] && m.logged == []
    ensures m.browser == b && m.handled == 0
  {
    Machine(Ui([], SlideCount.DefaultSlides, false), None, [], [], [], b, 0)
  }

  /** A request the handler can send: a non-empty topic without leading or
      trailing whitespace, a slide count in range and the fixed timeout. */
  predicate WellFormedRequest(q: Request) {
    && q.topic != []
    && !IsTrimmable(q.topic[0]) && !IsTrimmable(q.topic[|q.topic| - 1])
    && SlideCount.InRange(q.slides)
    && q.timeoutMs == RequestTimeoutMs
  }

  /** The synchronous part of `handleGeneratePPT`. A blank topic shows the
      validation toast and returns; otherwise the busy flag is raised and
      one request is sent with the trimmed topic and the current count. */
  function HandleGenerate(m: Machine): (r: Machine)
    ensures r.handled == m.handled + 1
    ensures |r.toasts| + |r.requests| == |m.toasts| + |m.requests| + 1
    ensures IsBlank(m.ui.topic) <==> |r.requests| == |m.requests|
    ensures IsBlank(m.ui.topic) ==>
      r == m.(toasts := m.toasts + [ErrorToast(ValidationMessage)], handled := m.handled + 1)
    ensures !IsBlank(m.ui.topic) ==>
      && r.ui == m.ui.(isGenerating := true)
      && r.inFlight == Some(Attempt(m.ui.topic, m.ui.slides))
      && r.requests == m.requests + [Request(Trim(m.ui.topic), m.ui.slides, RequestTimeoutMs)]
      && r.toasts == m.toasts && r.browser == m.browser && r.logged == m.logged
  {
    if IsBlank(m.ui.topic) then
      m.(toasts := m.toasts + [ErrorToast(ValidationMessage)], handled := m.handled + 1)
    else
      m.(ui := m.ui.(isGenerating := true),
         inFlight := Some(Attempt(m.ui.topic, m.ui.slides)),
         requests := m.requests + [Request(Trim(m.ui.topic), m.ui.slides, RequestTimeoutMs)],
         handled := m.handled + 1)
  }

  /** The rest of `handleGeneratePPT`, once the request of `attempt`
      settles. Success saves the body under the derived name, shows the
      success toast and resets the form; failure logs the error, shows the
      one message its classification selects and leaves the inputs alone.
      Either way the busy flag is lowered. */
  function Complete(m: Machine, attempt: Attempt, response: Response): (r: Machine)
    requires Delivery.HandlesFresh(m.browser)
    ensures Delivery.HandlesFresh(r.browser)
    ensures !r.ui.isGenerating && r.inFlight.None?
    ensures r.requests == m.requests && r.handled == m.handled
    ensures |r.toasts| == |m.toasts| + 1 && r.toasts[..|m.toasts|] == m.toasts
    ensures r.toasts[|m.toasts|].SuccessToast? <==> response.Ok?
    ensures r.browser.store == m.browser.store && r.browser.children == m.browser.children
    ensures r.logged == if response.Failed? then m.logged + [response] else m.logged
  {
    match response
    case Ok(data, header) =>
      var filename := ResponseFilename(attempt.topic, header);
      m.(browser := DownloadFile(m.browser, data, filename),
         toasts := m.toasts + [SuccessToast(SuccessMessage)],
         ui := Ui([], SlideCount.DefaultSlides, false),
         inFlight := None)
    case Failed(code, status) =>
      m.(logged := m.logged + [response],
         toasts := m.toasts + [ErrorToast(ErrorMessage(Classify(code, status)))],
         ui := m.ui.(isGenerating := false),
         inFlight := None)
  }

  /** One event. Disabled inputs receive nothing; Enter submits only when
      not busy; the button submits only when enabled; a response arrives
      only for a request in flight. */
  function Step(m: Machine, e: Event): (r: Machine)
    requires Delivery.HandlesFresh(m.browser)
    ensures Delivery.HandlesFresh(r.browser)
    ensures m.ui.isGenerating && !e.Settle? ==> r == m
    ensures r.browser.store == m.browser.store && r.browser.children == m.browser.children
    ensures |m.requests| <= |r.requests| <= |m.requests| + 1
  {
    match e
    case EditTopic(v) =>
      if InputsDisabled(m.ui) then m else m.(ui := m.ui.(topic := v))
    case EditSlides(p) =>
      if InputsDisabled(m.ui) then m else m.(ui := m.ui.(slides := SlideCount.Clamp(p)))
    case KeyDown(key) =>
      if InputsDisabled(m.ui) then m
      else if key == "Enter" && !m.ui.isGenerating then HandleGenerate(m)
      else m
    case ClickGenerate =>
      if ButtonDisabled(m.ui) then m else HandleGenerate(m)
    case Settle(response) =>
      match m.inFlight
      case Some(attempt) => Complete(m, attempt, response)
      case None => m
  }

  /** What each user event does to an idle form: an edit stores the new
      topic, or the clamped count, and nothing else; Enter runs the
      handler; any other key does nothing; the button runs the handler
      unless the topic is blank. */
  lemma IdleEventEffects(m: Machine, e: Event)
    requires Delivery.HandlesFresh(m.browser) && !m.ui.isGenerating
    ensures e.EditTopic? ==> Step(m, e) == m.(ui := m.ui.(topic := e.value))
    ensures e.EditSlides? ==> Step(m, e) == m.(ui := m.ui.(slides := SlideCount.Clamp(e.parsed)))
    ensures e == KeyDown("Enter") ==> Step(m, e) == HandleGenerate(m)
    ensures e.KeyDown? && e.key != "Enter" ==> Step(m, e) == m
    ensures e == ClickGenerate ==> Step(m, e) == if IsBlank(m.ui.topic) then m else HandleGenerate(m)
  {
  }

  /** A sequence of events, in order. */
  function Run(m: Machine, es: seq<Event>): (r: Machine)
    requires Delivery.HandlesFresh(m.browser)
    ensures Delivery.HandlesFresh(r.browser)
    decreases |es|
  {
    if es == [] then m else Run(Step(m, es[0]), es[1..])
  }

  /** The invariant of the form: the slide count is in range; the busy
      flag is up exactly while an attempt is in flight, and that attempt
      read the current (non-blank) inputs; every request sent was well
      formed; every run of the handler has produced exactly one toast,
      except the one still awaiting its response. */
  ghost predicate Valid(m: Machine) {
    && SlideCount.InRange(m.ui.slides)
    && (m.ui.isGenerating <==> m.inFlight.Some?)
    && (m.inFlight.Some? ==>
          m.inFlight.value == Attempt(m.ui.topic, m.ui.slides) && !IsBlank(m.ui.topic))
    && (forall i :: 0 <= i < |m.requests| ==> WellFormedRequest(m.requests[i]))
    && |m.toasts| + (if m.ui.isGenerating then 1 else 0) == m.handled
    && |m.requests| <= m.handled
    && Delivery.HandlesFresh(m.browser)
  }

  lemma InitValid(b: Browser)
    requires Delivery.HandlesFresh(b)
    ensures Valid(Init(b))
  {
  }

  /** The request sent for a non-blank topic is well formed. */
  lemma SentRequestWellFormed(topic: JsString, slides: int)
    requires !IsBlank(topic) && SlideCount.InRange(slides)
    ensures WellFormedRequest(Request(Trim(topic), slides, RequestTimeoutMs))
  {
  }

  lemma StepValid(m: Machine, e: Event)
    requires Valid(m)
    ensures Valid(Step(m, e))
  {
    if !m.ui.isGenerating && !IsBlank(m.ui.topic) {
      SentRequestWellFormed(m.ui.topic, m.ui.slides);
    }
    match e
    case Settle(response) =>
    case _ =>
  }

  /** The invariant holds after any sequence of events. */
  lemma {:induction false} RunValid(m: Machine, es: seq<Event>)
    requires Valid(m)
    ensures Valid(Run(m, es))
    decreases |es|
  {
    if es != [] {
      StepValid(m, es[0]);
      RunValid(Step(m, es[0]), es[1..]);
    }
  }

  /** The toast an attempt ends with. */
  function OutcomeToast(response: Response): Toast {
    match response
    case Ok(_, _) => SuccessToast(SuccessMessage)
    case Failed(code, status) => ErrorToast(ErrorMessage(Classify(code, status)))
  }

  /** One accepted attempt from submission to settlement, started either
      by the button or by Enter: the busy flag goes up with exactly one
      request carrying the trimmed topic and the current count, and comes
      down with exactly one toast; success saves the body once under the
      derived name and resets the inputs to ("", 5), failure keeps them. */
  lemma AttemptLifecycle(m: Machine, trigger: Event, response: Response)
    requires Valid(m) && !m.ui.isGenerating && !IsBlank(m.ui.topic)
    requires trigger == ClickGenerate || trigger == KeyDown("Enter")
    ensures
      var m1 := Step(m, trigger);
      var m2 := Step(m1, Settle(response));
      && m1.ui == m.ui.(isGenerating := true)
      && m1.requests == m.requests + [Request(Trim(m.ui.topic), m.ui.slides, RequestTimeoutMs)]
      && m1.toasts == m.toasts && m1.logged == m.logged
      && !m2.ui.isGenerating
      && m2.requests == m1.requests
      && m2.toasts == m.toasts + [OutcomeToast(response)]
      && (response.Ok? ==>
            && m2.ui == Ui([], SlideCount.DefaultSlides, false)
            && m2.logged == m.logged
            && m2.browser.saves == m.browser.saves + [Save(
                 ObjectUrl(m.browser.nextId),
                 ResponseFilename(m.ui.topic, response.contentDisposition),
                 Some(response.data))])
      && (response.Failed? ==>
            m2.ui == m.ui && m2.browser == m.browser && m2.logged == m.logged + [response])
  {
  }

  /** A blank topic: Enter shows the validation toast and nothing else
      happens (no request, the busy flag stays down); the button is
      disabled and does nothing at all. */
  lemma BlankTopicRejected(m: Machine)
    requires Valid(m) && !m.ui.isGenerating && IsBlank(m.ui.topic)
    ensures Step(m, KeyDown("Enter")) ==
      m.(toasts := m.toasts + [ErrorToast(ValidationMessage)], handled := m.handled + 1)
    ensures Step(m, ClickGenerate) == m
  {
  }

  /** While a request is in flight no sequence of user events changes
      anything: in particular no second request is sent. */
  lemma {:induction false} BusyIgnoresUserEvents(m: Machine, es: seq<Event>)
    requires Delivery.HandlesFresh(m.browser) && m.ui.isGenerating
    requires forall i :: 0 <= i < |es| ==> !es[i].Settle?
    ensures Run(m, es) == m
    decreases |es|
  {
    if es != [] {
      BusyIgnoresUserEvents(Step(m, es[0]), es[1..]);
    }
  }

  /** No event sequence leaves a live object URL or an extra body child
      behind. */
  lemma {:induction false} RunKeepsHandlesAndDom(m: Machine, es: seq<Event>)
    requires Delivery.HandlesFresh(m.browser)
    ensures Run(m, es).browser.store == m.browser.store
    ensures Run(m, es).browser.children == m.browser.children
    decreases |es|
  {
    if es != [] {
      RunKeepsHandlesAndDom(Step(m, es[0]), es[1..]);
    }
  }
}
