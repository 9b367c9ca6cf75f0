/**
 * The guestbook's HTTP handlers: which requests change the store, and which status,
 * redirect or body comes back. Each handler is first a function from the store's state
 * and an abstract request to a response and a new state; the methods at the end run the store-using
 * handlers' steps against a MessageStore object and are proved to agree with those functions.
 *
 * Form parsing, JSON decoding, template rendering and the clock are collaborators:
 * their results are inputs here (the decoded fields, how rendering ended, `now`).
 */
module Handlers {
  import opened Text
  import opened Store

  const StatusOK := 200
  const StatusCreated := 201
  const StatusSeeOther := 303
  const StatusBadRequest := 400
  const StatusNotFound := 404
  const StatusMethodNotAllowed := 405
  const StatusInternalServerError := 500

  const MethodGet: string := "GET"
  const MethodPost: string := "POST"

  /** The data handed to a page template. */
  datatype TemplateData = TemplateData(title: string, flash: string, messages: seq<Message>, now: Time)

  /** What a handler writes after the status line. */
  datatype Body =
    | Redirect(location: string)             // Location header, from http.Redirect
    | PlainText(text: string)                // an error message, from http.Error
    | JsonList(items: seq<Message>)          // a JSON array of messages
    | JsonOne(item: Message)                 // one JSON message
    | Html(template: string, data: TemplateData)
    | PartialPage(template: string, data: TemplateData, trailer: string)  // part of a page, then an error text

  datatype Response = Response(status: int, body: Body)

  /** A handler's reply together with the store it leaves behind. */
  datatype Outcome = Outcome(response: Response, store: StoreState)

  /** A request to /submit: its method and the raw form values (a missing field reads as ""). */
  datatype FormRequest = FormRequest(verb: string, author: string, content: string)

  /** What the JSON decoder made of a request body. */
  datatype Decoded = BadJson | Fields(author: string, content: string)

  /** A request to /api/messages: its method and the decoded body. */
  datatype ApiRequest = ApiRequest(verb: string, body: Decoded)

  const SeeOtherHome := Response(StatusSeeOther, Redirect("/"))
  const NotFoundPage := Response(StatusNotFound, PlainText("404 page not found"))
  const TemplateError := Response(StatusInternalServerError, PlainText("Template error"))

  /**
   * How a template execution went. It writes straight to the response, so it either wrote
   * the whole page, failed before writing anything, or failed after part of the page (and
   * with it the implicit 200) had already gone out.
   */
  datatype RenderResult = Rendered | FailedEarly | FailedAfterOutput

  /**
   * A page rendered with `data`, followed on failure by http.Error's 500 "Template error".
   * The client sees 500 only when nothing was written before the failure; every failure
   * makes one explicit WriteHeader(500) call.
   */
  function Render(template: string, data: TemplateData, render: RenderResult): (resp: Response)
    ensures resp.status == (if render == FailedEarly then StatusInternalServerError else StatusOK)
    ensures HeaderWrites(resp) == (if render == Rendered then [] else [StatusInternalServerError])
    ensures render != FailedEarly ==>
              (resp.body.Html? || resp.body.PartialPage?) && resp.body.template == template && resp.body.data == data
  {
    match render
    case Rendered => Response(StatusOK, Html(template, data))
    case FailedEarly => TemplateError
    case FailedAfterOutput => Response(StatusOK, PartialPage(template, data, TemplateError.body.text))
  }

  /**
   * indexHandler: any path but "/" is not found; "/" shows every message of the store,
   * newest first, or a server error if the template fails before writing anything.
   * The store is never changed.
   */
  function HandleIndex(st: StoreState, path: string, now: Time, render: RenderResult): (resp: Response)
    ensures path != "/" ==> resp.status == StatusNotFound && resp.body.PlainText?
    ensures path == "/" ==>
              resp.status == (if render == FailedEarly then StatusInternalServerError else StatusOK)
    ensures path == "/" && render == Rendered ==>
              resp.body.Html? && resp.body.template == "index.html" && resp.body.data.messages == st.messages
    ensures path == "/" && render == FailedAfterOutput ==>
              resp.body.PartialPage? && resp.body.data.messages == st.messages
  {
    if path != "/" then NotFoundPage
    else Render("index.html", TemplateData("Home", "", st.messages, now), render)
  }

  /** aboutHandler: a static page that never looks at the store. */
  function HandleAbout(now: Time, render: RenderResult): (resp: Response)
    ensures resp.status == (if render == FailedEarly then StatusInternalServerError else StatusOK)
    ensures render == Rendered ==> resp.body.Html? && resp.body.template == "about.html" && resp.body.data.messages == []
    ensures render == FailedAfterOutput ==> resp.body.PartialPage? && resp.body.template == "about.html"
  {
    Render("about.html", TemplateData("About", "", [], now), render)
  }

  /**
   * submitHandler: always redirects to "/" with 303. A POST whose content is not all
   * whitespace stores one message with the trimmed author and trimmed content;
   * every other request leaves the store as it is.
   */
  function HandleSubmit(st: StoreState, req: FormRequest, now: Time): (out: Outcome)
    ensures out.response == SeeOtherHome
    ensures out.store != st <==> req.verb == MethodPost && !AllSpace(req.content)
    ensures out.store != st ==>
              out.store == InsertInto(st, TrimSpace(req.author), TrimSpace(req.content), now).store
  {
    if req.verb != MethodPost then Outcome(SeeOtherHome, st)
    else
      var author := TrimSpace(req.author);
      var content := TrimSpace(req.content);
      if content == "" then Outcome(SeeOtherHome, st)
      else Outcome(SeeOtherHome, InsertInto(st, author, content, now).store)
  }

  /**
   * messagesAPIHandler. GET lists the store with 200. POST answers 400 when the body is
   * not JSON or its content is all whitespace, and otherwise stores the author and content
   * exactly as sent (untrimmed) and answers 201 with the stored message. Any other
   * method answers 405. Only the successful POST changes the store.
   */
  function HandleMessagesApi(st: StoreState, req: ApiRequest, now: Time): (out: Outcome)
    ensures out.store != st <==> req.verb == MethodPost && req.body.Fields? && !AllSpace(req.body.content)
    ensures out.store != st ==>
              var ins := InsertInto(st, req.body.author, req.body.content, now);
              out.store == ins.store && out.response == Response(StatusCreated, JsonOne(ins.msg))
    ensures req.verb == MethodGet ==> out.response == Response(StatusOK, JsonList(st.messages))
    ensures out.response.status == StatusBadRequest <==>
              req.verb == MethodPost && (req.body.BadJson? || AllSpace(req.body.content))
    ensures out.response.status == StatusMethodNotAllowed <==>
              req.verb != MethodGet && req.verb != MethodPost
  {
    if req.verb == MethodGet then
      Outcome(Response(StatusOK, JsonList(st.messages)), st)
    else if req.verb == MethodPost then
      match req.body
      case BadJson => Outcome(Response(StatusBadRequest, PlainText("Bad JSON")), st)
      case Fields(author, content) =>
        if TrimSpace(content) == "" then
          Outcome(Response(StatusBadRequest, PlainText("content required")), st)
        else
          var ins := InsertInto(st, author, content, now);
          Outcome(Response(StatusCreated, JsonOne(ins.msg)), ins.store)
    else
      Outcome(Response(StatusMethodNotAllowed, PlainText("Method not allowed")), st)
  }

  /** The status codes a handler passes explicitly to WriteHeader while writing `resp`. */
  function HeaderWrites(resp: Response): (codes: seq<int>)
    ensures |codes| <= 1
    ensures codes == [] <==> resp.body.JsonList? || resp.body.Html?
  {
    match resp.body
    // http.Redirect, http.Error and the 201 reply call WriteHeader themselves;
    case Redirect(_) => [resp.status]
    case PlainText(_) => [resp.status]
    case JsonOne(_) => [resp.status]
    // the JSON list and the rendered page only write the body, which sends 200 implicitly;
    case JsonList(_) => []
    case Html(_, _) => []
    // a failed render calls http.Error after part of the page went out.
    case PartialPage(_, _, _) => [StatusInternalServerError]
  }

  /**
   * A response whose status goes out with its first body write, before any WriteHeader
   * call (no call at all, or a page cut short by a failed render), is a 200.
   */
  ghost predicate ImplicitIsOk(resp: Response)
  {
    HeaderWrites(resp) == [] || resp.body.PartialPage? ==> resp.status == StatusOK
  }

  // ---------------------------------------------------------------------------
  // Properties of single requests

  /** Whitespace-only content, via either endpoint, stores nothing. */
  lemma BlankContentStoresNothing(st: StoreState, author: string, content: string, verb: string, now: Time)
    requires AllSpace(content)
    ensures HandleSubmit(st, FormRequest(verb, author, content), now).store == st
    ensures HandleMessagesApi(st, ApiRequest(verb, Fields(author, content)), now).store == st
  {
  }

  /**
   * A message stored through the form has no whitespace at either end of its author
   * or its content, and its content is not empty.
   */
  lemma SubmitStoresTrimmed(st: StoreState, req: FormRequest, now: Time)
    requires HandleSubmit(st, req, now).store != st
    ensures var m := HandleSubmit(st, req, now).store.messages[0];
            Trimmed(m.author) && Trimmed(m.content) && m.content != [] &&
            m.author == TrimSpace(req.author) && m.content == TrimSpace(req.content)
  {
  }

  /**
   * The two endpoints treat the same fields differently: for content that is not all
   * whitespace, the form stores it trimmed while the JSON API stores it exactly as sent.
   */
  lemma ApiStoresUntrimmed(st: StoreState, author: string, content: string, now: Time)
    requires !AllSpace(content)
    ensures HandleSubmit(st, FormRequest(MethodPost, author, content), now).store.messages[0] ==
            Message(st.nextID, TrimSpace(author), TrimSpace(content), now)
    ensures HandleMessagesApi(st, ApiRequest(MethodPost, Fields(author, content)), now).store.messages[0] ==
            Message(st.nextID, author, content, now)
  {
  }

  /** The difference is real: content " hi" is stored as "hi" by the form and as " hi" by the API. */
  lemma FormAndApiDiffer(st: StoreState, now: Time)
    ensures HandleSubmit(st, FormRequest(MethodPost, "", " hi"), now).store.messages[0].content == "hi"
    ensures HandleMessagesApi(st, ApiRequest(MethodPost, Fields("", " hi")), now).store.messages[0].content == " hi"
  {
    assert " hi" == [' '] + "hi" + [];
    TrimSpaceUnique([' '], "hi", []);
    ApiStoresUntrimmed(st, "", " hi", now);
  }

  /** Answering 201 means exactly one message went in, and the reply carries that message. */
  lemma ApiCreatedIsStored(st: StoreState, req: ApiRequest, now: Time)
    requires HandleMessagesApi(st, req, now).response.status == StatusCreated
    ensures var out := HandleMessagesApi(st, req, now);
            out.response.body == JsonOne(out.store.messages[0]) &&
            out.store.messages[1..] == st.messages && out.store.nextID == st.nextID + 1
  {
  }

  /** Every status the API answers with is one of 200, 201, 400 and 405. */
  lemma ApiStatuses(st: StoreState, req: ApiRequest, now: Time)
    ensures HandleMessagesApi(st, req, now).response.status in {StatusOK, StatusCreated, StatusBadRequest, StatusMethodNotAllowed}
  {
  }

  /** The not-found answer of the home handler does not depend on the store at all. */
  lemma IndexNotFoundIgnoresStore(st1: StoreState, st2: StoreState, path: string, now: Time, render: RenderResult)
    requires path != "/"
    ensures HandleIndex(st1, path, now, render) == HandleIndex(st2, path, now, render) == NotFoundPage
  {
  }

  /** Two API reads with no insertion between them return the same list. */
  lemma ApiGetTwice(st: StoreState, body1: Decoded, body2: Decoded, now1: Time, now2: Time)
    ensures var first := HandleMessagesApi(st, ApiRequest(MethodGet, body1), now1);
            var second := HandleMessagesApi(first.store, ApiRequest(MethodGet, body2), now2);
            first.store == st && second.response == first.response
  {
  }

  /** Every handler sends 200 whenever it leaves the status implicit or cuts a page short. */
  lemma ImplicitStatusIsOk(st: StoreState, path: string, form: FormRequest, api: ApiRequest, now: Time, render: RenderResult)
    ensures ImplicitIsOk(HandleIndex(st, path, now, render))
    ensures ImplicitIsOk(HandleAbout(now, render))
    ensures ImplicitIsOk(HandleSubmit(st, form, now).response)
    ensures ImplicitIsOk(HandleMessagesApi(st, api, now).response)
  {
  }

  // ---------------------------------------------------------------------------
  // Sequences of requests

  /** A request to one of the four handlers. */
  datatype Request =
    | IndexReq(path: string, render: RenderResult)
    | AboutReq(aboutRender: RenderResult)
    | SubmitReq(form: FormRequest)
    | ApiReq(call: ApiRequest)

  /** A request and the clock reading at the time it is handled. */
  datatype Event = Event(req: Request, now: Time)

  /** The requests that store a message. */
  ghost predicate Stores(req: Request)
  {
    match req
    case SubmitReq(f) => f.verb == MethodPost && !AllSpace(f.content)
    case ApiReq(c) => c.verb == MethodPost && c.body.Fields? && !AllSpace(c.body.content)
    case _ => false
  }

  /** Sends one request to its handler. */
  function Dispatch(st: StoreState, ev: Event): (out: Outcome)
    ensures out.store != st <==> Stores(ev.req)
    ensures out.store != st ==>
              out.store.nextID == st.nextID + 1 && |out.store.messages| == |st.messages| + 1 &&
              out.store.messages[1..] == st.messages
  {
    match ev.req
    case IndexReq(path, render) => Outcome(HandleIndex(st, path, ev.now, render), st)
    case AboutReq(render) => Outcome(HandleAbout(ev.now, render), st)
    case SubmitReq(form) => HandleSubmit(st, form, ev.now)
    case ApiReq(call) => HandleMessagesApi(st, call, ev.now)
  }

  /** The store after handling the events one after the other. */
  function Run(st: StoreState, evs: seq<Event>): StoreState
    decreases |evs|
  {
    if evs == [] then st else Run(Dispatch(st, evs[0]).store, evs[1..])
  }

  /** How many of the events store a message. */
  ghost function StoredCount(evs: seq<Event>): nat
    decreases |evs|
  {
    if evs == [] then 0 else (if Stores(evs[0].req) then 1 else 0) + StoredCount(evs[1..])
  }

  /**
   * Handling any sequence of requests keeps the store dense, advances the counter by
   * the number of storing requests, and keeps every older message, in order, behind
   * the new ones.
   */
  lemma {:induction false} RunKeepsHistory(st: StoreState, evs: seq<Event>)
    requires Dense(st)
    ensures var end := Run(st, evs);
            Dense(end) && end.nextID == st.nextID + StoredCount(evs) &&
            |end.messages| == |st.messages| + StoredCount(evs) &&
            end.messages[StoredCount(evs)..] == st.messages
    decreases |evs|
  {
    if evs != [] {
      var mid := Dispatch(st, evs[0]).store;
      DispatchKeepsDense(st, evs[0]);
      RunKeepsHistory(mid, evs[1..]);
      if Stores(evs[0].req) {
        var end, n := Run(mid, evs[1..]), StoredCount(evs[1..]);
        assert end.messages[n + 1..] == end.messages[n..][1..];
      }
    }
  }

  /** One request keeps the store dense. */
  lemma DispatchKeepsDense(st: StoreState, ev: Event)
    requires Dense(st)
    ensures Dense(Dispatch(st, ev).store)
  {
    var mid := Dispatch(st, ev).store;
    if mid != st {
      forall k | 0 < k < |mid.messages| ensures mid.messages[k].id == |mid.messages| - k {
        assert mid.messages[k] == mid.messages[1..][k - 1];
      }
    }
  }

  /**
   * From a fresh store, after any sequence of requests of which n store a message,
   * the ids in the store are exactly 1 .. n + 1 and the next id is n + 2.
   */
  lemma RunFromStart(t: Time, evs: seq<Event>)
    ensures var end := Run(Initial(t), evs);
            Ids(end.messages) == UpTo(StoredCount(evs) + 1) && end.nextID == StoredCount(evs) + 2 &&
            NewestFirst(end)
  {
    RunKeepsHistory(Initial(t), evs);
    var end := Run(Initial(t), evs);
    DenseIds(end);
    DenseIsNewestFirst(end);
  }

  // ---------------------------------------------------------------------------
  // The handlers against the store object

  /** indexHandler: takes a snapshot only when the path is "/". */
  method IndexHandler(store: MessageStore, path: string, now: Time, render: RenderResult) returns (resp: Response)
    requires store.Valid()
    ensures resp == HandleIndex(store.State(), path, now, render)
  {
    if path != "/" {
      return NotFoundPage;
    }
    var msgs := store.Snapshot();
    var data := TemplateData("Home", "", msgs, now);
    resp := Render("index.html", data, render);
  }

  /** submitHandler: the method check, the trimming and the content check, then one insertion. */
  method SubmitHandler(store: MessageStore, req: FormRequest, now: Time) returns (resp: Response)
    requires store.Valid()
    modifies store
    ensures store.Valid()
    ensures Outcome(resp, store.State()) == HandleSubmit(old(store.State()), req, now)
  {
    if req.verb != MethodPost {
      return SeeOtherHome;
    }
    var author := TrimSpace(req.author);
    var content := TrimSpace(req.content);
    if content == "" {
      return SeeOtherHome;
    }
    var _ := store.Insert(author, content, now);
    resp := SeeOtherHome;
  }

  /** messagesAPIHandler: dispatch on the method, then validation, then one insertion. */
  method MessagesApiHandler(store: MessageStore, req: ApiRequest, now: Time) returns (resp: Response)
    requires store.Valid()
    modifies store
    ensures store.Valid()
    ensures Outcome(resp, store.State()) == HandleMessagesApi(old(store.State()), req, now)
  {
    if req.verb == MethodGet {
      var msgs := store.Snapshot();
      resp := Response(StatusOK, JsonList(msgs));
    } else if req.verb == MethodPost {
      if req.body.BadJson? {
        return Response(StatusBadRequest, PlainText("Bad JSON"));
      }
      if TrimSpace(req.body.content) == "" {
        return Response(StatusBadRequest, PlainText("content required"));
      }
      var msg := store.Insert(req.body.author, req.body.content, now);
      resp := Response(StatusCreated, JsonOne(msg));
    } else {
      resp := Response(StatusMethodNotAllowed, PlainText("Method not allowed"));
    }
  }
}
