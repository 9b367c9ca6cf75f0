# Guestbook store and handlers, modelled in Dafny

This project models the core of a small web guestbook written in Go (`main.go`).

- **Message store.** This is the list of messages, newest first, together with the counter that hands out ids. At start it holds one seed message (id 1, author "System") and the counter is 2. The only write is an insertion: the new message takes the counter as its id, the counter goes up by one, and the message goes to the front. The only read is a snapshot, which copies the whole list.
- **Handlers.** There are four:
  - the home page (`indexHandler`): 404 for any path but `/`;
  - the about page;
  - the form endpoint (`submitHandler`): always a 303 redirect to `/`;
  - the JSON API (`messagesAPIHandler`): 200 on GET, 201 on a stored POST, 400 on a bad body or blank content, 405 for any other method.
- **Logging writer.** It wraps the response writer and records the last status code written through it. That status starts at 200.
- **Trimming.** This is `strings.TrimSpace`, which decides whether submitted content is blank.

The files:

- `text.dfy` (module `Text`): `TrimSpace`, built from a forward scan `SkipSpace` and a backward scan `BackSpace` over the whitespace predicate `IsSpace`.
  - What is proved: the result is a slice of the input with no whitespace at either end, and only whitespace was removed around it.
  - It is empty exactly when the input is all whitespace.
  - It is the unique such middle piece, and trimming is idempotent.
- `store.dfy` (module `Store`): the `Message` and `StoreState` values, and `Initial` and `InsertInto` as functions on those values.
  - Two invariants are defined. `NewestFirst` says ids strictly decrease from front to back and all are below the counter. `Dense` says the message at position k has id |messages| − k and the counter is |messages| + 1.
  - The class `MessageStore` holds the fields `messages` and `nextID`. Its methods `Insert` and `Snapshot` are proved against those functions.
- `handlers.dfy` (module `Handlers`): each handler is a function from a store state and an abstract request to a response and a new store state.
  - Lemmas state which requests change the store and which statuses come back.
  - `Run` handles a whole sequence of requests. Lemmas about it cover the ids and ordering that result.
  - The methods for the three handlers that use the store run the same steps against a `MessageStore` object and are proved equal to the functions. The about page never touches the store, so `HandleAbout` alone models it.
- `logging.dfy` (module `Logging`): the `LoggingResponseWriter` class and the middleware.
  - It is proved that the logged status equals the status the client is sent for the form endpoint and the API always. For the two pages it holds except in one case: a template that fails after writing part of the page. The client then already has an implicit 200, while the log records the 500 of the later `http.Error`.

Each locked region of the original is one atomic step: one `Insert` or one `Snapshot`. The clock, the result of JSON and form decoding, and how a template render ended are inputs to the model. A render ends in one of three ways: it succeeds, it fails before writing anything, or it fails after writing part of the page.

## Model

| member | source | states |
|---|---|---|
| `Text.IsSpace` | main.go:113-114 | On ASCII characters, whitespace is exactly tab, newline, vertical tab, form feed, carriage return and space. |
| `Text.TrimSpace` | main.go:113-114 | The result has no whitespace at either end. It is a slice of the input with only whitespace before and after it. The result is empty exactly when the input is all whitespace. |
| `Text.SkipSpace` | main.go:113-114 | The forward scan stops at the first character that is not whitespace, or at the end. Everything it passed over is whitespace. |
| `Text.BackSpace` | main.go:113-114 | The backward scan stops just after the last character that is not whitespace, but never goes below its lower bound. Everything it passed over is whitespace. |
| `Text.TrimSpaceUnique` | main.go:143 | For any split of a string into whitespace, a middle with no whitespace at either end, and whitespace, TrimSpace returns that middle. |
| `Text.TrimSpaceOfTrimmed` | main.go:143 | A string with no whitespace at either end is returned unchanged. |
| `Text.TrimSpaceIdempotent` | main.go:113-114 | Trimming twice gives the same result as trimming once. |
| `Store.Initial` | main.go:29-30 | The initial store holds exactly one message: id 1, author "System". The counter is 2. The store is dense and its id set is {1}. |
| `Store.InsertInto` | main.go:119-123 | The new message gets the old counter as its id, plus the given author, content and time. The counter rises by one. The message is at index 0, and the previous list is the unchanged tail. |
| `Store.InsertKeepsNewestFirst` | main.go:147-151 | If ids are strictly decreasing and below the counter before an insertion, they still are afterwards. |
| `Store.InsertKeepsDense` | main.go:120-123 | Insertion keeps the store dense: position k holds id \|messages\| − k, and the counter is \|messages\| + 1. |
| `Store.DenseIsNewestFirst` | main.go:27-31 | A dense store is newest first, and its ids are pairwise distinct. |
| `Store.DenseIds` | main.go:29-30 | A dense store holds exactly the ids 1 .. nextID − 1. |
| `Store.MessageStore.constructor` | main.go:27-31 | The new store equals `Initial(now)` and satisfies the invariant. |
| `Store.MessageStore.Insert` | main.go:119-124 | The new state and the returned message are exactly `InsertInto` of the old state. The invariant is kept. |
| `Store.MessageStore.Snapshot` | main.go:88-91 | Returns the current messages, leaves the store alone, has length nextID − 1, and holds ids strictly decreasing over exactly 1 .. length. |
| `Handlers.Render` | main.go:93-96 | A render that succeeds sends the page with an implicit 200 and no explicit status. A render that fails before any output sends 500. A render that fails after output sends part of the page, so the client gets 200, and `http.Error` then writes an explicit 500. |
| `Handlers.HandleIndex` | main.go:83-97 | Any path but "/" gets 404. "/" renders index.html with all current messages. The status is 500 only when rendering fails before any output, and 200 otherwise. |
| `Handlers.HandleAbout` | main.go:99-105 | The about page, with no messages, is rendered. A failure after output leaves part of that page. The status is 500 only when rendering fails before any output, and 200 otherwise. |
| `Handlers.HandleSubmit` | main.go:107-126 | Always a 303 redirect to "/". The store changes exactly when the method is POST and the content is not all whitespace. It then inserts one message with the trimmed author and trimmed content. |
| `Handlers.HandleMessagesApi` | main.go:128-159 | The store changes exactly on a POST with a decodable body whose content is not all whitespace. That inserts the untrimmed fields and answers 201 with the stored message. GET answers 200 with the current list. 400 exactly for POST with bad JSON or blank content. 405 exactly for methods other than GET and POST. |
| `Handlers.HeaderWrites` | main.go:153-155 | The list of explicit WriteHeader calls a response makes has at most one element. It is empty exactly for the JSON list and the fully rendered page, which send their status implicitly. |
| `Handlers.BlankContentStoresNothing` | main.go:115-118 | Whitespace-only content leaves the store unchanged, through the form and through the API alike. |
| `Handlers.SubmitStoresTrimmed` | main.go:113-122 | A message stored through the form has trimmed author and content, and its content is not empty. |
| `Handlers.ApiStoresUntrimmed` | main.go:143-150 | For content that is not all whitespace, the form stores the trimmed author and content, and the API stores both exactly as sent. Both use the old counter as the id. |
| `Handlers.FormAndApiDiffer` | main.go:113-122 | For content " hi", the form stores "hi" and the API stores " hi". |
| `Handlers.ApiCreatedIsStored` | main.go:147-155 | A 201 reply carries exactly the message now at the front. The older list follows it unchanged, and the counter rose by one. |
| `Handlers.ApiStatuses` | main.go:128-159 | The API answers only 200, 201, 400 or 405. |
| `Handlers.IndexNotFoundIgnoresStore` | main.go:84-87 | For a path other than "/", the reply is the same 404 whatever the store holds. |
| `Handlers.ApiGetTwice` | main.go:130-136 | A GET leaves the store unchanged, so two GETs in a row return the same list. |
| `Handlers.ImplicitStatusIsOk` | main.go:93-136 | Every handler response that sends its status implicitly has status 200. So does every page cut short by a failed render. |
| `Handlers.Dispatch` | main.go:47-50 | A request changes the store exactly when it is a storing request. The change is then one insertion: counter + 1, one more message, old list as the tail. |
| `Handlers.RunKeepsHistory` | main.go:119-123 | Handling any sequence of requests keeps the store dense. The counter and the length both grow by the number of storing requests, and the old messages remain, in order, as the tail. |
| `Handlers.DispatchKeepsDense` | main.go:119-123 | Handling one request of any kind keeps the store dense. |
| `Handlers.RunFromStart` | main.go:29-30 | From a fresh store, after any requests of which n store a message, the ids are exactly {1 .. n+1}, the counter is n+2, and the list is newest first. |
| `Handlers.IndexHandler` | main.go:83-97 | The method's reply equals `HandleIndex` on the current store. |
| `Handlers.SubmitHandler` | main.go:107-126 | The reply and the new store state equal `HandleSubmit` of the old state. The store invariant is kept. |
| `Handlers.MessagesApiHandler` | main.go:128-159 | The reply and the new store state equal `HandleMessagesApi` of the old state. The store invariant is kept. |
| `Logging.LoggingResponseWriter.constructor` | main.go:164 | A fresh writer records status 200 and has forwarded nothing. |
| `Logging.LoggingResponseWriter.WriteHeader` | main.go:175-178 | The recorded status becomes the code, and the code is passed on to the wrapped writer. |
| `Logging.LoggingMiddleware` | main.go:161-167 | The log line carries the method, the path, the elapsed time, and the last code written, or 200 if none was written. The wrapped writer receives exactly the handler's codes. |
| `Logging.LoggedStatus` | main.go:175-176 | The logged status is the last code written, or 200 if none was written. It is always 200 or one of the written codes. |
| `Logging.LoggedStatusIsSent` | main.go:164-177 | Assume a response's implicit status is 200. Its logged status equals the status sent exactly when it is not a page cut short by a failed render. Such a page is sent as 200 and logged as 500. |
| `Logging.LoggedStatusPerHandler` | main.go:161-167 | The form endpoint and the API are always logged with the status they sent. The home page is logged truly unless the path is "/" and the render fails after output. The about page is logged truly unless its render fails after output. |

## Left out

- Server startup, listening, timeouts, signal handling and graceful shutdown (main.go:40-72) are process I/O and concurrency. They are not modelled.
- The read/write lock is not modelled as concurrency. Each locked region is one atomic step of the model, which is the guarantee the lock gives.
- Template loading and rendering are calls into `html/template`. How a render ended is an input with three values: success, failure before any output, and failure after output. Both failures call `http.Error` with 500 "Template error".
  - For a failure after output, the model records the template and data and the appended error text. It does not model which prefix of the page was written.
- JSON decoding and form parsing are library calls. The decoded body is an input: either `BadJson` or the author and content fields. A form value that is missing reads as "".
  - Body decoding details are not modelled: case-insensitive field names, unknown fields, trailing data.
  - The ignored error of `ParseForm` is not modelled.
- Timestamps (`time.Now()`) and the logged latency are opaque integer inputs.
- Static file serving, `log` output and the request multiplexer's routing and path cleaning are not modelled. Each request is given to its handler directly.
- Response headers other than the status and the redirect location are not modelled: `Content-Type`, `X-Content-Type-Options`. The trailing newline `http.Error` appends to its text is not modelled either.
- Ids are unbounded integers. On a 64-bit platform Go's `int` id counter, which starts at 2, overflows after about 2^63 insertions; on a 32-bit platform, after about 2^31.
- Strings are sequences of Unicode code points, not UTF-8 bytes. Invalid UTF-8 and the byte-level fast path of `strings.TrimSpace` are not modelled. `IsSpace` lists the characters Go's `unicode.IsSpace` accepts. Every lemma in `text.dfy` holds for any whitespace predicate. `Handlers.FormAndApiDiffer` is the exception: it relies on ' ' being whitespace and 'h' and 'i' not.
