/**
 * The request logger: a response writer that remembers the last status code written
 * through it, and the middleware that wraps every handler with one and logs the result.
 */
module Logging {
  import opened Store
  import opened Handlers

  /**
   * loggingResponseWriter: forwards every WriteHeader call to the wrapped writer and
   * remembers the code. `forwarded` stands for what the wrapped writer received.
   */
  class LoggingResponseWriter {
    var status: int
    var forwarded: seq<int>

    /** A fresh wrapper records 200 until a handler says otherwise. */
    constructor ()
      ensures status == StatusOK && forwarded == []
    {
      status := StatusOK;
      forwarded := [];
    }

    /** Records the code and passes it on unchanged. */
    method WriteHeader(code: int)
      modifies this
      ensures status == code
      ensures forwarded == old(forwarded) + [code]
    {
      status := code;
      forwarded := forwarded + [code];
    }
  }

  /** The status the writer holds after the given WriteHeader calls: the last code, or 200 if there was none. */
  function LoggedStatus(codes: seq<int>): (s: int)
    ensures s == StatusOK || s in codes
    ensures codes != [] ==> s == codes[|codes| - 1]
  {
    if codes == [] then StatusOK else codes[|codes| - 1]
  }

  /** One line of the request log. `elapsed` is the measured latency, an input here. */
  datatype LogEntry = LogEntry(verb: string, path: string, status: int, elapsed: int)

  /**
   * loggingMiddleware: wraps the writer, lets the handler make its WriteHeader calls
   * (`codes`, in order), and returns the log line together with the codes that reached
   * the wrapped writer. The logger never adds, drops or changes a code.
   */
  method LoggingMiddleware(verb: string, path: string, codes: seq<int>, elapsed: int)
    returns (entry: LogEntry, passed: seq<int>)
    ensures entry == LogEntry(verb, path, LoggedStatus(codes), elapsed)
    ensures passed == codes
  {
    var lrw := new LoggingResponseWriter();
    for i := 0 to |codes|
      invariant lrw.status == LoggedStatus(codes[..i])
      invariant lrw.forwarded == codes[..i]
    {
      lrw.WriteHeader(codes[i]);
      assert codes[..i + 1][..i] == codes[..i];
    }
    assert codes[..|codes|] == codes;
    entry := LogEntry(verb, path, lrw.status, elapsed);
    passed := lrw.forwarded;
  }

  /**
   * The status in the log is the status the client was sent, except for a page cut short
   * by a failed render: the client already had an implicit 200, while the later
   * http.Error passes 500 through the wrapper, and the log records 500.
   */
  lemma LoggedStatusIsSent(resp: Response)
    requires ImplicitIsOk(resp)
    ensures LoggedStatus(HeaderWrites(resp)) == resp.status <==> !resp.body.PartialPage?
    ensures resp.body.PartialPage? ==> resp.status == StatusOK && LoggedStatus(HeaderWrites(resp)) == StatusInternalServerError
  {
  }

  /**
   * Handler by handler: the form endpoint and the API are always logged with the status
   * they sent; the two pages are, exactly unless their template fails after output.
   */
  lemma LoggedStatusPerHandler(st: StoreState, path: string, form: FormRequest, api: ApiRequest, now: Time,
                               render: RenderResult, aboutRender: RenderResult)
    ensures var r := HandleIndex(st, path, now, render);
            LoggedStatus(HeaderWrites(r)) == r.status <==> !(path == "/" && render == FailedAfterOutput)
    ensures var r := HandleAbout(now, aboutRender);
            LoggedStatus(HeaderWrites(r)) == r.status <==> aboutRender != FailedAfterOutput
    ensures var r := HandleSubmit(st, form, now).response; LoggedStatus(HeaderWrites(r)) == r.status
    ensures var r := HandleMessagesApi(st, api, now).response; LoggedStatus(HeaderWrites(r)) == r.status
  {
    ImplicitStatusIsOk(st, path, form, api, now, render);
    ImplicitStatusIsOk(st, path, form, api, now, aboutRender);
    LoggedStatusIsSent(HandleIndex(st, path, now, render));
    LoggedStatusIsSent(HandleAbout(now, aboutRender));
    LoggedStatusIsSent(HandleSubmit(st, form, now).response);
    LoggedStatusIsSent(HandleMessagesApi(st, api, now).response);
  }
}
