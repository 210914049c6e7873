/**
 * The request handler of core/http-request-handler.js. `configure` stores the
 * configuration in the module's state. `handleRequest` builds the file path a
 * request names and hands it to the markdown handler when the file has a
 * markdown extension. `httpRespond` writes the handler's payload back as
 * head, body and end.
 */
module HttpRequestHandler {
  import opened Wrappers
  import opened Text
  import opened Paths

  /** The parts of `Markconf` the handler reads. */
  datatype Markconf = Markconf(
    path: string,                    // `Markconf.path`, the served directory
    markdownExts: seq<string>,       // `Markconf.defaults.fileTypes.markdown`
    hasMarkdownHandler: bool         // `Markconf.handlers.core.markdown` is set
  )

  /** `{statusCode, contentType, data}`, what the markdown handler produces. */
  datatype Payload = Payload(statusCode: int, contentType: string, data: string)

  /** What is done to the response object, in order. */
  datatype Event = Head(statusCode: int, contentType: string) | Write(data: string) | End

  /** How `handleRequest` treats one request. */
  datatype Handled =
    | NotConfigured               // `Markconf` is still unset, so reading it throws
    | Ignored                     // the request is not delegated and nothing is written
    | Delegated(requestPath: string)  // the markdown handler is asked for `requestPath`

  // ---------------------------------------------------------------------------
  // Deciding on a request.

  /** The extension of `requestPath`, lowercased, equals some configured extension, lowercased. */
  predicate IsMarkdownPath(extensions: seq<string>, requestPath: string) {
    exists i :: 0 <= i < |extensions| && Lower(Extname(requestPath)) == Lower(extensions[i])
  }

  /** How `handleRequest` treats a request for `originalUrl` under `conf`. */
  function Handling(conf: Option<Markconf>, originalUrl: string): Handled {
    match conf
    case None => NotConfigured
    case Some(c) =>
      var requestPath := c.path + originalUrl;
      if IsMarkdownPath(c.markdownExts, requestPath) && c.hasMarkdownHandler then Delegated(requestPath)
      else Ignored
  }

  /** The events `httpRespond(payload, res)` applies to `res`. */
  function RespondEvents(payload: Payload): seq<Event> {
    [Head(payload.statusCode, payload.contentType), Write(payload.data), End]
  }

  /**
   * What the browser reads back from the events of one response: the status
   * and content type of the head, the data written, and that it ended.
   */
  function PayloadOf(events: seq<Event>): Option<Payload> {
    if |events| == 3 && events[0].Head? && events[1].Write? && events[2].End?
    then Some(Payload(events[0].statusCode, events[0].contentType, events[1].data))
    else None
  }

  /**
   * What `handleRequest` writes. A delegated request is answered when the
   * markdown handler's promise fulfils, which `respond` gives as a payload or
   * as `None` when it never fulfils.
   */
  function Written(conf: Option<Markconf>, respond: string -> Option<Payload>, originalUrl: string): seq<Event> {
    match Handling(conf, originalUrl)
    case Delegated(requestPath) => if respond(requestPath).Some? then RespondEvents(respond(requestPath).value) else []
    case _ => []
  }

  // ---------------------------------------------------------------------------
  // The response object and the handler's state.

  /** The `res` object of a request, recording what is done to it. */
  class Response {
    var events: seq<Event>

    constructor ()
      ensures events == []
    {
      events := [];
    }

    /** `res.writeHead(statusCode, {'Content-Type': contentType})`. */
    method WriteHead(statusCode: int, contentType: string)
      modifies this
      ensures events == old(events) + [Head(statusCode, contentType)]
    {
      events := events + [Head(statusCode, contentType)];
    }

    /** `res.write(data)`. */
    method Write(data: string)
      modifies this
      ensures events == old(events) + [Event.Write(data)]
    {
      events := events + [Event.Write(data)];
    }

    /** `res.end()`. */
    method End()
      modifies this
      ensures events == old(events) + [Event.End]
    {
      events := events + [Event.End];
    }
  }

  /** `httpRespond(payload, res)`: writes the head, the data and the end, and returns the payload. */
  method HttpRespond(payload: Payload, res: Response) returns (r: Payload)
    modifies res
    ensures r == payload
    ensures res.events == old(res.events) + RespondEvents(payload)
  {
    res.WriteHead(payload.statusCode, payload.contentType);
    res.Write(payload.data);
    res.End();
    return payload;
  }

  /** The module of core/http-request-handler.js with its `Markconf` variable. */
  class RequestHandler {
    var markconf: Option<Markconf>

    constructor ()
      ensures markconf == None
    {
      markconf := None;
    }

    /** `configure(conf)`: stores the configuration and returns it. */
    method Configure(conf: Markconf) returns (r: Markconf)
      modifies this
      ensures markconf == Some(conf)
      ensures r == conf
    {
      markconf := Some(conf);
      return conf;
    }

    /** `hasMarkdownExt(requestPath)` over the configured extensions, stopping at the first match. */
    static method HasMarkdownExt(extensions: seq<string>, requestPath: string) returns (found: bool)
      ensures found <==> IsMarkdownPath(extensions, requestPath)
    {
      for i := 0 to |extensions|
        invariant forall j :: 0 <= j < i ==> Lower(Extname(requestPath)) != Lower(extensions[j])
      {
        if Lower(Extname(requestPath)) == Lower(extensions[i]) {
          return true;
        }
      }
      return false;
    }

    /**
     * `handleRequest(req, res)` for a request whose `originalUrl` is given.
     * `respond` stands for `httpResponseModifier`: the payload its promise
     * fulfils with, or `None` when it never fulfils.
     */
    method HandleRequest(originalUrl: string, res: Response, respond: string -> Option<Payload>) returns (h: Handled)
      modifies res
      ensures h == Handling(markconf, originalUrl)
      ensures res.events == old(res.events) + Written(markconf, respond, originalUrl)
    {
      if markconf.None? {
        return NotConfigured;
      }
      var conf := markconf.value;
      var requestPath := conf.path + originalUrl;
      var isMarkdownFile := HasMarkdownExt(conf.markdownExts, requestPath);
      if isMarkdownFile && conf.hasMarkdownHandler {
        var modifiedResponse := respond(requestPath);
        if modifiedResponse.Some? {
          var _ := HttpRespond(modifiedResponse.value, res);
        }
        return Delegated(requestPath);
      }
      assert res.events == old(res.events) + [];
      return Ignored;
    }
  }

  // ---------------------------------------------------------------------------
  // Properties.

  /** With no extensions configured, no path is a markdown file. */
  lemma NoExtensionsNoMarkdown(requestPath: string)
    ensures !IsMarkdownPath([], requestPath)
  {
  }

  /** A path without an extension counts as markdown exactly when the empty extension is configured. */
  lemma ExtensionlessPath(extensions: seq<string>, requestPath: string)
    requires Extname(requestPath) == ""
    ensures IsMarkdownPath(extensions, requestPath) <==> "" in extensions
  {
    if IsMarkdownPath(extensions, requestPath) {
      var i :| 0 <= i < |extensions| && Lower(Extname(requestPath)) == Lower(extensions[i]);
      assert |extensions[i]| == |Lower(extensions[i])| == 0;
    }
    if "" in extensions {
      var i :| 0 <= i < |extensions| && extensions[i] == "";
      assert Lower(extensions[i]) == "";
    }
  }

  lemma LowerTwice(s: string)
    ensures Lower(Lower(s)) == Lower(s)
  {
  }

  /** The match ignores case on both sides: lowercasing the configured extensions changes nothing. */
  lemma CaseInsensitive(extensions: seq<string>, requestPath: string)
    ensures IsMarkdownPath(extensions, requestPath) <==>
      IsMarkdownPath(seq(|extensions|, i requires 0 <= i < |extensions| => Lower(extensions[i])), requestPath)
  {
    var lowered := seq(|extensions|, i requires 0 <= i < |extensions| => Lower(extensions[i]));
    forall i | 0 <= i < |extensions|
      ensures Lower(lowered[i]) == Lower(extensions[i])
    {
      LowerTwice(extensions[i]);
    }
  }

  /**
   * A configured handler delegates a request exactly when the path, made of
   * `Markconf.path` followed directly by the URL, is a markdown file and the
   * markdown handler is set.
   */
  lemma DelegatesIff(conf: Markconf, originalUrl: string)
    ensures Handling(Some(conf), originalUrl).Delegated? <==>
      IsMarkdownPath(conf.markdownExts, conf.path + originalUrl) && conf.hasMarkdownHandler
    ensures Handling(Some(conf), originalUrl).Delegated? ==>
      Handling(Some(conf), originalUrl).requestPath == conf.path + originalUrl
    ensures !Handling(Some(conf), originalUrl).Delegated? ==> Handling(Some(conf), originalUrl) == Ignored
  {
  }

  /** Nothing is written for a request that is not delegated, nor for one whose payload never comes. */
  lemma WrittenOnlyWhenDelegated(conf: Option<Markconf>, respond: string -> Option<Payload>, originalUrl: string)
    ensures !Handling(conf, originalUrl).Delegated? ==> Written(conf, respond, originalUrl) == []
    ensures Handling(conf, originalUrl).Delegated? && respond(Handling(conf, originalUrl).requestPath).None? ==>
      Written(conf, respond, originalUrl) == []
  {
  }

  /** What is written for a delegated request hands the browser exactly the handler's payload. */
  lemma DelegatedResponse(conf: Option<Markconf>, respond: string -> Option<Payload>, originalUrl: string)
    requires Handling(conf, originalUrl).Delegated?
    requires respond(Handling(conf, originalUrl).requestPath).Some?
    ensures PayloadOf(Written(conf, respond, originalUrl)) == respond(Handling(conf, originalUrl).requestPath)
  {
    ResponseRoundTrip(respond(Handling(conf, originalUrl).requestPath).value);
  }

  /** The events of a response give back the payload they were written from. */
  lemma ResponseRoundTrip(payload: Payload)
    ensures PayloadOf(RespondEvents(payload)) == Some(payload)
    ensures |RespondEvents(payload)| == 3 && RespondEvents(payload)[0].Head? && RespondEvents(payload)[2] == End
  {
  }
}
