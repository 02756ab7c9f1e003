/** The wrapped `XMLHttpRequest`: one object per request whose `open`,
    `setRequestHeader` and `send` record what the wrapper needs and then hand
    the call to the original object, and whose terminal events (load, error,
    abort, timeout) run `finalize`. The original object is represented by the
    calls it receives and by the state it reports when an event fires. */
module XhrWrapper {
  import opened Text
  import opened Events
  import opened NetworkMonitor

  /** The url argument of `open`: a string, an object such as a `URL` (given by
      its `String(...)` form), or `null`/`undefined`. */
  datatype UrlArg = UrlString(s: String) | UrlObject(href: String) | NoUrl

  /** `typeof rawUrl === 'string' ? rawUrl : String(rawUrl ?? '')`. */
  function UrlText(u: UrlArg): String {
    match u
    case UrlString(s) => s
    case UrlObject(href) => href
    case NoUrl => []
  }

  /** A call handed to the original object, with its arguments as received. */
  datatype XhrCall =
    | OpenCall(httpMethod: String, url: UrlArg, rest: seq<JsValue>)
    | SetHeaderCall(name: String, value: String)
    | SendCall(args: seq<JsValue>)

  /** The four terminal events a listener is attached for. */
  datatype Terminal = Load | NetworkFailure | Abort | Timeout

  /** The error label each listener passes to `finalize`. */
  function ErrorLabel(kind: Terminal): (r: Option<String>)
    ensures r.None? <==> kind == Load
    ensures r.Some? ==> r.value != []
  {
    match kind
    case Load => None
    case NetworkFailure => Some("Network error")
    case Abort => Some("Aborted")
    case Timeout => Some("Timed out")
  }

  /** `status >= 200 && status < 300`. */
  predicate IsOkStatus(status: nat) {
    200 <= status < 300
  }

  /** What the original object reports when a terminal event fires. */
  datatype NativeState = NativeState(status: nat, responseType: String, responseText: String, rawHeaders: String)

  /** The response text is read only in text mode (`''` or `'text'`); any other
      response type previews as empty. */
  function ResponseBodyText(n: NativeState): String {
    if n.responseType == "" || n.responseType == "text" then n.responseText else ""
  }

  /** The request state `finalize` reads when it runs: the wrapper's closure
      variables at that moment. */
  datatype Snapshot = Snapshot(id: String, httpMethod: String, url: String, startTime: int, requestHeaders: Headers)

  /** The event one `finalize` emits. */
  function SettlementEvent(cfg: Config, snap: Snapshot, timestamp: int, kind: Terminal, end: int, native: NativeState): NetworkLog {
    NetworkLog(snap.id, Xhr, snap.httpMethod, snap.url, Some(native.status), Some(IsOkStatus(native.status)),
               Some(end - snap.startTime), ErrorLabel(kind), timestamp, Some(snap.requestHeaders),
               ResponseHeaders(native.rawHeaders), None,
               if cfg.maxChars > 0 then Some(Truncate(ResponseBodyText(native), cfg.maxChars)) else None)
  }

  /** The events one terminal event produces: one `finalize` per listener set
      that `send` attached, in the order they were attached. */
  function Settlements(cfg: Config, snap: Snapshot, armed: seq<int>, kind: Terminal, end: int, native: NativeState): seq<NetworkLog> {
    seq(|armed|, i requires 0 <= i < |armed| => SettlementEvent(cfg, snap, armed[i], kind, end, native))
  }

  /** What an XHR event says: the status is always reported, `ok` is the 2xx
      rule, the error is the label of the path taken (none for load), the body
      preview is taken exactly when the limit is positive, and response headers
      exactly when the blob is not empty. An event of the error, abort and
      timeout paths thus carries both a status and an error. */
  lemma XhrEventShape(cfg: Config, snap: Snapshot, timestamp: int, kind: Terminal, end: int, native: NativeState)
    ensures var e := SettlementEvent(cfg, snap, timestamp, kind, end, native);
      && e.transport == Xhr && e.id == snap.id && e.httpMethod == snap.httpMethod && e.url == snap.url
      && e.status == Some(native.status)
      && (e.ok == Some(true) <==> 200 <= native.status < 300)
      && (e.error.None? <==> kind == Load)
      && (kind == Timeout ==> e.error == Some("Timed out"))
      && (kind != Load ==> e.status.Some? && e.error.Some?)
      && e.durationMs == Some(end - snap.startTime)
      && e.requestHeaders == Some(snap.requestHeaders)
      && (e.responseHeaders.Some? <==> native.rawHeaders != [])
      && (e.responseBody.Some? <==> cfg.maxChars > 0)
      && (e.responseBody.Some? ==>
            |e.responseBody.value.text| <= cfg.maxChars &&
            (e.responseBody.value.truncated <==> |ResponseBodyText(native)| > cfg.maxChars))
      && e.requestBody.None?
  {
  }

  class PatchedXhr {
    const id: String
    const config: Config
    var httpMethod: String
    var url: String
    var startTime: int
    var requestHeaders: Headers
    /** The timestamps of the listener sets `send` attached, oldest first. */
    var armed: seq<int>
    /** The events handed to the sink so far. */
    var emitted: seq<NetworkLog>
    /** The calls handed to the original object so far. */
    var forwarded: seq<XhrCall>

    ghost predicate Valid()
      reads this
    {
      httpMethod != []
    }

    function Current(): Snapshot
      reads this
    {
      Snapshot(id, httpMethod, url, startTime, requestHeaders)
    }

    constructor (id: String, config: Config)
      ensures Valid()
      ensures this.id == id && this.config == config
      ensures httpMethod == "GET" && url == [] && startTime == 0 && requestHeaders == map[]
      ensures armed == [] && emitted == [] && forwarded == []
    {
      this.id := id;
      this.config := config;
      httpMethod := "GET";
      url := [];
      startTime := 0;
      requestHeaders := map[];
      armed := [];
      emitted := [];
      forwarded := [];
    }

    /** Records the method (an empty one becomes "GET") and the url, then opens
        the original with the same arguments. */
    method Open(m: String, rawUrl: UrlArg, rest: seq<JsValue>)
      requires Valid()
      modifies this`httpMethod, this`url, this`forwarded
      ensures Valid()
      ensures httpMethod == (if m == [] then "GET" else m) && url == UrlText(rawUrl)
      ensures forwarded == old(forwarded) + [OpenCall(m, rawUrl, rest)]
    {
      httpMethod := if m == [] then "GET" else m;
      url := UrlText(rawUrl);
      forwarded := forwarded + [OpenCall(m, rawUrl, rest)];
    }

    /** Stores the value under the lower-cased name (a later write to the same
        name wins), then hands the call on unchanged. */
    method SetRequestHeader(name: String, value: String)
      modifies this`requestHeaders, this`forwarded
      ensures requestHeaders == old(requestHeaders)[Lower(name) := value]
      ensures forwarded == old(forwarded) + [SetHeaderCall(name, value)]
    {
      requestHeaders := requestHeaders[Lower(name) := value];
      forwarded := forwarded + [SetHeaderCall(name, value)];
    }

    /** For an ignored url, only hands the call on. Otherwise it first restarts
        the clock and attaches a new set of the four listeners, stamped with
        the call time. The original always receives the untouched arguments. */
    method Send(args: seq<JsValue>, now: int, timestamp: int)
      modifies this`startTime, this`armed, this`forwarded
      ensures ShouldIgnore(url, config.ignoreUrls) ==> armed == old(armed) && startTime == old(startTime)
      ensures !ShouldIgnore(url, config.ignoreUrls) ==> armed == old(armed) + [timestamp] && startTime == now
      ensures forwarded == old(forwarded) + [SendCall(args)]
    {
      if !ShouldIgnore(url, config.ignoreUrls) {
        startTime := now;
        armed := armed + [timestamp];
      }
      forwarded := forwarded + [SendCall(args)];
    }

    /** `finalize` for the listener set stamped `timestamp`: parses the header
        blob, takes the body preview and builds the event from the request
        state as it is when the listener runs. */
    method Finalize(timestamp: int, kind: Terminal, end: int, native: NativeState) returns (ev: NetworkLog)
      ensures ev == SettlementEvent(config, Current(), timestamp, kind, end, native)
    {
      var responseHeaders := ParseResponseHeaders(native.rawHeaders);
      var responseBody := if config.maxChars > 0 then Some(Truncate(ResponseBodyText(native), config.maxChars)) else None;
      ev := NetworkLog(id, Xhr, httpMethod, url, Some(native.status), Some(IsOkStatus(native.status)),
                       Some(end - startTime), ErrorLabel(kind), timestamp, Some(requestHeaders),
                       responseHeaders, None, responseBody);
    }

    /** The original fires a terminal event: every attached listener for it
        runs `finalize` and emits one event. Nothing stops a second terminal
        event from emitting again. */
    method Dispatch(kind: Terminal, end: int, native: NativeState)
      modifies this`emitted
      ensures emitted == old(emitted) + Settlements(config, Current(), armed, kind, end, native)
    {
      ghost var expected := Settlements(config, Current(), armed, kind, end, native);
      var i := 0;
      while i < |armed|
        invariant 0 <= i <= |armed|
        invariant emitted == old(emitted) + expected[..i]
      {
        var ev := Finalize(armed[i], kind, end, native);
        assert expected[..i + 1] == expected[..i] + [ev];
        emitted := emitted + [ev];
        i := i + 1;
      }
      assert expected[..|armed|] == expected;
    }
  }

  /** One send and one terminal event: exactly one event, carrying the label
      of the path taken. */
  method SingleSettlement(kind: Terminal) returns (events: seq<NetworkLog>)
    ensures |events| == 1
    ensures events[0].error == ErrorLabel(kind)
    ensures events[0].httpMethod == "POST" && events[0].url == "/api/data"
  {
    var x := new PatchedXhr("x_1", Config(None, 0));
    x.Open("POST", UrlString("/api/data"), []);
    x.Send([], 10, 1000);
    x.Dispatch(kind, 25, NativeState(200, "", "", ""));
    events := x.emitted;
  }

  /** There is no once-guard: a load followed by an error event on the same
      request emits two events with the same id, and the second reports the
      status alongside its error. */
  method SettlesTwice() returns (events: seq<NetworkLog>)
    ensures |events| == 2
    ensures events[0].id == events[1].id
    ensures events[0].error.None? && events[0].status == Some(200) && events[0].ok == Some(true)
    ensures events[1].error == Some("Network error") && events[1].status == Some(0) && events[1].ok == Some(false)
  {
    var x := new PatchedXhr("x_1", Config(None, 0));
    x.Open("GET", UrlString("/api/ping"), []);
    x.Send([], 10, 1000);
    x.Dispatch(Load, 15, NativeState(200, "", "pong", ""));
    x.Dispatch(NetworkFailure, 20, NativeState(0, "", "", ""));
    events := x.emitted;
  }

  /** A POST to /api/data with a `Content-Type` header that times out: one
      event, labelled "Timed out", with the header under its lower-cased name
      and, as the code stands, a status of 0 beside the error. */
  method TimeoutScenario() returns (events: seq<NetworkLog>)
    ensures |events| == 1
    ensures events[0].httpMethod == "POST" && events[0].url == "/api/data"
    ensures events[0].error == Some("Timed out")
    ensures events[0].status == Some(0) && events[0].ok == Some(false)
    ensures events[0].requestHeaders == Some(map["content-type" := "application/json"])
  {
    var x := JsonPost();
    x.Dispatch(Timeout, 5010, NativeState(0, "", "", ""));
    events := x.emitted;
  }

  /** A wrapped request opened as POST /api/data with a `Content-Type` header
      and sent once, under a configuration that ignores /widget.css. */
  method JsonPost() returns (x: PatchedXhr)
    ensures fresh(x)
    ensures x.config == Config(Some(["/widget.css"]), 500)
    ensures x.httpMethod == "POST" && x.url == "/api/data"
    ensures x.requestHeaders == map["content-type" := "application/json"]
    ensures x.armed == [1000] && x.emitted == []
  {
    var cfg := Config(Some(["/widget.css"]), 500);
    x := new PatchedXhr("x_2", cfg);
    x.Open("POST", UrlString("/api/data"), []);
    x.SetRequestHeader("Content-Type", "application/json");
    ContentTypeLowered();
    DataUrlNotIgnored();
    x.Send([JsString("{}")], 10, 1000);
  }

  lemma DataUrlNotIgnored()
    ensures !ShouldIgnore("/api/data", Some(["/widget.css"]))
  {
    NotContainedWhenLonger("/api/data", "/widget.css");
  }

  lemma ContentTypeLowered()
    ensures Lower("Content-Type") == "content-type"
  {
  }
}
