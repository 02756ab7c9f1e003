/** The decision logic of the network monitor: the ignore list, the preview
    limit and truncation, how a fetch call's method, url, headers and body are
    read, how the raw XHR header blob is parsed, and which event a settled
    fetch emits. Browser objects are replaced by the values they would yield
    (a cloned body's text, a header collection's entries); time and ids are
    parameters. */
module NetworkMonitor {
  import opened Text
  import opened Events

  // ---------------------------------------------------------------------------
  // Configuration

  /** What a caller passes to start monitoring (the event sink aside). */
  datatype MonitorOptions = MonitorOptions(ignoreUrls: Option<seq<String>>, maxResponseChars: Option<int>)

  /** What every wrapper of one monitoring session reads. */
  datatype Config = Config(ignoreUrls: Option<seq<String>>, maxChars: nat)

  /** `Math.max(0, maxResponseChars ?? 0)`: the limit is the given value when
      that is positive, and 0 (body capture off) otherwise. */
  function MaxChars(maxResponseChars: Option<int>): (n: nat)
    ensures maxResponseChars.Some? && maxResponseChars.value >= 0 ==> n == maxResponseChars.value
    ensures maxResponseChars.None? || maxResponseChars.value <= 0 ==> n == 0
  {
    var v := maxResponseChars.GetOr(0);
    if v < 0 then 0 else v
  }

  function MakeConfig(options: MonitorOptions): Config {
    Config(options.ignoreUrls, MaxChars(options.maxResponseChars))
  }

  /** `ignore.some(i => u.includes(i))`. */
  predicate SomePatternIn(url: String, patterns: seq<String>)
    decreases |patterns|
  {
    patterns != [] && (Contains(url, patterns[0]) || SomePatternIn(url, patterns[1..]))
  }

  /** `shouldIgnore`: false without a list or with an empty one, otherwise
      whether some pattern occurs in the url. */
  predicate ShouldIgnore(url: String, ignore: Option<seq<String>>) {
    if ignore.None? || |ignore.value| == 0 then false else SomePatternIn(url, ignore.value)
  }

  /** The ignore test is plain substring containment: a url is ignored exactly
      when some listed pattern occurs in it at some index. */
  lemma {:induction false} ShouldIgnoreIff(url: String, ignore: Option<seq<String>>)
    ensures ShouldIgnore(url, ignore) <==>
              ignore.Some? && exists k :: 0 <= k < |ignore.value| && Contains(url, ignore.value[k])
    ensures ShouldIgnore(url, ignore) <==>
              ignore.Some? && exists k, i :: 0 <= k < |ignore.value| && OccursAt(url, ignore.value[k], i)
  {
    if ignore.Some? {
      SomePatternInIff(url, ignore.value);
      forall k | 0 <= k < |ignore.value| ensures Contains(url, ignore.value[k]) <==> exists i :: OccursAt(url, ignore.value[k], i) {
        ContainsIff(url, ignore.value[k]);
      }
    }
  }

  lemma {:induction false} SomePatternInIff(url: String, patterns: seq<String>)
    ensures SomePatternIn(url, patterns) <==> exists k :: 0 <= k < |patterns| && Contains(url, patterns[k])
    decreases |patterns|
  {
    if patterns != [] {
      SomePatternInIff(url, patterns[1..]);
      if SomePatternIn(url, patterns[1..]) {
        var k :| 0 <= k < |patterns| - 1 && Contains(url, patterns[1..][k]);
        assert Contains(url, patterns[k + 1]);
      }
      forall k | 1 <= k < |patterns| && Contains(url, patterns[k]) ensures SomePatternIn(url, patterns[1..]) {
        assert patterns[1..][k - 1] == patterns[k];
      }
    }
  }

  // ---------------------------------------------------------------------------
  // Previews

  /** `txt.slice(0, maxChars)` with the flag `txt.length > maxChars`. */
  function Truncate(txt: String, maxChars: nat): (p: Preview)
    ensures p.text <= txt && |p.text| <= maxChars
    ensures |p.text| == if |txt| <= maxChars then |txt| else maxChars
    ensures p.truncated <==> |txt| > maxChars
    ensures p.truncated <==> p.text != txt
  {
    Preview(txt[..if |txt| <= maxChars then |txt| else maxChars], |txt| > maxChars)
  }

  // ---------------------------------------------------------------------------
  // The arguments of a fetch call

  /** An arbitrary JavaScript value where the source applies `String(...)`. */
  datatype JsValue = JsString(s: String) | JsNumber(n: int) | JsBool(b: bool) | JsNull | JsUndefined

  function Stringify(v: JsValue): String {
    match v
    case JsString(s) => s
    case JsNumber(n) => IntToString(n)
    case JsBool(b) => if b then "true" else "false"
    case JsNull => "null"
    case JsUndefined => "undefined"
  }

  /** The text a body stream yields when cloned and read: there is no stream,
      it reads as `text`, or cloning or reading it throws. */
  datatype BodyText = NoBody | Readable(text: String) | Unreadable

  /** A `Request` object, reduced to what the wrapper reads from it. */
  datatype Request = Request(httpMethod: String, url: String, headers: seq<(String, String)>, body: BodyText)

  /** The first argument of `fetch`: a `Request`, or any other value, given
      here as its `String(...)` form. */
  datatype FetchInput = RequestInput(req: Request) | Resource(text: String)

  /** The `headers` option: a `Headers` object (its entries), an array of
      pairs, a plain object (its own keys in order), or some other truthy value. */
  datatype HeadersInit =
    | HeadersObject(entries: seq<(String, String)>)
    | PairList(pairs: seq<(JsValue, JsValue)>)
    | Record(fields: seq<(String, JsValue)>)
    | OtherHeaders

  datatype FormValue = FormText(s: String) | FormFile

  /** The `body` option: a string, a `URLSearchParams` (its serialised form),
      a `FormData` (its entries in order), or some other body such as a Blob. */
  datatype BodyInit =
    | TextBody(s: String)
    | SearchParams(encoded: String)
    | FormBody(entries: seq<(String, FormValue)>)
    | OtherBody

  /** The second argument of `fetch`; `headers` and `body` are `None` when absent or falsy. */
  datatype Init = Init(httpMethod: Option<String>, headers: Option<HeadersInit>, body: Option<BodyInit>)

  const EmptyInit := Init(None, None, None)

  /** Method and url of a call: a `Request` gives its own, anything else is
      stringified as the url and the method comes from the options. A missing
      or empty method becomes "GET". */
  function ResolveTarget(input: FetchInput, init: Option<Init>): (t: (String, String))
    ensures t.0 != []
    ensures input.RequestInput? ==> t.1 == input.req.url
    ensures input.RequestInput? ==> t.0 == if input.req.httpMethod == [] then "GET" else input.req.httpMethod
    ensures input.Resource? ==> t.1 == input.text
    ensures input.Resource? ==> t.0 == if Truthy(init.GetOr(EmptyInit).httpMethod) then init.GetOr(EmptyInit).httpMethod.value else "GET"
  {
    match input
    case RequestInput(req) => (if req.httpMethod != [] then req.httpMethod else "GET", req.url)
    case Resource(text) =>
      var m := init.GetOr(EmptyInit).httpMethod;
      (if Truthy(m) then m.value else "GET", text)
  }

  // ---------------------------------------------------------------------------
  // Header collections

  /** A header record filled entry by entry: a name is present exactly when
      some entry has it. */
  function Collect(entries: seq<(String, String)>): (m: Headers)
    ensures forall k :: k in m <==> exists i :: 0 <= i < |entries| && entries[i].0 == k
    decreases |entries|
  {
    if entries == [] then map[]
    else
      var last := entries[|entries| - 1];
      var prefix := entries[..|entries| - 1];
      var m := Collect(prefix)[last.0 := last.1];
      assert forall i :: 0 <= i < |prefix| ==> prefix[i] == entries[i];
      m
  }

  /** When a name is written several times, the last write wins. */
  lemma {:induction false} CollectLastWins(entries: seq<(String, String)>, i: nat)
    requires i < |entries|
    requires forall j :: i < j < |entries| ==> entries[j].0 != entries[i].0
    ensures entries[i].0 in Collect(entries) && Collect(entries)[entries[i].0] == entries[i].1
    decreases |entries|
  {
    if i < |entries| - 1 {
      var prefix := entries[..|entries| - 1];
      assert prefix[i] == entries[i];
      CollectLastWins(prefix, i);
    }
  }

  /** Converts array-of-pairs headers with `String()` on both halves. */
  function PairEntries(pairs: seq<(JsValue, JsValue)>): seq<(String, String)> {
    seq(|pairs|, i requires 0 <= i < |pairs| => (Stringify(pairs[i].0), Stringify(pairs[i].1)))
  }

  /** Converts plain-object headers: keys kept as they are, values through `String()`. */
  function RecordEntries(fields: seq<(String, JsValue)>): seq<(String, String)> {
    seq(|fields|, i requires 0 <= i < |fields| => (fields[i].0, Stringify(fields[i].1)))
  }

  function InitHeaders(h: HeadersInit): Headers {
    match h
    case HeadersObject(entries) => Collect(entries)
    case PairList(pairs) => Collect(PairEntries(pairs))
    case Record(fields) => Collect(RecordEntries(fields))
    case OtherHeaders => map[]
  }

  /** The request headers a fetch event reports: always those of a `Request`;
      for other inputs, those of the `headers` option when it is given. */
  function RequestHeaders(input: FetchInput, init: Option<Init>): Option<Headers> {
    match input
    case RequestInput(req) => Some(Collect(req.headers))
    case Resource(_) =>
      var hs := init.GetOr(EmptyInit).headers;
      if hs.Some? then Some(InitHeaders(hs.value)) else None
  }

  /** Fills a header record from a list of entries, one assignment per entry. */
  method FillHeaders(entries: seq<(String, String)>) returns (m: Headers)
    ensures m == Collect(entries)
  {
    m := map[];
    for i := 0 to |entries|
      invariant m == Collect(entries[..i])
    {
      assert entries[..i + 1][..i] == entries[..i];
      m := m[entries[i].0 := entries[i].1];
    }
    assert entries[..|entries|] == entries;
  }

  /** The header-extraction branch of the fetch wrapper: `Headers.forEach`,
      the `for ... of` over pairs and the `for ... of Object.keys` over a plain
      object, each writing one name at a time. */
  method ExtractRequestHeaders(input: FetchInput, init: Option<Init>) returns (hs: Option<Headers>)
    ensures hs == RequestHeaders(input, init)
  {
    match input {
      case RequestInput(req) =>
        var m := FillHeaders(req.headers);
        hs := Some(m);
      case Resource(_) =>
        var h := init.GetOr(EmptyInit).headers;
        if h.None? {
          hs := None;
        } else {
          var m: Headers := map[];
          match h.value {
            case HeadersObject(entries) =>
              m := FillHeaders(entries);
            case PairList(pairs) =>
              ghost var converted := PairEntries(pairs);
              for i := 0 to |pairs|
                invariant m == Collect(converted[..i])
              {
                assert converted[..i + 1][..i] == converted[..i];
                m := m[Stringify(pairs[i].0) := Stringify(pairs[i].1)];
              }
              assert converted[..|pairs|] == converted;
            case Record(fields) =>
              ghost var converted := RecordEntries(fields);
              for i := 0 to |fields|
                invariant m == Collect(converted[..i])
              {
                assert converted[..i + 1][..i] == converted[..i];
                m := m[fields[i].0 := Stringify(fields[i].1)];
              }
              assert converted[..|fields|] == converted;
            case OtherHeaders =>
          }
          hs := Some(m);
        }
    }
  }

  // ---------------------------------------------------------------------------
  // Request bodies

  function FormPart(entry: (String, FormValue)): String {
    entry.0 + "=" + (match entry.1 case FormText(s) => s case FormFile => "[file]")
  }

  function FormParts(entries: seq<(String, FormValue)>): seq<String> {
    seq(|entries|, i requires 0 <= i < |entries| => FormPart(entries[i]))
  }

  /** A `FormData` body as text: `k=v` per entry, joined by `&`. */
  function FormText(entries: seq<(String, FormValue)>): String {
    Join(FormParts(entries), "&")
  }

  /** The `FormData` branch: pushes one part per entry, then joins them. */
  method SerializeForm(entries: seq<(String, FormValue)>) returns (s: String)
    ensures s == FormText(entries)
  {
    var parts: seq<String> := [];
    for i := 0 to |entries|
      invariant parts == FormParts(entries)[..i]
    {
      var v := match entries[i].1 case FormText(t) => t case FormFile => "[file]";
      parts := parts + [entries[i].0 + "=" + v];
    }
    assert parts == FormParts(entries);
    s := Join(parts, "&");
  }

  /** When no key and no text value contains `&`, the serialised form splits
      back into its `k=v` parts, one per entry, in order. */
  lemma FormTextSplits(entries: seq<(String, FormValue)>)
    requires |entries| >= 1
    requires forall i :: 0 <= i < |entries| ==> '&' !in entries[i].0
    requires forall i :: 0 <= i < |entries| && entries[i].1.FormText? ==> '&' !in entries[i].1.s
    ensures Split(FormText(entries), '&') == FormParts(entries)
    ensures forall i :: 0 <= i < |entries| ==> FormParts(entries)[i][..|entries[i].0| + 1] == entries[i].0 + "="
  {
    var parts := FormParts(entries);
    forall i | 0 <= i < |parts| ensures '&' !in parts[i] {
      assert parts[i] == FormPart(entries[i]);
    }
    SplitJoin(parts, '&');
  }

  /** JavaScript truthiness of a body: only the empty string is falsy. */
  predicate BodyTruthy(b: BodyInit) {
    !(b.TextBody? && b.s == [])
  }

  /** The text a truthy body is previewed from, when its kind is previewed at all. */
  function BodySource(b: BodyInit): Option<String> {
    match b
    case TextBody(s) => Some(s)
    case SearchParams(encoded) => Some(encoded)
    case FormBody(entries) => Some(FormText(entries))
    case OtherBody => None
  }

  /** The request body preview: only with a positive limit; for a `Request`,
      from the text of its cloned body when it has one that reads; otherwise
      from a truthy string, `URLSearchParams` or `FormData` body. */
  function RequestBodyPreview(input: FetchInput, init: Option<Init>, maxChars: nat): Option<Preview> {
    if maxChars == 0 then None
    else match input
      case RequestInput(req) =>
        if req.body.Readable? then Some(Truncate(req.body.text, maxChars)) else None
      case Resource(_) =>
        var b := init.GetOr(EmptyInit).body;
        if b.Some? && BodyTruthy(b.value) && BodySource(b.value).Some?
        then Some(Truncate(BodySource(b.value).value, maxChars))
        else None
  }

  // ---------------------------------------------------------------------------
  // The raw XHR response-header blob

  function StripCR(s: String): String {
    if s != [] && s[|s| - 1] == '\r' then s[..|s| - 1] else s
  }

  /** `raw.split(/\r?\n/)`: split at each line feed, and drop the carriage
      return in front of it. */
  function Lines(raw: String): seq<String> {
    var pieces := Split(raw, '\n');
    seq(|pieces|, i requires 0 <= i < |pieces| => if i < |pieces| - 1 then StripCR(pieces[i]) else pieces[i])
  }

  /** One `Name: Value` line: split at the first colon when it is not at index
      0; the name is trimmed and lower-cased, the value trimmed; a blank name
      yields nothing. */
  function ParseHeaderLine(line: String): Option<(String, String)> {
    var idx := IndexOf(line, ':');
    if idx > 0 then
      var k := Lower(Trim(line[..idx]));
      if k != [] then Some((k, Trim(line[idx + 1..]))) else None
    else None
  }

  /** What a parsed line holds: a pair exactly when there is a colon past
      index 0 and the text before it is not blank; the name is then non-empty,
      lower-case and trimmed, and the value trimmed. */
  lemma ParseHeaderLineShape(line: String)
    ensures var r := ParseHeaderLine(line);
      && (r.Some? <==> IndexOf(line, ':') > 0 && Trim(line[..IndexOf(line, ':')]) != [])
      && (r.Some? ==> r.value.0 != [] && IsLowerCase(r.value.0) && IsTrimmed(r.value.0))
      && (r.Some? ==> IsTrimmed(r.value.1))
  {
    var idx := IndexOf(line, ':');
    if idx > 0 {
      LowerKeepsTrimmed(Trim(line[..idx]));
    }
  }

  lemma LowerKeepsTrimmed(s: String)
    requires IsTrimmed(s)
    ensures IsTrimmed(Lower(s))
  {
  }

  /** Each line of the blob, parsed. */
  function ParsedLines(lines: seq<String>): seq<Option<(String, String)>> {
    seq(|lines|, i requires 0 <= i < |lines| => ParseHeaderLine(lines[i]))
  }

  /** The record a sequence of parsed lines fills, one after the other; lines
      that yield nothing leave it unchanged. */
  function Fill(parsed: seq<Option<(String, String)>>): Headers
    decreases |parsed|
  {
    if parsed == [] then map[]
    else
      var m := Fill(parsed[..|parsed| - 1]);
      var p := parsed[|parsed| - 1];
      if p.Some? then m[p.value.0 := p.value.1] else m
  }

  /** The record the parsed lines of the blob fill. */
  function HeaderMap(lines: seq<String>): Headers {
    Fill(ParsedLines(lines))
  }

  /** The response headers of an XHR event: absent for an empty blob, else the
      record its lines fill. */
  function ResponseHeaders(raw: String): Option<Headers> {
    if raw == [] then None else Some(HeaderMap(Lines(raw)))
  }

  lemma {:induction false} FillKeys(parsed: seq<Option<(String, String)>>, k: String)
    ensures k in Fill(parsed) <==> exists i :: 0 <= i < |parsed| && parsed[i] != None && parsed[i].value.0 == k
    decreases |parsed|
  {
    if parsed != [] {
      var n := |parsed| - 1;
      var prefix := parsed[..n];
      FillKeys(prefix, k);
      if parsed[n] != None && parsed[n].value.0 == k {
      } else if k in Fill(parsed) {
        var i :| 0 <= i < |prefix| && prefix[i] != None && prefix[i].value.0 == k;
        assert parsed[i] == prefix[i];
      } else {
        forall i | 0 <= i < n ensures !(parsed[i] != None && parsed[i].value.0 == k) {
          assert parsed[i] == prefix[i];
        }
      }
    }
  }

  lemma {:induction false} FillLastWins(parsed: seq<Option<(String, String)>>, i: nat, k: String, v: String)
    requires i < |parsed| && parsed[i] == Some((k, v))
    requires forall j :: i < j < |parsed| && parsed[j] != None ==> parsed[j].value.0 != k
    ensures k in Fill(parsed) && Fill(parsed)[k] == v
    decreases |parsed|
  {
    if i < |parsed| - 1 {
      var prefix := parsed[..|parsed| - 1];
      assert prefix[i] == parsed[i];
      FillLastWins(prefix, i, k, v);
    }
  }

  lemma FillStep(parsed: seq<Option<(String, String)>>, i: nat)
    requires i < |parsed|
    ensures Fill(parsed[..i + 1]) ==
              if parsed[i] != None then Fill(parsed[..i])[parsed[i].value.0 := parsed[i].value.1] else Fill(parsed[..i])
  {
    assert parsed[..i + 1][..i] == parsed[..i];
  }

  /** A name is in the parsed record exactly when some line yields it. */
  lemma HeaderMapKeys(lines: seq<String>, k: String)
    ensures k in HeaderMap(lines) <==>
              exists i :: 0 <= i < |lines| && ParseHeaderLine(lines[i]) != None && ParseHeaderLine(lines[i]).value.0 == k
  {
    var parsed := ParsedLines(lines);
    FillKeys(parsed, k);
    if k in HeaderMap(lines) {
      var i :| 0 <= i < |parsed| && parsed[i] != None && parsed[i].value.0 == k;
      assert parsed[i] == ParseHeaderLine(lines[i]);
    } else {
      forall i | 0 <= i < |lines| ensures !(ParseHeaderLine(lines[i]) != None && ParseHeaderLine(lines[i]).value.0 == k) {
        assert parsed[i] == ParseHeaderLine(lines[i]);
      }
    }
  }

  /** A later line with the same name overwrites an earlier one: the value
      kept is that of the last line yielding the name. */
  lemma HeaderMapLastWins(lines: seq<String>, i: nat, k: String, v: String)
    requires i < |lines| && ParseHeaderLine(lines[i]) == Some((k, v))
    requires forall j :: i < j < |lines| && ParseHeaderLine(lines[j]) != None ==> ParseHeaderLine(lines[j]).value.0 != k
    ensures k in HeaderMap(lines) && HeaderMap(lines)[k] == v
  {
    FillLastWins(ParsedLines(lines), i, k, v);
  }

  /** A well-formed `Name: Value` line reads back as its lower-cased name and
      its value. */
  lemma HeaderLineRoundTrip(name: String, value: String)
    requires name != [] && ':' !in name && IsTrimmed(name)
    requires IsTrimmed(value)
    ensures ParseHeaderLine(name + ": " + value) == Some((Lower(name), value))
  {
    var line := name + ": " + value;
    var rest := " " + value;
    assert line == name + [':'] + rest;
    IndexOfAfter(name, ':', rest);
    var idx := IndexOf(line, ':');
    assert line[..idx] == name;
    assert line[idx + 1..] == rest;
    TrimTrimmed(name);
    TrimAfterSpace(value);
    assert |Lower(name)| == |name|;
  }

  lemma TrimAfterSpace(value: String)
    requires IsTrimmed(value)
    ensures Trim(" " + value) == value
  {
    var rest := " " + value;
    assert rest[1..] == value;
    assert TrimStart(rest) == TrimStart(value);
    TrimTrimmed(value);
  }

  /** The header-blob branch of `finalize`: one pass over the lines, writing
      each parsed pair into the record. */
  method ParseResponseHeaders(raw: String) returns (hs: Option<Headers>)
    ensures hs == ResponseHeaders(raw)
  {
    if raw == [] {
      return None;
    }
    var lines := Lines(raw);
    ghost var parsed := ParsedLines(lines);
    var m: Headers := map[];
    for i := 0 to |lines|
      invariant m == Fill(parsed[..i])
    {
      FillStep(parsed, i);
      var line := lines[i];
      var idx := IndexOf(line, ':');
      if idx > 0 {
        var k := Lower(Trim(line[..idx]));
        var v := Trim(line[idx + 1..]);
        if k != [] {
          m := m[k := v];
        }
      }
    }
    assert parsed[..|lines|] == parsed;
    hs := Some(m);
  }

  // ---------------------------------------------------------------------------
  // The fetch wrapper

  /** What the original `fetch` did: resolved with a response, or rejected. */
  datatype Response = Response(status: nat, ok: bool, headers: seq<(String, String)>, body: BodyText)
  datatype FetchError = FetchError(message: Option<String>)
  datatype FetchOutcome = Resolved(response: Response) | Rejected(error: FetchError)

  /** The id, the call-start timestamp, and the two readings of the clock
      taken around the delegated call. */
  datatype CallStamp = CallStamp(id: String, timestamp: int, start: int, end: int)

  /** What one wrapped call did: the arguments it handed to the original, the
      events it emitted, and the outcome its caller sees. */
  datatype FetchTrace = FetchTrace(forwardedInput: FetchInput, forwardedInit: Option<Init>,
                                   emitted: seq<NetworkLog>, outcome: FetchOutcome)

  /** `e?.message || 'Network error'`. */
  function ErrorText(e: FetchError): (s: String)
    ensures s != []
  {
    if Truthy(e.message) then e.message.value else "Network error"
  }

  /** The text `Response.clone().text()` yields: a missing body reads as empty. */
  function ResponseText(b: BodyText): Option<String> {
    match b
    case NoBody => Some([])
    case Readable(t) => Some(t)
    case Unreadable => None
  }

  function SuccessEvent(cfg: Config, stamp: CallStamp, input: FetchInput, init: Option<Init>, res: Response): NetworkLog {
    var (verb, url) := ResolveTarget(input, init);
    var txt := ResponseText(res.body);
    NetworkLog(stamp.id, Fetch, verb, url, Some(res.status), Some(res.ok), Some(stamp.end - stamp.start),
               None, stamp.timestamp, RequestHeaders(input, init), Some(Collect(res.headers)),
               RequestBodyPreview(input, init, cfg.maxChars),
               if cfg.maxChars > 0 && txt.Some? then Some(Truncate(txt.value, cfg.maxChars)) else None)
  }

  function FailureEvent(cfg: Config, stamp: CallStamp, input: FetchInput, init: Option<Init>, e: FetchError): NetworkLog {
    var (verb, url) := ResolveTarget(input, init);
    NetworkLog(stamp.id, Fetch, verb, url, None, None, Some(stamp.end - stamp.start),
               Some(ErrorText(e)), stamp.timestamp, RequestHeaders(input, init), None,
               RequestBodyPreview(input, init, cfg.maxChars), None)
  }

  /** One call of the wrapped `fetch`. It hands its own arguments to the
      original unchanged and settles as the original did; it emits nothing for
      an ignored url and exactly one event otherwise. */
  function FetchCall(cfg: Config, stamp: CallStamp, input: FetchInput, init: Option<Init>, outcome: FetchOutcome): (t: FetchTrace)
    ensures t.forwardedInput == input && t.forwardedInit == init && t.outcome == outcome
    ensures |t.emitted| == if ShouldIgnore(ResolveTarget(input, init).1, cfg.ignoreUrls) then 0 else 1
  {
    var url := ResolveTarget(input, init).1;
    if ShouldIgnore(url, cfg.ignoreUrls) then FetchTrace(input, init, [], outcome)
    else
      var ev := match outcome
        case Resolved(res) => SuccessEvent(cfg, stamp, input, init, res)
        case Rejected(e) => FailureEvent(cfg, stamp, input, init, e);
      FetchTrace(input, init, [ev], outcome)
  }

  /** The event a fetch emits: a response gives status and `ok` and no error;
      a failure gives its message (or "Network error") and no status. */
  lemma FetchEventShape(cfg: Config, stamp: CallStamp, input: FetchInput, init: Option<Init>, outcome: FetchOutcome)
    requires !ShouldIgnore(ResolveTarget(input, init).1, cfg.ignoreUrls)
    ensures var e := FetchCall(cfg, stamp, input, init, outcome).emitted[0];
      && e.transport == Fetch && e.id == stamp.id && e.timestamp == stamp.timestamp
      && (e.httpMethod, e.url) == ResolveTarget(input, init)
      && e.requestHeaders == RequestHeaders(input, init)
      && (e.status.Some? <==> outcome.Resolved?)
      && (e.error.Some? <==> outcome.Rejected?)
      && !(e.status.Some? && e.error.Some?)
      && (outcome.Resolved? ==> e.status == Some(outcome.response.status) && e.ok == Some(outcome.response.ok)
                                && e.responseHeaders == Some(Collect(outcome.response.headers)))
      && (outcome.Rejected? ==> e.error == Some(ErrorText(outcome.error)) && e.ok.None?
                                && e.responseHeaders.None? && e.responseBody.None?)
  {
  }

  /** Every preview an event carries is a prefix of its text no longer than
      the limit, flagged exactly when text was cut; with a limit of 0 no
      preview is taken, while status and headers still are. */
  lemma FetchPreviewBounds(cfg: Config, stamp: CallStamp, input: FetchInput, init: Option<Init>, outcome: FetchOutcome)
    requires !ShouldIgnore(ResolveTarget(input, init).1, cfg.ignoreUrls)
    ensures var e := FetchCall(cfg, stamp, input, init, outcome).emitted[0];
      && (e.requestBody.Some? ==> cfg.maxChars > 0 && |e.requestBody.value.text| <= cfg.maxChars)
      && (e.responseBody.Some? ==> cfg.maxChars > 0 && |e.responseBody.value.text| <= cfg.maxChars)
      && (outcome.Resolved? && outcome.response.body.Readable? && cfg.maxChars > 0 ==>
            e.responseBody == Some(Truncate(outcome.response.body.text, cfg.maxChars)))
      && (cfg.maxChars == 0 ==> e.requestBody.None? && e.responseBody.None?)
      && (cfg.maxChars == 0 && outcome.Resolved? ==> e.status.Some? && e.responseHeaders.Some?)
  {
  }

  /** With a positive limit, the request preview is the truncation of the
      body text: a readable `Request` body, a non-empty string, the encoded
      `URLSearchParams`, or the `k=v` text of a `FormData`; any other body
      kind gives none. */
  lemma FetchRequestPreview(cfg: Config, stamp: CallStamp, input: FetchInput, init: Option<Init>, outcome: FetchOutcome)
    requires !ShouldIgnore(ResolveTarget(input, init).1, cfg.ignoreUrls) && cfg.maxChars > 0
    ensures var e := FetchCall(cfg, stamp, input, init, outcome).emitted[0];
      var body := init.GetOr(EmptyInit).body;
      && (input.RequestInput? ==>
            e.requestBody == if input.req.body.Readable? then Some(Truncate(input.req.body.text, cfg.maxChars)) else None)
      && (input.Resource? && body.Some? && body.value.TextBody? ==>
            e.requestBody == if body.value.s == [] then None else Some(Truncate(body.value.s, cfg.maxChars)))
      && (input.Resource? && body.Some? && body.value.SearchParams? ==>
            e.requestBody == Some(Truncate(body.value.encoded, cfg.maxChars)))
      && (input.Resource? && body.Some? && body.value.FormBody? ==>
            e.requestBody == Some(Truncate(FormText(body.value.entries), cfg.maxChars)))
      && (input.Resource? && (body.None? || body.value.OtherBody?) ==> e.requestBody.None?)
  {
  }

  /** An ignored call emits nothing and still hands the original exactly its arguments. */
  lemma IgnoredFetchIsSilent(cfg: Config, stamp: CallStamp, input: FetchInput, init: Option<Init>, outcome: FetchOutcome)
    requires ShouldIgnore(ResolveTarget(input, init).1, cfg.ignoreUrls)
    ensures FetchCall(cfg, stamp, input, init, outcome) == FetchTrace(input, init, [], outcome)
  {
  }
}
