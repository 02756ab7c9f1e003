/** The shapes of what the monitors hand to the panel: one record per observed
    network transaction and one per observed click. Optional fields of the
    JavaScript objects become `Option` values. */
module Events {
  import opened Text

  datatype Option<+T> = None | Some(value: T) {
    function GetOr(default: T): T {
      match this
      case Some(v) => v
      case None => default
    }
  }

  /** Which wrapped primitive observed the transaction. */
  datatype Transport = Fetch | Xhr

  /** A body preview: the captured prefix of the text and whether anything was cut. */
  datatype Preview = Preview(text: String, truncated: bool)

  /** A header record: lower-case name to value. */
  type Headers = map<String, String>

  /** One observed network transaction (the `NetworkLog` record). The optional
      preview and its truncation flag are always set together, so they are one
      `Option<Preview>` here. */
  datatype NetworkLog = NetworkLog(
    id: String,
    transport: Transport,
    httpMethod: String,
    url: String,
    status: Option<nat>,
    ok: Option<bool>,
    durationMs: Option<int>,
    error: Option<String>,
    timestamp: int,
    requestHeaders: Option<Headers>,
    responseHeaders: Option<Headers>,
    requestBody: Option<Preview>,
    responseBody: Option<Preview>)

  /** One observed click (the `ClickLog` record). */
  datatype ClickLog = ClickLog(
    id: String,
    timestamp: int,
    tag: String,
    idAttr: Option<String>,
    classes: seq<String>,
    role: Option<String>,
    name: Option<String>,
    text: Option<String>,
    selector: Option<String>,
    x: int,
    y: int)

  /** JavaScript truthiness of an optional string (`s || fallback` takes the
      fallback for both `undefined` and `''`). */
  predicate Truthy(s: Option<String>) {
    s.Some? && s.value != []
  }
}
