/**
 * The field extractors of the middleware and the assembly of the log record
 * from their outputs (`getRequestId` to `getBasicReqHeaders` and the
 * `Object.assign` inside `logging`).
 */
module Extractors {
  import opened Base
  import opened JsObjects
  import opened Version

  /**
   * The property names the middleware reads from the request and response or writes
   * into the log record. `Name` gives each one's spelling in JavaScript.
   */
  datatype Prop =
    | Id | Logs | Method | Url | OriginalUrl | Ip | Path | Query
    | ReqId | StatusCode | ResponseTime | HttpVersion | ReqHeaders | ReqQuery | ResLogs

  function Name(p: Prop): string {
    match p
    case Id => "id"
    case Logs => "logs"
    case Method => "method"
    case Url => "url"
    case OriginalUrl => "originalUrl"
    case Ip => "ip"
    case Path => "path"
    case Query => "query"
    case ReqId => "req_id"
    case StatusCode => "statusCode"
    case ResponseTime => "response_time"
    case HttpVersion => "http_version"
    case ReqHeaders => "req_headers"
    case ReqQuery => "req_query"
    case ResLogs => "res_logs"
  }

  /** Distinct keys have distinct JavaScript spellings, so keys that differ here differ as properties. */
  lemma NameInjective(p: Prop, q: Prop)
    requires Name(p) == Name(q)
    ensures p == q
  {
  }

  /** A log record: a plain object keyed by property name. */
  type Record = Object<Prop>

  /**
   * The in-flight request: its own properties (`method`, `url`, `originalUrl`, `ip`,
   * `path`, `query`, and the `id` and `logs` the middleware attaches), the protocol
   * version numbers, and the header accessor `req.get`, which yields `undefined`
   * for a header the request does not carry. `props` is keyed by the whole `Prop`
   * enumeration, but only those eight request-side keys are ever read from it.
   */
  datatype Request = Request(
    props: Object<Prop>,
    httpVersionMajor: nat,
    httpVersionMinor: nat,
    header: string -> Value)

  /**
   * The response: its status code once one is set, and its own properties. Of those only
   * `logs` is ever read; `res.statusCode` is the separate field, never a `StatusCode`
   * entry of `props`.
   */
  datatype Response = Response(statusCode: Option<int>, props: Object<Prop>)

  /** `BASIC_HEADER_FIELDS`: the headers every record carries. */
  const BasicHeaderFields: seq<string> := ["referer", "user-agent"]

  /** Every key a log record can have. */
  const RecordKeys: set<Prop> := {
    ReqId, StatusCode, Method, Url, OriginalUrl, Ip, ResponseTime,
    HttpVersion, ReqHeaders, ReqQuery, Path, Logs, ResLogs
  }

  /** `getRequestId`'s contribution: the id generated for this request. */
  function RequestIdPart(id: string): Record {
    map[ReqId := Str(id)]
  }

  /** `getStatusCode = fp.pick(['statusCode'])` applied to the response. */
  function StatusCodePart(res: Response): Record {
    match res.statusCode
    case None => map[]
    case Some(code) => map[StatusCode := Num(code)]
  }

  /** `getMethod`, `getUrls`, `getReqIp`, `getReqPath`, `getReqLogs`: picks from the request. */
  function MethodPart(req: Request): Record { Pick([Method], req.props) }
  function UrlsPart(req: Request): Record { Pick([Url, OriginalUrl], req.props) }
  function IpPart(req: Request): Record { Pick([Ip], req.props) }
  function PathPart(req: Request): Record { Pick([Path], req.props) }
  function ReqLogsPart(req: Request): Record { Pick([Logs], req.props) }

  /** `getResLogs`: reads `res.logs` directly, so the key is there even when the value is not. */
  function ResLogsPart(res: Response): Record {
    map[ResLogs := Get(res.props, Logs)]
  }

  /** The object `fp.pick(['query'])(req)`: the one key `query` when the request has it. */
  function QueryObject(req: Request): Object<string> {
    if Query in req.props then map["query" := req.props[Query]] else map[]
  }

  /** `getReqQuery`: the query picked from the request, nested under `req_query`. */
  function ReqQueryPart(req: Request): Record {
    map[ReqQuery := Obj(QueryObject(req))]
  }

  /** `getResTime`: the elapsed time, taken from the clock at completion. */
  function ResTimePart(responseTime: Value): Record {
    map[ResponseTime := responseTime]
  }

  /** `getReqHttpVersion`. */
  function HttpVersionPart(req: Request): Record {
    map[HttpVersion := Str(VersionString(req.httpVersionMajor, req.httpVersionMinor))]
  }

  /**
   * `getHeaderFields(fields)(req)`: a reduce over `fields` that stores `req.get(field)`
   * under each name, so every listed name becomes a key, its value possibly `undefined`.
   */
  function HeaderFields(fields: seq<string>, req: Request): (r: Object<string>)
    ensures forall k :: k in r <==> k in fields
    ensures forall k :: k in r ==> r[k] == req.header(k)
  {
    if |fields| == 0 then map[]
    else
      var f := fields[|fields| - 1];
      HeaderFields(fields[..|fields| - 1], req)[f := req.header(f)]
  }

  /** The header sub-map: the configured extra headers, then the basic ones merged over them. */
  function ReqHeadersObject(extra: seq<string>, req: Request): Object<string> {
    Assign([HeaderFields(extra, req), HeaderFields(BasicHeaderFields, req)])
  }

  /**
   * The header sub-map holds every configured and every basic header name, each with
   * `req.get`'s value for it. Both sides read the same accessor, so which side the merge
   * lets win a shared name makes no difference to the value.
   */
  lemma ReqHeadersContents(extra: seq<string>, req: Request)
    ensures var h := ReqHeadersObject(extra, req);
      && (forall k :: k in h <==> k in extra || k in BasicHeaderFields)
      && (forall k :: k in h ==> h[k] == req.header(k))
  {
    AssignPair(HeaderFields(extra, req), HeaderFields(BasicHeaderFields, req));
  }

  /**
   * In the merge, the basic headers' map is the later argument: it decides every name it
   * holds, and a configured name outside the basic set keeps the configured map's entry.
   */
  lemma ReqHeadersPrecedence(extra: seq<string>, req: Request)
    ensures var basic := HeaderFields(BasicHeaderFields, req);
      var configured := HeaderFields(extra, req);
      var h := ReqHeadersObject(extra, req);
      && (forall k :: k in basic ==> k in h && h[k] == basic[k])
      && (forall k :: k in configured && k !in basic ==> k in h && h[k] == configured[k])
  {
    AssignPair(HeaderFields(extra, req), HeaderFields(BasicHeaderFields, req));
  }

  /** Without a `headers` option the sub-map has exactly the two basic headers. */
  lemma ReqHeadersDefault(req: Request)
    ensures ReqHeadersObject([], req).Keys == {"referer", "user-agent"}
  {
    ReqHeadersContents([], req);
  }

  /** `{ req_headers: ... }`. */
  function ReqHeadersPart(extra: seq<string>, req: Request): Record {
    map[ReqHeaders := Obj(ReqHeadersObject(extra, req))]
  }

  /** The arguments of the `Object.assign` in `logging`, in source order. */
  function RecordParts(id: string, extra: seq<string>, req: Request, res: Response, responseTime: Value): seq<Record> {
    [RequestIdPart(id), StatusCodePart(res), MethodPart(req), UrlsPart(req), IpPart(req),
     ResTimePart(responseTime), HttpVersionPart(req), ReqHeadersPart(extra, req),
     ReqQueryPart(req), PathPart(req), ReqLogsPart(req), ResLogsPart(res)]
  }

  /** The log record `resLog`. */
  function BuildRecord(id: string, extra: seq<string>, req: Request, res: Response, responseTime: Value): Record {
    Assign(RecordParts(id, extra, req, res, responseTime))
  }
}
