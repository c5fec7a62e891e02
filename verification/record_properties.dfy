/**
 * What the assembled log record holds: its keys, and where each value comes from.
 */
module RecordProperties {
  import opened Base
  import opened JsObjects
  import opened Extractors
  import opened Version

  /** The position, among the merged parts, of the one extractor that can produce `k`; -1 if none. */
  function Owner(k: Prop): int {
    match k
    case ReqId => 0
    case StatusCode => 1
    case Method => 2
    case Url => 3
    case OriginalUrl => 3
    case Ip => 4
    case ResponseTime => 5
    case HttpVersion => 6
    case ReqHeaders => 7
    case ReqQuery => 8
    case Path => 9
    case Logs => 10
    case ResLogs => 11
    case Id => -1
    case Query => -1
  }

  /** The keys some part owns are exactly the keys a record can have. */
  lemma OwnedKeys(k: Prop)
    ensures 0 <= Owner(k) <==> k in RecordKeys
  {
  }

  /** Twelve parts, each holding only keys `Owner` assigns to its position, have disjoint keys. */
  lemma OwnedTwelve(ps: seq<Record>)
    requires |ps| == 12
    requires forall k :: k in ps[0] ==> Owner(k) == 0
    requires forall k :: k in ps[1] ==> Owner(k) == 1
    requires forall k :: k in ps[2] ==> Owner(k) == 2
    requires forall k :: k in ps[3] ==> Owner(k) == 3
    requires forall k :: k in ps[4] ==> Owner(k) == 4
    requires forall k :: k in ps[5] ==> Owner(k) == 5
    requires forall k :: k in ps[6] ==> Owner(k) == 6
    requires forall k :: k in ps[7] ==> Owner(k) == 7
    requires forall k :: k in ps[8] ==> Owner(k) == 8
    requires forall k :: k in ps[9] ==> Owner(k) == 9
    requires forall k :: k in ps[10] ==> Owner(k) == 10
    requires forall k :: k in ps[11] ==> Owner(k) == 11
    ensures OwnedBy(ps, Owner)
  {
  }

  /** Every key a `fp.pick` part holds is one of the keys it was asked for. */
  lemma PickOwned(keys: seq<Prop>, o: Record, i: int)
    requires forall k :: k in keys ==> Owner(k) == i
    ensures forall k :: k in Pick(keys, o) ==> Owner(k) == i
  {
  }

  /** The parts built from the request and response hold only the keys `Owner` gives them. */
  lemma SourcePartsOwned(req: Request, res: Response)
    ensures forall k :: k in StatusCodePart(res) ==> Owner(k) == 1
    ensures forall k :: k in MethodPart(req) ==> Owner(k) == 2
    ensures forall k :: k in UrlsPart(req) ==> Owner(k) == 3
    ensures forall k :: k in IpPart(req) ==> Owner(k) == 4
    ensures forall k :: k in PathPart(req) ==> Owner(k) == 9
    ensures forall k :: k in ReqLogsPart(req) ==> Owner(k) == 10
  {
    PickOwned([Method], req.props, 2);
    PickOwned([Url, OriginalUrl], req.props, 3);
    PickOwned([Ip], req.props, 4);
    PickOwned([Path], req.props, 9);
    PickOwned([Logs], req.props, 10);
  }

  /** A one-key object holds no other key. */
  lemma SingletonOwned(key: Prop, v: Value)
    ensures forall k :: k in map[key := v] ==> Owner(k) == Owner(key)
  {
  }

  /** The parts holding one fixed key hold only that key. */
  lemma RequestIdPartOwned(id: string)
    ensures forall k :: k in RequestIdPart(id) ==> Owner(k) == 0
  {
    SingletonOwned(ReqId, Str(id));
  }

  lemma ResTimePartOwned(responseTime: Value)
    ensures forall k :: k in ResTimePart(responseTime) ==> Owner(k) == 5
  {
    SingletonOwned(ResponseTime, responseTime);
  }

  lemma HttpVersionPartOwned(req: Request)
    ensures forall k :: k in HttpVersionPart(req) ==> Owner(k) == 6
  {
    SingletonOwned(HttpVersion, Str(VersionString(req.httpVersionMajor, req.httpVersionMinor)));
  }

  lemma ReqHeadersPartOwned(extra: seq<string>, req: Request)
    ensures forall k :: k in ReqHeadersPart(extra, req) ==> Owner(k) == 7
  {
    SingletonOwned(ReqHeaders, Obj(ReqHeadersObject(extra, req)));
  }

  lemma ReqQueryPartOwned(req: Request)
    ensures forall k :: k in ReqQueryPart(req) ==> Owner(k) == 8
  {
    SingletonOwned(ReqQuery, Obj(QueryObject(req)));
  }

  lemma ResLogsPartOwned(res: Response)
    ensures forall k :: k in ResLogsPart(res) ==> Owner(k) == 11
  {
    SingletonOwned(ResLogs, Get(res.props, Logs));
  }

  /** No two extractors produce the same key, so their merge order does not matter. */
  lemma PartsOwned(id: string, extra: seq<string>, req: Request, res: Response, responseTime: Value)
    ensures OwnedBy(RecordParts(id, extra, req, res, responseTime), Owner)
  {
    SourcePartsOwned(req, res);
    RequestIdPartOwned(id);
    ResTimePartOwned(responseTime);
    HttpVersionPartOwned(req);
    ReqHeadersPartOwned(extra, req);
    ReqQueryPartOwned(req);
    ResLogsPartOwned(res);
    RecordPartsAt(id, extra, req, res, responseTime);
    OwnedTwelve(RecordParts(id, extra, req, res, responseTime));
  }

  /** Indexing a twelve-element sequence display. */
  lemma TwelveAt(p0: Record, p1: Record, p2: Record, p3: Record, p4: Record, p5: Record,
                 p6: Record, p7: Record, p8: Record, p9: Record, p10: Record, p11: Record)
    ensures var ps := [p0, p1, p2, p3, p4, p5, p6, p7, p8, p9, p10, p11];
      && ps[0] == p0 && ps[1] == p1 && ps[2] == p2 && ps[3] == p3 && ps[4] == p4 && ps[5] == p5
      && ps[6] == p6 && ps[7] == p7 && ps[8] == p8 && ps[9] == p9 && ps[10] == p10 && ps[11] == p11
  {
  }

  /** The record's parts, position by position. */
  lemma RecordPartsAt(id: string, extra: seq<string>, req: Request, res: Response, responseTime: Value)
    ensures var ps := RecordParts(id, extra, req, res, responseTime);
      && |ps| == 12
      && ps[0] == RequestIdPart(id) && ps[1] == StatusCodePart(res) && ps[2] == MethodPart(req)
      && ps[3] == UrlsPart(req) && ps[4] == IpPart(req) && ps[5] == ResTimePart(responseTime)
      && ps[6] == HttpVersionPart(req) && ps[7] == ReqHeadersPart(extra, req) && ps[8] == ReqQueryPart(req)
      && ps[9] == PathPart(req) && ps[10] == ReqLogsPart(req) && ps[11] == ResLogsPart(res)
  {
    TwelveAt(RequestIdPart(id), StatusCodePart(res), MethodPart(req), UrlsPart(req), IpPart(req),
      ResTimePart(responseTime), HttpVersionPart(req), ReqHeadersPart(extra, req),
      ReqQueryPart(req), PathPart(req), ReqLogsPart(req), ResLogsPart(res));
  }

  /** The part of the record that `Owner` assigns `k` to (none for the two keys no part holds). */
  function OwnerPart(k: Prop, id: string, extra: seq<string>, req: Request, res: Response, responseTime: Value): Record {
    match k
    case ReqId => RequestIdPart(id)
    case StatusCode => StatusCodePart(res)
    case Method => MethodPart(req)
    case Url => UrlsPart(req)
    case OriginalUrl => UrlsPart(req)
    case Ip => IpPart(req)
    case ResponseTime => ResTimePart(responseTime)
    case HttpVersion => HttpVersionPart(req)
    case ReqHeaders => ReqHeadersPart(extra, req)
    case ReqQuery => ReqQueryPart(req)
    case Path => PathPart(req)
    case Logs => ReqLogsPart(req)
    case ResLogs => ResLogsPart(res)
    case Id => map[]
    case Query => map[]
  }

  /** For the keys owned by the first six parts, the part at `k`'s owner position is `k`'s owning part. */
  lemma OwnerPartAtLow(id: string, extra: seq<string>, req: Request, res: Response, responseTime: Value, k: Prop)
    requires 0 <= Owner(k) < 6
    ensures RecordParts(id, extra, req, res, responseTime)[Owner(k)] == OwnerPart(k, id, extra, req, res, responseTime)
  {
    RecordPartsAt(id, extra, req, res, responseTime);
  }

  /** For the keys owned by the last six parts, the part at `k`'s owner position is `k`'s owning part. */
  lemma OwnerPartAtHigh(id: string, extra: seq<string>, req: Request, res: Response, responseTime: Value, k: Prop)
    requires 6 <= Owner(k) < 12
    ensures RecordParts(id, extra, req, res, responseTime)[Owner(k)] == OwnerPart(k, id, extra, req, res, responseTime)
  {
    RecordPartsAt(id, extra, req, res, responseTime);
  }

  /** Each key of the record comes from the one part that owns it, with that part's value. */
  lemma RecordKeyFromOwner(id: string, extra: seq<string>, req: Request, res: Response, responseTime: Value,
                           k: Prop, part: Record)
    requires part == OwnerPart(k, id, extra, req, res, responseTime)
    ensures k in BuildRecord(id, extra, req, res, responseTime) <==> k in part
    ensures k in part ==> BuildRecord(id, extra, req, res, responseTime)[k] == part[k]
  {
    var ps := RecordParts(id, extra, req, res, responseTime);
    PartsOwned(id, extra, req, res, responseTime);
    AssignOwned(ps, Owner, k);
    if 0 <= Owner(k) < 6 {
      OwnerPartAtLow(id, extra, req, res, responseTime, k);
    } else if 6 <= Owner(k) {
      OwnerPartAtHigh(id, extra, req, res, responseTime, k);
    }
  }

  /** Only the keys the extractors produce can appear in the record. */
  lemma RecordKeysBounded(id: string, extra: seq<string>, req: Request, res: Response, responseTime: Value)
    ensures BuildRecord(id, extra, req, res, responseTime).Keys <= RecordKeys
  {
    PartsOwned(id, extra, req, res, responseTime);
    forall k | k in BuildRecord(id, extra, req, res, responseTime)
      ensures k in RecordKeys
    {
      AssignOwned(RecordParts(id, extra, req, res, responseTime), Owner, k);
      OwnedKeys(k);
    }
  }

  /** The request id is always in the record: the id generated for the request. */
  lemma RecordRequestId(id: string, extra: seq<string>, req: Request, res: Response, responseTime: Value)
    ensures var r := BuildRecord(id, extra, req, res, responseTime);
      && ReqId in r && r[ReqId] == Str(id)
  {
    RecordKeyFromOwner(id, extra, req, res, responseTime, ReqId, RequestIdPart(id));
  }

  /** The elapsed time is always in the record, as measured when the response completed. */
  lemma RecordResponseTime(id: string, extra: seq<string>, req: Request, res: Response, responseTime: Value)
    ensures var r := BuildRecord(id, extra, req, res, responseTime);
      && ResponseTime in r && r[ResponseTime] == responseTime
  {
    RecordKeyFromOwner(id, extra, req, res, responseTime, ResponseTime, ResTimePart(responseTime));
  }

  /** The HTTP version is always in the record, as `major.minor`. */
  lemma RecordHttpVersion(id: string, extra: seq<string>, req: Request, res: Response, responseTime: Value)
    ensures var r := BuildRecord(id, extra, req, res, responseTime);
      && HttpVersion in r
      && r[HttpVersion] == Str(VersionString(req.httpVersionMajor, req.httpVersionMinor))
  {
    RecordKeyFromOwner(id, extra, req, res, responseTime, HttpVersion, HttpVersionPart(req));
  }

  /** The header sub-object is always in the record. */
  lemma RecordHeaders(id: string, extra: seq<string>, req: Request, res: Response, responseTime: Value)
    ensures var r := BuildRecord(id, extra, req, res, responseTime);
      && ReqHeaders in r && r[ReqHeaders] == Obj(ReqHeadersObject(extra, req))
  {
    RecordKeyFromOwner(id, extra, req, res, responseTime, ReqHeaders, ReqHeadersPart(extra, req));
  }

  /**
   * `req_query` is always in the record: an object holding `query` exactly when the
   * request has a query, and empty otherwise.
   */
  lemma RecordQuery(id: string, extra: seq<string>, req: Request, res: Response, responseTime: Value)
    ensures var r := BuildRecord(id, extra, req, res, responseTime);
      && ReqQuery in r
      && r[ReqQuery] == Obj(if Query in req.props then map["query" := req.props[Query]] else map[])
  {
    RecordKeyFromOwner(id, extra, req, res, responseTime, ReqQuery, ReqQueryPart(req));
  }

  /** `res_logs` is always in the record, holding the response's `logs` (undefined when absent). */
  lemma RecordResLogs(id: string, extra: seq<string>, req: Request, res: Response, responseTime: Value)
    ensures var r := BuildRecord(id, extra, req, res, responseTime);
      && ResLogs in r && r[ResLogs] == Get(res.props, Logs)
  {
    RecordKeyFromOwner(id, extra, req, res, responseTime, ResLogs, ResLogsPart(res));
  }

  /** The status code is in the record exactly when the response has one, with its value. */
  lemma RecordStatus(id: string, extra: seq<string>, req: Request, res: Response, responseTime: Value)
    ensures var r := BuildRecord(id, extra, req, res, responseTime);
      && (StatusCode in r <==> res.statusCode.Some?)
      && (res.statusCode.Some? ==> r[StatusCode] == Num(res.statusCode.value))
  {
    RecordKeyFromOwner(id, extra, req, res, responseTime, StatusCode, StatusCodePart(res));
  }

  /** `r` has key `k` exactly when `src` does, and then with `src`'s value. */
  predicate CopiedFrom(r: Record, src: Record, k: Prop) {
    && (k in r <==> k in src)
    && (k in r ==> r[k] == src[k])
  }

  /** The method is copied from the request when it has one. */
  lemma RecordMethod(id: string, extra: seq<string>, req: Request, res: Response, responseTime: Value)
    ensures CopiedFrom(BuildRecord(id, extra, req, res, responseTime), req.props, Method)
  {
    RecordKeyFromOwner(id, extra, req, res, responseTime, Method, MethodPart(req));
  }

  /** Both URLs are copied from the request when it has them. */
  lemma RecordUrls(id: string, extra: seq<string>, req: Request, res: Response, responseTime: Value)
    ensures var r := BuildRecord(id, extra, req, res, responseTime);
      && CopiedFrom(r, req.props, Url)
      && CopiedFrom(r, req.props, OriginalUrl)
  {
    RecordKeyFromOwner(id, extra, req, res, responseTime, Url, UrlsPart(req));
    RecordKeyFromOwner(id, extra, req, res, responseTime, OriginalUrl, UrlsPart(req));
  }

  /** The client address is copied from the request when it has one. */
  lemma RecordIp(id: string, extra: seq<string>, req: Request, res: Response, responseTime: Value)
    ensures CopiedFrom(BuildRecord(id, extra, req, res, responseTime), req.props, Ip)
  {
    RecordKeyFromOwner(id, extra, req, res, responseTime, Ip, IpPart(req));
  }

  /** The path is copied from the request when it has one. */
  lemma RecordPath(id: string, extra: seq<string>, req: Request, res: Response, responseTime: Value)
    ensures CopiedFrom(BuildRecord(id, extra, req, res, responseTime), req.props, Path)
  {
    RecordKeyFromOwner(id, extra, req, res, responseTime, Path, PathPart(req));
  }

  /** The request's `logs` are copied into the record when the request has them. */
  lemma RecordReqLogs(id: string, extra: seq<string>, req: Request, res: Response, responseTime: Value)
    ensures CopiedFrom(BuildRecord(id, extra, req, res, responseTime), req.props, Logs)
  {
    RecordKeyFromOwner(id, extra, req, res, responseTime, Logs, ReqLogsPart(req));
  }
}
