/**
 * The middleware factory `loggerCreator` and the life of one request through the
 * middleware it returns: setup, the downstream handlers' changes, and the two
 * completion signals that each run `logging` once.
 */
module Middleware {
  import opened Base
  import opened JsObjects
  import opened Levels
  import opened Extractors
  import opened RecordProperties
  import opened Version

  /** The message of the error `loggerCreator` throws for an unusable logger. */
  const LoggerRequired: string := "logger, logger.error, logger.warn and logger.info are required"

  /** The logger methods the middleware may call. */
  const RequiredMethods: set<string> := {"error", "warn", "info"}

  /** The factory's `options`; `headers` names extra request headers to log. */
  datatype Options = Options(headers: Option<seq<string>>)

  /**
   * A constructed middleware: the names of the logger's methods, and the extra
   * header names fixed at construction (`pOptions.headers || []`).
   */
  datatype Middleware = Middleware(logger: set<string>, extraHeaders: seq<string>)

  /** `pOptions.headers || []`, where a missing `options` is `{}`. */
  function ExtraHeaders(options: Option<Options>): (hs: seq<string>)
    ensures options.None? || options.value.headers.None? ==> hs == []
    ensures options.Some? && options.value.headers.Some? ==> hs == options.value.headers.value
  {
    match options
    case None => []
    case Some(o) =>
      match o.headers
      case None => []
      case Some(hs) => hs
  }

  /**
   * `loggerCreator(logger, options)`. The logger is given by the names of the methods it
   * has (`None` for a missing logger); it must have `error`, `warn` and `info`.
   */
  function Create(logger: Option<set<string>>, options: Option<Options>): (r: Result<Middleware, string>)
    ensures r.Ok? <==> logger.Some? && RequiredMethods <= logger.value
    ensures r.Err? ==> r.error == LoggerRequired
    ensures r.Ok? ==> r.value.logger == logger.value && r.value.extraHeaders == ExtraHeaders(options)
  {
    if logger.None? || "error" !in logger.value || "warn" !in logger.value || "info" !in logger.value
    then Err(LoggerRequired)
    else Ok(Middleware(logger.value, ExtraHeaders(options)))
  }

  /** A constructed middleware can call the method of every level. */
  lemma CreatedLoggerHasLevels(logger: Option<set<string>>, options: Option<Options>, l: Level)
    requires Create(logger, options).Ok?
    ensures MethodName(l) in Create(logger, options).value.logger
  {
  }

  /**
   * Without `options`, or with `options` that have no `headers`, a constructed middleware
   * logs exactly the `referer` and `user-agent` headers.
   */
  lemma DefaultHeaderKeys(logger: Option<set<string>>, options: Option<Options>, req: Request)
    requires Create(logger, options).Ok?
    requires options.None? || options.value.headers.None?
    ensures ReqHeadersObject(Create(logger, options).value.extraHeaders, req).Keys == {"referer", "user-agent"}
  {
    ReqHeadersDefault(req);
  }

  /** The two response events `logging` is registered for with `res.once`. */
  datatype Signal = Finish | Close

  /** What `logging` reads when it runs: the captured id and headers, the request, the response and the elapsed time. */
  datatype Snapshot = Snapshot(id: string, extra: seq<string>, req: Request, res: Response, responseTime: Value)

  /** The call `logger[logLevel](resLog)`: the method's level and its only argument. */
  datatype LogCall = LogCall(level: Level, record: Record)

  /** The status code a record carries, as `resLog.statusCode` reads it (`undefined` when absent). */
  function RecordStatusCode(r: Record): Option<int> {
    if StatusCode in r && r[StatusCode].Num? then Some(r[StatusCode].n) else None
  }

  /** `logging`: builds the record, then picks the level from the record's own status code. */
  function Logging(s: Snapshot): LogCall {
    var record := BuildRecord(s.id, s.extra, s.req, s.res, s.responseTime);
    LogCall(LevelFor(RecordStatusCode(record)), record)
  }

  /** The level `logging` picks is the one the response's status code selects. */
  lemma LoggingLevel(s: Snapshot)
    ensures Logging(s).level == LevelFor(s.res.statusCode)
  {
    RecordStatus(s.id, s.extra, s.req, s.res, s.responseTime);
  }

  /**
   * One request in flight: the request and response as handlers change them, the id the
   * middleware generated, the header names to log, whether each signal's `once` listener
   * is still registered, the runs of `logging` so far, and how often `next` was called.
   */
  datatype Flight = Flight(
    req: Request,
    res: Response,
    id: string,
    extra: seq<string>,
    finishArmed: bool,
    closeArmed: bool,
    fired: seq<Snapshot>,
    nextCalls: nat)

  /**
   * `bunyanMiddleware(req, res, next)`: stores a fresh id as `req.id`, resets `req.logs`
   * and `res.logs` to `{}`, registers `logging` once for each signal, and calls `next`.
   * The id generator is a parameter.
   */
  function Setup(mw: Middleware, req: Request, res: Response, freshId: string): (f: Flight)
    ensures Get(f.req.props, Id) == Str(freshId) && f.id == freshId
    ensures Get(f.req.props, Logs) == Obj(map[]) && Get(f.res.props, Logs) == Obj(map[])
    ensures forall p :: p != Id && p != Logs ==>
      && (p in f.req.props <==> p in req.props)
      && (p in req.props ==> f.req.props[p] == req.props[p])
    ensures forall p :: p != Logs ==>
      && (p in f.res.props <==> p in res.props)
      && (p in res.props ==> f.res.props[p] == res.props[p])
    ensures f.res.statusCode == res.statusCode
    ensures f.req.header == req.header
    ensures f.req.httpVersionMajor == req.httpVersionMajor && f.req.httpVersionMinor == req.httpVersionMinor
    ensures f.extra == mw.extraHeaders
    ensures f.finishArmed && f.closeArmed && f.fired == []
    ensures f.nextCalls == 1
  {
    Flight(
      req.(props := req.props[Id := Str(freshId)][Logs := Obj(map[])]),
      res.(props := res.props[Logs := Obj(map[])]),
      freshId,
      mw.extraHeaders,
      true,
      true,
      [],
      1)
  }

  /** What can happen to a request after setup. */
  datatype Event =
    | SetStatus(code: int)                      // a handler sets `res.statusCode`
    | ReqLog(key: string, value: Value)         // a handler writes `req.logs[key] = value`
    | ResLog(key: string, value: Value)         // a handler writes `res.logs[key] = value`
    | Complete(signal: Signal, elapsed: Value)  // the response emits `finish` or `close`

  /** `o.logs[key] = value`, for `logs` an object; anything else is left as it is. */
  function AddLog(props: Object<Prop>, key: string, value: Value): Object<Prop> {
    var logs := Get(props, Logs);
    if logs.Obj? then props[Logs := Obj(logs.fields[key := value])] else props
  }

  /** Whether the `once` listener for `s` is still registered. */
  function Armed(f: Flight, s: Signal): bool {
    match s
    case Finish => f.finishArmed
    case Close => f.closeArmed
  }

  /** How many of the two listeners have already run. */
  function Spent(f: Flight): nat {
    (if f.finishArmed then 0 else 1) + (if f.closeArmed then 0 else 1)
  }

  /**
   * One event. A signal runs `logging` only when its own listener is still registered,
   * and `once` removes that listener; the other signal's listener stays.
   */
  function Step(f: Flight, e: Event): (g: Flight)
    ensures g.id == f.id && g.extra == f.extra && g.nextCalls == f.nextCalls
    ensures g.req.header == f.req.header
    ensures g.req.httpVersionMajor == f.req.httpVersionMajor && g.req.httpVersionMinor == f.req.httpVersionMinor
    ensures forall p :: p != Logs ==>
      && (p in g.req.props <==> p in f.req.props)
      && (p in f.req.props ==> g.req.props[p] == f.req.props[p])
    ensures f.fired <= g.fired
    ensures |g.fired| == |f.fired| + (if e.Complete? && Armed(f, e.signal) then 1 else 0)
    ensures forall s :: Armed(g, s) <==> Armed(f, s) && !(e.Complete? && e.signal == s)
  {
    match e
    case SetStatus(code) => f.(res := f.res.(statusCode := Some(code)))
    case ReqLog(key, value) => f.(req := f.req.(props := AddLog(f.req.props, key, value)))
    case ResLog(key, value) => f.(res := f.res.(props := AddLog(f.res.props, key, value)))
    case Complete(signal, elapsed) =>
      if !Armed(f, signal) then f
      else
        var s := Snapshot(f.id, f.extra, f.req, f.res, elapsed);
        match signal
        case Finish => f.(finishArmed := false, fired := f.fired + [s])
        case Close => f.(closeArmed := false, fired := f.fired + [s])
  }

  /** The events, in order. */
  function Run(f: Flight, events: seq<Event>): Flight
    decreases |events|
  {
    if |events| == 0 then f else Step(Run(f, events[..|events| - 1]), events[|events| - 1])
  }

  /** Whether `events` contains a `Complete` for `s`. */
  predicate Completes(events: seq<Event>, s: Signal) {
    exists i :: 0 <= i < |events| && events[i].Complete? && events[i].signal == s
  }

  /** A listener is still registered exactly when it was and its signal has not come. */
  lemma {:induction false} RunArmed(f: Flight, events: seq<Event>, s: Signal)
    ensures Armed(Run(f, events), s) <==> Armed(f, s) && !Completes(events, s)
  {
    if |events| > 0 {
      var n := |events| - 1;
      RunArmed(f, events[..n], s);
      assert Completes(events, s) <==> Completes(events[..n], s) || (events[n].Complete? && events[n].signal == s) by {
        if Completes(events, s) {
          var i :| 0 <= i < |events| && events[i].Complete? && events[i].signal == s;
          if i < n {
            assert events[..n][i] == events[i];
          }
        }
        if Completes(events[..n], s) {
          var i :| 0 <= i < n && events[..n][i].Complete? && events[..n][i].signal == s;
          assert events[i] == events[..n][i];
        }
      }
    }
  }

  /** Each run of `logging` spent one listener: the runs never outnumber the two listeners. */
  lemma {:induction false} RunFiredCount(f: Flight, events: seq<Event>)
    requires |f.fired| == Spent(f)
    ensures |Run(f, events).fired| == Spent(Run(f, events)) <= 2
    ensures f.fired <= Run(f, events).fired
    ensures Run(f, events).id == f.id && Run(f, events).extra == f.extra
    ensures Run(f, events).nextCalls == f.nextCalls
  {
    if |events| > 0 {
      var n := |events| - 1;
      RunFiredCount(f, events[..n]);
      var g := Run(f, events[..n]);
      assert Armed(g, Finish) == g.finishArmed && Armed(g, Close) == g.closeArmed;
      var h := Step(g, events[n]);
      assert Armed(h, Finish) == h.finishArmed && Armed(h, Close) == h.closeArmed;
    }
  }

  /**
   * After setup, `logging` has run once for each signal that has come, and `next` was
   * called exactly once: a request that only finishes is logged once, one that finishes
   * and then closes is logged twice.
   */
  lemma RequestLogCount(mw: Middleware, req: Request, res: Response, freshId: string, events: seq<Event>)
    ensures var f := Run(Setup(mw, req, res, freshId), events);
      && |f.fired| == (if Completes(events, Finish) then 1 else 0) + (if Completes(events, Close) then 1 else 0)
      && f.nextCalls == 1
  {
    var f0 := Setup(mw, req, res, freshId);
    RunFiredCount(f0, events);
    RunArmed(f0, events, Finish);
    RunArmed(f0, events, Close);
  }

  /**
   * Nothing removes the other listener: a response that finishes and then closes is
   * logged twice, once per signal, and a second `finish` adds nothing.
   */
  lemma FinishThenCloseLogsTwice(mw: Middleware, req: Request, res: Response, freshId: string, t1: Value, t2: Value, t3: Value)
    ensures |Run(Setup(mw, req, res, freshId), [Complete(Finish, t1), Complete(Close, t2)]).fired| == 2
    ensures |Run(Setup(mw, req, res, freshId), [Complete(Finish, t1), Complete(Finish, t3)]).fired| == 1
  {
    var both := [Complete(Finish, t1), Complete(Close, t2)];
    assert both[0].Complete? && both[0].signal == Finish;
    assert both[1].Complete? && both[1].signal == Close;
    RequestLogCount(mw, req, res, freshId, both);
    var twice := [Complete(Finish, t1), Complete(Finish, t3)];
    assert twice[0].Complete? && twice[0].signal == Finish;
    assert !Completes(twice, Close);
    RequestLogCount(mw, req, res, freshId, twice);
  }

  /** The `logs` of an object after the handlers' writes to it, from the empty `{}` of setup. */
  function LogEntries(events: seq<Event>, onRequest: bool): map<string, Value>
    decreases |events|
  {
    if |events| == 0 then map[]
    else
      var prior := LogEntries(events[..|events| - 1], onRequest);
      match events[|events| - 1]
      case ReqLog(key, value) => if onRequest then prior[key := value] else prior
      case ResLog(key, value) => if onRequest then prior else prior[key := value]
      case _ => prior
  }

  /** The response's status code after the events: the last one a handler set. */
  function StatusAfter(events: seq<Event>, initial: Option<int>): Option<int>
    decreases |events|
  {
    if |events| == 0 then initial
    else
      match events[|events| - 1]
      case SetStatus(code) => Some(code)
      case _ => StatusAfter(events[..|events| - 1], initial)
  }

  /**
   * Everything handlers write to `req.logs` and `res.logs` after setup stays there: the
   * two objects hold exactly the accumulated entries. The id stays the one setup stored,
   * and the status code is the last one set.
   */
  lemma {:induction false} RunState(mw: Middleware, req: Request, res: Response, freshId: string, events: seq<Event>)
    ensures var f := Run(Setup(mw, req, res, freshId), events);
      && Get(f.req.props, Id) == Str(freshId)
      && Get(f.req.props, Logs) == Obj(LogEntries(events, true))
      && Get(f.res.props, Logs) == Obj(LogEntries(events, false))
      && f.res.statusCode == StatusAfter(events, res.statusCode)
      && f.id == freshId && f.extra == mw.extraHeaders
  {
    if |events| > 0 {
      var n := |events| - 1;
      RunState(mw, req, res, freshId, events[..n]);
    }
  }

  /**
   * When a signal whose listener is still registered comes, `logging` runs once more, on
   * the request and response as they are at that moment.
   */
  lemma CompletionFires(mw: Middleware, req: Request, res: Response, freshId: string,
                        events: seq<Event>, s: Signal, elapsed: Value)
    requires !Completes(events, s)
    ensures var f := Run(Setup(mw, req, res, freshId), events);
      var g := Run(Setup(mw, req, res, freshId), events + [Complete(s, elapsed)]);
      && g.fired == f.fired + [Snapshot(freshId, mw.extraHeaders, f.req, f.res, elapsed)]
      && Get(f.req.props, Id) == Str(freshId)
      && Get(f.req.props, Logs) == Obj(LogEntries(events, true))
      && Get(f.res.props, Logs) == Obj(LogEntries(events, false))
      && f.res.statusCode == StatusAfter(events, res.statusCode)
  {
    var f0 := Setup(mw, req, res, freshId);
    var es := events + [Complete(s, elapsed)];
    assert es[..|es| - 1] == events;
    RunArmed(f0, events, s);
    RunState(mw, req, res, freshId, events);
  }

  /** The record a completion logs carries the id that setup stored as `req.id`. */
  lemma LoggedRequestId(mw: Middleware, req: Request, res: Response, freshId: string,
                        events: seq<Event>, s: Signal, elapsed: Value)
    requires !Completes(events, s)
    ensures var g := Run(Setup(mw, req, res, freshId), events + [Complete(s, elapsed)]);
      |g.fired| > 0 &&
      var record := Logging(g.fired[|g.fired| - 1]).record;
      && Get(g.req.props, Id) == Str(freshId)
      && ReqId in record && record[ReqId] == Get(g.req.props, Id)
  {
    CompletionFires(mw, req, res, freshId, events, s, elapsed);
    var f := Run(Setup(mw, req, res, freshId), events);
    RecordRequestId(freshId, mw.extraHeaders, f.req, f.res, elapsed);
  }

  /**
   * The record a completion logs has, under `logs` and `res_logs`, the objects setup reset
   * to `{}` with every entry the handlers wrote to them before the completion.
   */
  lemma LoggedLogs(mw: Middleware, req: Request, res: Response, freshId: string,
                   events: seq<Event>, s: Signal, elapsed: Value)
    requires !Completes(events, s)
    ensures var g := Run(Setup(mw, req, res, freshId), events + [Complete(s, elapsed)]);
      |g.fired| > 0 &&
      var record := Logging(g.fired[|g.fired| - 1]).record;
      && Logs in record && record[Logs] == Obj(LogEntries(events, true))
      && ResLogs in record && record[ResLogs] == Obj(LogEntries(events, false))
  {
    CompletionFires(mw, req, res, freshId, events, s, elapsed);
    var f := Run(Setup(mw, req, res, freshId), events);
    RecordReqLogs(freshId, mw.extraHeaders, f.req, f.res, elapsed);
    RecordResLogs(freshId, mw.extraHeaders, f.req, f.res, elapsed);
  }

  /** Handlers change only `logs`: every other request property is after any events what it was before. */
  lemma {:induction false} RunFrame(f: Flight, events: seq<Event>, p: Prop)
    requires p != Logs
    ensures var g := Run(f, events);
      && (p in g.req.props <==> p in f.req.props)
      && (p in f.req.props ==> g.req.props[p] == f.req.props[p])
  {
    if |events| > 0 {
      RunFrame(f, events[..|events| - 1], p);
    }
  }

  /** No event changes the request's protocol version. */
  lemma {:induction false} RunVersion(f: Flight, events: seq<Event>)
    ensures var g := Run(f, events);
      && g.req.httpVersionMajor == f.req.httpVersionMajor
      && g.req.httpVersionMinor == f.req.httpVersionMinor
  {
    if |events| > 0 {
      RunVersion(f, events[..|events| - 1]);
    }
  }

  /**
   * The request as a completion logs it holds, for every property other than `id` and
   * `logs`, exactly what the request setup received held.
   */
  lemma LoggedRequestFrame(mw: Middleware, req: Request, res: Response, freshId: string,
                           events: seq<Event>, s: Signal, elapsed: Value, p: Prop)
    requires !Completes(events, s)
    requires p != Id && p != Logs
    ensures var g := Run(Setup(mw, req, res, freshId), events + [Complete(s, elapsed)]);
      |g.fired| > 0 &&
      var logged := g.fired[|g.fired| - 1].req;
      && (p in logged.props <==> p in req.props)
      && (p in req.props ==> logged.props[p] == req.props[p])
  {
    CompletionFires(mw, req, res, freshId, events, s, elapsed);
    RunFrame(Setup(mw, req, res, freshId), events, p);
  }

  /** The request as a completion logs it has the protocol version of the request setup received. */
  lemma LoggedRequestVersion(mw: Middleware, req: Request, res: Response, freshId: string,
                             events: seq<Event>, s: Signal, elapsed: Value)
    requires !Completes(events, s)
    ensures var g := Run(Setup(mw, req, res, freshId), events + [Complete(s, elapsed)]);
      |g.fired| > 0 &&
      var logged := g.fired[|g.fired| - 1].req;
      && logged.httpVersionMajor == req.httpVersionMajor
      && logged.httpVersionMinor == req.httpVersionMinor
  {
    CompletionFires(mw, req, res, freshId, events, s, elapsed);
    RunVersion(Setup(mw, req, res, freshId), events);
  }

  /**
   * `method`, `url`, `originalUrl`, `ip` and `path` of a logged record are copied from the
   * request served: present exactly when it has them, with its values.
   */
  lemma LoggedPick(mw: Middleware, req: Request, res: Response, freshId: string,
                   events: seq<Event>, s: Signal, elapsed: Value, p: Prop)
    requires !Completes(events, s)
    requires p == Method || p == Url || p == OriginalUrl || p == Ip || p == Path
    ensures var g := Run(Setup(mw, req, res, freshId), events + [Complete(s, elapsed)]);
      |g.fired| > 0 && CopiedFrom(Logging(g.fired[|g.fired| - 1]).record, req.props, p)
  {
    LoggedRequestFrame(mw, req, res, freshId, events, s, elapsed, p);
    var g := Run(Setup(mw, req, res, freshId), events + [Complete(s, elapsed)]);
    var last := g.fired[|g.fired| - 1];
    match p
    case Method => RecordMethod(last.id, last.extra, last.req, last.res, last.responseTime);
    case Url => RecordUrls(last.id, last.extra, last.req, last.res, last.responseTime);
    case OriginalUrl => RecordUrls(last.id, last.extra, last.req, last.res, last.responseTime);
    case Ip => RecordIp(last.id, last.extra, last.req, last.res, last.responseTime);
    case Path => RecordPath(last.id, last.extra, last.req, last.res, last.responseTime);
  }

  /** The `http_version` of a logged record is the served request's `major.minor`. */
  lemma LoggedHttpVersion(mw: Middleware, req: Request, res: Response, freshId: string,
                          events: seq<Event>, s: Signal, elapsed: Value)
    requires !Completes(events, s)
    ensures var g := Run(Setup(mw, req, res, freshId), events + [Complete(s, elapsed)]);
      |g.fired| > 0 &&
      var record := Logging(g.fired[|g.fired| - 1]).record;
      && HttpVersion in record
      && record[HttpVersion] == Str(VersionString(req.httpVersionMajor, req.httpVersionMinor))
  {
    LoggedRequestVersion(mw, req, res, freshId, events, s, elapsed);
    var g := Run(Setup(mw, req, res, freshId), events + [Complete(s, elapsed)]);
    var last := g.fired[|g.fired| - 1];
    RecordHttpVersion(last.id, last.extra, last.req, last.res, last.responseTime);
  }

  /** The `req_query` of a logged record is `{query: req.query}` for a served request with a query, else `{}`. */
  lemma LoggedQuery(mw: Middleware, req: Request, res: Response, freshId: string,
                    events: seq<Event>, s: Signal, elapsed: Value)
    requires !Completes(events, s)
    ensures var g := Run(Setup(mw, req, res, freshId), events + [Complete(s, elapsed)]);
      |g.fired| > 0 &&
      var record := Logging(g.fired[|g.fired| - 1]).record;
      && ReqQuery in record
      && record[ReqQuery] == Obj(if Query in req.props then map["query" := req.props[Query]] else map[])
  {
    LoggedRequestFrame(mw, req, res, freshId, events, s, elapsed, Query);
    var g := Run(Setup(mw, req, res, freshId), events + [Complete(s, elapsed)]);
    var last := g.fired[|g.fired| - 1];
    RecordQuery(last.id, last.extra, last.req, last.res, last.responseTime);
  }

  /**
   * A completion logs at the level the last status code set selects, through a method the
   * logger has, since the factory accepted only loggers with all three.
   */
  lemma LoggedLevel(logger: Option<set<string>>, options: Option<Options>, req: Request, res: Response,
                    freshId: string, events: seq<Event>, s: Signal, elapsed: Value)
    requires Create(logger, options).Ok?
    requires !Completes(events, s)
    ensures var mw := Create(logger, options).value;
      var g := Run(Setup(mw, req, res, freshId), events + [Complete(s, elapsed)]);
      |g.fired| > 0 &&
      var call := Logging(g.fired[|g.fired| - 1]);
      && call.level == LevelFor(StatusAfter(events, res.statusCode))
      && MethodName(call.level) in logger.value
  {
    var mw := Create(logger, options).value;
    CompletionFires(mw, req, res, freshId, events, s, elapsed);
    var f := Run(Setup(mw, req, res, freshId), events);
    LoggingLevel(Snapshot(freshId, mw.extraHeaders, f.req, f.res, elapsed));
    CreatedLoggerHasLevels(logger, options, LevelFor(StatusAfter(events, res.statusCode)));
  }

  /**
   * Serves one request through the middleware: sets it up, applies the events in order,
   * and returns the logger calls `logging` made, one per listener that ran.
   */
  method Serve(mw: Middleware, req: Request, res: Response, freshId: string, events: seq<Event>)
    returns (calls: seq<LogCall>)
    ensures calls == MapSeq(Logging, Run(Setup(mw, req, res, freshId), events).fired)
    ensures |calls| == (if Completes(events, Finish) then 1 else 0) + (if Completes(events, Close) then 1 else 0)
  {
    var f := Setup(mw, req, res, freshId);
    var runs: seq<Snapshot> := [];
    for n := 0 to |events|
      invariant f == Run(Setup(mw, req, res, freshId), events[..n])
      invariant runs == f.fired
    {
      assert events[..n + 1][..n] == events[..n];
      var g := Step(f, events[n]);
      if |g.fired| > |f.fired| {
        runs := runs + [g.fired[|g.fired| - 1]];
      }
      f := g;
    }
    assert events[..|events|] == events;
    calls := MapSeq(Logging, runs);
    RequestLogCount(mw, req, res, freshId, events);
  }
}
