/** Severity selection from the final response status (`defaultLevelFn`). */
module Levels {
  import opened Base

  /** The three logger methods a record can be sent to. */
  datatype Level = Info | Warn | Error

  /** The logger method name a level selects, as in `logger[logLevel]`. */
  function MethodName(l: Level): string {
    match l
    case Info => "info"
    case Warn => "warn"
    case Error => "error"
  }

  /** Severity order: info below warn below error. */
  function Rank(l: Level): nat {
    match l
    case Info => 0
    case Warn => 1
    case Error => 2
  }

  /**
   * `defaultLevelFn(statusCode)`. An absent status code is JavaScript `undefined`,
   * and both comparisons with `undefined` are false, so it selects `info`.
   */
  function LevelFor(status: Option<int>): (l: Level)
    ensures l == Error <==> status.Some? && status.value >= 500
    ensures l == Warn <==> status.Some? && 400 <= status.value < 500
    ensures l == Info <==> status.None? || status.value < 400
  {
    match status
    case None => Info
    case Some(code) =>
      if code >= 500 then Error
      else if code >= 400 then Warn
      else Info
  }

  /** A larger status code never selects a lower severity. */
  lemma LevelMonotone(s: int, t: int)
    requires s <= t
    ensures Rank(LevelFor(Some(s))) <= Rank(LevelFor(Some(t)))
  {
  }
}
