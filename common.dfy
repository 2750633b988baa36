/**
 * Shared vocabulary of the warehouse backend model: identifiers, the clock,
 * optional values and the failures the services raise.
 */
module Common {

  /** Database identifiers (JPA `Long` ids generated by IDENTITY columns). */
  type Id = nat

  /**
   * A `LocalDateTime`, as whole seconds since 1970-01-01T00:00 on the
   * server's local calendar. Sub-second precision is not modelled.
   */
  type Time = int

  const SecondsPerMinute: int := 60
  const SecondsPerHour: int := 3600
  const SecondsPerDay: int := 86400

  /** The calendar day (as a day number) that `toLocalDate()` / SQL `DATE()` take from a time. */
  function DayOf(t: Time): int
  {
    t / SecondsPerDay
  }

  /** The `LocalTime` part of a time, in seconds after midnight. */
  function TimeOfDay(t: Time): (r: int)
    ensures 0 <= r < SecondsPerDay
    ensures t == DayOf(t) * SecondsPerDay + r
  {
    t % SecondsPerDay
  }

  /** A nullable value. */
  datatype Option<+T> = None | Some(value: T)

  /**
   * The exceptions the services throw: `ResourceNotFoundException`,
   * `BusinessException`, a plain `RuntimeException`, the `IllegalArgumentException` of `Enum.valueOf`,
   * and the incorrect-result-size error of a single-result query that
   * matches several rows, and the `NullPointerException` a stream collector
   * throws on a null grouping key, and the `NullPointerException` of unboxing
   * a null `Double`. Every one of them rolls the transaction back.
   */
  datatype Failure =
    | NotFound(what: string)
    | Business(reason: string)
    | Runtime(message: string)
    | IllegalArgument(value: string)
    | NonUniqueResult(query: string)
    | NullKey(what: string)
    | NullUnboxing(what: string)

  /** A service call either returns a value or throws a `Failure`. */
  datatype Result<+T> = Ok(value: T) | Err(failure: Failure)
}
