/** Small shared vocabulary: optional values, identifiers, timestamps and
    Java's 32-bit `int` arithmetic. */
module Base {

  /** A value that may be absent (Java `null`, JavaScript `undefined`/`null`). */
  datatype Option<+T> = None | Some(value: T) {
    function GetOr(default: T): T {
      match this
      case Some(v) => v
      case None => default
    }
  }

  /** The exceptions the backend services throw, by class, with their message. */
  datatype Failure =
    | EntityNotFound(message: string)    // jakarta.persistence.EntityNotFoundException
    | IllegalArgument(message: string)   // IllegalArgumentException
    | NoSuchElement                      // getFirst() on an empty list
    | Conflict(message: string)          // the service's ConflictException
    | NotFound(message: string)          // the service's NotFoundException

  /** A call that returns a value or throws. */
  datatype Result<+T> = Ok(value: T) | Err(error: Failure)

  /** A `void` call that returns normally or throws. */
  datatype Outcome = Pass | Fail(error: Failure)

  /** Backend identifiers are UUIDs; only their equality matters here. */
  type UserId = nat
  type ChallengeId = nat

  /** A point in time as the platform's clock reports it (epoch milliseconds). */
  type Timestamp = int

  const INT32_MIN: int := -0x8000_0000
  const INT32_MAX: int := 0x7fff_ffff

  /** The values of a Java `int`. */
  type Int32 = x: int | INT32_MIN <= x <= INT32_MAX

  /** Java `a + b` on two `int`s: two's-complement wrap-around on overflow. */
  function Add32(a: Int32, b: Int32): (r: Int32)
    ensures INT32_MIN <= a + b <= INT32_MAX ==> r == a + b
    ensures r == a + b || r == a + b - 0x1_0000_0000 || r == a + b + 0x1_0000_0000
  {
    var s := a + b;
    if s > INT32_MAX then s - 0x1_0000_0000
    else if s < INT32_MIN then s + 0x1_0000_0000
    else s
  }

  /** Adding one and then subtracting one (or the other way round) gives back
      the original `int`, overflow included. */
  lemma Add32Inverse(a: Int32, d: Int32)
    requires d == 1 || d == -1
    ensures Add32(Add32(a, d), -d) == a
  {
  }
}
