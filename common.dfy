/**
 * Shared vocabulary of the model: the error kinds that the services raise,
 * a Result type for operations that either return a value or fail, and the
 * fixed-width integer arithmetic of the JVM that the entities' counters use.
 */
module Common {

  /** The reasons an operation is rejected. Each names one `throw` site. */
  datatype Error =
    | NotFound            // a repository lookup came back empty
    | InvalidDateRange    // start date equal to or after end date
    | Unauthorized        // caller is not the challenge's host
    | ParticipantsPresent // delete attempted with other than one participant
    | ChallengeFull       // userCount has reached userCountLimit
    | AlreadyJoined       // a UserChallenge exists for (user, challenge)
    | JoinWindowClosed    // the join window of the current period is closed
    | DivisionByZero      // the penalty estimate's denominator is zero
    | NotInProgress       // the challenge is not IN_PROGRESS
    | NotParticipating    // the caller's UserChallenge is not IN_PROGRESS
    | QuotaExceeded       // all photo checks of the round are already submitted
    | EmptyBatch          // a review request with no photo-check id
    | AlreadyPassed       // a photo check of the batch is already PASS
    | AlreadyFailed       // a photo check of the batch is already FAIL

  datatype Result<+T> = Ok(value: T) | Err(error: Error)

  /** Outcome of an operation that returns nothing (a Java `void` method). */
  datatype Outcome = Done | Rejected(error: Error)

  datatype Option<+T> = None | Some(value: T)

  const MinInt32: int := -0x8000_0000
  const MaxInt32: int := 0x7fff_ffff

  /** A Java `int`. */
  newtype int32 = x: int | -0x8000_0000 <= x <= 0x7fff_ffff

  /** A Java `long`. */
  newtype int64 = x: int | -0x8000_0000_0000_0000 <= x <= 0x7fff_ffff_ffff_ffff

  /**
   * The value a Java `int` holds after an arithmetic result `x` is stored
   * in it: two's-complement wrap-around modulo 2^32.
   */
  function Wrap32(x: int): (r: int32)
    ensures (r as int - x) % 0x1_0000_0000 == 0
    ensures MinInt32 <= x <= MaxInt32 ==> r as int == x
  {
    ((x - MinInt32) % 0x1_0000_0000 + MinInt32) as int32
  }

  /**
   * Incrementing an int and then decrementing it gives the int back,
   * wrap-around included.
   */
  lemma WrapIncrementDecrement(x: int32)
    ensures Wrap32(Wrap32(x as int + 1) as int - 1) == x
  {
    if x as int == MaxInt32 {
      assert Wrap32(x as int + 1) as int == MinInt32;
    }
  }

  /** Java's integer division, which truncates toward zero (Dafny's `/` is Euclidean). */
  function JavaDiv(a: int, b: int): (q: int)
    requires b != 0
    ensures 0 <= a && 0 < b ==> 0 <= q && q * b <= a < (q + 1) * b
    ensures (a < 0) != (b < 0) ==> q <= 0
  {
    var n := if a < 0 then -a else a;
    var d := if b < 0 then -b else b;
    if (a < 0) == (b < 0) then n / d else -(n / d)
  }
}
