/** The values the limiter passes around: keys, per-axis amounts, decisions and errors. */
module Quota {

  datatype Option<+T> = None | Some(value: T)

  /** The error returns of the store interface; Unavailable stands for whatever a broken connection gives. */
  datatype Failure =
    | InvalidArgument | ReservationNotFound | WrongSettleMode | ReservationSettled | ReservationRefunded | Unavailable

  datatype Result<+T> = Ok(value: T) | Err(error: Failure)

  /** One budget dimension: requests, classic tokens, input tokens, output tokens (all per minute). */
  datatype Axis = Rpm | Tpm | Itpm | Otpm

  /** One integer per axis.  Limits, costs, grants and lease balances all have this shape. */
  datatype Amounts = Amounts(rpm: int, tpm: int, itpm: int, otpm: int) {
    function At(a: Axis): int {
      match a
      case Rpm => rpm
      case Tpm => tpm
      case Itpm => itpm
      case Otpm => otpm
    }

    /** Negative entries count as zero. */
    function Clamped(): Amounts {
      Amounts(Clamp(rpm), Clamp(tpm), Clamp(itpm), Clamp(otpm))
    }

    function Plus(other: Amounts): Amounts {
      Amounts(rpm + other.rpm, tpm + other.tpm, itpm + other.itpm, otpm + other.otpm)
    }

    predicate NonNegative() {
      rpm >= 0 && tpm >= 0 && itpm >= 0 && otpm >= 0
    }
  }

  const ZERO := Amounts(0, 0, 0, 0)

  function Clamp(n: int): int {
    if n < 0 then 0 else n
  }

  /** Split mode budgets input and output tokens separately; both limits must be positive. */
  predicate Split(limits: Amounts) {
    limits.itpm > 0 && limits.otpm > 0
  }

  predicate ValidLimits(limits: Amounts) {
    (limits.itpm > 0) == (limits.otpm > 0)
  }

  /** One bucket: an axis and a bucket key. */
  datatype Slot = Slot(axis: Axis, key: string)

  /** The axes a reservation of the given mode touches. */
  predicate Metered(split: bool, a: Axis) {
    a == Rpm || (if split then a == Itpm || a == Otpm else a == Tpm)
  }

  /** The axes of a mode, in the order they are tried. */
  function Axes(split: bool): seq<Axis> {
    if split then [Rpm, Itpm, Otpm] else [Rpm, Tpm]
  }

  /** The entries of the mode's axes, the others zero. */
  function Masked(split: bool, x: Amounts): Amounts {
    if split then Amounts(x.rpm, 0, x.itpm, x.otpm) else Amounts(x.rpm, x.tpm, 0, 0)
  }

  /** What a reply shows per axis: in split mode the classic token field repeats the output one. */
  function Shown(split: bool, x: Amounts): Amounts {
    if split then Amounts(x.rpm, x.otpm, x.itpm, x.otpm) else Amounts(x.rpm, x.tpm, 0, 0)
  }

  /** Why a request was refused. */
  datatype LimitType = NoLimit | On(axis: Axis) | Backend

  datatype Decision = Decision(
    allowed: bool,
    limitType: LimitType,
    remaining: Amounts,
    limit: Amounts,
    retryMs: int,
    reservationId: string,
    overshoot: Amounts)

  datatype Status = Pending | Settled | Refunded

  /** How long a reservation is kept after its last change: fifteen minutes. */
  const RESERVATION_TTL := 900_000

  datatype Key = Key(subject: string, model: string)

  /** The map key of a subject and model; an empty model reads as "-". */
  function BucketKey(key: Key): string {
    key.subject + "\0" + (if key.model == "" then "-" else key.model)
  }

  datatype BorrowSpec = BorrowSpec(min: Amounts, chunk: Amounts)

  datatype BorrowResult = BorrowResult(
    allowed: bool,
    limitType: LimitType,
    got: Amounts,
    remaining: Amounts,
    retryMs: int,
    limit: Amounts)

  function Min(x: int, y: int): int {
    if x <= y then x else y
  }

  function Max(x: int, y: int): int {
    if x <= y then y else x
  }
}
