/** Shared vocabulary: optional values, operation outcomes, time and money. */
module Basics {

  /** A nullable value (a nullable column or a `.first()` that found nothing). */
  datatype Option<T> = None | Some(value: T)

  /** A validation message, as a form or a model's `clean()` raises it. */
  datatype ValidationError =
    | Required(field: string)                             // "This field is required."
    | BelowMinimum(field: string, minimum: int)           // "Ensure this value is greater than or equal to ..."
    | InvalidChoice(field: string)                        // "Select a valid choice. ..."
    | EndNotAfterStart                                    // "End date must be after start date"
    | OnlyAvailable(available: int)                       // "Only {available} units available for selected dates"
    | OnlyAvailableReserved(available: int, reserved: int) // "... {reserved} already reserved."
    | ExceedsBalance(balance: real)                       // "Amount cannot exceed balance of ..."

  /** Why a request changed nothing. */
  datatype Failure =
    | NotSignedIn                // login_required redirect
    | Forbidden                  // user_passes_test redirect
    | NotFound                   // get_object_or_404
    | MultipleObjectsReturned    // `.get()` or `get_or_create` matched several rows
    | IntegrityError             // a one-to-one or unique_together constraint refused a row
    | EmptyCart
    | FormInvalid(errors: seq<ValidationError>)

  /** The outcome of a request that may write: the new state, or why nothing was written. */
  datatype Result<T> = Ok(value: T) | Err(failure: Failure)

  /** Instants are whole seconds on one time line. */
  type Time = int

  /** Amounts are exact decimals. */
  type Money = real

  const SecondsPerHour: int := 3600
  const SecondsPerDay: int := 86400
  const SecondsPerWeek: int := 7 * 86400

  function MaxInt(a: int, b: int): int {
    if a >= b then a else b
  }

  /** The position of the first element satisfying `p` (a filtered `.first()`). */
  function FindFirst<T>(xs: seq<T>, p: T -> bool): (r: Option<nat>)
    ensures r.Some? ==> r.value < |xs| && p(xs[r.value]) && forall j :: 0 <= j < r.value ==> !p(xs[j])
    ensures r.None? ==> forall j :: 0 <= j < |xs| ==> !p(xs[j])
  {
    if |xs| == 0 then None
    else if p(xs[0]) then Some(0)
    else match FindFirst(xs[1..], p)
      case None => None
      case Some(k) => Some(k + 1)
  }
}
