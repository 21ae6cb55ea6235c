// What the backend's route handlers answer, and the express-validator
// checks they share. A handler either replies itself (a success, an error
// status with a message, or 400 with the validation errors) or passes an
// exception to the server's error handler.
module Api {
  import opened Common

  /** One entry of `errors.array()`: the field and the message of the check it failed. */
  datatype FieldError = FieldError(field: string, message: string)

  datatype Reply<T> =
    | Success(status: int, data: T)
      /** `res.status(status).json({ success: false, error })`. */
    | Failure(status: int, error: string)
      /** `res.status(400).json({ success: false, errors })`. */
    | Invalid(errors: seq<FieldError>)
      /** `next(error)`: the request goes to the server's error handler. */
    | Forwarded(message: string)

  // ---------------------------------------------------------------------
  // Text checks as express-validator performs them
  // ---------------------------------------------------------------------

  /** Variation selectors U+FE0E and U+FE0F, which isLength does not count. */
  predicate IsVariationSelector(c: char)
  {
    c == '\U{FE0E}' || c == '\U{FE0F}'
  }

  /** The length isLength measures: characters other than variation selectors. */
  function VisibleLength(s: string): (n: nat)
    ensures n <= |s|
  {
    if s == [] then 0
    else VisibleLength(s[..|s| - 1]) + (if IsVariationSelector(s[|s| - 1]) then 0 else 1)
  }

  lemma {:induction false} VisibleLengthWithoutSelectors(s: string)
    requires forall i :: 0 <= i < |s| ==> !IsVariationSelector(s[i])
    ensures VisibleLength(s) == |s|
  {
    if s != [] {
      VisibleLengthWithoutSelectors(s[..|s| - 1]);
    }
  }

  /** isLength({ min, max }). */
  predicate LengthBetween(s: string, min: nat, max: nat)
  {
    min <= VisibleLength(s) <= max
  }

  predicate IsUsernameChar(c: char)
  {
    ('a' <= c <= 'z') || ('A' <= c <= 'Z') || IsDigit(c) || c == '_'
  }

  /** matches(/^[a-zA-Z0-9_]+$/). */
  predicate MatchesUsername(s: string)
  {
    |s| > 0 && forall i :: 0 <= i < |s| ==> IsUsernameChar(s[i])
  }

  /** notEmpty(): undefined reads as the empty text. */
  predicate NotEmpty(v: Option<string>)
  {
    v.Some? && v.value != ""
  }

  /** The text a validator reads from an optional field: undefined reads as "". */
  function TextOf(v: Option<string>): string
  {
    v.GetOr("")
  }

  /**
   * The username chain used by registration, account choice and profile
   * update: a length check then a charset check, each reporting its own
   * message when it fails.
   */
  function UsernameErrors(username: string): (r: seq<FieldError>)
  {
    (if LengthBetween(username, 3, 20) then []
     else [FieldError("username", "Username must be between 3 and 20 characters")])
    + (if MatchesUsername(username) then []
       else [FieldError("username", "Username can only contain letters, numbers, and underscores")])
  }

  /**
   * A username passes exactly when it has 3 to 20 characters, all letters,
   * digits or underscores; a failing one is reported at least once and at
   * most twice, always under the username field.
   */
  lemma UsernameErrorsExact(username: string)
    ensures UsernameErrors(username) == [] <==>
      3 <= |username| <= 20 && forall i :: 0 <= i < |username| ==> IsUsernameChar(username[i])
    ensures |UsernameErrors(username)| <= 2
    ensures forall e :: e in UsernameErrors(username) ==> e.field == "username"
  {
    if MatchesUsername(username) {
      forall i | 0 <= i < |username| ensures !IsVariationSelector(username[i]) {
        assert IsUsernameChar(username[i]);
      }
      VisibleLengthWithoutSelectors(username);
    }
  }
}
