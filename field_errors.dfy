/**
 * What each field of a rule set reports, stated case by case from the field's value.
 * The rule-set modules prove that running their chains gives these lists.
 */
module FieldErrors {
  import opened Wrappers
  import opened Domain
  import opened Messages
  import RegExps
  import Validation

  /** A required subject (task creation, fetch by subject): an empty or absent subject fails
      both the presence and the minimum-length check. */
  function RequiredSubjectErrors(v: Value): seq<string> {
    var s := Validation.AsInput(v);
    if |s| == 0 then [SubjectRequired, SubjectMinLength]
    else if |s| < 10 then [SubjectMinLength]
    else if |s| > 100 then [SubjectMaxLength]
    else []
  }

  /** An optional subject (task update): nothing when absent; a present "" is too short. */
  function OptionalSubjectErrors(v: Value): seq<string> {
    match v
    case None => []
    case Some(s) =>
      if |s| < 10 then [SubjectMinLength]
      else if |s| > 100 then [SubjectMaxLength]
      else []
  }

  /** The optional description: only a present value over 300 characters fails. */
  function DescriptionErrors(v: Value): seq<string> {
    if v.Some? && |v.value| > 300 then [DescriptionMaxLength] else []
  }

  /** A required status (task creation, fetch by status): "" is not a status either. */
  function RequiredStatusErrors(v: Value): seq<string> {
    var s := Validation.AsInput(v);
    if s == "" then [StatusRequired, StatusInvalid]
    else if s == Pending || s == Complete then []
    else [StatusInvalid]
  }

  /** An optional status (task update). */
  function OptionalStatusErrors(v: Value): seq<string> {
    match v
    case None => []
    case Some(s) => if s == Pending || s == Complete then [] else [StatusInvalid]
  }

  /** A task id: character class and length are judged independently. */
  function TaskIdErrors(v: Value): seq<string> {
    var s := Validation.AsInput(v);
    var hex := RegExps.MatchesIdRegex(s);
    if s == "" then [TaskIdRequired, TaskIdInvalid, TaskIdLength]
    else if hex && |s| == 24 then []
    else if hex then [TaskIdLength]
    else if |s| == 24 then [TaskIdInvalid]
    else [TaskIdInvalid, TaskIdLength]
  }

  /** A required username of 3 to 20 characters (login, fetch by username). */
  function UsernameErrors(v: Value): seq<string> {
    var s := Validation.AsInput(v);
    if s == "" then [UsernameRequired, UsernameMinLength]
    else if |s| < 3 then [UsernameMinLength]
    else if |s| > 20 then [UsernameMaxLength]
    else []
  }

  /** The login password: length and character classes are judged independently, and ""
      fails all three checks. */
  function LoginPasswordErrors(v: Value): seq<string> {
    var s := Validation.AsInput(v);
    var classes := RegExps.MatchesPasswordRegex(s);
    if s == "" then [PasswordRequired, PasswordMinLength, PasswordMustHaveCharacters]
    else if |s| < 7 && classes then [PasswordMinLength]
    else if |s| < 7 then [PasswordMinLength, PasswordMustHaveCharacters]
    else if classes then []
    else [PasswordMustHaveCharacters]
  }

  /** The `Authorization` header: only presence is checked. */
  function AuthorizationErrors(v: Value): seq<string> {
    if Validation.AsInput(v) == "" then [AuthHeaderRequired] else []
  }

  /** A registration field: its `withMessage` text is empty, so an empty or absent field
      is reported with the library's default text. */
  function RegistrationFieldErrors(v: Value): seq<string> {
    if Validation.AsInput(v) == "" then ["Invalid value"] else []
  }
}
