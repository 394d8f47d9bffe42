/** The password-reset page: the session check on arrival, the ordered
    validation of the two fields and the outcome of the update request. */
module ResetPassword {
  import opened Common
  import opened Text

  const FillAllFields := "Please fill in all fields"
  const TooShort := "Password must be at least 6 characters long"
  const Mismatch := "Passwords do not match"
  /** The text the page looks for to pick the invalid-link screen, and the
      message of the session check that starts with it. */
  const InvalidLinkMarker := "Invalid or expired"
  const InvalidLink := InvalidLinkMarker + " reset link. Please request a new one."
  const Unexpected := "An unexpected error occurred. Please try again."

  /** The shortest password accepted. */
  const MinLength := 6

  /** The guards of `handleResetPassword`, in order: both fields filled, the
      password long enough, the confirmation equal to it. */
  function ValidationError(password: string, confirm: string): (e: Option<string>)
    ensures password == "" || confirm == "" ==> e == Some(FillAllFields)
    ensures password != "" && confirm != "" && Utf16Length(password) < MinLength ==> e == Some(TooShort)
    ensures password != "" && confirm != "" && Utf16Length(password) >= MinLength && password != confirm ==> e == Some(Mismatch)
    ensures e.None? <==> password != "" && Utf16Length(password) >= MinLength && password == confirm
  {
    if password == "" || confirm == "" then Some(FillAllFields)
    else if Utf16Length(password) < MinLength then Some(TooShort)
    else if password != confirm then Some(Mismatch)
    else None
  }

  /** The page's state: the message shown, the busy flag and the success flag. */
  datatype ResetState = ResetState(error: Option<string>, loading: bool, success: bool)

  const InitialState := ResetState(None, false, false)

  /** The state after a submission, and the password sent to the auth
      provider's update request if one was issued. */
  datatype Submission = Submission(state: ResetState, update: Option<string>)

  /** `handleResetPassword`: a validation failure shows its message and
      sends nothing; otherwise the message is cleared and the update is sent,
      and `reply` is the provider's answer. */
  function HandleResetPassword(s: ResetState, password: string, confirm: string, reply: Reply): (r: Submission)
    ensures r.update.Some? <==> ValidationError(password, confirm).None?
    ensures r.update.None? ==> r.state == s.(error := ValidationError(password, confirm))
    ensures r.update.Some? ==> r.update.value == password && !r.state.loading
    ensures r.update.Some? && reply == Ok ==> r.state.success && r.state.error.None?
    ensures r.update.Some? && reply.Failed? ==> r.state.error == Some(reply.message) && r.state.success == s.success
    ensures r.update.Some? && reply == Thrown ==> r.state.error == Some(Unexpected) && r.state.success == s.success
  {
    var invalid := ValidationError(password, confirm);
    if invalid.Some? then Submission(s.(error := invalid), None)
    else
      var sent := s.(loading := true, error := None);
      var answered := match reply
        case Ok => sent.(success := true)
        case Failed(message) => sent.(error := Some(message))
        case Thrown => sent.(error := Some(Unexpected));
      Submission(answered.(loading := false), Some(password))
  }

  /** The session check on arrival: without a session the page records the
      invalid-link message. */
  function CheckSession(s: ResetState, hasSession: bool): (r: ResetState)
    ensures hasSession ==> r == s
    ensures !hasSession ==> r == s.(error := Some(InvalidLink))
  {
    if hasSession then s else s.(error := Some(InvalidLink))
  }

  /** The three screens of the page. */
  datatype Screen = SuccessScreen | InvalidLinkScreen | FormScreen

  /** Success wins; then a message containing the marker selects
      the invalid-link screen; otherwise the form is shown. */
  function ScreenOf(s: ResetState): (v: Screen)
    ensures v == SuccessScreen <==> s.success
    ensures v == InvalidLinkScreen <==>
              !s.success && s.error.Some? && Contains(s.error.value, InvalidLinkMarker)
  {
    if s.success then SuccessScreen
    else if s.error.Some? && Contains(s.error.value, InvalidLinkMarker) then InvalidLinkScreen
    else FormScreen
  }

  /** Without a session the page shows the invalid-link screen. */
  lemma NoSessionShowsInvalidLink(s: ResetState)
    requires !s.success
    ensures ScreenOf(CheckSession(s, false)) == InvalidLinkScreen
  {
    assert IsPrefix(InvalidLinkMarker, InvalidLink);
  }

  /** A needle whose first character does not occur in the hay is not in it. */
  lemma {:induction false} FirstCharAbsent(hay: string, needle: string)
    requires needle != [] && needle[0] !in hay
    ensures !Contains(hay, needle)
  {
    if hay != [] {
      assert hay[0] in hay;
      forall c | c in hay[1..] ensures c in hay { }
      FirstCharAbsent(hay[1..], needle);
    }
  }

  /** A validation failure keeps the form on screen (none of its messages
      reads as an invalid link), and sends nothing. */
  lemma ValidationFailureKeepsForm(s: ResetState, password: string, confirm: string, reply: Reply)
    requires !s.success && ValidationError(password, confirm).Some?
    ensures HandleResetPassword(s, password, confirm, reply).update.None?
    ensures ScreenOf(HandleResetPassword(s, password, confirm, reply).state) == FormScreen
  {
    var e := ValidationError(password, confirm).value;
    assert 'I' !in FillAllFields && 'I' !in TooShort && 'I' !in Mismatch;
    FirstCharAbsent(e, InvalidLinkMarker);
  }

  /** An accepted update shows the success screen. */
  lemma AcceptedUpdateShowsSuccess(s: ResetState, password: string)
    requires ValidationError(password, password).None?
    ensures ScreenOf(HandleResetPassword(s, password, password, Ok).state) == SuccessScreen
  {
  }

  /** The length guard counts UTF-16 units: three astral characters (three
      emoji, say) already make a password long enough. */
  lemma ThreeAstralCharactersAreLongEnough(password: string)
    requires |password| == 3 && forall i :: 0 <= i < 3 ==> Astral(password[i])
    ensures ValidationError(password, password).None?
  {
  }

  /** Without astral characters the guard is the character count. */
  lemma BmpPasswordLengthIsCharacterCount(password: string, confirm: string)
    requires password != "" && confirm != ""
    requires forall i :: 0 <= i < |password| ==> !Astral(password[i])
    ensures ValidationError(password, confirm) == Some(TooShort) <==> |password| < MinLength
  {
  }
}
