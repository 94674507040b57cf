/**
 * The profile editing page: its form state, the checks it runs before sending
 * the update, and what it does with the server's answer. The request itself is
 * taken as its outcome, a parameter.
 */
module EditProfilePage {
  import opened JsValues
  import AuthController

  const UsernameRequired := "Username is required."
  const PasswordsDiffer := "Passwords do not match."
  const PasswordTooShort := "Password must be at least 6 characters long."
  const Updated := "Profile updated successfully!"
  const UpdateFailed := "Failed to update profile."
  const ConnectionFailed := "Could not connect to the server to update profile or authentication failed."

  /**
   * The checks of `handleSubmit`, in order; the first failure is the message,
   * None means the request is sent.
   */
  function ValidateProfile(username: string, password: string, confirmPassword: string): (r: Option<string>)
    ensures r == Some(UsernameRequired) <==> username == ""
    ensures r == Some(PasswordsDiffer) <==> username != "" && password != confirmPassword
    ensures r == Some(PasswordTooShort) <==>
      username != "" && password == confirmPassword && password != "" && |password| < 6
    ensures r.None? <==>
      username != "" && password == confirmPassword && (password == "" || |password| >= 6)
  {
    if username == "" then Some(UsernameRequired)
    else if password != confirmPassword then Some(PasswordsDiffer)
    else if password != "" && |password| < 6 then Some(PasswordTooShort)
    else None
  }

  /** The JSON body sent: all three fields, always present. */
  datatype ProfileRequest = ProfileRequest(username: string, phoneNumber: string, password: string)

  /** What came back: the saved profile, an error status with its body's message, or no answer. */
  datatype Answer =
    | Saved(profile: AuthController.AuthReply)
    | Rejected(status: nat, message: Option<Value>)
    | Unreachable

  /** The server's view of the request body. */
  function Fields(req: ProfileRequest): (Option<string>, Option<Value>, Option<string>)
  {
    (Some(req.username), Some(Str(req.phoneNumber)), Some(req.password))
  }

  /**
   * What the server saves for a request the page sends: the username, now
   * required to be non-empty, and the phone number always reach the user; an
   * empty password (both fields left empty) keeps the old one, a non-empty one
   * replaces it.
   */
  lemma SentProfileSaved(u: AuthController.User, req: ProfileRequest, confirmPassword: string)
    requires ValidateProfile(req.username, req.password, confirmPassword).None?
    ensures var (username, phoneNumber, password) := Fields(req);
      var s := AuthController.SavedProfile(u, username, phoneNumber, password);
      && s.username == req.username
      && s.phoneNumber == Some(Str(req.phoneNumber))
      && (req.password == "" ==> s.password == u.password)
      && (req.password != "" ==> s.password == req.password && |req.password| >= 6)
  {
  }

  class EditProfilePage {
    var currentUser: Option<AuthController.AuthReply>
    var username: string
    var phoneNumber: string
    var password: string
    var confirmPassword: string
    var error: string
    var message: string

    /** The state once the profile is loaded: the stored name and phone number, or ''. */
    constructor(profile: AuthController.AuthReply)
      requires profile.ProfileOf?
      ensures currentUser == Some(profile)
      ensures username == profile.username
      ensures phoneNumber == (match profile.phoneNumber case Some(Str(p)) => p case _ => "")
      ensures password == "" && confirmPassword == "" && error == "" && message == ""
    {
      currentUser := Some(profile);
      username := profile.username;
      phoneNumber := match profile.phoneNumber case Some(Str(p)) => p case _ => "";
      password, confirmPassword, error, message := "", "", "", "";
    }

    /**
     * `handleSubmit`: both messages are cleared; a failed check sets its message
     * and sends nothing; otherwise the three fields are sent, and a saved
     * profile clears both password fields and shows the success message, a
     * rejection shows the server's message (or a default) and no answer shows the
     * connection message.
     */
    method HandleSubmit(answer: Answer) returns (sent: Option<ProfileRequest>)
      modifies this
      ensures username == old(username) && phoneNumber == old(phoneNumber)
      ensures var check := ValidateProfile(old(username), old(password), old(confirmPassword));
        && (check.Some? ==>
              && sent.None? && error == check.value && message == ""
              && password == old(password) && confirmPassword == old(confirmPassword)
              && currentUser == old(currentUser))
        && (check.None? ==>
              sent == Some(ProfileRequest(old(username), old(phoneNumber), old(password))))
        && (check.None? && answer.Saved? ==>
              && currentUser == Some(answer.profile) && message == Updated && error == ""
              && password == "" && confirmPassword == "")
        && (check.None? && answer.Rejected? ==>
              && message == ""
              && error == (if Truthy(answer.message) then DisplayText(answer.message.value) else UpdateFailed)
              && password == old(password) && confirmPassword == old(confirmPassword)
              && currentUser == old(currentUser))
        && (check.None? && answer.Unreachable? ==>
              && message == "" && error == ConnectionFailed
              && password == old(password) && confirmPassword == old(confirmPassword)
              && currentUser == old(currentUser))
    {
      error := "";
      message := "";
      var check := ValidateProfile(username, password, confirmPassword);
      if check.Some? {
        error := check.value;
        return None;
      }
      sent := Some(ProfileRequest(username, phoneNumber, password));
      match answer {
        case Saved(profile) =>
          currentUser := Some(profile);
          message := Updated;
          password := "";
          confirmPassword := "";
        case Rejected(_, body) =>
          error := if Truthy(body) then DisplayText(body.value) else UpdateFailed;
        case Unreachable =>
          error := ConnectionFailed;
      }
    }
  }
}
