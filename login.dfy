/**
 * The login form (src/components/auth/LoginPage.jsx): one fixed credential pair
 * per role and the guard chain run on submit.
 */
module Login {
  import opened Wrappers
  import opened Roles

  datatype Credentials = Credentials(username: string, password: string)

  /** `validCredentials`: the one accepted pair for each role. */
  function ValidCredentials(role: Role): (c: Credentials)
    ensures c.username == role.Name()
    ensures c.password == role.Name() + "123"
  {
    match role
    case Basic => Credentials("basic", "basic123")
    case Standard => Credentials("standard", "standard123")
    case Premium => Credentials("premium", "premium123")
  }

  const MissingFieldsError := "Please enter username and password"
  const MissingRoleError := "Please select a user type"
  const InvalidCredentialsError := "Invalid username or password for the selected user type"

  /** What one submit ends in: an error message, or a call `onLogin(role, username)`. */
  datatype Outcome = Rejected(error: string) | LoggedIn(role: Role, username: string)

  /**
   * The guard chain of handleSubmit. The selected role is `None` until a role
   * card is clicked (the empty string in the form state).
   */
  function SubmitOutcome(username: string, password: string, selectedRole: Option<Role>): (o: Outcome)
    ensures username == "" || password == "" ==> o == Rejected(MissingFieldsError)
    ensures username != "" && password != "" && selectedRole == None ==> o == Rejected(MissingRoleError)
    ensures o.LoggedIn? <==>
              selectedRole.Some? && Credentials(username, password) == ValidCredentials(selectedRole.value)
    ensures o.LoggedIn? ==> o.role == selectedRole.value && o.username == username
    ensures o.Rejected? ==> o.error in {MissingFieldsError, MissingRoleError, InvalidCredentialsError}
    ensures o.Rejected? && selectedRole.Some? && username != "" && password != "" ==>
              o.error == InvalidCredentialsError
  {
    if username == "" || password == "" then Rejected(MissingFieldsError)
    else if selectedRole.None? then Rejected(MissingRoleError)
    else
      var valid := ValidCredentials(selectedRole.value);
      if username != valid.username || password != valid.password then Rejected(InvalidCredentialsError)
      else LoggedIn(selectedRole.value, username)
  }

  /** Credentials are role-specific: another role's pair is rejected. */
  lemma CredentialsAreRoleSpecific(selected: Role, other: Role)
    requires selected != other
    ensures var c := ValidCredentials(other);
            SubmitOutcome(c.username, c.password, Some(selected)) == Rejected(InvalidCredentialsError)
  {
    var c := ValidCredentials(other);
    assert c.username == other.Name();
    assert ValidCredentials(selected).username == selected.Name();
    assert other.Name() != selected.Name();
  }

  /** The form's state: the three inputs and the error shown under them. */
  class LoginForm {
    var selectedRole: Option<Role>
    var username: string
    var password: string
    var error: string

    constructor ()
      ensures selectedRole == None && username == "" && password == "" && error == ""
    {
      selectedRole := None;
      username := "";
      password := "";
      error := "";
    }

    /** A click on a role card. */
    method SelectRole(role: Role)
      modifies this`selectedRole
      ensures selectedRole == Some(role)
    {
      selectedRole := Some(role);
    }

    method SetUsername(value: string)
      modifies this`username
      ensures username == value
    {
      username := value;
    }

    method SetPassword(value: string)
      modifies this`password
      ensures password == value
    {
      password := value;
    }

    /**
     * handleSubmit. `login` is the call made to `onLogin`, if any; exactly one of
     * "an error is shown" and "onLogin is called" happens.
     */
    method HandleSubmit() returns (login: Option<(Role, string)>)
      modifies this`error
      ensures login.Some? <==> error == ""
      ensures match SubmitOutcome(username, password, selectedRole)
              case Rejected(e) => error == e && login == None
              case LoggedIn(r, u) => error == "" && login == Some((r, u))
    {
      if username == "" || password == "" {
        error := MissingFieldsError;
        return None;
      }
      if selectedRole.None? {
        error := MissingRoleError;
        return None;
      }
      var validCreds := ValidCredentials(selectedRole.value);
      if username != validCreds.username || password != validCreds.password {
        error := InvalidCredentialsError;
        return None;
      }
      error := "";
      login := Some((selectedRole.value, username));
    }
  }
}
