/** The login screen's view-model: two text drafts and the gate on its login button. */
module Login {
  import opened UiCommon

  class LoginViewModel {
    /** The `identifier` MutableStateFlow: what the user typed as identifier. */
    var identifier: string
    /** The `password` MutableStateFlow: what the user typed as password. */
    var password: string

    /** Both drafts start empty, so the button starts disabled. */
    constructor ()
      ensures identifier == "" && password == ""
      ensures !IsLoginEnabled()
    {
      identifier := "";
      password := "";
    }

    /** Overwrites the identifier draft and nothing else. */
    method SetIdentifier(newIdentifier: string)
      modifies this
      ensures identifier == newIdentifier && password == old(password)
    {
      identifier := newIdentifier;
    }

    /** Overwrites the password draft and nothing else. */
    method SetPassword(newPassword: string)
      modifies this
      ensures password == newPassword && identifier == old(identifier)
    {
      password := newPassword;
    }

    /**
     * The `isLoginEnabled` flow, read on the current drafts: the button is enabled
     * exactly when each draft holds at least one non-whitespace character.
     */
    function IsLoginEnabled(): (enabled: bool)
      reads this
      ensures enabled <==>
        (exists i :: 0 <= i < |identifier| && !IsWhitespace(identifier[i])) &&
        (exists j :: 0 <= j < |password| && !IsWhitespace(password[j]))
    {
      !IsBlank(identifier) && !IsBlank(password)
    }
  }

  /**
   * The login gate depends only on the latest value of each draft: editing the identifier
   * then the password, or the password then the identifier, leaves two view-models (from
   * whatever drafts they held) in the same state with the same button state.
   */
  method EditOrderIrrelevant(first: LoginViewModel, second: LoginViewModel, id: string, pwd: string)
    modifies first, second
    ensures first.identifier == second.identifier == id
    ensures first.password == second.password == pwd
    ensures first.IsLoginEnabled() == second.IsLoginEnabled()
  {
    first.SetIdentifier(id);
    first.SetPassword(pwd);
    second.SetPassword(pwd);
    second.SetIdentifier(id);
  }
}
