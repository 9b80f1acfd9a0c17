/** The login form (`LoginModal`): two inputs, a validity rule shared by the submit and the button. */
module LoginModal {
  import opened Wrappers
  import opened Domain

  /** `isFormValid = email && password` */
  predicate IsFormValid(email: string, password: string)
  {
    email != "" && password != ""
  }

  /** `handleSubmit`: `onLogin({ email, password })` for a valid form, nothing otherwise. */
  function Submit(email: string, password: string): (sent: Option<Credentials>)
    ensures sent.Some? <==> email != "" && password != ""
    ensures sent.Some? ==> sent.value == Credentials(email, password)
  {
    if IsFormValid(email, password) then Some(Credentials(email, password)) else None
  }

  /** `disabled={!isFormValid}`: the button is disabled exactly when a submit would be rejected. */
  function SubmitDisabled(email: string, password: string): (disabled: bool)
    ensures disabled <==> Submit(email, password).None?
    ensures disabled <==> email == "" || password == ""
  {
    !IsFormValid(email, password)
  }

  class LoginModal {
    var email: string
    var password: string

    constructor ()
      ensures email == "" && password == ""
    {
      email, password := "", "";
    }

    method SetEmail(value: string)
      modifies this
      ensures email == value && password == old(password)
    {
      email := value;
    }

    method SetPassword(value: string)
      modifies this
      ensures password == value && email == old(email)
    {
      password := value;
    }
  }
}
