/** The registration form (`RegisterModal`): per-field edits, then two checks in order. */
module RegisterModal {

  datatype Form = Form(name: string, email: string, password: string, repeatPassword: string)

  datatype Field = Name | Email | Password | RepeatPassword

  function Get(form: Form, f: Field): string
  {
    match f
    case Name => form.name
    case Email => form.email
    case Password => form.password
    case RepeatPassword => form.repeatPassword
  }

  /** `{ ...prev, [name]: value }`: the named field takes the value, every other field is kept. */
  function Set(form: Form, f: Field, value: string): (r: Form)
    ensures Get(r, f) == value
    ensures forall g :: g != f ==> Get(r, g) == Get(form, g)
  {
    match f
    case Name => form.(name := value)
    case Email => form.(email := value)
    case Password => form.(password := value)
    case RepeatPassword => form.(repeatPassword := value)
  }

  /** What a submit does: one of two error notices, or `onRegister({ name, email, password })`. */
  datatype Outcome =
    | IncompleteFields
    | PasswordMismatch
    | Registered(name: string, email: string, password: string)

  /** `handleSubmit`: the empty-field check first, then the password-match check. */
  function Submit(form: Form): (r: Outcome)
    ensures r == IncompleteFields <==>
              form.name == "" || form.email == "" || form.password == "" || form.repeatPassword == ""
    ensures r == PasswordMismatch <==>
              r != IncompleteFields && form.password != form.repeatPassword
    ensures r.Registered? ==>
              r == Registered(form.name, form.email, form.password) && form.password == form.repeatPassword
  {
    if form.name == "" || form.email == "" || form.password == "" || form.repeatPassword == "" then
      IncompleteFields
    else if form.password != form.repeatPassword then
      PasswordMismatch
    else
      Registered(form.name, form.email, form.password)
  }

  class RegisterModal {
    var formData: Form

    constructor ()
      ensures formData == Form("", "", "", "")
    {
      formData := Form("", "", "", "");
    }

    /** `handleChange`: one input's change event. */
    method HandleChange(f: Field, value: string)
      modifies this
      ensures Get(formData, f) == value
      ensures forall g :: g != f ==> Get(formData, g) == Get(old(formData), g)
    {
      formData := Set(formData, f, value);
    }
  }
}
