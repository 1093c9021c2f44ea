/** The client's registration form: the field update and the submit-time validation cascade. */
module RegisterForm {

  datatype FormData = FormData(name: string, email: string, password: string, password2: string)

  /** The four inputs of the form, named by their `name` attribute. */
  datatype Field = Name | Email | Password | Password2

  datatype Alert = Alert(msg: string, alertType: string)

  /** What submitting does: raise an alert, or accept the form. */
  datatype SubmitOutcome = Alerted(alert: Alert) | Accepted

  const RequiredAlert := Alert("name and password are required fields", "danger")
  const MismatchAlert := Alert("password doesnt match", "danger")

  /** The form's initial `formData`. */
  const InitialForm := FormData("", "", "", "")

  function Get(f: FormData, field: Field): string {
    match field
    case Name => f.name
    case Email => f.email
    case Password => f.password
    case Password2 => f.password2
  }

  /** `onChange`: `{ ...formData, [e.target.name]: e.target.value }`. */
  function OnChange(f: FormData, field: Field, value: string): (r: FormData)
    ensures Get(r, field) == value
    ensures forall g :: g != field ==> Get(r, g) == Get(f, g)
  {
    match field
    case Name => f.(name := value)
    case Email => f.(email := value)
    case Password => f.(password := value)
    case Password2 => f.(password2 := value)
  }

  /** `onSubmit`: the emptiness check on name, email and password comes first, then the
      password match; `password2` is never checked for emptiness on its own. */
  function OnSubmit(f: FormData): (r: SubmitOutcome)
    ensures f.name == "" || f.email == "" || f.password == "" ==> r == Alerted(RequiredAlert)
    ensures f.name != "" && f.email != "" && f.password != "" && f.password != f.password2 ==>
              r == Alerted(MismatchAlert)
    ensures r == Accepted <==> f.name != "" && f.email != "" && f.password != "" && f.password == f.password2
  {
    if f.name == "" || f.email == "" || f.password == "" then Alerted(RequiredAlert)
    else if f.password != f.password2 then Alerted(MismatchAlert)
    else Accepted
  }

  /** Every field of the initial form is empty, so submitting it raises the required-fields alert. */
  lemma InitialFormRejected()
    ensures forall g :: Get(InitialForm, g) == ""
    ensures OnSubmit(InitialForm) == Alerted(RequiredAlert)
  {
  }

  /** An empty `password2` next to a non-empty password is reported as a mismatch. */
  lemma EmptyConfirmationIsMismatch(f: FormData)
    requires f.name != "" && f.email != "" && f.password != "" && f.password2 == ""
    ensures OnSubmit(f) == Alerted(MismatchAlert)
  {
  }
}
