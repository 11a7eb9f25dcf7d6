/**
 * The sign-in / sign-up page: its form, the ordered validation rules and the
 * submit handler that calls the authentication service only for a valid form.
 */
module AuthPage {
  import opened Wrappers
  import opened Remote

  datatype AuthForm = AuthForm(
    firstName: string,
    lastName: string,
    company: string,
    email: string,
    password: string,
    confirmPassword: string)

  const EmptyForm := AuthForm("", "", "", "", "", "")

  datatype AuthField = FirstName | LastName | Company | Email | Password | ConfirmPassword

  function FieldOf(form: AuthForm, field: AuthField): string {
    match field
    case FirstName => form.firstName
    case LastName => form.lastName
    case Company => form.company
    case Email => form.email
    case Password => form.password
    case ConfirmPassword => form.confirmPassword
  }

  /** `{ ...prev, [field]: value }`: only `field` changes. */
  function WithField(form: AuthForm, field: AuthField, text: string): (r: AuthForm)
    ensures FieldOf(r, field) == text
    ensures forall other :: other != field ==> FieldOf(r, other) == FieldOf(form, other)
  {
    match field
    case FirstName => form.(firstName := text)
    case LastName => form.(lastName := text)
    case Company => form.(company := text)
    case Email => form.(email := text)
    case Password => form.(password := text)
    case ConfirmPassword => form.(confirmPassword := text)
  }

  const MissingCredentials := "Email and password are required"
  const MissingNames := "First name and last name are required"
  const PasswordMismatch := "Passwords do not match"
  const PasswordTooShort := "Password must be at least 8 characters long"

  /**
   * `validateForm`: the message of the first rule the form breaks, or `None`.
   * The name, match and length rules apply to sign-up only.
   */
  function Validate(form: AuthForm, isLogin: bool): Option<string> {
    if form.email == [] || form.password == [] then Some(MissingCredentials)
    else if isLogin then None
    else if form.firstName == [] || form.lastName == [] then Some(MissingNames)
    else if form.password != form.confirmPassword then Some(PasswordMismatch)
    else if |form.password| < 8 then Some(PasswordTooShort)
    else None
  }

  /** One validation rule: whether the form breaks it, and the message it then shows. */
  datatype Rule = Rule(broken: bool, message: string)

  /** The rules that apply in the given mode, in the order they are checked. */
  function Rules(form: AuthForm, isLogin: bool): seq<Rule> {
    [Rule(form.email == [] || form.password == [], MissingCredentials)]
    + if isLogin then [] else
      [ Rule(form.firstName == [] || form.lastName == [], MissingNames),
        Rule(form.password != form.confirmPassword, PasswordMismatch),
        Rule(|form.password| < 8, PasswordTooShort) ]
  }

  /** The message of the first broken rule in the list. */
  function FirstBroken(rules: seq<Rule>): (m: Option<string>)
    ensures m.None? <==> forall i :: 0 <= i < |rules| ==> !rules[i].broken
  {
    if rules == [] then None
    else if rules[0].broken then Some(rules[0].message)
    else FirstBroken(rules[1..])
  }

  /** The reported message belongs to a broken rule with no broken rule before it. */
  lemma {:induction false} FirstBrokenIsFirst(rules: seq<Rule>)
    requires FirstBroken(rules).Some?
    ensures exists i :: 0 <= i < |rules| && rules[i].broken && rules[i].message == FirstBroken(rules).value
                        && forall j :: 0 <= j < i ==> !rules[j].broken
  {
    if !rules[0].broken {
      var tail := rules[1..];
      FirstBrokenIsFirst(tail);
      var i :| 0 <= i < |tail| && tail[i].broken && tail[i].message == FirstBroken(tail).value
               && forall j :: 0 <= j < i ==> !tail[j].broken;
      assert rules[i + 1] == tail[i];
      assert forall j :: 1 <= j < i + 1 ==> rules[j] == tail[j - 1];
    } else {
      assert rules[0].message == FirstBroken(rules).value;
    }
  }

  /** `validateForm` reports exactly the first rule the form breaks, so one toast at most. */
  lemma ValidateIsFirstBroken(form: AuthForm, isLogin: bool)
    ensures Validate(form, isLogin) == FirstBroken(Rules(form, isLogin))
  {
    var rules := Rules(form, isLogin);
    if isLogin {
      assert rules[1..] == [];
    } else {
      assert rules[1..][1..][1..][1..] == [];
      assert FirstBroken(rules[1..][1..][1..]) == if rules[3].broken then Some(rules[3].message) else None;
      assert FirstBroken(rules[1..][1..]) == if rules[2].broken then Some(rules[2].message) else FirstBroken(rules[1..][1..][1..]);
      assert FirstBroken(rules[1..]) == if rules[1].broken then Some(rules[1].message) else FirstBroken(rules[1..][1..]);
    }
  }

  /** An empty email or password fails in both modes, before any other rule. */
  lemma MissingCredentialsFirst(form: AuthForm, isLogin: bool)
    requires form.email == [] || form.password == []
    ensures Validate(form, isLogin) == Some(MissingCredentials)
  {
  }

  /** In login mode a non-empty email and password always pass. */
  lemma LoginNeedsOnlyCredentials(form: AuthForm)
    ensures Validate(form, true).None? <==> form.email != [] && form.password != []
  {
  }

  /** Sign-up passes exactly when all four rules hold. */
  lemma SignUpValid(form: AuthForm)
    ensures Validate(form, false).None? <==>
            && form.email != [] && form.password != []
            && form.firstName != [] && form.lastName != []
            && form.password == form.confirmPassword
            && |form.password| >= 8
  {
  }

  /** A call on the authentication service. */
  datatype AuthRequest =
    | SignIn(email: string, password: string)
    | SignUp(email: string, password: string, firstName: string, lastName: string, company: string)

  /** How the call ended: it resolved, with or without an `error`, or it threw. */
  datatype AuthOutcome = Resolved(error: Option<string>) | Threw

  /** The toast `handleSubmit` shows for a call that went out. */
  function OutcomeToast(isLogin: bool, outcome: AuthOutcome): (t: Toast)
    ensures t.destructive <==> !(outcome.Resolved? && outcome.error.None?)
  {
    match outcome
    case Threw => Toast("Error", "An unexpected error occurred. Please try again.", true)
    case Resolved(Some(message)) =>
      Toast(if isLogin then "Login Failed" else "Registration Failed", message, true)
    case Resolved(None) =>
      if isLogin then Toast("Welcome back!", "You have successfully logged in.", false)
      else Toast("Registration Successful", "Please check your email to verify your account.", false)
  }

  class AuthScreen {
    var isLogin: bool
    var loading: bool
    var form: AuthForm
    var requests: seq<AuthRequest>
    var toasts: seq<Toast>

    constructor ()
      ensures isLogin && !loading && form == EmptyForm && requests == [] && toasts == []
    {
      isLogin := true;
      loading := false;
      form := EmptyForm;
      requests := [];
      toasts := [];
    }

    /** `handleInputChange(field, value)`. */
    method InputChange(field: AuthField, text: string)
      modifies this
      ensures FieldOf(form, field) == text
      ensures forall other :: other != field ==> FieldOf(form, other) == FieldOf(old(form), other)
      ensures isLogin == old(isLogin) && loading == old(loading)
      ensures requests == old(requests) && toasts == old(toasts)
    {
      form := WithField(form, field, text);
    }

    /** The "Sign up" / "Sign in" link switches mode and keeps what was typed. */
    method ToggleMode()
      modifies this
      ensures isLogin == !old(isLogin) && form == old(form) && loading == old(loading)
      ensures requests == old(requests) && toasts == old(toasts)
    {
      isLogin := !isLogin;
    }

    /**
     * `handleSubmit`: an invalid form shows one validation toast and calls
     * nothing; a valid one calls `signIn` or `signUp`, shows the outcome's
     * toast, and leaves `loading` false.
     */
    method Submit(outcome: AuthOutcome)
      modifies this
      ensures isLogin == old(isLogin) && form == old(form)
      ensures Validate(form, isLogin).Some? ==>
                && requests == old(requests)
                && toasts == old(toasts) + [Toast("Validation Error", Validate(form, isLogin).value, true)]
                && loading == old(loading)
      ensures Validate(form, isLogin).None? ==>
                && requests == old(requests) + [if isLogin then SignIn(form.email, form.password)
                                                else SignUp(form.email, form.password, form.firstName, form.lastName, form.company)]
                && toasts == old(toasts) + [OutcomeToast(isLogin, outcome)]
                && !loading
    {
      var failure := Validate(form, isLogin);
      if failure.Some? {
        toasts := toasts + [Toast("Validation Error", failure.value, true)];
        return;
      }
      loading := true;
      if isLogin {
        requests := requests + [SignIn(form.email, form.password)];
      } else {
        requests := requests + [SignUp(form.email, form.password, form.firstName, form.lastName, form.company)];
      }
      toasts := toasts + [OutcomeToast(isLogin, outcome)];
      loading := false;
    }
  }
}
