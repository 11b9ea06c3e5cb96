/**
 * The sign-up form: its three items and their rules, the confirm field's
 * dependency on the password, what an accepted form therefore contains,
 * the submit button's label, and the captcha handler the form expects from
 * its hook.
 */
module SignUpForm {
  import opened Outcomes
  import opened FormRules
  import UseAuthForm

  const EmailField: string := "email"
  const PasswordField: string := "password"
  const ConfirmField: string := "confirmPassword"
  const MismatchMessage: string := "The two passwords do not match!"

  const EmailItem: FormItem :=
    FormItem(EmailField, [Required("Please input your email!"), EmailType("Enter valid email!")], [])
  const PasswordItem: FormItem :=
    FormItem(PasswordField, [Required("Please input your password!"), MinLength(6, "Min 6 characters!")], [])
  const ConfirmItem: FormItem :=
    FormItem(ConfirmField, [Required("Please confirm your password!"), MatchesField(PasswordField, MismatchMessage)],
             [PasswordField])

  const SignUpItems: seq<FormItem> := [EmailItem, PasswordItem, ConfirmItem]

  /** What the rules together demand, stated directly. */
  predicate Acceptable(values: Values, isEmail: string -> bool)
  {
    var email := FieldValue(values, EmailField);
    var password := FieldValue(values, PasswordField);
    var confirm := FieldValue(values, ConfirmField);
    && email != "" && isEmail(email)
    && |password| >= 6
    && confirm != "" && confirm == password
  }

  lemma TwoRules(r0: Rule, r1: Rule, value: string, values: Values, isEmail: string -> bool)
    ensures FieldErrors([r0, r1], value, values, isEmail) == [] <==>
              RuleError(r0, value, values, isEmail).None? && RuleError(r1, value, values, isEmail).None?
  {
    var rules := [r0, r1];
    assert rules[0] == r0 && rules[1] == r1;
  }

  /** The form validates exactly when the values are acceptable, in both directions. */
  lemma SignUpAcceptance(values: Values, isEmail: string -> bool)
    ensures Passes(SignUpItems, values, isEmail) <==> Acceptable(values, isEmail)
  {
    var email := FieldValue(values, EmailField);
    var password := FieldValue(values, PasswordField);
    var confirm := FieldValue(values, ConfirmField);
    TwoRules(EmailItem.rules[0], EmailItem.rules[1], email, values, isEmail);
    TwoRules(PasswordItem.rules[0], PasswordItem.rules[1], password, values, isEmail);
    TwoRules(ConfirmItem.rules[0], ConfirmItem.rules[1], confirm, values, isEmail);
    assert SignUpItems[0] == EmailItem && SignUpItems[1] == PasswordItem && SignUpItems[2] == ConfirmItem;
  }

  /** `onFinish` is called only with acceptable values, and always with them. */
  lemma SubmitOnlyAcceptable(values: Values, isEmail: string -> bool)
    ensures Submit(SignUpItems, values, isEmail).Some? <==> Acceptable(values, isEmail)
  {
    SignUpAcceptance(values, isEmail);
  }

  /** The match validator alone: an empty confirmation or one equal to the password passes; anything else fails with the mismatch message. */
  lemma MatchValidator(values: Values, isEmail: string -> bool)
    ensures var confirm := FieldValue(values, ConfirmField);
            RuleError(ConfirmItem.rules[1], confirm, values, isEmail) ==
              if confirm == "" || confirm == FieldValue(values, PasswordField) then None else Some(MismatchMessage)
  {
  }

  /** An empty email shows only the required message; a non-empty one the library rejects shows only the format message. */
  lemma EmailMessages(values: Values, isEmail: string -> bool)
    ensures FieldValue(values, EmailField) == "" ==> ItemErrors(EmailItem, values, isEmail) == ["Please input your email!"]
    ensures var email := FieldValue(values, EmailField);
            email != "" && !isEmail(email) ==> ItemErrors(EmailItem, values, isEmail) == ["Enter valid email!"]
  {
    var rules := EmailItem.rules;
    assert rules[1..][1..] == [];
  }

  /** An empty password shows only the required message; a short one only the length message. */
  lemma PasswordMessages(values: Values, isEmail: string -> bool)
    ensures FieldValue(values, PasswordField) == "" ==> ItemErrors(PasswordItem, values, isEmail) == ["Please input your password!"]
    ensures var password := FieldValue(values, PasswordField);
            0 < |password| < 6 ==> ItemErrors(PasswordItem, values, isEmail) == ["Min 6 characters!"]
  {
    var rules := PasswordItem.rules;
    assert rules[1..][1..] == [];
  }

  /** Changing the password re-validates the confirmation, and that is enough for no message to go stale. */
  lemma PasswordChangeRevalidatesConfirm(values: Values, newPassword: string, isEmail: string -> bool, i: nat)
    requires i < |SignUpItems| && SignUpItems[i].name !in Revalidated(SignUpItems, PasswordField)
    ensures ConfirmField in Revalidated(SignUpItems, PasswordField)
    ensures ItemErrors(SignUpItems[i], values[PasswordField := newPassword], isEmail) == ItemErrors(SignUpItems[i], values, isEmail)
  {
    assert SignUpItems[2] == ConfirmItem;
    assert DependenciesDeclared(SignUpItems) by {
      forall i, j | 0 <= i < |SignUpItems| && 0 <= j < |SignUpItems[i].rules| && SignUpItems[i].rules[j].MatchesField?
        ensures SignUpItems[i].rules[j].other in SignUpItems[i].dependencies
      {
        assert i == 2 && j == 1;
      }
    }
    NoStaleErrors(SignUpItems, values, PasswordField, newPassword, isEmail, i);
  }

  /** The submit button's text. */
  function ButtonLabel(loading: bool): (text: string)
    ensures text == "Creating Account..." <==> loading
    ensures !loading ==> text == "Create Account"
  {
    if loading then "Creating Account..." else "Create Account"
  }

  /** The names the form takes from its hook. */
  const Destructured: set<string> := {"form", "loading", "onFinish", "setCaptchaToken"}

  /**
   * The captcha's change handler is the hook's `setCaptchaToken`, which the
   * hook does not return: the handler is undefined and the token reaches no
   * submission.
   */
  lemma CaptchaHandlerMissing()
    ensures Destructured - UseAuthForm.Returned == {"setCaptchaToken"}
  {
  }
}
