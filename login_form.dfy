/** The login form: its two items and their rules, what an accepted form contains, and the button label. */
module LoginForm {
  import opened FormRules

  const EmailField: string := "email"
  const PasswordField: string := "password"

  const EmailItem: FormItem :=
    FormItem(EmailField, [Required("Please input your email!"), EmailType("Please enter a valid email!")], [])
  const PasswordItem: FormItem :=
    FormItem(PasswordField, [Required("Please input your password!"),
                             MinLength(6, "Password must be at least 6 characters!")], [])

  const LoginItems: seq<FormItem> := [EmailItem, PasswordItem]

  /** What the rules together demand, stated directly. */
  predicate Acceptable(values: Values, isEmail: string -> bool)
  {
    var email := FieldValue(values, EmailField);
    email != "" && isEmail(email) && |FieldValue(values, PasswordField)| >= 6
  }

  /** `onSubmit` is called exactly with acceptable values, and receives them unchanged. */
  lemma LoginAcceptance(values: Values, isEmail: string -> bool)
    ensures Submit(LoginItems, values, isEmail).Some? <==> Acceptable(values, isEmail)
    ensures Submit(LoginItems, values, isEmail).Some? ==> Submit(LoginItems, values, isEmail).value == values
  {
    var email := FieldValue(values, EmailField);
    var password := FieldValue(values, PasswordField);
    var er := EmailItem.rules;
    var pr := PasswordItem.rules;
    assert er[0] == Required("Please input your email!") && er[1] == EmailType("Please enter a valid email!");
    assert pr[0] == Required("Please input your password!") && pr[1] == MinLength(6, "Password must be at least 6 characters!");
    assert LoginItems[0] == EmailItem && LoginItems[1] == PasswordItem;
  }

  /** The messages for an empty or malformed email, and for an empty or short password. */
  lemma LoginMessages(values: Values, isEmail: string -> bool)
    ensures FieldValue(values, EmailField) == "" ==> ItemErrors(EmailItem, values, isEmail) == ["Please input your email!"]
    ensures var email := FieldValue(values, EmailField);
            email != "" && !isEmail(email) ==> ItemErrors(EmailItem, values, isEmail) == ["Please enter a valid email!"]
    ensures FieldValue(values, PasswordField) == "" ==> ItemErrors(PasswordItem, values, isEmail) == ["Please input your password!"]
    ensures var password := FieldValue(values, PasswordField);
            0 < |password| < 6 ==> ItemErrors(PasswordItem, values, isEmail) == ["Password must be at least 6 characters!"]
  {
    assert EmailItem.rules[1..][1..] == [];
    assert PasswordItem.rules[1..][1..] == [];
  }

  /** The submit button's text. */
  function ButtonLabel(loading: bool): (text: string)
    ensures text == "Signing In..." <==> loading
    ensures !loading ==> text == "Sign In"
  {
    if loading then "Signing In..." else "Sign In"
  }
}
