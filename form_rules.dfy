/**
 * Declarative field rules as the forms state them, and what validation
 * makes of them: every rule of a field is checked and its messages are
 * collected; a form is submitted only when no field has a message.
 *
 * A field the user never filled in is undefined; every rule here treats it
 * like the empty string, so field values default to "".
 */
module FormRules {
  import opened Outcomes

  datatype Rule =
    | Required(message: string)
    /** `type: 'email'`; the address syntax itself is the form library's check, passed as `isEmail`. */
    | EmailType(message: string)
    /** `min: n` on a string: at least n characters. */
    | MinLength(min: nat, message: string)
    /** A custom validator that accepts an empty value or one equal to another field's value. */
    | MatchesField(other: string, message: string)

  /** A form item: field name, its rules, and the fields whose changes re-validate it. */
  datatype FormItem = FormItem(name: string, rules: seq<Rule>, dependencies: seq<string>)

  type Values = map<string, string>

  function FieldValue(values: Values, name: string): string
  {
    if name in values then values[name] else ""
  }

  /**
   * The message a rule reports for a value, None when it passes. Built-in
   * rules other than `required` skip an empty value; the custom validator is
   * always called and skips it itself.
   */
  function RuleError(rule: Rule, value: string, values: Values, isEmail: string -> bool): (e: Option<string>)
    ensures e.Some? ==> e.value == rule.message
    ensures value == "" ==> (e.Some? <==> rule.Required?)
  {
    match rule
    case Required(message) => if value == "" then Some(message) else None
    case EmailType(message) => if value != "" && !isEmail(value) then Some(message) else None
    case MinLength(n, message) => if value != "" && |value| < n then Some(message) else None
    case MatchesField(other, message) =>
      if value == "" || FieldValue(values, other) == value then None else Some(message)
  }

  /** The messages of all failing rules, in rule order. */
  function FieldErrors(rules: seq<Rule>, value: string, values: Values, isEmail: string -> bool): (errors: seq<string>)
    ensures errors == [] <==> forall i :: 0 <= i < |rules| ==> RuleError(rules[i], value, values, isEmail).None?
    ensures |errors| <= |rules|
    ensures forall m :: m in errors ==> exists i :: 0 <= i < |rules| && RuleError(rules[i], value, values, isEmail) == Some(m)
    decreases |rules|
  {
    if rules == [] then []
    else
      var rest := FieldErrors(rules[1..], value, values, isEmail);
      assert forall i :: 0 < i < |rules| ==> rules[i] == rules[1..][i - 1];
      match RuleError(rules[0], value, values, isEmail)
      case Some(m) => [m] + rest
      case None => rest
  }

  /** The messages shown under one item. */
  function ItemErrors(item: FormItem, values: Values, isEmail: string -> bool): seq<string>
  {
    FieldErrors(item.rules, FieldValue(values, item.name), values, isEmail)
  }

  /** No item reports a message. */
  predicate Passes(items: seq<FormItem>, values: Values, isEmail: string -> bool)
  {
    forall i :: 0 <= i < |items| ==> ItemErrors(items[i], values, isEmail) == []
  }

  /** Pressing submit: `onFinish` receives the values only when every rule passes. */
  function Submit(items: seq<FormItem>, values: Values, isEmail: string -> bool): (r: Option<Values>)
    ensures r.Some? <==> Passes(items, values, isEmail)
    ensures r.Some? ==> r.value == values
  {
    if Passes(items, values, isEmail) then Some(values) else None
  }

  /** The items re-validated when a field changes: that field's own, and those declaring it a dependency. */
  function Revalidated(items: seq<FormItem>, changed: string): (names: set<string>)
    ensures forall i :: 0 <= i < |items| && (items[i].name == changed || changed in items[i].dependencies) ==>
              items[i].name in names
    ensures forall n :: n in names ==>
              exists i :: 0 <= i < |items| && items[i].name == n && (n == changed || changed in items[i].dependencies)
  {
    set i | 0 <= i < |items| && (items[i].name == changed || changed in items[i].dependencies) :: items[i].name
  }

  /** Every field a custom validator reads is among its item's dependencies. */
  predicate DependenciesDeclared(items: seq<FormItem>)
  {
    forall i, j :: 0 <= i < |items| && 0 <= j < |items[i].rules| && items[i].rules[j].MatchesField? ==>
      items[i].rules[j].other in items[i].dependencies
  }

  /** A field's messages depend on the other fields only through those its custom validators read. */
  lemma {:induction false} FieldErrorsFrame(rules: seq<Rule>, value: string, values: Values, values': Values,
                                            isEmail: string -> bool)
    requires forall j :: 0 <= j < |rules| && rules[j].MatchesField? ==>
               FieldValue(values, rules[j].other) == FieldValue(values', rules[j].other)
    ensures FieldErrors(rules, value, values, isEmail) == FieldErrors(rules, value, values', isEmail)
    decreases |rules|
  {
    if rules != [] {
      assert forall j :: 0 <= j < |rules[1..]| ==> rules[1..][j] == rules[j + 1];
      FieldErrorsFrame(rules[1..], value, values, values', isEmail);
    }
  }

  /**
   * When dependencies are declared, re-validating only the items `Revalidated`
   * names leaves no stale message: every other item's messages are the same
   * before and after the change.
   */
  lemma NoStaleErrors(items: seq<FormItem>, values: Values, changed: string, newValue: string,
                      isEmail: string -> bool, i: nat)
    requires DependenciesDeclared(items)
    requires i < |items| && items[i].name !in Revalidated(items, changed)
    ensures ItemErrors(items[i], values[changed := newValue], isEmail) == ItemErrors(items[i], values, isEmail)
  {
    var item := items[i];
    var values' := values[changed := newValue];
    assert item.name != changed && changed !in item.dependencies;
    assert FieldValue(values', item.name) == FieldValue(values, item.name);
    forall j | 0 <= j < |item.rules| && item.rules[j].MatchesField?
      ensures FieldValue(values', item.rules[j].other) == FieldValue(values, item.rules[j].other)
    {
      assert item.rules[j].other in item.dependencies;
    }
    FieldErrorsFrame(item.rules, FieldValue(values, item.name), values', values, isEmail);
  }
}
