/**
 * The product form schema: four fields, each a chain of rules that is checked
 * in order; a field's error is the first rule of its chain that fails, and the
 * form may be submitted only when no field has an error. The translated
 * message texts are left out; a violation names the rule instead.
 */
module ProductValidation {
  import opened Common

  /** What the price input holds: nothing, something that is not a number, or a number. */
  datatype PriceInput = NoPrice | NotANumber | Number(value: real)

  datatype ProductForm = ProductForm(
    name: Option<string>, price: PriceInput, description: Option<string>, category: Option<string>)

  datatype Field = Name | Price | Description | Category

  /** The rule a field breaks: `required`, `min(n)`, the number `typeError`, or `positive`. */
  datatype Violation = Required | TooShort(min: nat) | TypeError | NotPositive

  const NameMinLength: nat := 2
  const DescriptionMinLength: nat := 5

  /**
   * A string's `length` in JavaScript: the number of UTF-16 code units, where a
   * character outside the Basic Multilingual Plane takes two.
   */
  function Utf16Length(s: string): (n: nat)
    ensures |s| <= n <= 2 * |s|
    ensures (forall i :: 0 <= i < |s| ==> (s[i] as int) < 0x1_0000) ==> n == |s|
    ensures (forall i :: 0 <= i < |s| ==> (s[i] as int) >= 0x1_0000) ==> n == 2 * |s|
  {
    if s == [] then 0
    else (if (s[0] as int) < 0x1_0000 then 1 else 2) + Utf16Length(s[1..])
  }

  /** A single emoji is two code units long, so it meets the name's minimum length. */
  lemma OneEmojiNameIsLongEnough()
    ensures NameRule(Some("\U{1F34E}"))
  {
  }

  // ---- The rules as plainly stated ----

  predicate NameRule(name: Option<string>) {
    name.Some? && Utf16Length(name.value) >= NameMinLength
  }

  predicate PriceRule(price: PriceInput) {
    price.Number? && price.value > 0.0
  }

  predicate DescriptionRule(description: Option<string>) {
    description.Some? && Utf16Length(description.value) >= DescriptionMinLength
  }

  predicate CategoryRule(category: Option<string>) {
    category.Some? && category.value != ""
  }

  // ---- The schema's rule chains ----

  /**
   * `string().required()` then optionally `.min(n)`: a missing value and the
   * empty string fail `required`; a shorter one fails `min`.
   */
  function StringViolation(s: Option<string>, min: nat): (v: Option<Violation>)
    ensures v == None <==> s.Some? && s.value != "" && Utf16Length(s.value) >= min
    ensures (s.None? || s.value == "") ==> v == Some(Required)
  {
    if s.None? || s.value == "" then Some(Required)
    else if Utf16Length(s.value) < min then Some(TooShort(min))
    else None
  }

  /**
   * `number().typeError().required().positive()`: a value that cannot be read
   * as a number fails with the type error, a missing one fails `required`, and
   * zero or less fails `positive`.
   */
  function PriceViolation(price: PriceInput): (v: Option<Violation>)
    ensures v == None <==> PriceRule(price)
    ensures price.NotANumber? ==> v == Some(TypeError)
    ensures price.Number? && price.value <= 0.0 ==> v == Some(NotPositive)
  {
    match price
    case NotANumber => Some(TypeError)
    case NoPrice => Some(Required)
    case Number(x) => if x > 0.0 then None else Some(NotPositive)
  }

  /** The error the schema reports for one field, if any. */
  function FieldViolation(form: ProductForm, field: Field): (v: Option<Violation>)
    ensures field == Name ==> (v == None <==> NameRule(form.name))
    ensures field == Price ==> (v == None <==> PriceRule(form.price))
    ensures field == Description ==> (v == None <==> DescriptionRule(form.description))
    ensures field == Category ==> (v == None <==> CategoryRule(form.category))
  {
    match field
    case Name => StringViolation(form.name, NameMinLength)
    case Price => PriceViolation(form.price)
    case Description => StringViolation(form.description, DescriptionMinLength)
    case Category => StringViolation(form.category, 0)
  }

  /** The per-field errors of a whole form. */
  function Errors(form: ProductForm): (errors: map<Field, Violation>)
    ensures forall f :: f in errors <==> FieldViolation(form, f).Some?
    ensures errors == map[] <==>
              NameRule(form.name) && PriceRule(form.price) &&
              DescriptionRule(form.description) && CategoryRule(form.category)
  {
    var all := {Name, Price, Description, Category};
    var errors := map f | f in all && FieldViolation(form, f).Some? :: FieldViolation(form, f).value;
    assert forall f: Field :: f.Name? || f.Price? || f.Description? || f.Category?;
    if NameRule(form.name) && PriceRule(form.price) && DescriptionRule(form.description) && CategoryRule(form.category) then
      errors
    else
      assert !NameRule(form.name) ==> Name in errors;
      assert !PriceRule(form.price) ==> Price in errors;
      assert !DescriptionRule(form.description) ==> Description in errors;
      assert !CategoryRule(form.category) ==> Category in errors;
      errors
  }

  /** Submission goes ahead only for a form without errors, that is, when every field's rule holds. */
  function IsValid(form: ProductForm): (ok: bool)
    ensures ok <==>
              NameRule(form.name) && PriceRule(form.price) &&
              DescriptionRule(form.description) && CategoryRule(form.category)
  {
    Errors(form) == map[]
  }

  /** One failing field is enough to block the whole form. */
  lemma OneFailingFieldBlocks(form: ProductForm, field: Field)
    requires FieldViolation(form, field).Some?
    ensures !IsValid(form)
  {
    assert field in Errors(form);
  }
}
