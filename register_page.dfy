/** The shop registration page: the form check that runs before the
    registration call, the submit button's disabled rule, and the field
    handlers that write into the shop store's form. */
module ShopRegisterPage {
  import opened Json
  import opened Text
  import ShopStore

  const ShopNameRequired := "Shop name is required"
  const InvalidEmail := "Invalid email format"
  const PasswordRequired := "Password is required"
  const PasswordTooShort := "Password must be at least 8 characters"
  const PasswordsDiffer := "Passwords do not match"
  const CityRequired := "City is required"
  const RegisterFailed := "Failed to register shop"

  /** `!v?.trim()`: the field is undefined, null, or nothing but white
      space (`BlankMeansTrimmedEmpty` relates it to `trim`). */
  predicate Blank(v: Option<Json>)
  {
    !(v.Some? && v.value.Str? && !AllWhitespace(v.value.s))
  }

  /** A field is blank exactly when `trim` leaves nothing of it. */
  lemma BlankMeansTrimmedEmpty(v: Option<Json>)
    ensures Blank(v) <==> !(v.Some? && v.value.Str? && Trim(v.value.s) != "")
  {
    if v.Some? && v.value.Str? {
      TrimEmptyIffBlank(v.value.s);
    }
  }

  /** `v?.length < 8`, the length in UTF-16 code units: an undefined or
      null field is not short. */
  predicate TooShort(v: Option<Json>)
  {
    v.Some? && v.value.Str? && Utf16Length(v.value.s) < 8
  }

  /** `v?.match(pattern)` is truthy; the regular expression is the
      parameter `pattern`. */
  predicate EmailMatches(v: Option<Json>, pattern: string -> bool)
  {
    v.Some? && v.value.Str? && pattern(v.value.s)
  }

  function ShopNameError(form: Object): (r: Option<string>)
    ensures r.Some? <==> Blank(Get(form, "shop_name"))
  {
    if Blank(Get(form, "shop_name")) then Some(ShopNameRequired) else None
  }

  function EmailError(form: Object, pattern: string -> bool): (r: Option<string>)
    ensures r.Some? <==> !EmailMatches(Get(form, "email"), pattern)
  {
    if !EmailMatches(Get(form, "email"), pattern) then Some(InvalidEmail) else None
  }

  /** The length message is written after the required message, so it
      wins. */
  function PasswordError(form: Object): (r: Option<string>)
    ensures r.Some? <==> Blank(Get(form, "password")) || TooShort(Get(form, "password"))
    ensures TooShort(Get(form, "password")) ==> r == Some(PasswordTooShort)
    ensures !TooShort(Get(form, "password")) && Blank(Get(form, "password")) ==> r == Some(PasswordRequired)
  {
    if TooShort(Get(form, "password")) then Some(PasswordTooShort)
    else if Blank(Get(form, "password")) then Some(PasswordRequired)
    else None
  }

  /** `password !== confirm_password`, strictly: both undefined is a match. */
  function ConfirmError(form: Object): (r: Option<string>)
    ensures r.Some? <==> Get(form, "password") != Get(form, "confirm_password")
  {
    if Get(form, "password") != Get(form, "confirm_password") then Some(PasswordsDiffer) else None
  }

  function CityError(form: Object): (r: Option<string>)
    ensures r.Some? <==> Blank(Get(form, "city"))
  {
    if Blank(Get(form, "city")) then Some(CityRequired) else None
  }

  /** `e` with `key` set to the message, when there is one. */
  function Put(e: map<string, string>, key: string, message: Option<string>): map<string, string>
  {
    if message.Some? then e[key := message.value] else e
  }

  /** The errors `validateForm` reports: exactly the failing fields, each
      with its own message. */
  function Errors(form: Object, pattern: string -> bool): (e: map<string, string>)
    ensures e.Keys <= ShopStore.FormKeys
    ensures "shop_name" in e <==> Blank(Get(form, "shop_name"))
    ensures "email" in e <==> !EmailMatches(Get(form, "email"), pattern)
    ensures "password" in e <==> Blank(Get(form, "password")) || TooShort(Get(form, "password"))
    ensures "confirm_password" in e <==> Get(form, "password") != Get(form, "confirm_password")
    ensures "city" in e <==> Blank(Get(form, "city"))
    ensures "shop_name" in e ==> e["shop_name"] == ShopNameRequired
    ensures "email" in e ==> e["email"] == InvalidEmail
    ensures "password" in e ==> Some(e["password"]) == PasswordError(form)
    ensures "confirm_password" in e ==> e["confirm_password"] == PasswordsDiffer
    ensures "city" in e ==> e["city"] == CityRequired
  {
    var e1 := Put(map[], "shop_name", ShopNameError(form));
    var e2 := Put(e1, "email", EmailError(form, pattern));
    var e3 := Put(e2, "password", PasswordError(form));
    var e4 := Put(e3, "confirm_password", ConfirmError(form));
    Put(e4, "city", CityError(form))
  }

  /** `validateForm`, filling the error map field by field in the page's
      order, the password twice. */
  method ValidateForm(form: Object, pattern: string -> bool) returns (errors: map<string, string>)
    ensures errors == Errors(form, pattern)
  {
    errors := map[];
    if Blank(Get(form, "shop_name")) {
      errors := errors["shop_name" := ShopNameRequired];
    }
    if !EmailMatches(Get(form, "email"), pattern) {
      errors := errors["email" := InvalidEmail];
    }
    ghost var beforePassword := errors;
    if Blank(Get(form, "password")) {
      errors := errors["password" := PasswordRequired];
    }
    if TooShort(Get(form, "password")) {
      errors := errors["password" := PasswordTooShort];
    }
    assert errors == Put(beforePassword, "password", PasswordError(form));
    if Get(form, "password") != Get(form, "confirm_password") {
      errors := errors["confirm_password" := PasswordsDiffer];
    }
    if Blank(Get(form, "city")) {
      errors := errors["city" := CityRequired];
    }
  }

  /** The password message by case: a short password gets the length
      message even when it is blank (so an empty one does), eight spaces are
      long enough and get "Password is required", and so does an undefined
      password, which has no length. */
  lemma PasswordMessages(form: Object, pattern: string -> bool)
    ensures TooShort(Get(form, "password")) ==> Errors(form, pattern)["password"] == PasswordTooShort
    ensures Get(form, "password") == Some(Str("")) ==> Errors(form, pattern)["password"] == PasswordTooShort
    ensures Get(form, "password") == Some(Str("        ")) ==> Errors(form, pattern)["password"] == PasswordRequired
    ensures Get(form, "password").None? ==> Errors(form, pattern)["password"] == PasswordRequired
  {
    assert AllWhitespace("        ");
    Utf16LengthOfBmp("        ");
  }

  /** Length counts UTF-16 code units: four emoji are eight units, long
      enough, while four letters are short. */
  lemma LengthCountsCodeUnits(form: Object, pattern: string -> bool)
    ensures Get(form, "password") == Some(Str("\U{1F600}\U{1F600}\U{1F600}\U{1F600}")) ==>
              "password" !in Errors(form, pattern)
    ensures Get(form, "password") == Some(Str("abcd")) ==>
              Errors(form, pattern)["password"] == PasswordTooShort
  {
    var emoji := "\U{1F600}\U{1F600}\U{1F600}\U{1F600}";
    assert Utf16Length(emoji) == 8 by {
      assert emoji[1..][1..][1..][1..] == [];
    }
    assert !AllWhitespace(emoji) by {
      assert !IsWhitespace(emoji[0]);
    }
  }

  /** `!formData.x?.trim()` for the five fields, or loading: an enabled
      button means nothing is loading and each of the five fields is a
      string with something other than white space in it. */
  predicate SubmitDisabled(form: Object, loading: bool)
    ensures !SubmitDisabled(form, loading) ==>
              && !loading
              && forall k :: k in ShopStore.FormKeys ==> k in form && form[k].Str? && !AllWhitespace(form[k].s)
  {
    || Blank(Get(form, "shop_name")) || Blank(Get(form, "email")) || Blank(Get(form, "password"))
    || Blank(Get(form, "confirm_password")) || Blank(Get(form, "city")) || loading
  }

  /** A form whose button is enabled has no required-field errors: what can
      still fail is the email pattern, the password length and the
      confirmation. */
  lemma EnabledFormHasNoRequiredErrors(form: Object, pattern: string -> bool, loading: bool)
    requires !SubmitDisabled(form, loading)
    ensures var e := Errors(form, pattern);
            && "shop_name" !in e && "city" !in e
            && ("password" in e ==> e["password"] == PasswordTooShort)
  {
  }

  /** The object each field's `onChange` hands to `setFormData`:
      `{ ...formData, [key]: value }`. */
  function ChangePatch(form: Object, key: string, value: string): Object
  {
    form[key := Str(value)]
  }

  /** Merged into the store's form, the patch replaces that one field. */
  lemma ChangeReplacesOnlyField(form: Object, key: string, value: string)
    ensures Merge(form, ChangePatch(form, key, value)) == form[key := Str(value)]
    ensures forall k :: k in form && k != key ==> Merge(form, ChangePatch(form, key, value))[k] == form[k]
  {
  }

  /** `error.message || "Failed to register shop"`. */
  function GeneralMessage(message: string): (r: string)
    ensures r != ""
    ensures message != "" ==> r == message
  {
    if message != "" then message else RegisterFailed
  }

  /** What calling an undefined store function throws: the store defines no
      `registerShop`, so the page's call always rejects with this message. */
  const RegisterShopMissing := "registerShop is not a function"

  class Page {
    var errors: map<string, string>
    var registerCalls: nat
    var navigated: Option<string>

    constructor ()
      ensures errors == map[] && registerCalls == 0 && navigated == None
    {
      errors, registerCalls, navigated := map[], 0, None;
    }

    /** Validates, and only with no errors calls the registration;
        `register` is `None` when that call resolves and the thrown message
        when it rejects. */
    method HandleSubmit(form: Object, pattern: string -> bool, register: Option<string>)
      modifies this
      ensures Errors(form, pattern) != map[] ==>
                errors == Errors(form, pattern) && registerCalls == old(registerCalls) && navigated == old(navigated)
      ensures Errors(form, pattern) == map[] ==> registerCalls == old(registerCalls) + 1
      ensures Errors(form, pattern) == map[] && register.None? ==> errors == map[] && navigated == Some("/login")
      ensures Errors(form, pattern) == map[] && register.Some? ==>
                errors == map["general" := GeneralMessage(register.value)] && navigated == old(navigated)
    {
      var validationErrors := ValidateForm(form, pattern);
      if validationErrors != map[] {
        errors := validationErrors;
        return;
      }
      registerCalls := registerCalls + 1;
      if register.None? {
        errors := map[];
        navigated := Some("/login");
      } else {
        errors := map["general" := GeneralMessage(register.value)];
      }
    }

    /** The submit as the code stands: a valid form reaches the call, which
        throws, so the page shows the type error and never navigates. */
    method HandleSubmitAsWritten(form: Object, pattern: string -> bool)
      modifies this
      ensures Errors(form, pattern) != map[] ==> errors == Errors(form, pattern) && navigated == old(navigated)
      ensures Errors(form, pattern) == map[] ==>
                errors == map["general" := RegisterShopMissing] && navigated == old(navigated)
    {
      HandleSubmit(form, pattern, Some(RegisterShopMissing));
    }
  }
}
