/** The shop login page: the form check that runs before the login call,
    the submit button's disabled rule, and the field handlers. */
module ShopLoginPage {
  import opened Json
  import ShopRegisterPage
  import Text

  const InvalidEmail := "Invalid email format"
  const PasswordRequired := "Password is required"
  const LoginFailed := "Login failed"

  /** The errors `validateForm` reports: only `email` and `password` can
      appear, each exactly when its check fails. */
  function Errors(form: Object, pattern: string -> bool): (e: map<string, string>)
    ensures e.Keys <= {"email", "password"}
    ensures "email" in e <==> !ShopRegisterPage.EmailMatches(Get(form, "email"), pattern)
    ensures "password" in e <==> ShopRegisterPage.Blank(Get(form, "password"))
    ensures "email" in e ==> e["email"] == InvalidEmail
    ensures "password" in e ==> e["password"] == PasswordRequired
  {
    var e1 := ShopRegisterPage.Put(map[], "email",
      if !ShopRegisterPage.EmailMatches(Get(form, "email"), pattern) then Some(InvalidEmail) else None);
    ShopRegisterPage.Put(e1, "password",
      if ShopRegisterPage.Blank(Get(form, "password")) then Some(PasswordRequired) else None)
  }

  /** `validateForm`, filling the error map step by step. */
  method ValidateForm(form: Object, pattern: string -> bool) returns (errors: map<string, string>)
    ensures errors == Errors(form, pattern)
  {
    errors := map[];
    if !ShopRegisterPage.EmailMatches(Get(form, "email"), pattern) {
      errors := errors["email" := InvalidEmail];
    }
    if ShopRegisterPage.Blank(Get(form, "password")) {
      errors := errors["password" := PasswordRequired];
    }
  }

  /** The form passes exactly when the email matches and the password is
      not blank. */
  lemma NoErrorsIff(form: Object, pattern: string -> bool)
    ensures Errors(form, pattern) == map[] <==>
              ShopRegisterPage.EmailMatches(Get(form, "email"), pattern)
              && !ShopRegisterPage.Blank(Get(form, "password"))
  {
    var e := Errors(form, pattern);
    if !ShopRegisterPage.EmailMatches(Get(form, "email"), pattern) {
      assert "email" in e;
    } else if ShopRegisterPage.Blank(Get(form, "password")) {
      assert "password" in e;
    }
  }

  /** `!formData.email || !formData.password || loading`: falsy only, not
      trimmed, so an enabled button means both fields are truthy. */
  predicate SubmitDisabled(form: Object, loading: bool)
    ensures !SubmitDisabled(form, loading) ==>
              !loading && "email" in form && Truthy(form["email"]) && "password" in form && Truthy(form["password"])
  {
    !Present(Get(form, "email")) || !Present(Get(form, "password")) || loading
  }

  /** The button can be enabled while the check still refuses the form: a
      password of spaces is truthy yet blank after trimming. */
  lemma SpacesPasswordEnabledButRefused(form: Object, pattern: string -> bool)
    requires Present(Get(form, "email"))
    requires Get(form, "password") == Some(Str("   "))
    ensures !SubmitDisabled(form, false)
    ensures "password" in Errors(form, pattern)
  {
    assert ShopRegisterPage.Blank(Get(form, "password")) by {
      assert Text.AllWhitespace("   ");
    }
  }

  /** The patch each field's `onChange` hands to `setFormData`: just that
      field. */
  function ChangePatch(key: string, value: string): Object
  {
    map[key := Str(value)]
  }

  /** Merged into the store's form, the patch sets that field and keeps the
      others. */
  lemma ChangeKeepsOtherFields(form: Object, key: string, value: string)
    ensures Merge(form, ChangePatch(key, value)) == form[key := Str(value)]
  {
  }

  /** `err.message || "Login failed"`. */
  function GeneralMessage(message: string): (r: string)
    ensures r != ""
    ensures message != "" ==> r == message
  {
    if message != "" then message else LoginFailed
  }

  /** What the page hands to the context's `login`: `data.token` and
      `data.data` of the value `loginShop` resolved with. */
  datatype Handoff = Handoff(token: Option<Json>, shop: Option<Json>)

  /** The hand-off carries a token exactly when the resolved value is an
      object with a `token` field, and a shop exactly when it has `data`.
      `loginShop` resolves with `true`, so the context is given undefined
      for both. */
  lemma StoreResultCarriesNothing(v: Json)
    ensures var h := Handoff(Field(Some(v), "token"), Field(Some(v), "data"));
            && (h.token.Some? <==> v.Obj? && "token" in v.fields)
            && (h.shop.Some? <==> v.Obj? && "data" in v.fields)
            && (v == Bool(true) ==> h == Handoff(None, None))
  {
  }

  class Page {
    var errors: map<string, string>
    var loginCalls: nat
    var handoffs: seq<Handoff>

    constructor ()
      ensures errors == map[] && loginCalls == 0 && handoffs == []
    {
      errors, loginCalls, handoffs := map[], 0, [];
    }

    /** Validates, and only with no errors calls the login; `result` is
        what that call resolved with, or the message it threw. */
    method HandleSubmit(form: Object, pattern: string -> bool, result: Result)
      modifies this
      ensures Errors(form, pattern) != map[] ==>
                errors == Errors(form, pattern) && loginCalls == old(loginCalls) && handoffs == old(handoffs)
      ensures Errors(form, pattern) == map[] ==> loginCalls == old(loginCalls) + 1
      ensures Errors(form, pattern) == map[] && result.Resolved? ==>
                && errors == map[]
                && handoffs == old(handoffs) + [Handoff(Field(Some(result.value), "token"), Field(Some(result.value), "data"))]
      ensures Errors(form, pattern) == map[] && result.Threw? ==>
                errors == map["general" := GeneralMessage(result.message)] && handoffs == old(handoffs)
    {
      var validationErrors := ValidateForm(form, pattern);
      if validationErrors != map[] {
        errors := validationErrors;
        return;
      }
      loginCalls := loginCalls + 1;
      if result.Resolved? {
        var data := Some(result.value);
        handoffs := handoffs + [Handoff(Field(data, "token"), Field(data, "data"))];
        errors := map[];
      } else {
        errors := map["general" := GeneralMessage(result.message)];
      }
    }
  }

  /** How the awaited login call settled, as the page sees it. */
  datatype Result = Resolved(value: Json) | Threw(message: string)
}
