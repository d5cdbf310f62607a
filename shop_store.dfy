/** The browser's shop store: the shop list, the shop being edited, the
    register/login form, and a loading flag and error message that every
    action sets while it runs. Each action is one step that takes the
    request's outcome as an input; the request itself is what the action
    returns as `sent`. */
module ShopStore {
  import opened Json
  import opened Client
  import Http
  import ShopController

  const EndpointNotFound := "API endpoint not found. Please check the server configuration."
  const InvalidInput := "Invalid input data"
  const RegisterFailed := "Failed to register shop"
  const EmailAlreadyExists := "Email already exists"
  const LoginFailed := "Failed to login"
  const BadCredentials := "Invalid email or password"
  const FetchShopsFailed := "Failed to fetch shops"
  const DeleteShopFailed := "Failed to delete shop"
  const FetchShopFailed := "Failed to fetch shop"
  const UpdateShopFailed := "Failed to update shop"

  /** The five form fields. */
  const FormKeys: set<string> := {"shop_name", "email", "password", "confirm_password", "city"}

  /** The form with every field blank, as the store starts and as
      `resetForm` leaves it. */
  function BlankForm(): (f: Object)
    ensures f.Keys == FormKeys
    ensures forall k :: k in f ==> f[k] == Str("")
  {
    map["shop_name" := Str(""), "email" := Str(""), "password" := Str(""),
        "confirm_password" := Str(""), "city" := Str("")]
  }

  /** The two password fields blanked, as written over the form after a
      login or a fetch. */
  function PasswordsBlank(): Object
  {
    map["password" := Str(""), "confirm_password" := Str("")]
  }

  /** The argument of `setFormData`: an object, or an updater function. The
      store spreads the argument, and a function has no fields to spread. */
  datatype FormUpdate = Fields(patch: Object) | Updater(update: Object -> Object)

  /** `{ ...newFormData }`: an object's own fields, and nothing at all for
      a function. */
  function SpreadUpdate(u: FormUpdate): (r: Object)
    ensures u.Fields? ==> r == u.patch
    ensures u.Updater? ==> r == map[]
  {
    match u
    case Fields(patch) => patch
    case Updater(_) => map[]
  }

  /** The body that `addShop` and `updateShop` post: the form's `shop_name`,
      `email`, `password` and `city`. An undefined field is dropped when the
      body is serialised. */
  function ShopPayload(f: Object): (p: Object)
    ensures p.Keys == f.Keys * {"shop_name", "email", "password", "city"}
    ensures forall k :: k in p ==> p[k] == f[k]
  {
    map k | k in f && k in {"shop_name", "email", "password", "city"} :: f[k]
  }

  /** The body that `loginShop` posts. */
  function LoginPayload(f: Object): (p: Object)
    ensures p.Keys == f.Keys * {"email", "password"}
    ensures forall k :: k in p ==> p[k] == f[k]
  {
    map k | k in f && k in {"email", "password"} :: f[k]
  }

  /** The message chain of `addShop` and `loginShop`: `special` is the
      status each of them names (409 and 401), with its own default. */
  function StatusMessage(f: HttpFailure, special: int, specialDefault: string, fallback: string): (r: Json)
    requires specialDefault != "" && fallback != ""
    ensures Truthy(r)
  {
    match f
    case NoResponse => Str(fallback)
    case Status(code, data) =>
      if code == 404 then Str(EndpointNotFound)
      else if code == 400 then OrDefault(ServerMessage(f), InvalidInput)
      else if code == special then OrDefault(ServerMessage(f), specialDefault)
      else MessageOr(f, fallback)
  }

  /** What a status-specific default is for each status other than 404. */
  function StatusDefault(code: int, special: int, specialDefault: string, fallback: string): string
  {
    if code == 400 then InvalidInput else if code == special then specialDefault else fallback
  }

  /** The message chain by case: no response gives the action's default, a
      404 gives the fixed endpoint message whatever the server said, and for
      every other status the server's message wins over the status's
      default. */
  lemma StatusMessageMeaning(f: HttpFailure, special: int, specialDefault: string, fallback: string)
    requires specialDefault != "" && fallback != ""
    ensures var r := StatusMessage(f, special, specialDefault, fallback);
            && (f.NoResponse? ==> r == Str(fallback))
            && (f.Status? && f.code == 404 ==> r == Str(EndpointNotFound))
            && (f.Status? && f.code != 404 && Present(ServerMessage(f)) ==> r == ServerMessage(f).value)
            && (f.Status? && f.code != 404 && !Present(ServerMessage(f)) ==>
                  r == Str(StatusDefault(f.code, special, specialDefault, fallback)))
  {
  }

  function AddShopMessage(f: HttpFailure): (r: Json)
    ensures Truthy(r)
  {
    StatusMessage(f, 409, EmailAlreadyExists, RegisterFailed)
  }

  function LoginMessage(f: HttpFailure): (r: Json)
    ensures Truthy(r)
  {
    StatusMessage(f, 401, BadCredentials, LoginFailed)
  }

  /** The register body has no `password_hash`, so the server's `createShop`
      refuses it with its 400, and the page shows that refusal's text. */
  lemma RegisterPayloadRefused(f: Object)
    ensures !ShopController.ShopFieldsPresent(ShopPayload(f))
    ensures AddShopMessage(Status(400, Http.MessageBody(false, ShopController.AllFieldsRequired)))
            == Str(ShopController.AllFieldsRequired)
  {
    assert "password_hash" !in ShopPayload(f);
  }

  /** A duplicate email is a 500 on the server, so the store never shows
      its own "Email already exists". */
  lemma DuplicateEmailShowsInternalError()
    ensures AddShopMessage(Status(500, Http.MessageBody(false, ShopController.InternalError)))
            == Str(ShopController.InternalError)
  {
  }

  /** `shop.id !== id`: elements whose `id` strictly equals the argument
      are dropped. */
  predicate KeepShop(shop: Json, id: Json)
  {
    Field(Some(shop), "id") != Some(id)
  }

  /** `shops.filter(shop => shop.id !== id)` runs without throwing: the list
      is an array and no element is null. */
  predicate Filterable(shops: Option<Json>)
  {
    shops.Some? && shops.value.Arr? && forall i :: 0 <= i < |shops.value.items| ==> shops.value.items[i] != Null
  }

  /** The shops that remain after a delete: exactly those whose id is not
      the argument. */
  function RemoveId(items: seq<Json>, id: Json): (r: seq<Json>)
    ensures forall x :: x in r <==> x in items && KeepShop(x, id)
    ensures |r| <= |items|
  {
    if items == [] then []
    else
      var rest := RemoveId(items[1..], id);
      assert forall x :: x in items <==> x == items[0] || x in items[1..];
      (if KeepShop(items[0], id) then [items[0]] else []) + rest
  }

  /** Filtering distributes over concatenation, so the kept shops stay in
      their original order. */
  lemma {:induction false} RemoveIdConcat(a: seq<Json>, b: seq<Json>, id: Json)
    ensures RemoveId(a + b, id) == RemoveId(a, id) + RemoveId(b, id)
  {
    if a == [] {
      assert a + b == b;
    } else {
      assert (a + b)[0] == a[0];
      assert (a + b)[1..] == a[1..] + b;
      RemoveIdConcat(a[1..], b, id);
    }
  }

  /** An id no shop has (a route string against numeric ids, say) removes
      nothing. */
  lemma {:induction false} RemoveAbsentIdKeepsAll(items: seq<Json>, id: Json)
    requires forall i :: 0 <= i < |items| ==> KeepShop(items[i], id)
    ensures RemoveId(items, id) == items
  {
    if items != [] {
      RemoveAbsentIdKeepsAll(items[1..], id);
    }
  }

  /** A setFormData updater function leaves the form as it was. */
  lemma UpdaterLeavesForm(form: Object, update: Object -> Object)
    ensures Merge(form, SpreadUpdate(Updater(update))) == form
  {
  }

  /** The settled value of an async action: resolved with a value, or
      rejected with an `Error` carrying the message. */
  datatype Settled = Resolved(value: Json) | Rejected(message: Json)

  class Store {
    var shops: Option<Json>
    var loading: bool
    var error: Json
    var currentShop: Option<Json>
    var formData: Object

    constructor ()
      ensures shops == Some(Arr([])) && !loading && error == Null && currentShop == Some(Null)
      ensures formData == BlankForm()
    {
      shops, loading, error, currentShop := Some(Arr([])), false, Null, Some(Null);
      formData := BlankForm();
    }

    /** A shallow merge: the keys given win, every other field stays. */
    method SetFormData(u: FormUpdate)
      modifies this
      ensures formData == Merge(old(formData), SpreadUpdate(u))
      ensures shops == old(shops) && loading == old(loading) && error == old(error)
      ensures currentShop == old(currentShop)
    {
      formData := formData + SpreadUpdate(u);
    }

    method ResetForm()
      modifies this
      ensures formData == BlankForm()
      ensures shops == old(shops) && loading == old(loading) && error == old(error)
      ensures currentShop == old(currentShop)
    {
      formData := BlankForm();
    }

    /** Registers the shop in the form. */
    method AddShop(outcome: Outcome) returns (sent: Object, r: Settled)
      modifies this
      ensures sent == ShopPayload(old(formData))
      ensures !loading && shops == old(shops) && currentShop == old(currentShop)
      ensures outcome.Success? ==> r == Resolved(Bool(true)) && error == Null && formData == BlankForm()
      ensures outcome.Failure? ==>
                && error == AddShopMessage(outcome.failure) && r == Rejected(error)
                && formData == old(formData)
    {
      loading, error := true, Null;
      sent := ShopPayload(formData);
      if outcome.Success? {
        error := Null;
        formData := BlankForm();
        r := Resolved(Bool(true));
      } else {
        var message := AddShopMessage(outcome.failure);
        error := message;
        r := Rejected(message);
      }
      loading := false;
    }

    /** Logs in with the form's email and password. */
    method LoginShop(outcome: Outcome) returns (sent: Object, r: Settled)
      modifies this
      ensures sent == LoginPayload(old(formData))
      ensures !loading && shops == old(shops)
      ensures outcome.Success? ==>
                && r == Resolved(Bool(true)) && error == Null
                && currentShop == Payload(outcome.body)
                && formData == Merge(old(formData), PasswordsBlank())
      ensures outcome.Failure? ==>
                && error == LoginMessage(outcome.failure) && r == Rejected(error)
                && formData == old(formData) && currentShop == old(currentShop)
    {
      loading, error := true, Null;
      sent := LoginPayload(formData);
      if outcome.Success? {
        currentShop, error := Payload(outcome.body), Null;
        formData := formData + PasswordsBlank();
        r := Resolved(Bool(true));
      } else {
        var message := LoginMessage(outcome.failure);
        error := message;
        r := Rejected(message);
      }
      loading := false;
    }

    /** Loads the shop list; a failure empties it. */
    method FetchShops(outcome: Outcome)
      modifies this
      ensures !loading && formData == old(formData) && currentShop == old(currentShop)
      ensures outcome.Success? ==> shops == Payload(outcome.body) && error == Null
      ensures outcome.Failure? ==> shops == Some(Arr([])) && error == MessageOr(outcome.failure, FetchShopsFailed)
    {
      loading, error := true, Null;
      if outcome.Success? {
        shops, error := Payload(outcome.body), Null;
      } else {
        error, shops := MessageOr(outcome.failure, FetchShopsFailed), Some(Arr([]));
      }
      loading := false;
    }

    /** Deletes shop `id` and drops it from the list. A list that cannot be
        filtered makes the success branch throw, which the catch reports
        with the default message. */
    method DeleteShop(id: Json, outcome: Outcome)
      modifies this
      ensures !loading && formData == old(formData) && currentShop == old(currentShop)
      ensures outcome.Success? && Filterable(old(shops)) ==>
                shops == Some(Arr(RemoveId(old(shops).value.items, id))) && error == Null
      ensures outcome.Success? && !Filterable(old(shops)) ==>
                shops == old(shops) && error == Str(DeleteShopFailed)
      ensures outcome.Failure? ==> shops == old(shops) && error == MessageOr(outcome.failure, DeleteShopFailed)
    {
      loading, error := true, Null;
      if outcome.Failure? {
        error := MessageOr(outcome.failure, DeleteShopFailed);
      } else if Filterable(shops) {
        shops := Some(Arr(RemoveId(shops.value.items, id)));
      } else {
        error := Str(DeleteShopFailed);
      }
      loading := false;
    }

    /** Loads one shop and copies it into the form with the passwords
        blanked; a failure sets the current shop to null. */
    method FetchShop(id: Json, outcome: Outcome)
      modifies this
      ensures !loading && shops == old(shops)
      ensures outcome.Success? ==>
                && currentShop == Payload(outcome.body) && error == Null
                && formData == Merge(Spread(Payload(outcome.body)), PasswordsBlank())
      ensures outcome.Failure? ==>
                && currentShop == Some(Null) && error == MessageOr(outcome.failure, FetchShopFailed)
                && formData == old(formData)
    {
      loading, error := true, Null;
      if outcome.Success? {
        var shop := Payload(outcome.body);
        currentShop := shop;
        formData := Spread(shop) + PasswordsBlank();
        error := Null;
      } else {
        error, currentShop := MessageOr(outcome.failure, FetchShopFailed), Some(Null);
      }
      loading := false;
    }

    /** Saves the form as shop `id`. */
    method UpdateShop(id: Json, outcome: Outcome) returns (sent: Object)
      modifies this
      ensures sent == ShopPayload(old(formData))
      ensures !loading && shops == old(shops) && formData == old(formData)
      ensures outcome.Success? ==> currentShop == Payload(outcome.body) && error == Null
      ensures outcome.Failure? ==>
                currentShop == old(currentShop) && error == MessageOr(outcome.failure, UpdateShopFailed)
    {
      loading, error := true, Null;
      sent := ShopPayload(formData);
      if outcome.Success? {
        currentShop, error := Payload(outcome.body), Null;
      } else {
        error := MessageOr(outcome.failure, UpdateShopFailed);
      }
      loading := false;
    }
  }
}
