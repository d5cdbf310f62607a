/** The page where a logged-in shop edits its details and password: which
    shop it loads, how its form is filled, the field handlers, and the guard
    in front of the password change. */
module ManageShopPage {
  import opened Json
  import ShopStore

  const AllPasswordsRequired := "All password fields are required."
  const NewPasswordsDiffer := "New passwords do not match."

  /** `user?.id` is truthy: the id of the shop to load. */
  function FetchTarget(user: Option<Json>): (r: Option<Json>)
    ensures r.Some? <==> Present(Field(user, "id"))
    ensures r.Some? ==> user.Some? && user.value.Obj? && r.value == user.value.fields["id"]
  {
    if Present(Field(user, "id")) then Field(user, "id") else None
  }

  /** Unless the user is an object with a truthy `id` nothing is loaded:
      in particular not before the check has found a user (null), nor for a
      user without an id. */
  lemma NoUserNoFetch(user: Option<Json>)
    ensures user.None? || !user.value.Obj? ==> FetchTarget(user) == None
    ensures user.Some? && user.value.Obj? && "id" !in user.value.fields ==> FetchTarget(user) == None
    ensures user.Some? && user.value.Obj? && "id" in user.value.fields && !Truthy(user.value.fields["id"]) ==>
              FetchTarget(user) == None
  {
  }

  /** The patch the page writes into the store's form once `shopData` is
      truthy: its name, email and city, each `""` when missing or falsy. */
  function InitialPatch(shopData: Option<Json>): (r: Option<Object>)
    ensures r.Some? <==> Present(shopData)
    ensures r.Some? ==> r.value.Keys == {"shop_name", "email", "city"}
    ensures r.Some? ==> forall k :: k in r.value ==>
              r.value[k] == (if Present(Field(shopData, k)) then Field(shopData, k).value else Str(""))
  {
    if Present(shopData) then
      Some(map["shop_name" := OrDefault(Field(shopData, "shop_name"), ""),
               "email" := OrDefault(Field(shopData, "email"), ""),
               "city" := OrDefault(Field(shopData, "city"), "")])
    else None
  }

  /** Whatever the store holds, the page reads its `shopData`, which the
      store does not define: the value is undefined and the form is never
      initialised from it. */
  lemma UndefinedShopDataNoInit(store: Object)
    requires "shopData" !in store
    ensures InitialPatch(Get(store, "shopData")) == None
  {
  }

  /** `handleChange` as written: it passes an updater function to the
      store's `setFormData`. */
  function HandleChangeUpdate(name: string, value: string): (u: ShopStore.FormUpdate)
    ensures u.Updater? && ShopStore.SpreadUpdate(u) == map[]
  {
    ShopStore.Updater((prev: Object) => prev[name := Str(value)])
  }

  /** As written, typing into a field changes nothing: the store spreads the
      function, which has no fields, so the form keeps its old value. */
  lemma HandleChangeIgnored(form: Object, name: string, value: string)
    requires name in form && form[name] != Str(value)
    ensures Merge(form, ShopStore.SpreadUpdate(HandleChangeUpdate(name, value))) == form
    ensures Merge(form, ShopStore.SpreadUpdate(HandleChangeUpdate(name, value)))[name] != Str(value)
  {
  }

  /** The change handler as intended: an object patch naming the field. */
  function CorrectedChangeUpdate(name: string, value: string): (u: ShopStore.FormUpdate)
    ensures ShopStore.SpreadUpdate(u).Keys == {name} && ShopStore.SpreadUpdate(u)[name] == Str(value)
  {
    ShopStore.Fields(map[name := Str(value)])
  }

  /** The corrected handler sets the named field and keeps every other. */
  lemma CorrectedChangeSetsField(form: Object, name: string, value: string)
    ensures var f := Merge(form, ShopStore.SpreadUpdate(CorrectedChangeUpdate(name, value)));
            && f == form[name := Str(value)]
            && f[name] == Str(value)
            && (forall k :: k in form && k != name ==> f[k] == form[k])
  {
  }

  /** What the password form leads to. */
  datatype PasswordAction = MissingField | Mismatch | Update(current: Json, next: Json)

  /** The guard of `handleChangePassword`: falsy checks only (no trimming),
      then a strict comparison of the new password with its confirmation. */
  function PasswordGuard(passwords: Object): (r: PasswordAction)
    ensures r == MissingField <==>
              !Present(Get(passwords, "current_password")) || !Present(Get(passwords, "new_password"))
              || !Present(Get(passwords, "confirm_password"))
    ensures r.Update? <==>
              && Present(Get(passwords, "current_password")) && Present(Get(passwords, "new_password"))
              && Present(Get(passwords, "confirm_password"))
              && passwords["new_password"] == passwords["confirm_password"]
    ensures r.Update? ==> r.current == passwords["current_password"] && r.next == passwords["new_password"]
  {
    var current, next, confirm :=
      Get(passwords, "current_password"), Get(passwords, "new_password"), Get(passwords, "confirm_password");
    if !Present(current) || !Present(next) || !Present(confirm) then MissingField
    else if next != confirm then Mismatch
    else Update(current.value, next.value)
  }

  /** Passwords of spaces are truthy, so they pass the guard. */
  lemma SpacesPassGuard(passwords: Object)
    requires Get(passwords, "current_password") == Some(Str(" "))
    requires Get(passwords, "new_password") == Some(Str(" "))
    requires Get(passwords, "confirm_password") == Some(Str(" "))
    ensures PasswordGuard(passwords) == Update(Str(" "), Str(" "))
  {
  }

  /** The confirmation is never sent: two forms that differ only in it and
      both pass lead to the same update. */
  lemma ConfirmationNotSent(passwords: Object, c1: Json, c2: Json)
    requires PasswordGuard(passwords["confirm_password" := c1]).Update?
    requires PasswordGuard(passwords["confirm_password" := c2]).Update?
    ensures PasswordGuard(passwords["confirm_password" := c1]) == PasswordGuard(passwords["confirm_password" := c2])
  {
  }

  /** One call of `updateShopPassword(user.id, current, next)`. */
  datatype PasswordUpdate = PasswordUpdate(id: Option<Json>, current: Json, next: Json)

  class Page {
    var passwords: Object
    var alerts: seq<string>
    var passwordUpdates: seq<PasswordUpdate>

    constructor ()
      ensures passwords == map["current_password" := Str(""), "new_password" := Str(""), "confirm_password" := Str("")]
      ensures alerts == [] && passwordUpdates == []
    {
      passwords := map["current_password" := Str(""), "new_password" := Str(""), "confirm_password" := Str("")];
      alerts, passwordUpdates := [], [];
    }

    /** The password fields use the page's own state, where the updater
        form works: only the named field changes. */
    method HandlePasswordChange(name: string, value: string)
      modifies this
      ensures passwords == old(passwords)[name := Str(value)]
      ensures alerts == old(alerts) && passwordUpdates == old(passwordUpdates)
    {
      passwords := passwords[name := Str(value)];
    }

    /** Alerts on a missing field or a mismatch; otherwise asks for the
        update with the current and the new password. */
    method HandleChangePassword(user: Option<Json>)
      modifies this
      ensures passwords == old(passwords)
      ensures PasswordGuard(passwords) == MissingField ==>
                alerts == old(alerts) + [AllPasswordsRequired] && passwordUpdates == old(passwordUpdates)
      ensures PasswordGuard(passwords) == Mismatch ==>
                alerts == old(alerts) + [NewPasswordsDiffer] && passwordUpdates == old(passwordUpdates)
      ensures PasswordGuard(passwords).Update? ==>
                && alerts == old(alerts)
                && passwordUpdates == old(passwordUpdates) +
                     [PasswordUpdate(Field(user, "id"), PasswordGuard(passwords).current, PasswordGuard(passwords).next)]
    {
      var action := PasswordGuard(passwords);
      match action
      case MissingField =>
        alerts := alerts + [AllPasswordsRequired];
      case Mismatch =>
        alerts := alerts + [NewPasswordsDiffer];
      case Update(current, next) =>
        passwordUpdates := passwordUpdates + [PasswordUpdate(Field(user, "id"), current, next)];
    }
  }
}
