/** The add-discount dialog: its field handler writes into the discount
    store's form, its submit reads the shop id from local storage, and its
    button is disabled until the five visible fields are filled. */
module AddDiscountModal {
  import opened Json
  import DiscountStore

  const NoShopId := "Shop ID not found. Please login first."

  /** `{ ...formData, [name]: value }`, handed to `setFormData`. */
  function ChangePatch(form: Object, name: string, value: string): Object
  {
    form[name := Str(value)]
  }

  /** Merged into the store's form, the patch replaces the target field and
      keeps every other. */
  lemma ChangeReplacesOnlyField(form: Object, name: string, value: string)
    ensures var f := Merge(form, ChangePatch(form, name, value));
            && f == form[name := Str(value)]
            && (forall k :: k in form && k != name ==> f[k] == form[k])
  {
  }

  /** What the submit does. */
  datatype SubmitAction = AlertNoShop | Create(shopId: string)

  /** `localStorage.getItem("shop_id")` (`None` is null), then `!shopId`. */
  function SubmitGuard(stored: Option<string>): (r: SubmitAction)
    ensures r.AlertNoShop? <==> stored.None? || stored.value == ""
    ensures r.Create? ==> Some(r.shopId) == stored
  {
    if stored.None? || stored.value == "" then AlertNoShop else Create(stored.value)
  }

  /** `localStorage.getItem(key)`: the stored string, or null. */
  function GetItem(storage: map<string, string>, key: string): (r: Option<string>)
    ensures r.Some? <==> key in storage
    ensures r.Some? ==> r.value == storage[key]
  {
    if key in storage then Some(storage[key]) else None
  }

  /** Without a `shop_id` entry in storage no discount is ever created. */
  lemma NoStoredIdNoCreate(storage: map<string, string>)
    requires "shop_id" !in storage
    ensures SubmitGuard(GetItem(storage, "shop_id")) == AlertNoShop
  {
  }

  /** The button: any of the five fields falsy, or loading. An enabled
      button means every field the server's guard checks except `shop_id`
      is truthy. */
  predicate SubmitDisabled(form: Object, loading: bool)
    ensures !SubmitDisabled(form, loading) ==>
              && !loading
              && forall k :: k in {"title", "discount_percentage", "category", "start_date", "end_date"} ==>
                   k in form && Truthy(form[k])
  {
    || !Present(Get(form, "title")) || !Present(Get(form, "discount_percentage"))
    || !Present(Get(form, "category")) || !Present(Get(form, "start_date"))
    || !Present(Get(form, "end_date")) || loading
  }

  /** After the store blanks its form the button is disabled again. */
  lemma ResetFormDisablesSubmit(loading: bool)
    ensures SubmitDisabled(DiscountStore.BlankForm(), loading)
  {
    assert DiscountStore.BlankForm()["title"] == Str("");
  }

  class Modal {
    /** The shop ids handed to `createDiscount`. */
    var creates: seq<string>
    var alerts: seq<string>

    constructor ()
      ensures creates == [] && alerts == []
    {
      creates, alerts := [], [];
    }

    method HandleSubmit(stored: Option<string>)
      modifies this
      ensures SubmitGuard(stored).AlertNoShop? ==> alerts == old(alerts) + [NoShopId] && creates == old(creates)
      ensures SubmitGuard(stored).Create? ==> creates == old(creates) + [stored.value] && alerts == old(alerts)
    {
      var action := SubmitGuard(stored);
      if action.AlertNoShop? {
        alerts := alerts + [NoShopId];
        return;
      }
      creates := creates + [action.shopId];
    }
  }
}
