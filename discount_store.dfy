/** The browser's discount store: the discount list, the shop list, the
    add-discount form, and the loading flag and error message of its
    actions. Each action is one step taking its requests' outcomes as
    inputs. */
module DiscountStore {
  import opened Json
  import opened Client

  const FetchShopsFailed := "Failed to fetch shops"
  const FetchDiscountsFailed := "Failed to fetch discounts"
  const SomethingWentWrong := "Something went wrong"
  const DiscountAdded := "Discount added successfully"

  /** The six form fields. */
  const FormKeys: set<string> := {"title", "discount_percentage", "category", "start_date", "end_date", "shop_id"}

  /** The fields `addDiscount` converts before posting. */
  const ConvertedKeys: set<string> := {"discount_percentage", "start_date", "end_date", "shop_id"}

  /** The form with every field blank, `shop_id` included. */
  function BlankForm(): (f: Object)
    ensures f.Keys == FormKeys
    ensures forall k :: k in f ==> f[k] == Str("")
  {
    map["title" := Str(""), "discount_percentage" := Str(""), "category" := Str(""),
        "start_date" := Str(""), "end_date" := Str(""), "shop_id" := Str("")]
  }

  /** The browser conversions `addDiscount` relies on. `toIso(v)` is
      `new Date(v).toISOString()`, `None` where that throws on an invalid
      date; `parseFloat` and `parseInt` give the number as it is serialised
      into the request body, where NaN becomes null. */
  datatype Conversions = Conversions(
    toIso: Option<Json> -> Option<string>,
    parseFloat: Option<Json> -> Json,
    parseInt: Option<Json> -> Json)

  /** The body `addDiscount` posts: the form with the percentage, both dates
      and the shop id converted; `None` when a date does not convert. */
  function DiscountPayload(f: Object, conv: Conversions): (p: Option<Object>)
    ensures p.Some? <==> conv.toIso(Get(f, "start_date")).Some? && conv.toIso(Get(f, "end_date")).Some?
    ensures p.Some? ==>
              && p.value.Keys == f.Keys + ConvertedKeys
              && (forall k :: k in f && k !in ConvertedKeys ==> p.value[k] == f[k])
              && p.value["discount_percentage"] == conv.parseFloat(Get(f, "discount_percentage"))
              && p.value["start_date"] == Str(conv.toIso(Get(f, "start_date")).value)
              && p.value["end_date"] == Str(conv.toIso(Get(f, "end_date")).value)
              && p.value["shop_id"] == conv.parseInt(Get(f, "shop_id"))
  {
    var start := conv.toIso(Get(f, "start_date"));
    var end := conv.toIso(Get(f, "end_date"));
    if start.None? || end.None? then None
    else
      Some(Merge(f, map["discount_percentage" := conv.parseFloat(Get(f, "discount_percentage")),
                        "start_date" := Str(start.value), "end_date" := Str(end.value),
                        "shop_id" := conv.parseInt(Get(f, "shop_id"))]))
  }

  /** A title or category typed into the form reaches the server unchanged. */
  lemma PayloadKeepsTypedText(f: Object, conv: Conversions)
    requires DiscountPayload(f, conv).Some?
    ensures "title" in f ==> DiscountPayload(f, conv).value["title"] == f["title"]
    ensures "category" in f ==> DiscountPayload(f, conv).value["category"] == f["category"]
  {
  }

  class Store {
    var discounts: Option<Json>
    var shops: Option<Json>
    var loading: bool
    var error: Json
    var formData: Object

    constructor ()
      ensures discounts == Some(Arr([])) && shops == Some(Arr([])) && !loading && error == Null
      ensures formData == BlankForm()
    {
      discounts, shops, loading, error := Some(Arr([])), Some(Arr([])), false, Null;
      formData := BlankForm();
    }

    /** A shallow merge: the keys given win, every other field stays. */
    method SetFormData(patch: Object)
      modifies this
      ensures formData == Merge(old(formData), patch)
      ensures discounts == old(discounts) && shops == old(shops) && loading == old(loading)
      ensures error == old(error)
    {
      formData := formData + patch;
    }

    method ResetForm()
      modifies this
      ensures formData == BlankForm()
      ensures discounts == old(discounts) && shops == old(shops) && loading == old(loading)
      ensures error == old(error)
    {
      formData := BlankForm();
    }

    /** Loads the shop list; a failure keeps the previous one. */
    method FetchShops(outcome: Outcome)
      modifies this
      ensures !loading && discounts == old(discounts) && formData == old(formData)
      ensures outcome.Success? ==> shops == Payload(outcome.body) && error == Null
      ensures outcome.Failure? ==> shops == old(shops) && error == MessageOr(outcome.failure, FetchShopsFailed)
    {
      loading, error := true, Null;
      if outcome.Success? {
        shops, error := Payload(outcome.body), Null;
      } else {
        error := MessageOr(outcome.failure, FetchShopsFailed);
      }
      loading := false;
    }

    /** Loads the discount list; a failure keeps the previous one. */
    method FetchDiscounts(outcome: Outcome)
      modifies this
      ensures !loading && shops == old(shops) && formData == old(formData)
      ensures outcome.Success? ==> discounts == Payload(outcome.body) && error == Null
      ensures outcome.Failure? ==>
                discounts == old(discounts) && error == MessageOr(outcome.failure, FetchDiscountsFailed)
    {
      loading, error := true, Null;
      if outcome.Success? {
        discounts, error := Payload(outcome.body), Null;
      } else {
        error := MessageOr(outcome.failure, FetchDiscountsFailed);
      }
      loading := false;
    }

    /** Posts the form as a new discount (`post` is that request's outcome),
        then on success reloads the list (`refetch`) and blanks the form.
        It does not clear `error` first, and a failure only raises a toast,
        whose text is returned. */
    method AddDiscount(conv: Conversions, post: Outcome, refetch: Outcome) returns (sent: Option<Object>, toast: Json)
      modifies this
      ensures sent == DiscountPayload(old(formData), conv)
      ensures !loading && shops == old(shops)
      ensures sent.None? ==>
                && toast == Str(SomethingWentWrong)
                && formData == old(formData) && error == old(error) && discounts == old(discounts)
      ensures sent.Some? && post.Failure? ==>
                && toast == MessageOr(post.failure, SomethingWentWrong)
                && formData == old(formData) && error == old(error) && discounts == old(discounts)
      ensures sent.Some? && post.Success? ==>
                && toast == Str(DiscountAdded) && formData == BlankForm()
                && (refetch.Success? ==> discounts == Payload(refetch.body) && error == Null)
                && (refetch.Failure? ==>
                      discounts == old(discounts) && error == MessageOr(refetch.failure, FetchDiscountsFailed))
    {
      loading := true;
      sent := DiscountPayload(formData, conv);
      if sent.None? {
        toast := Str(SomethingWentWrong);
      } else if post.Failure? {
        toast := MessageOr(post.failure, SomethingWentWrong);
      } else {
        FetchDiscounts(refetch);
        ResetForm();
        toast := Str(DiscountAdded);
      }
      loading := false;
    }
  }
}
