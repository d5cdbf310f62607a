/** The browser's authentication state: the logged-in user, whether the
    first check is still running, and the two entries it keeps in local
    storage (`token` and `shop`). Logging out also blanks part of the shop
    store's form. */
module AuthContext {
  import opened Json
  import opened Client
  import ShopStore

  /** The storage keys the context writes and removes. */
  const StoredKeys: set<string> := {"token", "shop"}

  /** The patch `logout` hands to the shop store's `setFormData`. Its last
      key is `shopName`, which is not a field of that form. */
  function LogoutPatch(): (p: Object)
    ensures p.Keys == {"email", "password", "city", "shopName"}
    ensures forall k :: k in p ==> p[k] == Str("")
  {
    map["email" := Str(""), "password" := Str(""), "city" := Str(""), "shopName" := Str("")]
  }

  /** `res.data.success` is truthy. */
  predicate Authenticated(outcome: Outcome)
  {
    outcome.Success? && Present(Field(Some(outcome.body), "success"))
  }

  /** After logout the form's email, password and city are blank, while
      `shop_name` keeps whatever it held and a stray `shopName` appears. */
  lemma LogoutKeepsShopName(form: Object)
    requires "shop_name" in form
    ensures var f := Merge(form, LogoutPatch());
            && f["shop_name"] == form["shop_name"]
            && f["email"] == Str("") && f["password"] == Str("") && f["city"] == Str("")
            && "shopName" in f
            && (form["shop_name"] != Str("") ==> f["shop_name"] != Str(""))
  {
  }

  class Provider {
    /** `user`: `None` is undefined, `Some(Null)` is null. */
    var user: Option<Json>
    var authLoading: bool
    /** The page's local storage. */
    var storage: map<string, string>
    const shopStore: ShopStore.Store

    constructor (storage: map<string, string>, shopStore: ShopStore.Store)
      ensures user == Some(Null) && authLoading && this.storage == storage && this.shopStore == shopStore
    {
      user, authLoading := Some(Null), true;
      this.storage, this.shopStore := storage, shopStore;
    }

    /** Asks the server who is logged in. Anything but a truthy `success`
        (a failure status included) logs the user out locally. */
    method CheckAuth(outcome: Outcome)
      modifies this
      ensures !authLoading
      ensures Authenticated(outcome) ==> user == Payload(outcome.body) && storage == old(storage)
      ensures !Authenticated(outcome) ==> user == Some(Null) && storage == old(storage) - StoredKeys
    {
      if Authenticated(outcome) {
        user := Payload(outcome.body);
      } else {
        user := Some(Null);
        storage := storage - {"token"};
        storage := storage - {"shop"};
      }
      authLoading := false;
    }

    /** Stores the token and the serialised shop and sets the user.
        `tokenText` and `shopText` are the strings local storage keeps for
        them. */
    method Login(tokenText: string, shopText: string, shopData: Option<Json>)
      modifies this
      ensures storage == old(storage)["token" := tokenText]["shop" := shopText]
      ensures user == shopData && authLoading == old(authLoading)
    {
      storage := storage["token" := tokenText];
      storage := storage["shop" := shopText];
      user := shopData;
    }

    /** Logs out whether or not the server request succeeds. */
    method Logout(outcome: Outcome)
      modifies this, shopStore
      ensures user == Some(Null) && storage == old(storage) - StoredKeys
      ensures authLoading == old(authLoading)
      ensures shopStore.formData == Merge(old(shopStore.formData), LogoutPatch())
      ensures shopStore.shops == old(shopStore.shops) && shopStore.loading == old(shopStore.loading)
      ensures shopStore.error == old(shopStore.error) && shopStore.currentShop == old(shopStore.currentShop)
    {
      user := Some(Null);
      storage := storage - {"token"};
      storage := storage - {"shop"};
      shopStore.SetFormData(ShopStore.Fields(LogoutPatch()));
    }
  }

  /** No step of the context writes a `shop_id` entry: only `token` and
      `shop` are ever set or removed, so `shop_id` is stored after a step
      exactly when it was stored before. */
  lemma StoredKeysOmitShopId(s: map<string, string>, t: string, u: string)
    ensures "shop_id" !in StoredKeys
    ensures "shop_id" in s["token" := t]["shop" := u] <==> "shop_id" in s
    ensures "shop_id" in s - StoredKeys <==> "shop_id" in s
  {
  }
}
