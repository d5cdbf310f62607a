/** The shop resource handlers over the in-memory tables. Each handler
    validates the request, issues one statement against `Tables` and sends
    the reply; `outage` stands for a database call that throws for a reason
    the tables do not model (a lost connection), which every handler's
    catch turns into a 500. */
module ShopController {
  import opened Json
  import opened Schema
  import opened Http
  import opened Sorting

  const InternalError := "Internal Server Error"
  const AllFieldsRequired := "All fields are required"
  const UpdateFieldsRequired := "All fields (shop_name, email, password_hash, city) are required."
  const EmailExists := "Email already exists. Please use a different email."
  const ShopNotFound := "Shop not found"

  /** The 404 message of `updateShop`, quoting the id as given in the URL. */
  function ShopIdNotFound(id: string): string
  {
    "Shop with ID " + id + " not found."
  }

  /** The four text columns a request supplies for a shop. */
  datatype ShopColumns = ShopColumns(shop_name: string, email: string, password_hash: string, city: string)

  /** `!shop_name || !email || !password_hash || !city` is false. */
  predicate ShopFieldsPresent(body: Object)
  {
    && Present(Get(body, "shop_name")) && Present(Get(body, "email"))
    && Present(Get(body, "password_hash")) && Present(Get(body, "city"))
  }

  /** The four body fields as the database converts them to text; `None`
      when a field is missing or does not convert. */
  function ShopColumnsOf(body: Object, casts: Casts): (r: Option<ShopColumns>)
    ensures r.Some? <==>
              && ShopFieldsPresent(body)
              && casts.text(body["shop_name"]).Some? && casts.text(body["email"]).Some?
              && casts.text(body["password_hash"]).Some? && casts.text(body["city"]).Some?
    ensures r.Some? ==>
              && casts.text(body["shop_name"]) == Some(r.value.shop_name)
              && casts.text(body["email"]) == Some(r.value.email)
              && casts.text(body["password_hash"]) == Some(r.value.password_hash)
              && casts.text(body["city"]) == Some(r.value.city)
  {
    if !ShopFieldsPresent(body) then None
    else
      var name, email, hash, city :=
        casts.text(body["shop_name"]), casts.text(body["email"]),
        casts.text(body["password_hash"]), casts.text(body["city"]);
      if name.Some? && email.Some? && hash.Some? && city.Some?
      then Some(ShopColumns(name.value, email.value, hash.value, city.value))
      else None
  }

  predicate ColumnsFit(c: ShopColumns)
  {
    ShopFits(c.shop_name, c.email, c.password_hash, c.city)
  }

  /** The sort key of `ORDER BY created_at DESC`. */
  function NewestFirst(r: ShopRow): int
  {
    -r.created_at
  }

  /** GET /api/shops: every shop, newest first. */
  method GetShops(db: Tables, outage: bool) returns (reply: Reply<seq<ShopRow>>)
    requires db.Valid()
    ensures outage ==> reply == Err(500, InternalError)
    ensures !outage ==> reply.Ok? && reply.status == 200
    ensures reply.Ok? ==> multiset(reply.data) == multiset(db.shops.Values)
    ensures reply.Ok? ==>
              forall i, j :: 0 <= i < j < |reply.data| ==> reply.data[i].created_at >= reply.data[j].created_at
  {
    if outage {
      return Err(500, InternalError);
    }
    var rows := ListSet(db.shops.Values);
    var sorted := SortBy(rows, NewestFirst);
    assert forall i, j :: 0 <= i < j < |sorted| ==> NewestFirst(sorted[i]) <= NewestFirst(sorted[j]);
    reply := Ok(200, sorted);
  }

  /** POST /api/shops/register: inserts the row as given. The password hash
      is stored exactly as the body supplies it; every database failure,
      a duplicate email included, is a 500. */
  method CreateShop(db: Tables, body: Object, casts: Casts, now: int, outage: bool)
    returns (reply: Reply<ShopRow>)
    requires db.Valid()
    modifies db
    ensures db.Valid()
    ensures db.discounts == old(db.discounts)
    ensures !ShopFieldsPresent(body) ==>
              reply == Err(400, AllFieldsRequired) && db.shops == old(db.shops) && db.shopSerial == old(db.shopSerial)
    ensures ShopFieldsPresent(body) && reply.Err? ==> reply == Err(500, InternalError)
    ensures reply.Err? ==> db.shops == old(db.shops)
    ensures reply.Ok? <==>
              && ShopFieldsPresent(body) && !outage && ShopColumnsOf(body, casts).Some?
              && ColumnsFit(ShopColumnsOf(body, casts).value)
              && !EmailHeldByOther(old(db.shops), ShopColumnsOf(body, casts).value.email, old(db.shopSerial))
    ensures reply.Ok? ==>
              && reply.status == 201
              && var c := ShopColumnsOf(body, casts).value;
              && reply.data == ShopRow(old(db.shopSerial), c.shop_name, c.email, c.password_hash, c.city, now, now)
              && reply.data.id !in old(db.shops)
              && db.shops == old(db.shops)[reply.data.id := reply.data]
  {
    if !ShopFieldsPresent(body) {
      return Err(400, AllFieldsRequired);
    }
    var cols := ShopColumnsOf(body, casts);
    if outage || cols.None? {
      return Err(500, InternalError);
    }
    var c := cols.value;
    var r := db.InsertShop(c.shop_name, c.email, c.password_hash, c.city, now);
    if r.Failed? {
      return Err(500, InternalError);
    }
    reply := Ok(201, r.value);
  }

  /** GET /api/shops/:id: always 200 with the matching row or nothing; an id
      that is not an integer makes the query fail. */
  method GetShop(db: Tables, id: string, casts: Casts, outage: bool) returns (reply: Reply<Option<ShopRow>>)
    requires db.Valid()
    ensures reply.status != 404
    ensures reply.Err? <==> outage || casts.integer(Str(id)).None?
    ensures reply.Err? ==> reply == Err(500, InternalError)
    ensures reply.Ok? ==>
              && reply.status == 200
              && var n := casts.integer(Str(id)).value;
              && (reply.data.Some? <==> n in db.shops)
              && (reply.data.Some? ==> reply.data.value == db.shops[n] && reply.data.value.id == n)
  {
    var key := casts.integer(Str(id));
    if outage || key.None? {
      return Err(500, InternalError);
    }
    var n := key.value;
    reply := Ok(200, if n in db.shops then Some(db.shops[n]) else None);
  }

  /** PUT /api/shops/:id: the 400 check comes first; then the statement
      either finds no row (404), collides with another shop's email (409),
      fails otherwise (500) or replaces the four columns and `updated_at`. */
  method UpdateShop(db: Tables, id: string, body: Object, casts: Casts, now: int, outage: bool)
    returns (reply: Reply<ShopRow>)
    requires db.Valid()
    modifies db
    ensures db.Valid()
    ensures db.discounts == old(db.discounts)
    ensures !ShopFieldsPresent(body) ==> reply == Err(400, UpdateFieldsRequired)
    ensures reply.Err? ==> db.shops == old(db.shops)
    ensures reply.status == 404 <==>
              && ShopFieldsPresent(body) && !outage
              && casts.integer(Str(id)).Some? && ShopColumnsOf(body, casts).Some?
              && casts.integer(Str(id)).value !in old(db.shops)
    ensures reply.status == 404 ==> reply == Err(404, ShopIdNotFound(id))
    ensures reply.status == 409 <==>
              && ShopFieldsPresent(body) && !outage
              && casts.integer(Str(id)).Some? && ShopColumnsOf(body, casts).Some?
              && casts.integer(Str(id)).value in old(db.shops)
              && ColumnsFit(ShopColumnsOf(body, casts).value)
              && EmailHeldByOther(old(db.shops), ShopColumnsOf(body, casts).value.email, casts.integer(Str(id)).value)
    ensures reply.status == 409 ==> reply == Err(409, EmailExists)
    ensures reply.Ok? ==>
              && reply.status == 200
              && casts.integer(Str(id)).Some? && ShopColumnsOf(body, casts).Some?
              && var n := casts.integer(Str(id)).value;
              && var c := ShopColumnsOf(body, casts).value;
              && n in old(db.shops)
              && reply.data == ShopRow(n, c.shop_name, c.email, c.password_hash, c.city, old(db.shops)[n].created_at, now)
              && db.shops == old(db.shops)[n := reply.data]
    ensures reply.status in {200, 400, 404, 409, 500}
  {
    if !ShopFieldsPresent(body) {
      return Err(400, UpdateFieldsRequired);
    }
    var key := casts.integer(Str(id));
    var cols := ShopColumnsOf(body, casts);
    if outage || key.None? || cols.None? {
      return Err(500, InternalError);
    }
    var c := cols.value;
    var r := db.UpdateShopRow(key.value, c.shop_name, c.email, c.password_hash, c.city, now);
    match r
    case Done(None) =>
      reply := Err(404, ShopIdNotFound(id));
    case Done(Some(row)) =>
      reply := Ok(200, row);
    case Failed(UniqueViolation) =>
      reply := Err(409, EmailExists);
    case Failed(_) =>
      reply := Err(500, InternalError);
  }

  /** DELETE /api/shops/:id: 404 when absent; otherwise the row is removed
      and returned, and the shop's discounts go with it. */
  method DeleteShop(db: Tables, id: string, casts: Casts, outage: bool) returns (reply: Reply<ShopRow>)
    requires db.Valid()
    modifies db
    ensures db.Valid()
    ensures reply.Err? ==> db.shops == old(db.shops) && db.discounts == old(db.discounts)
    ensures reply.Err? && reply.status != 404 ==> reply == Err(500, InternalError)
    ensures reply.status == 404 <==>
              !outage && casts.integer(Str(id)).Some? && casts.integer(Str(id)).value !in old(db.shops)
    ensures reply.status == 404 ==> reply == Err(404, ShopNotFound)
    ensures reply.Ok? ==>
              && reply.status == 200 && casts.integer(Str(id)).Some?
              && var n := casts.integer(Str(id)).value;
              && n in old(db.shops) && reply.data == old(db.shops)[n]
              && db.shops == old(db.shops) - {n}
              && db.discounts == CascadeDelete(old(db.discounts), n)
  {
    var key := casts.integer(Str(id));
    if outage || key.None? {
      return Err(500, InternalError);
    }
    var r := db.DeleteShopRow(key.value);
    if r.None? {
      return Err(404, ShopNotFound);
    }
    reply := Ok(200, r.value);
  }
}
