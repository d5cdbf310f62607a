/** The two tables `initDB` creates, held in memory, with the constraints of
    their DDL as the invariant `Valid()`: SERIAL primary keys, NOT NULL
    columns, VARCHAR limits, the unique email, the percentage CHECK and the
    cascading foreign key from discounts to shops. Each method is the effect
    of one SQL statement the controllers issue, including the error the
    database reports when a constraint rejects it. */
module Schema {
  import opened Json

  const ShopNameMax: nat := 100
  const EmailMax: nat := 100
  const PasswordHashMax: nat := 255
  const CityMax: nat := 50
  const TitleMax: nat := 100
  const CategoryMax: nat := 50

  /** A row of `shops`; timestamps are instants, dates are day numbers. */
  datatype ShopRow = ShopRow(
    id: int,
    shop_name: string,
    email: string,
    password_hash: string,
    city: string,
    created_at: int,
    updated_at: int)

  /** A row of `discounts`. */
  datatype DiscountRow = DiscountRow(
    id: int,
    shop_id: int,
    title: string,
    discount_percentage: real,
    category: string,
    start_date: int,
    end_date: int,
    created_at: int,
    updated_at: int)

  /** The SQLSTATE class of a failed statement. */
  datatype DbError =
    | UniqueViolation      // 23505
    | ForeignKeyViolation  // 23503
    | CheckViolation       // 23514
    | StringTooLong        // 22001
    | InvalidText          // 22P02, a parameter that does not convert to its column type
    | Unavailable          // the connection or the service failed

  datatype Result<T> = Done(value: T) | Failed(error: DbError)

  /** How the database converts a bound request value to a column type:
      `None` when the text does not convert (SQLSTATE 22P02). `numeric`
      yields the value as NUMERIC(5,2) stores it. */
  datatype Casts = Casts(
    text: Json -> Option<string>,
    integer: Json -> Option<int>,
    numeric: Json -> Option<real>,
    date: Json -> Option<int>)

  /** The VARCHAR limits of `shops`. */
  predicate ShopFits(shop_name: string, email: string, password_hash: string, city: string)
  {
    |shop_name| <= ShopNameMax && |email| <= EmailMax
    && |password_hash| <= PasswordHashMax && |city| <= CityMax
  }

  /** The VARCHAR limits of `discounts`. */
  predicate DiscountFits(title: string, category: string)
  {
    |title| <= TitleMax && |category| <= CategoryMax
  }

  /** CHECK (discount_percentage >= 0 AND discount_percentage <= 100). */
  predicate PercentageInRange(p: real)
  {
    0.0 <= p <= 100.0
  }

  /** Some row other than `id` already holds `email`. */
  predicate EmailHeldByOther(shops: map<int, ShopRow>, email: string, id: int)
  {
    exists k :: k in shops && k != id && shops[k].email == email
  }

  ghost predicate EmailsUnique(shops: map<int, ShopRow>)
  {
    forall a, b :: a in shops && b in shops && shops[a].email == shops[b].email ==> a == b
  }

  ghost predicate ShopsValid(shops: map<int, ShopRow>, serial: int)
  {
    && (forall k :: k in shops ==>
          shops[k].id == k && k < serial
          && ShopFits(shops[k].shop_name, shops[k].email, shops[k].password_hash, shops[k].city))
    && EmailsUnique(shops)
  }

  ghost predicate DiscountsValid(discounts: map<int, DiscountRow>, shops: map<int, ShopRow>, serial: int)
  {
    forall k :: k in discounts ==>
      && discounts[k].id == k && k < serial
      && DiscountFits(discounts[k].title, discounts[k].category)
      && PercentageInRange(discounts[k].discount_percentage)
      && discounts[k].shop_id in shops
  }

  /** The discounts left after `DELETE FROM shops WHERE id = id` cascades. */
  function CascadeDelete(discounts: map<int, DiscountRow>, id: int): (r: map<int, DiscountRow>)
    ensures forall k :: k in r <==> k in discounts && discounts[k].shop_id != id
    ensures forall k :: k in r ==> r[k] == discounts[k]
  {
    map k | k in discounts && discounts[k].shop_id != id :: discounts[k]
  }

  class Tables {
    var shops: map<int, ShopRow>
    var discounts: map<int, DiscountRow>
    /** The next value of each table's SERIAL sequence. */
    var shopSerial: int
    var discountSerial: int

    ghost predicate Valid()
      reads this
    {
      ShopsValid(shops, shopSerial) && DiscountsValid(discounts, shops, discountSerial)
    }

    /** Both tables freshly created and empty. */
    constructor ()
      ensures Valid()
      ensures shops == map[] && discounts == map[]
    {
      shops, discounts := map[], map[];
      shopSerial, discountSerial := 1, 1;
    }

    /** INSERT INTO shops ... RETURNING *. The sequence advances even when
        the insert is rejected. */
    method InsertShop(shop_name: string, email: string, password_hash: string, city: string, now: int)
      returns (r: Result<ShopRow>)
      requires Valid()
      modifies this
      ensures Valid()
      ensures shopSerial == old(shopSerial) + 1 && discountSerial == old(discountSerial)
      ensures discounts == old(discounts)
      ensures !ShopFits(shop_name, email, password_hash, city) ==>
                r == Failed(StringTooLong) && shops == old(shops)
      ensures ShopFits(shop_name, email, password_hash, city) && EmailHeldByOther(old(shops), email, old(shopSerial)) ==>
                r == Failed(UniqueViolation) && shops == old(shops)
      ensures ShopFits(shop_name, email, password_hash, city) && !EmailHeldByOther(old(shops), email, old(shopSerial)) ==>
                && r == Done(ShopRow(old(shopSerial), shop_name, email, password_hash, city, now, now))
                && old(shopSerial) !in old(shops)
                && shops == old(shops)[old(shopSerial) := r.value]
    {
      var id := shopSerial;
      shopSerial := shopSerial + 1;
      if !ShopFits(shop_name, email, password_hash, city) {
        return Failed(StringTooLong);
      }
      if EmailHeldByOther(shops, email, id) {
        return Failed(UniqueViolation);
      }
      var row := ShopRow(id, shop_name, email, password_hash, city, now, now);
      shops := shops[id := row];
      r := Done(row);
    }

    /** UPDATE shops SET the four columns, updated_at = now WHERE id = id
        RETURNING *: no row when the id is absent. */
    method UpdateShopRow(id: int, shop_name: string, email: string, password_hash: string, city: string, now: int)
      returns (r: Result<Option<ShopRow>>)
      requires Valid()
      modifies this
      ensures Valid()
      ensures discounts == old(discounts) && shopSerial == old(shopSerial) && discountSerial == old(discountSerial)
      ensures id !in old(shops) ==> r == Done(None) && shops == old(shops)
      ensures id in old(shops) && !ShopFits(shop_name, email, password_hash, city) ==>
                r == Failed(StringTooLong) && shops == old(shops)
      ensures id in old(shops) && ShopFits(shop_name, email, password_hash, city) && EmailHeldByOther(old(shops), email, id) ==>
                r == Failed(UniqueViolation) && shops == old(shops)
      ensures id in old(shops) && ShopFits(shop_name, email, password_hash, city) && !EmailHeldByOther(old(shops), email, id) ==>
                && r == Done(Some(ShopRow(id, shop_name, email, password_hash, city, old(shops)[id].created_at, now)))
                && shops == old(shops)[id := r.value.value]
    {
      if id !in shops {
        return Done(None);
      }
      if !ShopFits(shop_name, email, password_hash, city) {
        return Failed(StringTooLong);
      }
      if EmailHeldByOther(shops, email, id) {
        return Failed(UniqueViolation);
      }
      var row := ShopRow(id, shop_name, email, password_hash, city, shops[id].created_at, now);
      shops := shops[id := row];
      r := Done(Some(row));
    }

    /** DELETE FROM shops WHERE id = id RETURNING *, with ON DELETE CASCADE. */
    method DeleteShopRow(id: int) returns (r: Option<ShopRow>)
      requires Valid()
      modifies this
      ensures Valid()
      ensures shopSerial == old(shopSerial) && discountSerial == old(discountSerial)
      ensures id !in old(shops) ==> r == None && shops == old(shops) && discounts == old(discounts)
      ensures id in old(shops) ==>
                && r == Some(old(shops)[id])
                && shops == old(shops) - {id}
                && discounts == CascadeDelete(old(discounts), id)
    {
      if id !in shops {
        return None;
      }
      r := Some(shops[id]);
      shops := shops - {id};
      discounts := CascadeDelete(discounts, id);
    }

    /** INSERT INTO discounts ... RETURNING *. Column limits are checked
        first, then the CHECK constraint, then the foreign key. */
    method InsertDiscount(shop_id: int, title: string, percentage: real, category: string,
                          start_date: int, end_date: int, now: int)
      returns (r: Result<DiscountRow>)
      requires Valid()
      modifies this
      ensures Valid()
      ensures shops == old(shops) && shopSerial == old(shopSerial)
      ensures discountSerial == old(discountSerial) + 1
      ensures r.Failed? ==> discounts == old(discounts)
      ensures !DiscountFits(title, category) ==> r == Failed(StringTooLong)
      ensures DiscountFits(title, category) && !PercentageInRange(percentage) ==> r == Failed(CheckViolation)
      ensures DiscountFits(title, category) && PercentageInRange(percentage) && shop_id !in shops ==>
                r == Failed(ForeignKeyViolation)
      ensures DiscountFits(title, category) && PercentageInRange(percentage) && shop_id in shops ==>
                && r == Done(DiscountRow(old(discountSerial), shop_id, title, percentage, category, start_date, end_date, now, now))
                && old(discountSerial) !in old(discounts)
                && discounts == old(discounts)[old(discountSerial) := r.value]
    {
      var id := discountSerial;
      discountSerial := discountSerial + 1;
      if !DiscountFits(title, category) {
        return Failed(StringTooLong);
      }
      if !PercentageInRange(percentage) {
        return Failed(CheckViolation);
      }
      if shop_id !in shops {
        return Failed(ForeignKeyViolation);
      }
      var row := DiscountRow(id, shop_id, title, percentage, category, start_date, end_date, now, now);
      discounts := discounts[id := row];
      r := Done(row);
    }
  }

  /** A unique email is held by at most one row, so `WHERE email = e`
      selects at most one shop. */
  lemma AtMostOneShopPerEmail(shops: map<int, ShopRow>, serial: int, a: int, b: int)
    requires ShopsValid(shops, serial)
    requires a in shops && b in shops && shops[a].email == shops[b].email
    ensures a == b
  {
  }
}
