/** The auth handlers: `login` looks the shop up by email, compares the
    password with the stored hash (bcrypt's `compare`, a parameter here),
    signs a seven-day token and sets it as a cookie; `logout` clears the
    cookie; `checkAuth` reports the identity the token middleware attached. */
module AuthController {
  import opened Json
  import opened Schema
  import opened Tokens
  import opened Http

  const InternalError := "Internal Server Error"
  const InvalidCredentials := "Invalid email or password"
  const LoggedOut := "Logged out successfully"
  const NotAuthenticated := "Not authenticated"
  const TokenCookie := "token"

  /** `maxAge: 7 * 24 * 60 * 60 * 1000`, in milliseconds. */
  const CookieMaxAge: int := 7 * 24 * 60 * 60 * 1000

  /** The options of the login cookie; `secure` follows
      `NODE_ENV === "production"`. */
  function LoginCookieOptions(production: bool): (o: CookieOptions)
    ensures o.httpOnly && o.sameSite == "lax" && o.secure == production
    ensures o.maxAge == 604800000
  {
    CookieOptions(true, production, "lax", CookieMaxAge)
  }

  /** The cookie outlives neither more nor less than the token it carries. */
  lemma CookieMatchesTokenLifetime(production: bool)
    ensures LoginCookieOptions(production).maxAge == SevenDays * 1000
  {
  }

  /** What the login attempt comes to once the database and bcrypt have
      answered. */
  datatype LoginOutcome = Rejected | Crashed | Accepted(shop: ShopRow)

  /** Some shop holds the email. */
  predicate EmailKnown(shops: map<int, ShopRow>, email: string)
  {
    exists k | k in shops :: shops[k].email == email
  }

  /** `SELECT * FROM shops WHERE email = e`, then `result[0]`: the unique
      email makes the row unique. */
  function ShopByEmail(shops: map<int, ShopRow>, email: string): (r: ShopRow)
    requires EmailsUnique(shops) && EmailKnown(shops, email)
    ensures r in shops.Values && r.email == email
  {
    var k :| k in shops && shops[k].email == email;
    shops[k]
  }

  /** The password is a string bcrypt accepts: an undefined or non-string
      password makes `compare` throw. */
  predicate PasswordIsText(body: Object)
  {
    Get(body, "password").Some? && body["password"].Str?
  }

  /** The login decision. An undefined email is bound as NULL, like a null
      one, and NULL matches no row. */
  function LoginDecision(shops: map<int, ShopRow>, body: Object, casts: Casts,
                         compare: (string, string) -> bool): (r: LoginOutcome)
    requires EmailsUnique(shops)
    ensures r.Accepted? <==>
              && Get(body, "email").Some? && body["email"] != Null
              && casts.text(body["email"]).Some? && EmailKnown(shops, casts.text(body["email"]).value)
              && PasswordIsText(body)
              && compare(body["password"].s, ShopByEmail(shops, casts.text(body["email"]).value).password_hash)
    ensures r.Accepted? ==>
              r.shop in shops.Values && Some(r.shop.email) == casts.text(body["email"])
              && compare(body["password"].s, r.shop.password_hash)
    ensures r == Rejected <==>
              || Get(body, "email").None?
              || (|| body["email"] == Null
                  || (&& casts.text(body["email"]).Some?
                      && (|| !EmailKnown(shops, casts.text(body["email"]).value)
                          || (PasswordIsText(body)
                              && !compare(body["password"].s,
                                          ShopByEmail(shops, casts.text(body["email"]).value).password_hash)))))
  {
    var email := Get(body, "email");
    if email.None? || email.value == Null then Rejected
    else
      var e := casts.text(email.value);
      if e.None? then Crashed
      else if !EmailKnown(shops, e.value) then Rejected
      else
        var shop := ShopByEmail(shops, e.value);
        if !PasswordIsText(body) then Crashed
        else if !compare(body["password"].s, shop.password_hash) then Rejected
        else Accepted(shop)
  }

  /** A missing, null or unknown email and a wrong password for a known one
      are all `Rejected`, so they get the same reply. */
  lemma UnknownEmailLikeWrongPassword(shops: map<int, ShopRow>, b1: Object, b2: Object, casts: Casts,
                                      compare: (string, string) -> bool)
    requires EmailsUnique(shops)
    requires || "email" !in b1 || b1["email"] == Null
             || (casts.text(b1["email"]).Some? && !EmailKnown(shops, casts.text(b1["email"]).value))
    requires "email" in b2 && b2["email"] != Null && casts.text(b2["email"]).Some?
    requires EmailKnown(shops, casts.text(b2["email"]).value) && PasswordIsText(b2)
    requires !compare(b2["password"].s, ShopByEmail(shops, casts.text(b2["email"]).value).password_hash)
    ensures LoginDecision(shops, b1, casts, compare) == LoginDecision(shops, b2, casts, compare) == Rejected
  {
  }

  /** The login response data `{ id, shop_name, email }`. */
  function ShopSummary(shop: ShopRow): (j: Json)
    ensures j.Obj? && j.fields.Keys == {"id", "shop_name", "email"}
    ensures "password_hash" !in j.fields
  {
    Obj(map["id" := Num(shop.id as real), "shop_name" := Str(shop.shop_name), "email" := Str(shop.email)])
  }

  /** The claims the login token carries. */
  function LoginClaims(shop: ShopRow): (c: Claims)
    ensures c.shop_id == shop.id && c.shop_name == shop.shop_name
  {
    Claims(shop.id, shop.shop_name)
  }

  /** POST /api/auth/login. `outage` is a query that throws; `now` is the
      signing time in seconds. Only an accepted login sets a cookie. */
  method Login(db: Tables, body: Object, casts: Casts, compare: (string, string) -> bool,
               secret: string, now: int, production: bool, outage: bool, res: Response)
    requires db.Valid()
    modifies res
    ensures res.headers == old(res.headers)
    ensures var d := LoginDecision(db.shops, body, casts, compare);
            && (outage || d == Crashed ==>
                  res.status == 500 && res.body == Some(MessageBody(false, InternalError)) && res.cookies == old(res.cookies))
            && (!outage && d == Rejected ==>
                  res.status == 401 && res.body == Some(MessageBody(false, InvalidCredentials)) && res.cookies == old(res.cookies))
            && (!outage && d.Accepted? ==>
                  && res.status == 200 && res.body == Some(DataBody(ShopSummary(d.shop)))
                  && res.cookies == old(res.cookies) +
                       [SetCookie(TokenCookie, Sign(LoginClaims(d.shop), secret, now), LoginCookieOptions(production))])
  {
    var d := LoginDecision(db.shops, body, casts, compare);
    if outage || d == Crashed {
      res.Send(500, MessageBody(false, InternalError));
      return;
    }
    if d == Rejected {
      res.Send(401, MessageBody(false, InvalidCredentials));
      return;
    }
    var token := Sign(LoginClaims(d.shop), secret, now);
    res.Cookie(TokenCookie, token, LoginCookieOptions(production));
    res.Send(200, DataBody(ShopSummary(d.shop)));
  }

  /** POST /api/auth/logout: always succeeds and clears the cookie. */
  method Logout(res: Response)
    modifies res
    ensures res.status == 200 && res.body == Some(MessageBody(true, LoggedOut))
    ensures res.cookies == old(res.cookies) + [Cleared(TokenCookie)]
    ensures res.headers == old(res.headers)
  {
    res.ClearCookie(TokenCookie);
    res.Send(200, MessageBody(true, LoggedOut));
  }

  /** GET /api/auth/check-auth: the attached identity, or 401. */
  method CheckAuth(req: Request, res: Response)
    modifies res
    ensures req.shop.Some? ==> res.status == 200 && res.body == Some(DataBody(PrincipalJson(req.shop.value)))
    ensures req.shop.None? ==> res.status == 401 && res.body == Some(MessageBody(false, NotAuthenticated))
    ensures res.cookies == old(res.cookies) && res.headers == old(res.headers)
  {
    if req.shop.Some? {
      res.Send(200, DataBody(PrincipalJson(req.shop.value)));
    } else {
      res.Send(401, MessageBody(false, NotAuthenticated));
    }
  }
}
