/** The two cookie policies in front of the routes: `verifyToken` refuses a
    request without a valid token, `verifyTokenOptional` lets every request
    through and attaches the identity only when the token verifies. */
module VerifyToken {
  import opened Json
  import opened Schema
  import opened Tokens
  import opened Http
  import AuthController

  const Unauthorized := "Unauthorized"
  const VerificationFailed := "Token verification failed"

  /** `{ id: decoded.shop_id, shop_name: decoded.shop_name }`. */
  function PrincipalOf(c: Claims): (p: Principal)
    ensures p.id == c.shop_id && p.shop_name == c.shop_name
  {
    Principal(c.shop_id, c.shop_name)
  }

  /** `!token` is false: a cookie is there and is not the empty string. */
  predicate HasToken(req: Request)
    reads req
  {
    req.token.Some? && TokenTruthy(req.token.value)
  }

  /** The required policy. */
  method Required(req: Request, res: Response, next: Next, secret: string, now: int)
    modifies req, res, next
    ensures req.token == old(req.token)
    ensures res.cookies == old(res.cookies) && res.headers == old(res.headers)
    ensures !HasToken(req) ==>
              && res.status == 401 && res.body == Some(MessageBody(false, Unauthorized))
              && next.calls == old(next.calls) && req.shop == old(req.shop)
    ensures HasToken(req) && Verify(req.token.value, secret, now).None? ==>
              && res.status == 401 && res.body == Some(MessageBody(false, VerificationFailed))
              && next.calls == old(next.calls) && req.shop == old(req.shop)
    ensures HasToken(req) && Verify(req.token.value, secret, now).Some? ==>
              && req.shop == Some(PrincipalOf(Verify(req.token.value, secret, now).value))
              && next.calls == old(next.calls) + [Proceed]
              && res.status == old(res.status) && res.body == old(res.body)
  {
    if !HasToken(req) {
      res.Send(401, MessageBody(false, Unauthorized));
      return;
    }
    var decoded := Verify(req.token.value, secret, now);
    if decoded.None? {
      res.Send(401, MessageBody(false, VerificationFailed));
      return;
    }
    req.shop := Some(PrincipalOf(decoded.value));
    next.Call();
  }

  /** The optional policy. */
  method Optional(req: Request, res: Response, next: Next, secret: string, now: int)
    modifies req, next
    ensures req.token == old(req.token)
    ensures next.calls == old(next.calls) + [Proceed]
    ensures HasToken(req) && Verify(req.token.value, secret, now).Some? ==>
              req.shop == Some(PrincipalOf(Verify(req.token.value, secret, now).value))
    ensures !(HasToken(req) && Verify(req.token.value, secret, now).Some?) ==> req.shop == old(req.shop)
  {
    if HasToken(req) {
      var decoded := Verify(req.token.value, secret, now);
      if decoded.Some? {
        req.shop := Some(PrincipalOf(decoded.value));
      }
    }
    next.Call();
  }

  /** Round trip: within seven days, the token `login` put in the cookie
      makes the required policy attach the same shop's id and name. */
  lemma LoginTokenIdentifiesShop(shop: ShopRow, secret: string, issued: int, now: int)
    requires issued <= now < issued + SevenDays
    ensures var t := Sign(AuthController.LoginClaims(shop), secret, issued);
            && TokenTruthy(t)
            && Verify(t, secret, now).Some?
            && PrincipalOf(Verify(t, secret, now).value) == Principal(shop.id, shop.shop_name)
  {
    SignThenVerify(AuthController.LoginClaims(shop), secret, issued, now);
  }

  /** From the seventh day on, that same cookie is refused. */
  lemma LoginTokenLapses(shop: ShopRow, secret: string, issued: int, now: int)
    requires now >= issued + SevenDays
    ensures Verify(Sign(AuthController.LoginClaims(shop), secret, issued), secret, now).None?
  {
    SignedTokenExpires(AuthController.LoginClaims(shop), secret, issued, now);
  }
}
