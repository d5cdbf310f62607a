/** The Express request/response objects the middleware and the auth
    handlers write to, and the reply value a resource handler sends. */
module Http {
  import opened Json
  import opened Tokens

  /** What `res.status(s).json(...)` sends from a resource handler:
      `{ success: true, data }` or `{ success: false, message }`. */
  datatype Reply<T> = Ok(status: int, data: T) | Err(status: int, message: string)

  /** The identity `verifyToken` attaches as `req.shop`. */
  datatype Principal = Principal(id: int, shop_name: string)

  datatype CookieOptions = CookieOptions(httpOnly: bool, secure: bool, sameSite: string, maxAge: int)

  /** A `Set-Cookie` instruction: `res.cookie` or `res.clearCookie`. */
  datatype CookieOp =
    | SetCookie(name: string, value: Token, options: CookieOptions)
    | Cleared(name: string)

  /** An argument of `next`: `next()` or `next(err)`. */
  datatype NextArg = Proceed | Forward(error: string)

  /** `{ success, message }`. */
  function MessageBody(success: bool, message: string): Json
  {
    Obj(map["success" := Bool(success), "message" := Str(message)])
  }

  /** `{ success: true, data }`. */
  function DataBody(data: Json): Json
  {
    Obj(map["success" := Bool(true), "data" := data])
  }

  /** `{ error }`, the shape of the protection middleware's refusals. */
  function ErrorBody(error: string): Json
  {
    Obj(map["error" := Str(error)])
  }

  /** `req.shop` as JSON: `{ id, shop_name }`. */
  function PrincipalJson(p: Principal): Json
  {
    Obj(map["id" := Num(p.id as real), "shop_name" := Str(p.shop_name)])
  }

  class Request {
    /** `req.cookies.token`. */
    var token: Option<Token>
    /** `req.shop`. */
    var shop: Option<Principal>

    constructor (token: Option<Token>)
      ensures this.token == token && shop == None
    {
      this.token := token;
      shop := None;
    }
  }

  class Response {
    var status: int
    /** The JSON body once one has been sent. */
    var body: Option<Json>
    var headers: map<string, string>
    var cookies: seq<CookieOp>

    constructor ()
      ensures status == 200 && body == None && headers == map[] && cookies == []
    {
      status, body, headers, cookies := 200, None, map[], [];
    }

    /** `res.status(code).json(json)`. */
    method Send(code: int, json: Json)
      modifies this
      ensures status == code && body == Some(json)
      ensures headers == old(headers) && cookies == old(cookies)
    {
      status, body := code, Some(json);
    }

    /** `res.setHeader(name, value)`. */
    method SetHeader(name: string, value: string)
      modifies this
      ensures headers == old(headers)[name := value]
      ensures status == old(status) && body == old(body) && cookies == old(cookies)
    {
      headers := headers[name := value];
    }

    /** `res.cookie(name, value, options)`. */
    method Cookie(name: string, value: Token, options: CookieOptions)
      modifies this
      ensures cookies == old(cookies) + [SetCookie(name, value, options)]
      ensures status == old(status) && body == old(body) && headers == old(headers)
    {
      cookies := cookies + [SetCookie(name, value, options)];
    }

    /** `res.clearCookie(name)`. */
    method ClearCookie(name: string)
      modifies this
      ensures cookies == old(cookies) + [Cleared(name)]
      ensures status == old(status) && body == old(body) && headers == old(headers)
    {
      cookies := cookies + [Cleared(name)];
    }
  }

  /** The `next` callback of a middleware, recording each call. */
  class Next {
    var calls: seq<NextArg>

    constructor ()
      ensures calls == []
    {
      calls := [];
    }

    method Call()
      modifies this
      ensures calls == old(calls) + [Proceed]
    {
      calls := calls + [Proceed];
    }

    method CallWithError(error: string)
      modifies this
      ensures calls == old(calls) + [Forward(error)]
    {
      calls := calls + [Forward(error)];
    }
  }
}
