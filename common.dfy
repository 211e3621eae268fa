/** Values shared by every part of the quiz client model: optional values,
    the JavaScript values the client inspects for truthiness, HTTP responses
    and the decoded token claims. */
module Common {

  datatype Option<T> = None | Some(value: T)

  /** A JavaScript value as far as the client looks at it. Numbers are whole
      (floating point and NaN are not modelled). */
  datatype JsVal = Undefined | Null | Bool(b: bool) | Num(n: int) | Str(s: string)

  /** JavaScript truthiness: `undefined`, `null`, `false`, `0` and `""` are falsy. */
  predicate Truthy(v: JsVal)
  {
    match v
    case Undefined => false
    case Null => false
    case Bool(b) => b
    case Num(n) => n != 0
    case Str(s) => s != ""
  }

  /** The value of `a || b`. */
  function Or(a: JsVal, b: JsVal): (r: JsVal)
    ensures Truthy(a) ==> r == a
    ensures !Truthy(a) ==> r == b
    ensures Truthy(r) <==> Truthy(a) || Truthy(b)
  {
    if Truthy(a) then a else b
  }

  /** The value of `a || b || c`: the first truthy operand, else the last one. */
  function FirstTruthy(a: JsVal, b: JsVal, c: JsVal): (r: JsVal)
    ensures Truthy(a) ==> r == a
    ensures !Truthy(a) && Truthy(b) ==> r == b
    ensures !Truthy(a) && !Truthy(b) ==> r == c
    ensures Truthy(r) <==> Truthy(a) || Truthy(b) || Truthy(c)
  {
    Or(a, Or(b, c))
  }

  /** An HTTP response: its status code and its decoded JSON body. */
  datatype Response<T> = Response(status: int, body: T)

  /** `response.ok`: a status in the 2xx range. */
  predicate Ok<T>(r: Response<T>)
  {
    200 <= r.status <= 299
  }

  /** The claims of a decoded bearer token. The expiry `exp` is in epoch
      seconds; `None` stands for an absent claim, which never compares as
      expired. */
  datatype Claims = Claims(
    sub: JsVal,
    role: JsVal,
    userRole: JsVal,
    user_role: JsVal,
    faculty: JsVal,
    faculty_id: JsVal,
    exp: Option<int>)

  /** What reading and decoding the stored bearer token gives: no token in
      storage, a token the decoder rejects, or its claims. */
  datatype StoredToken = NoToken | Undecodable | Decoded(claims: Claims)

  /** `decoded.exp < Date.now() / 1000` with the clock read in milliseconds. */
  predicate Expired(c: Claims, nowMs: int)
  {
    c.exp.Some? && c.exp.value * 1000 < nowMs
  }
}
