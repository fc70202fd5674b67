/**
 * The part of an Express response the backend handlers use: the status,
 * the JSON document sent, and the cookies set.
 */
module Http {
  import opened Wrappers
  import opened JsValues
  import opened Users

  /** The JSON documents the auth handlers and the middleware send. */
  datatype Body =
    | Note(message: string)                // `{ message }`
    | Account(user: PublicUser)            // `{ _id, fullName, email, profilePic }`
    | Document(doc: Option<UserDoc>)       // a stored document, or `null`
    | CurrentUser(current: Option<PublicUser>) // `req.user`

  datatype Cookie = Cookie(value: string, maxAge: int)

  const Success := 200
  const Created := 201
  const BadRequest := 400
  const Unauthorized := 401
  const InternalServerError := 500

  const InternalErrorText := "Internal Server Error"

  /** The name of the cookie that carries the session token. */
  const TokenCookie := "jwt"

  /** The message every `catch` block answers with, under status 500. */
  function ErrorMessage(t: Thrown): string
  {
    match t
    case ErrorObject(message) => message
    case NonError(_) => InternalErrorText
  }

  class Response {
    var statusCode: int
    /** The JSON document sent, `None` while nothing has been sent. */
    var body: Option<Body>
    var cookies: map<string, Cookie>

    constructor ()
      ensures statusCode == Success && body == None && cookies == map[]
    {
      statusCode := Success;
      body := None;
      cookies := map[];
    }

    /** `res.status(status).json(b)`. */
    method Send(status: int, b: Body)
      modifies this
      ensures statusCode == status && body == Some(b) && cookies == old(cookies)
    {
      statusCode := status;
      body := Some(b);
    }

    /** `res.cookie(name, value, { maxAge })`. */
    method SetCookie(name: string, c: Cookie)
      modifies this`cookies
      ensures cookies == old(cookies)[name := c]
    {
      cookies := cookies[name := c];
    }
  }
}
