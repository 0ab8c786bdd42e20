/** Cookies and JSON responses as the route handlers produce them. */
module Http {
  import opened Wrappers
  import opened Tokens
  import opened UserModel
  import opened HospitalModel

  /** A cookie and the options `response.cookies.set` gives it. */
  datatype Cookie = Cookie(value: Text, httpOnly: bool, maxAge: int, path: string, secure: bool)

  /** The client's cookies by name: what responses set and what later requests carry. */
  type CookieJar = map<string, Cookie>

  /** `request.cookies.get(name)?.value`. */
  function RequestCookie(jar: CookieJar, name: string): Option<Text>
  {
    if name in jar then Some(jar[name].value) else None
  }

  /** The JSON bodies the handlers send. `InternalError` is `{ error: error.message }`
      for a caught exception, whose text is not modelled. */
  datatype Body =
    | Message(message: string)
    | Error(error: string)
    | InternalError
    | UserPayload(user: PublicUser)
    | LoginPayload(message: string, user: PublicUser)
    | LogoutPayload(message: string, status: int)
    | HospitalPayload(hospital: Hospital)
    | RegisteredPayload(message: string, data: Hospital)
    | HospitalTable(hospitals: map<HospitalId, Hospital>)

  datatype Response = Response(status: int, body: Body)

  const ServerError := Response(500, InternalError)
}
