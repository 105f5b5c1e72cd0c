/** The request record the parser fills in. */
module HttpRequests {

  datatype Method = INVALID | GET | POST | HEAD | PUT | DELETE

  datatype Version = UNKNOWN | HTTP10 | HTTP11

  /** `headers` is the `std::map`: `addHeader` on a present key replaces its value. */
  datatype Request = Request(
    verb: Method,
    path: string,
    version: Version,
    headers: map<string, string>,
    body: string)

  const EMPTY_REQUEST: Request := Request(INVALID, "", UNKNOWN, map[], "")

  function StringToMethod(s: string): Method {
    if s == "GET" then GET
    else if s == "POST" then POST
    else if s == "HEAD" then HEAD
    else if s == "PUT" then PUT
    else if s == "DELETE" then DELETE
    else INVALID
  }

  function MethodName(m: Method): (s: string)
    requires m != INVALID
    ensures StringToMethod(s) == m
    ensures ' ' !in s && '\r' !in s
  {
    match m
    case GET => "GET"
    case POST => "POST"
    case HEAD => "HEAD"
    case PUT => "PUT"
    case DELETE => "DELETE"
  }

  lemma MethodNamed(s: string)
    requires StringToMethod(s) != INVALID
    ensures s == MethodName(StringToMethod(s))
  {
  }
}
