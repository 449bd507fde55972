/**
 * What every API binding shares: the base URLs, request records, the `Authorization` header
 * rule of `prepareHeaders`, and the shape of the errors a failed call reports.
 */
module Http {
  import opened Wrappers
  import opened Models

  const ApiBase := "http://127.0.0.1:8000/api/v1/"
  const AdminApiBase := "http://127.0.0.1:8000/api/v1/admin/"

  datatype Method = GET | POST | PATCH | DELETE

  /** A request as the base query sends it: the base URL joined with the endpoint path. */
  datatype Request = Request(url: string, httpMethod: Method, body: Option<Record>)

  type Headers = map<string, string>

  /** JavaScript truthiness of a possibly-null string. */
  predicate TruthyString(s: Option<string>) {
    s.Some? && s.value != ""
  }

  const AuthScheme := "Token "

  /**
   * `prepareHeaders`: with a truthy session token the `Authorization` header is set to
   * `Token <token>`; otherwise the headers come back unchanged.
   */
  function PrepareHeaders(headers: Headers, token: Option<string>): (r: Headers)
    ensures TruthyString(token) ==> "Authorization" in r && r["Authorization"] == AuthScheme + token.value
    ensures forall k :: k in headers && k != "Authorization" ==> k in r && r[k] == headers[k]
    ensures forall k :: k in r && k != "Authorization" ==> k in headers
    ensures !TruthyString(token) ==> r == headers
  {
    if TruthyString(token) then headers["Authorization" := AuthScheme + token.value] else headers
  }

  /** The token a `Token <t>` header carries, as the server reads it. */
  function TokenOfHeader(h: string): Option<string> {
    if |h| >= |AuthScheme| && h[..|AuthScheme|] == AuthScheme then Some(h[|AuthScheme|..]) else None
  }

  /** The header the client attaches carries exactly the session token. */
  lemma HeaderCarriesToken(headers: Headers, t: string)
    requires t != ""
    ensures TokenOfHeader(PrepareHeaders(headers, Some(t))["Authorization"]) == Some(t)
  {
    var h := AuthScheme + t;
    assert h[..|AuthScheme|] == AuthScheme;
    assert h[|AuthScheme|..] == t;
  }

  // ---------------------------------------------------------------------------------------------
  // Errors of a failed call: an HTTP status with the server's JSON body, or a transport error text.

  datatype ErrorData = ErrorData(detail: Option<string>, nonFieldErrors: Option<seq<string>>)

  datatype ApiError = ApiError(status: Option<int>, data: Option<ErrorData>, error: Option<string>)

  /** `error?.data?.detail`. */
  function Detail(e: ApiError): Option<string> {
    if e.data.Some? then e.data.value.detail else None
  }

  /** `error?.data?.non_field_errors?.[0]`. */
  function FirstNonFieldError(e: ApiError): Option<string> {
    if e.data.Some? && e.data.value.nonFieldErrors.Some? && |e.data.value.nonFieldErrors.value| > 0
    then Some(e.data.value.nonFieldErrors.value[0])
    else None
  }

  /** `error.data?.detail || fallback`: the server's detail text when it is truthy. */
  function DetailOr(e: ApiError, fallback: string): (m: string)
    ensures TruthyString(Detail(e)) ==> m == Detail(e).value
    ensures !TruthyString(Detail(e)) ==> m == fallback
  {
    if TruthyString(Detail(e)) then Detail(e).value else fallback
  }

  /**
   * `a || b || … || fallback` over optional texts: the first truthy candidate, else the fallback.
   */
  function FirstTruthy(candidates: seq<Option<string>>, fallback: string): (m: string)
    ensures forall i :: 0 <= i < |candidates| && TruthyString(candidates[i]) &&
                        (forall j :: 0 <= j < i ==> !TruthyString(candidates[j]))
                        ==> m == candidates[i].value
    ensures (forall i :: 0 <= i < |candidates| ==> !TruthyString(candidates[i])) ==> m == fallback
  {
    if candidates == [] then fallback
    else if TruthyString(candidates[0]) then candidates[0].value
    else FirstTruthy(candidates[1..], fallback)
  }

  /** `error ? error.data?.detail || error.error : null`: the alert text of a call, if it failed. */
  function DetailOrError(e: Option<ApiError>): (m: Option<string>)
    ensures e.None? ==> m.None?
    ensures e.Some? && TruthyString(Detail(e.value)) ==> m == Detail(e.value)
    ensures e.Some? && !TruthyString(Detail(e.value)) ==> m == e.value.error
  {
    if e.None? then None
    else if TruthyString(Detail(e.value)) then Detail(e.value)
    else e.value.error
  }
}
