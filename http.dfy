/** Requests and status handling (src/network/http.rs). Sending a request and reading its
    body are I/O and are not modelled; what is modelled is the request builder's header state
    and the classification of the response status (`check_error`). */
module Http {
  import opened Errors

  /** An HTTP status code as the HTTP library represents it: three digits, 100 to 999. */
  type StatusCode = x: int | 100 <= x < 1000 witness 200

  predicate IsInformational(code: StatusCode) { 100 <= code < 200 }
  predicate IsSuccess(code: StatusCode) { 200 <= code < 300 }
  predicate IsRedirection(code: StatusCode) { 300 <= code < 400 }
  predicate IsClientError(code: StatusCode) { 400 <= code < 500 }
  predicate IsServerError(code: StatusCode) { 500 <= code < 600 }

  /** `check_error`: which response statuses a request turns into an error before the body is
      read. Codes 600 to 999 belong to none of the classes and pass, like 1xx and 2xx. */
  function CheckError(code: StatusCode): (r: Result<()>)
    ensures r == Err(Server) <==> IsServerError(code)
    ensures r == Err(ResourceMissing) <==> code == 404 || IsRedirection(code)
    ensures r == Err(Client) <==> IsClientError(code) && code != 404
    ensures r.Ok? <==> IsInformational(code) || IsSuccess(code) || 600 <= code
  {
    if IsServerError(code) then Err(Server)
    else if code == 404 then Err(ResourceMissing)
    else if IsClientError(code) then Err(Client)
    else if IsRedirection(code) then Err(ResourceMissing)
    else Ok(())
  }

  /** What `Request::body` yields for a request whose transport produced `transport`: a
      transport failure, the status check's error, or the response (here, its status). */
  function Send(transport: Result<StatusCode>): (r: Result<StatusCode>)
    ensures r.Ok? <==> transport.Ok? && CheckError(transport.value).Ok?
    ensures r.Ok? ==> r == transport
    ensures transport.Err? ==> r == transport
  {
    match transport
    case Err(e) => Err(e)
    case Ok(code) => if CheckError(code).Err? then Err(CheckError(code).error) else Ok(code)
  }

  datatype HttpMethod = GET | POST | DELETE

  const AUTHORIZATION: string := "Authorization"
  const TOKEN_SCHEME: string := "Token "

  /** The token carried by an `Authorization` header value, if it has the token scheme. */
  function HeaderToken(value: string): (token: Option<string>)
    ensures token.Some? <==> |TOKEN_SCHEME| <= |value| && value[..|TOKEN_SCHEME|] == TOKEN_SCHEME
    ensures token.Some? ==> TOKEN_SCHEME + token.value == value
  {
    if |TOKEN_SCHEME| <= |value| && value[..|TOKEN_SCHEME|] == TOKEN_SCHEME then
      Some(value[|TOKEN_SCHEME|..])
    else
      None
  }

  /** A request under construction. The source threads the builder by value through each
      call; here the calls update one object. */
  class Request {
    const url: string
    var httpMethod: HttpMethod
    var headers: seq<(string, string)>

    /** `Request::new`: a GET request for `url` carrying the library's version header. The
        version is fixed when the library is built; it is a parameter here. */
    constructor (url: string, version: string)
      ensures this.url == url && httpMethod == GET
      ensures headers == [("iron_planet", version)]
    {
      this.url := url;
      httpMethod := GET;
      headers := [("iron_planet", version)];
    }

    method Header(name: string, value: string)
      modifies this`headers
      ensures headers == old(headers) + [(name, value)]
    {
      headers := headers + [(name, value)];
    }

    /** `attach_token`: adds one `Authorization` header from which the token reads back. */
    method AttachToken(token: string)
      modifies this`headers
      ensures |headers| == |old(headers)| + 1 && headers[..|old(headers)|] == old(headers)
      ensures headers[|headers| - 1].0 == AUTHORIZATION
      ensures HeaderToken(headers[|headers| - 1].1) == Some(token)
    {
      Header(AUTHORIZATION, TOKEN_SCHEME + token);
      assert (TOKEN_SCHEME + token)[..|TOKEN_SCHEME|] == TOKEN_SCHEME;
      assert (TOKEN_SCHEME + token)[|TOKEN_SCHEME|..] == token;
    }

    method SetMethod(m: HttpMethod)
      modifies this`httpMethod
      ensures httpMethod == m
    {
      httpMethod := m;
    }
  }
}
