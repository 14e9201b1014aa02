/**
 * AuthService (Services/AuthService.swift) without its network and futures: the requests it
 * builds, and the decisions its response handlers make. A response is what Alamofire hands to
 * `responseJSON`: an optional HTTP status code and optional body bytes. The `do`/`catch`
 * around building the request becomes the `BuildThrew` attempt.
 */
module Service {
  import opened Wrappers
  import opened Models
  import opened Router

  newtype byte = x: int | 0 <= x < 256

  datatype SignUpError = EmailExists | InvalidData | InvalidJson | Error(error: string)

  /** Declared beside the service for callers; no path of the service produces it. */
  datatype AuthResult<T> = AuthSuccess(value: T) | AuthFailure(message: string)

  /** `response.response?.statusCode` and `response.data`. */
  datatype HttpResponse = HttpResponse(statusCode: Option<int>, data: Option<seq<byte>>)

  /** Either building the request threw, or the request was sent and a response came back. */
  datatype Attempt = BuildThrew | Responded(response: HttpResponse)

  /** The success value of the sign-up future: `(statusCode: Int, data: Data)`. */
  datatype StatusAndData = StatusAndData(statusCode: int, data: seq<byte>)

  type SignUpResult = Result<StatusAndData, SignUpError>

  /** The route `signUp` sends: the username goes into the record's `name`. */
  function SignUpRoute(username: string, email: string, password: string): (route: AuthHttpRouter)
    ensures route.SignUp?
    ensures route.user == NewAuthModel(name := username, email := email, password := password)
  {
    SignUp(AuthModel(username, email, password))
  }

  /** The route `validateEmail` sends. */
  function ValidateEmailRoute(email: string): (route: AuthHttpRouter)
    ensures route.ValidateEmail? && route.email == email
  {
    ValidateEmail(email)
  }

  /** What the sign-up body carries: the username under "name", beside email and password. */
  lemma SignUpBodyCarriesUsername(username: string, email: string, password: string)
    ensures Body(SignUpRoute(username, email, password)).fields == map[NameKey := JString(username),
                                                                       EmailKey := JString(email),
                                                                       PasswordKey := JString(password)]
    ensures DecodeAuthModel(Body(SignUpRoute(username, email, password))) == Some(AuthModel(username, email, password))
  {
    AuthModelRoundTrip(AuthModel(username, email, password));
  }

  /** The guard both handlers share: a status, a body, and the status is exactly 200. */
  predicate Accepted(response: HttpResponse): (ok: bool)
    ensures ok <==> response.statusCode == Some(200) && response.data.Some?
  {
    response.statusCode.Some? && response.data.Some? && response.statusCode.value == 200
  }

  // ---------------------------------------------------------------------------
  // signUp

  /** The `responseJSON` closure of `signUp`, as the list of promise calls it makes. */
  function SignUpResponseHandler(response: HttpResponse): (calls: seq<SignUpResult>)
    ensures |calls| == 1
    ensures calls[0].Success? <==> Accepted(response)
    ensures calls[0].Success? ==> calls[0].value == StatusAndData(200, response.data.value)
    ensures calls[0].Failure? ==> calls[0].error == InvalidData
  {
    if response.statusCode.None? || response.data.None? || response.statusCode != Some(200) then
      [Failure(InvalidData)]
    else
      [Success(StatusAndData(response.statusCode.value, response.data.value))]
  }

  /** The body of the sign-up `Future`, as the list of promise calls on each path. */
  function SignUpPromiseCalls(attempt: Attempt): (calls: seq<SignUpResult>)
    ensures |calls| == 1
  {
    match attempt
    case BuildThrew => [Failure(InvalidData)]
    case Responded(response) => SignUpResponseHandler(response)
  }

  /** The value the sign-up future resolves with: its one promise call. */
  function SignUpOutcome(attempt: Attempt): (r: SignUpResult)
    ensures r.Success? <==> attempt.Responded? && Accepted(attempt.response)
    ensures r.Success? ==> r.value.statusCode == 200 && attempt.response.data == Some(r.value.data)
    ensures r.Failure? ==> r.error == InvalidData
  {
    SignUpPromiseCalls(attempt)[0]
  }

  // ---------------------------------------------------------------------------
  // validateEmail

  /** The `responseJSON` closure of `validateEmail`, as the list of promise calls it makes. */
  function ValidateEmailResponseHandler(response: HttpResponse): (calls: seq<bool>)
    ensures |calls| == 1
    ensures calls[0] <==> Accepted(response)
  {
    if response.statusCode.None? || response.data.None? || response.statusCode.value != 200 then
      [false]
    else
      [true]
  }

  /** The body of the email-validation `Future`: the failure type is `Never`, so calls carry a bare `Bool`. */
  function ValidateEmailPromiseCalls(attempt: Attempt): (calls: seq<bool>)
    ensures |calls| == 1
  {
    match attempt
    case BuildThrew => [false]
    case Responded(response) => ValidateEmailResponseHandler(response)
  }

  /** The value the email-validation future resolves with; it fails closed. */
  function EmailAvailable(attempt: Attempt): (available: bool)
    ensures available <==> attempt.Responded? && Accepted(attempt.response)
    ensures attempt.BuildThrew? ==> !available
    ensures attempt.Responded? && (attempt.response.statusCode.None? || attempt.response.data.None?) ==> !available
  {
    ValidateEmailPromiseCalls(attempt)[0]
  }

  /** The two handlers accept exactly the same responses. */
  lemma SignUpAgreesWithEmailValidation(attempt: Attempt)
    ensures SignUpOutcome(attempt).Success? <==> EmailAvailable(attempt)
  {
  }

  /** A 200 without a body is rejected by both handlers, though the status alone would pass. */
  lemma OkWithoutBodyRejected()
    ensures SignUpOutcome(Responded(HttpResponse(Some(200), None))) == Failure(InvalidData)
    ensures !EmailAvailable(Responded(HttpResponse(Some(200), None)))
  {
  }
}
