# Sign-up core of the SwiftUITest app, modelled in Dafny

The app is a SwiftUI sign-up screen backed by a REST API. This project models the three
pieces of its core that carry behaviour:

- **SignUpViewModel** (`view_model.dfy`, module `ViewModel`): the view-model object holds
  four field strings (`username`, `email`, `password`, `confirmPassword`) and four error
  strings. One Combine subscription derives `usernameError` from `username`; its `dropFirst`
  swallows the value `$username` replays when `init` subscribes. The model is a class with
  those fields plus a `firstEmissionDropped` flag. Its methods are tied to a value-level
  `FormState` and its transition functions (`AssignUsername`, `AfterEmission`). Lemmas over
  `Replay`, which applies a run of username assignments, state what holds after any history.
- **AuthService** (`service.dfy`, module `Service`): the network and futures are stripped
  away. What remains is the route each call builds and the guard each `responseJSON`
  handler applies. A response is an optional status code and optional body bytes; a
  request build that throws is the `BuildThrew` attempt. Each future body is modelled as
  the list of promise calls it makes, and the future's value is the one call made.
  `validateEmail`'s `Future<Bool, Never>` cannot fail, so it is a plain `bool`.
- **AuthHttpRouter** (`router.dfy`, module `Router`): the two routes and their base URL,
  path, method, headers, parameters and body. `Describe` gathers them into one request
  descriptor. `RouteOf` reads a descriptor back, showing that the descriptor fixes the
  route and its payload.

The plain records in `Models/` are datatypes in `models.dfy` (module `Models`). Their
`Codable` conformances work on an abstract JSON tree: which keys an object has and what
each key holds. The tree keeps the key names: the property names for `AuthModel`, and the
snake_case `CodingKeys` of `TokenResponseModel` and `SignUpErrorModel`. It also keeps the
`name: String = ""` default of `AuthModel.init`. `wrappers.dfy` has Swift's `Optional`
and `Result`.

The header name is `"Content-Type:"`, with the trailing colon written into the router's
dictionary key. The model keeps it as written.

Facts about the code that the model keeps:
- The view-model has one subscription, on `username`; the other three fields have no
  subscriber and their error strings are never written.
- `signUp` succeeds only on status exactly 200 with a body present.
- `validateEmail` also needs a body to be present, not just status 200.

## Model

| member | source | states |
|---|---|---|
| `ViewModel.UsernameValid` | ViewModels/SignUpViewModel.swift:24-28 | a username is valid exactly when it is non-empty |
| `ViewModel.UsernameMessage` | ViewModels/SignUpViewModel.swift:34 | the message is "" exactly for a valid username and "Username is missing" exactly for an invalid one |
| `ViewModel.AfterEmission` | ViewModels/SignUpViewModel.swift:33-35 | after any emission the drop is spent; the first emission leaves the error alone, a later one sets it to its message; nothing else changes |
| `ViewModel.AssignUsername` | ViewModels/SignUpViewModel.swift:15-35 | stores the username; once the drop is spent the error is "" exactly for a non-empty username and "Username is missing" exactly for an empty one; nothing else changes |
| `ViewModel.Replay` | ViewModels/SignUpViewModel.swift:15-37 | a run of username assignments spends the drop exactly when it is non-empty or it was already spent |
| `ViewModel.ReplayOthersKeepsUsername` | ViewModels/SignUpViewModel.swift:16-18 | assignments to email, password and confirmPassword leave username, its error and the drop flag unchanged |
| `ViewModel.InitialState` | ViewModels/SignUpViewModel.swift:15-22 | after `init` all eight strings are empty and the initial emission has been dropped, so the empty username shows no error even though it is invalid |
| `ViewModel.NoErrorBeforeFirstAssignment` | ViewModels/SignUpViewModel.swift:31-35 | after any run of email, password and confirmPassword assignments from the initial state, with no username assignment yet, `usernameError` is "" while the username is invalid |
| `ViewModel.ReplayLatest` | ViewModels/SignUpViewModel.swift:24-35 | after a non-empty run of assignments, `username` is the last value and `usernameError` is that value's message |
| `ViewModel.ReplayKeepsOtherFields` | ViewModels/SignUpViewModel.swift:30-37 | username assignments leave email, password, confirmPassword and their three errors unchanged |
| `ViewModel.ReplayErrorInRange` | ViewModels/SignUpViewModel.swift:19 | `usernameError` always holds "" or "Username is missing" if it started as one of them |
| `ViewModel.ReplayAppend` | ViewModels/SignUpViewModel.swift:24-35 | replaying two runs in turn is the same as replaying their concatenation |
| `ViewModel.HistoryIndependent` | ViewModels/SignUpViewModel.swift:33-35 | once the first emission is dropped, two histories that end in the same username give the same state |
| `ViewModel.RepeatAssignment` | ViewModels/SignUpViewModel.swift:24-28 | assigning the same username twice gives the same state as assigning it once |
| `ViewModel.SignUpViewModel.constructor` | ViewModels/SignUpViewModel.swift:15-37 | the new object is in `Initial`: all strings empty, first emission dropped; `Valid` (drop spent, `usernameError` one of the two messages) holds from here on |
| `ViewModel.SignUpViewModel.Emit` | ViewModels/SignUpViewModel.swift:33-35 | the first value reaching `dropFirst` only sets the flag; every later one assigns its message to `usernameError` |
| `ViewModel.SignUpViewModel.SetUsername` | ViewModels/SignUpViewModel.swift:15-35 | the new state is `AssignUsername` of the old: username stored, error recomputed, the other six strings unchanged |
| `ViewModel.SignUpViewModel.SetEmail` | ViewModels/SignUpViewModel.swift:16 | only `email` changes; nothing subscribes to it |
| `ViewModel.SignUpViewModel.SetPassword` | ViewModels/SignUpViewModel.swift:17 | only `password` changes |
| `ViewModel.SignUpViewModel.SetConfirmPassword` | ViewModels/SignUpViewModel.swift:18 | only `confirmPassword` changes |
| `Service.SignUpRoute` | Services/AuthService.swift:36-37 | sign-up sends the `signUp` route whose user is `AuthModel(name: username, email:, password:)` |
| `Service.SignUpBodyCarriesUsername` | Services/AuthService.swift:37 | the sign-up body is exactly `{name: username, email, password}` and decodes back to that record |
| `Service.ValidateEmailRoute` | Services/AuthService.swift:60-61 | email validation sends the `validateEmail` route carrying the given email |
| `Service.Accepted` | Services/AuthService.swift:40-43 | the guard's three conditions amount to: status is 200 and a body is present |
| `Service.SignUpResponseHandler` | Services/AuthService.swift:39-48 | the closure makes one promise call: success with status 200 and the body exactly when the guard accepts, `invalidData` otherwise |
| `Service.ValidateEmailResponseHandler` | Services/AuthService.swift:63-72 | the closure makes one promise call, `true` exactly when the guard accepts |
| `Service.SignUpPromiseCalls` | Services/AuthService.swift:34-53 | every path of the sign-up future resolves the promise exactly once |
| `Service.SignUpOutcome` | Services/AuthService.swift:40-51 | success exactly when a response came back with a status, a body and status 200. On success the status is 200 and the data is the response body unchanged. Every other case, including a throwing build, fails with `invalidData` |
| `Service.ValidateEmailPromiseCalls` | Services/AuthService.swift:58-77 | every path of the email-validation future resolves the promise exactly once |
| `Service.EmailAvailable` | Services/AuthService.swift:64-74 | true exactly when a response came back with a status, a body and status 200; false on a missing status or body, another status, or a throwing build (fail-closed) |
| `Service.SignUpAgreesWithEmailValidation` | Services/AuthService.swift:40-71 | the two handlers accept exactly the same attempts |
| `Service.OkWithoutBodyRejected` | Services/AuthService.swift:40-45 | status 200 without a body is rejected by sign-up (`invalidData`) and by email validation (`false`) |
| `Router.BaseUrlString` | HttpServices/AuthHttpRouter.swift:17-19 | every route uses "https://letscodeeasy.com/groceryapi/public/api" |
| `Router.Path` | HttpServices/AuthHttpRouter.swift:21-30 | the path is "register" exactly for sign-up and "validate/email" exactly for email validation; it is never "" (the `default` arm is unreachable) |
| `Router.Method` | HttpServices/AuthHttpRouter.swift:32-39 | every route is a POST, never the `default` GET |
| `Router.Headers` | HttpServices/AuthHttpRouter.swift:41-48 | exactly one header, named "Content-Type:" with value "application/json; charset=UTF-8" |
| `Router.Parameters` | HttpServices/AuthHttpRouter.swift:50-52 | parameters are always nil |
| `Router.Body` | HttpServices/AuthHttpRouter.swift:54-61 | sign-up's body is the encoded user record; email validation's body is an object with the single key "email" holding the email |
| `Router.Describe` | HttpServices/AuthHttpRouter.swift:15-61 | every request descriptor has the base URL, POST, the one JSON header and no parameters |
| `Router.RouteOf` | HttpServices/AuthHttpRouter.swift:21-30 | a route read back from a descriptor has that descriptor's path |
| `Router.RouteOfDescribe` | HttpServices/AuthHttpRouter.swift:10-13 | reading the descriptor of any route gives back that route, payload included |
| `Router.DescribeInjective` | HttpServices/AuthHttpRouter.swift:10-13 | two routes with the same descriptor are equal |
| `Models.NewAuthModel` | Models/AuthModel.swift:14-18 | the initialiser stores its arguments; `name` defaults to "" |
| `Models.EncodeAuthModel` | Models/AuthModel.swift:8-12 | the encoding is an object with exactly the keys "name", "email" and "password", each holding its string |
| `Models.StringMember` | Models/AuthModel.swift:10-12 | a string property decodes exactly when its key is present and holds a string |
| `Models.IntMember` | Models/TokenResponseModel.swift:12 | an `Int` property decodes exactly when its key is present and holds a number within the 64-bit range, and gives that number |
| `Models.DecodeAuthModel` | Models/AuthModel.swift:8-12 | decoding succeeds exactly when the object holds strings under all three keys, and the record holds those three strings |
| `Models.AuthModelRoundTrip` | Models/AuthModel.swift:8-12 | decoding the encoding of a user record gives it back |
| `Models.DecodeTokenResponse` | Models/TokenResponseModel.swift:8-18 | decoding succeeds exactly when "access_token" and "token_type" hold strings and "expires_in" holds a 64-bit integer, and the fields are those values |
| `Models.TokenResponseIgnoresPropertyNames` | Models/TokenResponseModel.swift:14-17 | an object keyed by the camelCase property names does not decode |
| `Models.EncodeStrings` | Models/SignUpErrorModel.swift:19 | a `[String]` encodes to an array of the same strings, in order |
| `Models.DecodeStrings` | Models/SignUpErrorModel.swift:19 | an array decodes exactly when every element is a string, to those strings in order |
| `Models.StringsRoundTrip` | Models/SignUpErrorModel.swift:19 | decoding an encoded `[String]` gives it back |
| `Models.EncodeIfPresent` | Models/SignUpErrorModel.swift:18-19 | a nil optional writes no key; a present one writes its array under its key |
| `Models.DecodeIfPresent` | Models/SignUpErrorModel.swift:18-19 | succeeds exactly when the key is missing, null or an array of strings; nil exactly for missing or null, the stored strings exactly for an array of strings; anything else fails |
| `Models.EncodeValidationErrors` | Models/SignUpErrorModel.swift:18-20 | an object over "name", "email" and "password", where a key is present exactly when its list is non-nil and holds that list's array |
| `Models.DecodeValidationErrors` | Models/SignUpErrorModel.swift:18-20 | succeeds exactly on an object whose three keys are each missing, null or an array of strings; each list is nil for missing or null and the stored strings otherwise |
| `Models.EncodeSignUpError` | Models/SignUpErrorModel.swift:10-15 | an object with the single key "validation_errors", holding the object that stores the three lists |
| `Models.DecodeSignUpError` | Models/SignUpErrorModel.swift:10-15 | succeeds exactly when "validation_errors" holds an object whose three keys are each missing, null or an array of strings; the record's lists are what those keys store |
| `Models.DecodeEncodedField` | Models/SignUpErrorModel.swift:19 | one optional list written under its key decodes back to itself |
| `Models.EncodeOtherField` | Models/SignUpErrorModel.swift:19 | writing one optional list leaves what every other key decodes to unchanged |
| `Models.SignUpErrorRoundTrip` | Models/SignUpErrorModel.swift:10-20 | decoding the encoding of a `SignUpErrorModel` gives it back |

## Left out

- Every SwiftUI view and its layout (`Views/SignUpView.swift`, `SwiftUITest/SignUpView.swift`, `SwiftUITest/SwiftUITestApp.swift`), and `ColorCodes.color()`: presentation only, with floating-point RGB.
- `AuthHttpService` and `HttpService`: thin wrappers over Alamofire's `Session` and `validate(statusCode: 200..<400)`. Alamofire is not part of this model. A response that fails that validation still reaches `responseJSON` with its status and body, and the model's `HttpResponse` covers that case.
- The `HttpRouter` protocol and its `request(usingHttpService:)` are not part of this model. How base URL and path are joined is therefore not stated. Any throw on that path is the abstract `BuildThrew` attempt.
- `Router.Body`: Swift's `body()` is `throws -> Data?`. The model returns the JSON object it encodes. Encoding string-only records cannot throw and never gives nil, so neither case is modelled.
- A JSON number with a fraction: the abstract tree holds integers only. Integers outside Swift's 64-bit `Int` range are modelled, and `Models.IntMember` rejects them.
- Byte-level JSON (`JSONEncoder`/`JSONDecoder` output, escaping, key order, floating-point numbers): bodies are abstract JSON trees.
- The network send, the `responseJSON` callback timing, the `Future`/promise machinery, `print`, `AuthService.shared` and the lazy `httpService`. Responses are inputs, and each future is the list of promise calls it makes.
- `AuthAPI`: only the two signatures, which the `Service` functions follow.
- `AuthResult`: declared as a datatype. No code path produces it.
- `receive(on: RunLoop.main)`: each emission is applied synchronously right after the assignment, and the replay on subscription is applied inside the constructor. Reordering by the run loop is not modelled.
- `cancelableBag` and the lifetime of the subscription: the subscription lives as long as the object.
- `ObservableObject` change notifications to the view: presentation only.
- `signUp`, `enableSignUpButton` and `statusViewModel`: `Views/SignUpView.swift:32,38,43` uses them, and the view-model does not define them.
- `AuthServiceParser` (referenced from `Views/SignUpView.swift:56`) is not part of this model.
