/**
 * The plain records of the app (Models/AuthModel.swift, Models/TokenResponseModel.swift,
 * Models/SignUpErrorModel.swift) and what their `Codable` conformances read and write,
 * stated over an abstract JSON tree: which keys an object carries and what each holds.
 */
module Models {
  import opened Wrappers

  /** A JSON value as a tree; numbers are integers only (nothing here carries a fraction). */
  datatype Json =
    | JNull
    | JBool(b: bool)
    | JNumber(n: int)
    | JString(s: string)
    | JArray(items: seq<Json>)
    | JObject(fields: map<string, Json>)

  // ---------------------------------------------------------------------------
  // AuthModel: the user record sent to the registration endpoint.

  datatype AuthModel = AuthModel(name: string, email: string, password: string)

  /** `AuthModel.init(name: String = "", email:, password:)`: `name` may be omitted. */
  function NewAuthModel(name: string := "", email: string, password: string): (m: AuthModel)
    ensures m.email == email && m.password == password
    ensures m.name == name
  {
    AuthModel(name, email, password)
  }

  /** Without CodingKeys the synthesised keys are the property names. */
  const NameKey := "name"
  const EmailKey := "email"
  const PasswordKey := "password"

  /** The synthesised `encode(to:)`: one string member per stored property. */
  function EncodeAuthModel(m: AuthModel): (j: Json)
    ensures j.JObject? && j.fields.Keys == {NameKey, EmailKey, PasswordKey}
    ensures j.fields[NameKey] == JString(m.name)
    ensures j.fields[EmailKey] == JString(m.email)
    ensures j.fields[PasswordKey] == JString(m.password)
  {
    JObject(map[NameKey := JString(m.name), EmailKey := JString(m.email), PasswordKey := JString(m.password)])
  }

  /** The string held under `key`, or `None` when it is missing or not a string (a decoding error). */
  function StringMember(fields: map<string, Json>, key: string): (r: Option<string>)
    ensures r.Some? <==> key in fields && fields[key].JString?
    ensures r.Some? ==> fields[key] == JString(r.value)
  {
    if key in fields && fields[key].JString? then Some(fields[key].s) else None
  }

  /** The range of Swift's 64-bit `Int`. */
  const IntMin := -0x8000_0000_0000_0000
  const IntMax := 0x7FFF_FFFF_FFFF_FFFF

  /** A number that decodes as a Swift `Int`: one that fits in 64 bits. */
  predicate IsInt(j: Json)
  {
    j.JNumber? && IntMin <= j.n <= IntMax
  }

  /**
   * The integer held under `key`, or `None` when it is missing, not a number, or outside the
   * 64-bit range (the decoder's "does not fit in Int" error).
   */
  function IntMember(fields: map<string, Json>, key: string): (r: Option<int>)
    ensures r.Some? <==> key in fields && fields[key].JNumber? && IntMin <= fields[key].n <= IntMax
    ensures r.Some? ==> fields[key] == JNumber(r.value) && IntMin <= r.value <= IntMax
  {
    if key in fields && IsInt(fields[key]) then Some(fields[key].n) else None
  }

  /** The synthesised `init(from:)`: all three keys are required strings; other keys are ignored. */
  function DecodeAuthModel(j: Json): (r: Option<AuthModel>)
    ensures r.Some? <==>
      j.JObject? && NameKey in j.fields && j.fields[NameKey].JString?
      && EmailKey in j.fields && j.fields[EmailKey].JString?
      && PasswordKey in j.fields && j.fields[PasswordKey].JString?
    ensures r.Some? ==>
      r.value == AuthModel(j.fields[NameKey].s, j.fields[EmailKey].s, j.fields[PasswordKey].s)
  {
    if !j.JObject? then None
    else
      var name := StringMember(j.fields, NameKey);
      var email := StringMember(j.fields, EmailKey);
      var password := StringMember(j.fields, PasswordKey);
      if name.Some? && email.Some? && password.Some? then Some(AuthModel(name.value, email.value, password.value))
      else None
  }

  /** Decoding what was encoded gives the record back. */
  lemma AuthModelRoundTrip(m: AuthModel)
    ensures DecodeAuthModel(EncodeAuthModel(m)) == Some(m)
  {
    var j := EncodeAuthModel(m);
    assert StringMember(j.fields, NameKey) == Some(m.name);
    assert StringMember(j.fields, EmailKey) == Some(m.email);
    assert StringMember(j.fields, PasswordKey) == Some(m.password);
  }

  // ---------------------------------------------------------------------------
  // TokenResponseModel: the body of a successful registration (decoded only).

  datatype TokenResponseModel = TokenResponseModel(accessToken: string, tokenType: string, expiresIn: int)

  /** The CodingKeys of TokenResponseModel. */
  const AccessTokenKey := "access_token"
  const TokenTypeKey := "token_type"
  const ExpiresInKey := "expires_in"

  /** The synthesised `init(from:)` with the snake_case CodingKeys. */
  function DecodeTokenResponse(j: Json): (r: Option<TokenResponseModel>)
    ensures r.Some? <==>
      j.JObject? && AccessTokenKey in j.fields && j.fields[AccessTokenKey].JString?
      && TokenTypeKey in j.fields && j.fields[TokenTypeKey].JString?
      && ExpiresInKey in j.fields && IsInt(j.fields[ExpiresInKey])
    ensures r.Some? ==>
      j.fields[AccessTokenKey] == JString(r.value.accessToken)
      && j.fields[TokenTypeKey] == JString(r.value.tokenType)
      && j.fields[ExpiresInKey] == JNumber(r.value.expiresIn)
  {
    if !j.JObject? then None
    else
      var accessToken := StringMember(j.fields, AccessTokenKey);
      var tokenType := StringMember(j.fields, TokenTypeKey);
      var expiresIn := IntMember(j.fields, ExpiresInKey);
      if accessToken.Some? && tokenType.Some? && expiresIn.Some? then
        Some(TokenResponseModel(accessToken.value, tokenType.value, expiresIn.value))
      else None
  }

  /** The camelCase property names are not the keys: an object keyed by them does not decode. */
  lemma TokenResponseIgnoresPropertyNames(t: TokenResponseModel)
    ensures DecodeTokenResponse(JObject(map["accessToken" := JString(t.accessToken),
                                            "tokenType" := JString(t.tokenType),
                                            "expiresIn" := JNumber(t.expiresIn)])).None?
  {
  }

  // ---------------------------------------------------------------------------
  // SignUpErrorModel: the body of a rejected registration (Codable).

  datatype ValidationErrors = ValidationErrors(name: Option<seq<string>>, email: Option<seq<string>>, password: Option<seq<string>>)

  datatype SignUpErrorModel = SignUpErrorModel(validationErrors: ValidationErrors)

  /** The CodingKey of SignUpErrorModel. */
  const ValidationErrorsKey := "validation_errors"

  /** `[String]` encoded: an array of strings, in order. */
  function EncodeStrings(ss: seq<string>): (items: seq<Json>)
    ensures |items| == |ss|
    ensures forall i :: 0 <= i < |ss| ==> items[i] == JString(ss[i])
  {
    seq(|ss|, i requires 0 <= i < |ss| => JString(ss[i]))
  }

  /** `[String]` decoded: fails unless every element is a string. */
  function DecodeStrings(items: seq<Json>): (r: Option<seq<string>>)
    ensures r.Some? <==> forall i :: 0 <= i < |items| ==> items[i].JString?
    ensures r.Some? ==> |r.value| == |items| && forall i :: 0 <= i < |items| ==> items[i] == JString(r.value[i])
  {
    if items == [] then Some([])
    else if !items[0].JString? then None
    else
      match DecodeStrings(items[1..])
      case None => None
      case Some(rest) => Some([items[0].s] + rest)
  }

  /** A sequence of strings is determined by its encoding. */
  lemma {:induction false} StringsRoundTrip(ss: seq<string>)
    ensures DecodeStrings(EncodeStrings(ss)) == Some(ss)
  {
    var r := DecodeStrings(EncodeStrings(ss));
    assert r.Some?;
    assert |r.value| == |ss|;
    forall i | 0 <= i < |ss| ensures r.value[i] == ss[i] {
      assert EncodeStrings(ss)[i] == JString(ss[i]);
    }
    assert r.value == ss;
  }

  /** An array whose every element is a string: what a `[String]` decodes from. */
  predicate IsStringArray(j: Json)
  {
    j.JArray? && forall i :: 0 <= i < |j.items| ==> j.items[i].JString?
  }

  /** What `decodeIfPresent` of a `[String]` accepts under `key`: nothing, `null`, or an array of strings. */
  predicate OptionalStringsAt(fields: map<string, Json>, key: string)
  {
    key !in fields || fields[key] == JNull || IsStringArray(fields[key])
  }

  /** The optional list `v` is what `fields` holds under `key`: nothing or `null` for `nil`, its array otherwise. */
  predicate StoredAs(fields: map<string, Json>, key: string, v: Option<seq<string>>)
  {
    match v
    case None => key !in fields || fields[key] == JNull
    case Some(ss) => key in fields && fields[key] == JArray(EncodeStrings(ss))
  }

  /** `encodeIfPresent`: a `nil` property writes no key at all. */
  function EncodeIfPresent(fields: map<string, Json>, key: string, v: Option<seq<string>>): (r: map<string, Json>)
    ensures v.None? ==> r == fields - {key}
    ensures v.Some? ==> r == fields[key := JArray(EncodeStrings(v.value))]
  {
    match v
    case None => fields - {key}
    case Some(ss) => fields[key := JArray(EncodeStrings(ss))]
  }

  /**
   * `decodeIfPresent`: a missing key or `null` gives `nil`, an array of strings gives its value,
   * anything else is a decoding error (the outer `None`).
   */
  function DecodeIfPresent(fields: map<string, Json>, key: string): (r: Option<Option<seq<string>>>)
    ensures r.Some? <==> OptionalStringsAt(fields, key)
    ensures r == Some(None) <==> key !in fields || fields[key] == JNull
    ensures (r.Some? && r.value.Some?) <==> key in fields && IsStringArray(fields[key])
    ensures r.Some? ==> StoredAs(fields, key, r.value)
  {
    if key !in fields then Some(None)
    else match fields[key]
      case JNull => Some(None)
      case JArray(items) =>
        (match DecodeStrings(items)
         case None => None
         case Some(ss) =>
           assert items == EncodeStrings(ss);
           Some(Some(ss)))
      case _ => None
  }

  /** The synthesised `encode(to:)` of ValidationErrors: a key for each list that is not `nil`. */
  function EncodeValidationErrors(v: ValidationErrors): (j: Json)
    ensures j.JObject? && j.fields.Keys <= {NameKey, EmailKey, PasswordKey}
    ensures NameKey in j.fields <==> v.name.Some?
    ensures EmailKey in j.fields <==> v.email.Some?
    ensures PasswordKey in j.fields <==> v.password.Some?
    ensures StoredAs(j.fields, NameKey, v.name) && StoredAs(j.fields, EmailKey, v.email)
    ensures StoredAs(j.fields, PasswordKey, v.password)
  {
    JObject(EncodeIfPresent(EncodeIfPresent(EncodeIfPresent(map[], NameKey, v.name), EmailKey, v.email), PasswordKey, v.password))
  }

  /** The synthesised `init(from:)` of ValidationErrors: every list is optional; other keys are ignored. */
  function DecodeValidationErrors(j: Json): (r: Option<ValidationErrors>)
    ensures r.Some? <==>
      j.JObject? && OptionalStringsAt(j.fields, NameKey) && OptionalStringsAt(j.fields, EmailKey)
      && OptionalStringsAt(j.fields, PasswordKey)
    ensures r.Some? ==>
      StoredAs(j.fields, NameKey, r.value.name) && StoredAs(j.fields, EmailKey, r.value.email)
      && StoredAs(j.fields, PasswordKey, r.value.password)
    ensures j == JObject(map[]) ==> r == Some(ValidationErrors(None, None, None))
  {
    if !j.JObject? then None
    else
      var name := DecodeIfPresent(j.fields, NameKey);
      var email := DecodeIfPresent(j.fields, EmailKey);
      var password := DecodeIfPresent(j.fields, PasswordKey);
      if name.Some? && email.Some? && password.Some? then Some(ValidationErrors(name.value, email.value, password.value))
      else None
  }

  /** The synthesised `encode(to:)` of SignUpErrorModel: one member, under "validation_errors". */
  function EncodeSignUpError(m: SignUpErrorModel): (j: Json)
    ensures j.JObject? && j.fields.Keys == {ValidationErrorsKey}
    ensures var inner := j.fields[ValidationErrorsKey];
      inner.JObject? && inner.fields.Keys <= {NameKey, EmailKey, PasswordKey}
      && StoredAs(inner.fields, NameKey, m.validationErrors.name)
      && StoredAs(inner.fields, EmailKey, m.validationErrors.email)
      && StoredAs(inner.fields, PasswordKey, m.validationErrors.password)
  {
    JObject(map[ValidationErrorsKey := EncodeValidationErrors(m.validationErrors)])
  }

  /** The synthesised `init(from:)` of SignUpErrorModel: "validation_errors" is required. */
  function DecodeSignUpError(j: Json): (r: Option<SignUpErrorModel>)
    ensures r.Some? <==>
      j.JObject? && ValidationErrorsKey in j.fields && j.fields[ValidationErrorsKey].JObject?
      && OptionalStringsAt(j.fields[ValidationErrorsKey].fields, NameKey)
      && OptionalStringsAt(j.fields[ValidationErrorsKey].fields, EmailKey)
      && OptionalStringsAt(j.fields[ValidationErrorsKey].fields, PasswordKey)
    ensures r.Some? ==>
      var inner := j.fields[ValidationErrorsKey].fields;
      StoredAs(inner, NameKey, r.value.validationErrors.name)
      && StoredAs(inner, EmailKey, r.value.validationErrors.email)
      && StoredAs(inner, PasswordKey, r.value.validationErrors.password)
  {
    if j.JObject? && ValidationErrorsKey in j.fields then
      match DecodeValidationErrors(j.fields[ValidationErrorsKey])
      case None => None
      case Some(v) => Some(SignUpErrorModel(v))
    else None
  }

  /** Decoding the encoding of one optional list under its own key gives it back. */
  lemma DecodeEncodedField(fields: map<string, Json>, key: string, v: Option<seq<string>>)
    ensures DecodeIfPresent(EncodeIfPresent(fields, key, v), key) == Some(v)
  {
    if v.Some? {
      StringsRoundTrip(v.value);
    }
  }

  /** Decoding what SignUpErrorModel encodes gives the same record back. */
  lemma SignUpErrorRoundTrip(m: SignUpErrorModel)
    ensures DecodeSignUpError(EncodeSignUpError(m)) == Some(m)
  {
    var v := m.validationErrors;
    var f1 := EncodeIfPresent(map[], NameKey, v.name);
    var f2 := EncodeIfPresent(f1, EmailKey, v.email);
    var f3 := EncodeIfPresent(f2, PasswordKey, v.password);
    DecodeEncodedField(f2, PasswordKey, v.password);
    DecodeEncodedField(f1, EmailKey, v.email);
    DecodeEncodedField(map[], NameKey, v.name);
    EncodeOtherField(f2, PasswordKey, EmailKey, v.password);
    EncodeOtherField(f2, PasswordKey, NameKey, v.password);
    EncodeOtherField(f1, EmailKey, NameKey, v.email);
  }

  /** Writing one optional list leaves what every other key decodes to unchanged. */
  lemma EncodeOtherField(fields: map<string, Json>, key: string, other: string, v: Option<seq<string>>)
    requires key != other
    ensures DecodeIfPresent(EncodeIfPresent(fields, key, v), other) == DecodeIfPresent(fields, other)
  {
    var f := EncodeIfPresent(fields, key, v);
    assert (other in f) == (other in fields);
    if other in fields {
      assert f[other] == fields[other];
    }
  }
}
