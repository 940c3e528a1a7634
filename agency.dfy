/**
 * Decoding an `Agency` reference from the keyed JSON the REST API returns.
 *
 * Eight fields are required: a missing key, a `null` or a value of the wrong
 * type makes decoding fail. `email` and `fareUrl` are decoded with `try?`, so
 * any problem with them yields `nil`. Blank strings are turned into `nil` for
 * `disclaimer` and `email` only. URL parsing and the blank-string test are
 * supplied by the caller, because this model does not fix their semantics.
 */
module AgencyDecoding {
  import opened Wrappers

  /** A JSON value as the decoder sees it; numbers are not needed here beyond their kind. */
  datatype JsonValue =
    | JString(text: string)
    | JBool(flag: bool)
    | JNumber(number: int)
    | JNull
    | JArray(items: seq<JsonValue>)
    | JObject(fields: map<string, JsonValue>)

  /** The coding keys of `Agency`, named after its properties. */
  datatype CodingKey =
    | Disclaimer | Email | FareURL | Id | Language | Name | Phone | IsPrivateService | TimeZone | AgencyURL

  /** The key each property is read from on the wire. */
  function WireName(k: CodingKey): string {
    match k
    case Disclaimer => "disclaimer"
    case Email => "email"
    case FareURL => "fareUrl"
    case Id => "id"
    case Language => "lang"
    case Name => "name"
    case Phone => "phone"
    case IsPrivateService => "privateService"
    case TimeZone => "timezone"
    case AgencyURL => "url"
  }

  /** `CodingKeys(stringValue:)`: the coding key a wire name stands for, if any. */
  function KeyForWireName(s: string): (r: Option<CodingKey>)
    ensures r.Some? ==> WireName(r.value) == s
  {
    if s == "disclaimer" then Some(Disclaimer)
    else if s == "email" then Some(Email)
    else if s == "fareUrl" then Some(FareURL)
    else if s == "id" then Some(Id)
    else if s == "lang" then Some(Language)
    else if s == "name" then Some(Name)
    else if s == "phone" then Some(Phone)
    else if s == "privateService" then Some(IsPrivateService)
    else if s == "timezone" then Some(TimeZone)
    else if s == "url" then Some(AgencyURL)
    else None
  }

  /** Every coding key is recovered from its wire name, so no two keys share one. */
  lemma WireNamesRoundTrip(k: CodingKey)
    ensures KeyForWireName(WireName(k)) == Some(k)
  {
  }

  datatype URL = URL(absoluteString: string)

  /** Swift's `DecodingError` cases, each naming the key at fault. */
  datatype DecodeError =
    | NotAKeyedContainer
    | KeyNotFound(key: CodingKey)
    | ValueNotFound(key: CodingKey)
    | TypeMismatch(key: CodingKey)
    | DataCorrupted(key: CodingKey)

  /** `URL(string:)` acceptance and `ModelHelpers.nilifyBlankValue`'s blank test. */
  datatype Helpers = Helpers(isValidURL: string -> bool, isBlank: string -> bool)

  datatype Agency = Agency(
    disclaimer: Option<string>,
    email: Option<string>,
    fareURL: Option<URL>,
    id: string,
    language: string,
    name: string,
    phone: string,
    isPrivateService: bool,
    timeZone: string,
    agencyURL: URL)

  /** The error `decode` raises for a key whose value is not of the expected kind. */
  function MismatchError(fields: map<string, JsonValue>, k: CodingKey): DecodeError {
    if WireName(k) !in fields then KeyNotFound(k)
    else if fields[WireName(k)].JNull? then ValueNotFound(k)
    else TypeMismatch(k)
  }

  /** `container.decode(String.self, forKey: k)`. */
  function DecodeString(fields: map<string, JsonValue>, k: CodingKey): Result<string, DecodeError> {
    if WireName(k) in fields && fields[WireName(k)].JString? then Success(fields[WireName(k)].text)
    else Failure(MismatchError(fields, k))
  }

  /** `container.decode(Bool.self, forKey: k)`. */
  function DecodeBool(fields: map<string, JsonValue>, k: CodingKey): Result<bool, DecodeError> {
    if WireName(k) in fields && fields[WireName(k)].JBool? then Success(fields[WireName(k)].flag)
    else Failure(MismatchError(fields, k))
  }

  /** `container.decode(URL.self, forKey: k)`: a string that must parse as a URL. */
  function DecodeURL(fields: map<string, JsonValue>, k: CodingKey, h: Helpers): Result<URL, DecodeError> {
    var s :- DecodeString(fields, k);
    if h.isValidURL(s) then Success(URL(s)) else Failure(DataCorrupted(k))
  }

  /** `ModelHelpers.nilifyBlankValue`: `nil` stays `nil`, a blank string becomes `nil`. */
  function NilifyBlank(value: Option<string>, h: Helpers): (r: Option<string>)
    ensures r.Some? <==> value.Some? && !h.isBlank(value.value)
    ensures r.Some? ==> r == value
  {
    match value
    case Some(s) => if h.isBlank(s) then None else value
    case None => None
  }

  // What the decoder demands of the wire object, spelled out with the wire keys.

  predicate HasString(fields: map<string, JsonValue>, wireKey: string) {
    wireKey in fields && fields[wireKey].JString?
  }

  predicate HasBool(fields: map<string, JsonValue>, wireKey: string) {
    wireKey in fields && fields[wireKey].JBool?
  }

  predicate HasURL(fields: map<string, JsonValue>, wireKey: string, h: Helpers) {
    HasString(fields, wireKey) && h.isValidURL(fields[wireKey].text)
  }

  /** The required fields are all present and of the right kind. */
  predicate RequiredFieldsDecode(fields: map<string, JsonValue>, h: Helpers) {
    && HasString(fields, "disclaimer")
    && HasString(fields, "id")
    && HasString(fields, "lang")
    && HasString(fields, "name")
    && HasString(fields, "phone")
    && HasBool(fields, "privateService")
    && HasString(fields, "timezone")
    && HasURL(fields, "url", h)
  }

  /** The agency a well-formed wire object describes, property by property. */
  function ExpectedAgency(fields: map<string, JsonValue>, h: Helpers): Agency
    requires RequiredFieldsDecode(fields, h)
  {
    Agency(
      disclaimer := if h.isBlank(fields["disclaimer"].text) then None else Some(fields["disclaimer"].text),
      email := if HasString(fields, "email") && !h.isBlank(fields["email"].text) then Some(fields["email"].text) else None,
      fareURL := if HasURL(fields, "fareUrl", h) then Some(URL(fields["fareUrl"].text)) else None,
      id := fields["id"].text,
      language := fields["lang"].text,
      name := fields["name"].text,
      phone := fields["phone"].text,
      isPrivateService := fields["privateService"].flag,
      timeZone := fields["timezone"].text,
      agencyURL := URL(fields["url"].text))
  }

  /** The required coding keys, in the order `init(from:)` decodes them. */
  const RequiredKeys: seq<CodingKey> := [Disclaimer, Id, Language, Name, Phone, IsPrivateService, TimeZone, AgencyURL]

  /**
   * `Agency.init(from:)`. It succeeds exactly when the input is an object
   * whose required fields decode, and then yields the agency the fields
   * describe; a failure names a required key whose value is missing or bad.
   */
  function Decode(json: JsonValue, h: Helpers): (r: Result<Agency, DecodeError>)
    ensures r.Success? <==> json.JObject? && RequiredFieldsDecode(json.fields, h)
    ensures r.Success? ==> r.value == ExpectedAgency(json.fields, h)
    ensures !json.JObject? ==> r == Failure(NotAKeyedContainer)
    ensures r.Failure? && json.JObject? ==> r.error != NotAKeyedContainer && r.error.key in RequiredKeys
  {
    if !json.JObject? then Failure(NotAKeyedContainer)
    else
      var fields := json.fields;
      var disclaimer :- DecodeString(fields, Disclaimer);
      var email := DecodeString(fields, Email).ToOption();
      var fareURL := DecodeURL(fields, FareURL, h).ToOption();
      var id :- DecodeString(fields, Id);
      var language :- DecodeString(fields, Language);
      var name :- DecodeString(fields, Name);
      var phone :- DecodeString(fields, Phone);
      var isPrivateService :- DecodeBool(fields, IsPrivateService);
      var timeZone :- DecodeString(fields, TimeZone);
      var agencyURL :- DecodeURL(fields, AgencyURL, h);
      Success(Agency(NilifyBlank(Some(disclaimer), h), NilifyBlank(email, h), fareURL,
                     id, language, name, phone, isPrivateService, timeZone, agencyURL))
  }

  /** A required key that is absent makes decoding fail. */
  lemma MissingRequiredKeyFails(fields: map<string, JsonValue>, k: CodingKey, h: Helpers)
    requires k in RequiredKeys
    requires WireName(k) !in fields
    ensures Decode(JObject(fields), h).Failure?
  {
  }

  /** A required key holding `null` or a value of the wrong kind makes decoding fail. */
  lemma WrongTypedRequiredKeyFails(fields: map<string, JsonValue>, k: CodingKey, h: Helpers)
    requires k in RequiredKeys
    requires WireName(k) in fields
    requires k == IsPrivateService ==> !fields[WireName(k)].JBool?
    requires k != IsPrivateService ==> !fields[WireName(k)].JString?
    ensures Decode(JObject(fields), h).Failure?
  {
  }

  /**
   * Decoded values are the wire values: `id`, `lang`, `name`, `phone` and
   * `timezone` verbatim even when blank; `disclaimer` verbatim unless blank.
   */
  lemma DecodedValuesAreVerbatim(fields: map<string, JsonValue>, h: Helpers)
    requires RequiredFieldsDecode(fields, h)
    ensures Decode(JObject(fields), h).Success?
    ensures var a := Decode(JObject(fields), h).value;
      && a.id == fields["id"].text
      && a.language == fields["lang"].text
      && a.name == fields["name"].text
      && a.phone == fields["phone"].text
      && a.isPrivateService == fields["privateService"].flag
      && a.timeZone == fields["timezone"].text
      && a.agencyURL == URL(fields["url"].text)
      && (a.disclaimer.None? <==> h.isBlank(fields["disclaimer"].text))
      && (a.disclaimer.Some? ==> a.disclaimer.value == fields["disclaimer"].text)
  {
  }

  /** The disclaimer is decoded first: when it is missing, that is the error reported, whatever else is wrong. */
  lemma MissingDisclaimerIsReportedFirst(fields: map<string, JsonValue>, h: Helpers)
    requires "disclaimer" !in fields
    ensures Decode(JObject(fields), h) == Failure(KeyNotFound(Disclaimer))
  {
  }

  /** Whatever `email` holds, or if it is absent, decoding succeeds or fails just as without it. */
  lemma EmailNeverFails(fields: map<string, JsonValue>, email: JsonValue, h: Helpers)
    ensures Decode(JObject(fields["email" := email]), h).Success?
            == Decode(JObject(fields - {"email"}), h).Success?
    ensures Decode(JObject(fields - {"email"}), h).Success? ==>
              Decode(JObject(fields - {"email"}), h).value.email == None
    ensures !email.JString? && Decode(JObject(fields["email" := email]), h).Success? ==>
              Decode(JObject(fields["email" := email]), h).value.email == None
  {
    assert RequiredFieldsDecode(fields["email" := email], h) == RequiredFieldsDecode(fields - {"email"}, h);
  }

  /** Whatever `fareUrl` holds, or if it is absent, decoding succeeds or fails just as without it. */
  lemma FareURLNeverFails(fields: map<string, JsonValue>, fareUrl: JsonValue, h: Helpers)
    ensures Decode(JObject(fields["fareUrl" := fareUrl]), h).Success?
            == Decode(JObject(fields - {"fareUrl"}), h).Success?
    ensures Decode(JObject(fields - {"fareUrl"}), h).Success? ==>
              Decode(JObject(fields - {"fareUrl"}), h).value.fareURL == None
    ensures !(fareUrl.JString? && h.isValidURL(fareUrl.text)) && Decode(JObject(fields["fareUrl" := fareUrl]), h).Success? ==>
              Decode(JObject(fields["fareUrl" := fareUrl]), h).value.fareURL == None
  {
    assert RequiredFieldsDecode(fields["fareUrl" := fareUrl], h) == RequiredFieldsDecode(fields - {"fareUrl"}, h);
  }

  /**
   * A wire object an agency would be sent as. A missing disclaimer goes out as
   * the empty string, the other optional fields are left out when absent.
   */
  function Encode(a: Agency): JsonValue {
    var required := map[
      "disclaimer" := JString(a.disclaimer.GetOr("")),
      "id" := JString(a.id),
      "lang" := JString(a.language),
      "name" := JString(a.name),
      "phone" := JString(a.phone),
      "privateService" := JBool(a.isPrivateService),
      "timezone" := JString(a.timeZone),
      "url" := JString(a.agencyURL.absoluteString)];
    var withEmail := if a.email.Some? then required["email" := JString(a.email.value)] else required;
    JObject(if a.fareURL.Some? then withEmail["fareUrl" := JString(a.fareURL.value.absoluteString)] else withEmail)
  }

  /** An agency that decoding can produce: no blank strings where they are nilified, parsable URLs. */
  predicate Representable(a: Agency, h: Helpers) {
    && (a.disclaimer.Some? ==> !h.isBlank(a.disclaimer.value))
    && (a.disclaimer.None? ==> h.isBlank(""))
    && (a.email.Some? ==> !h.isBlank(a.email.value))
    && (a.fareURL.Some? ==> h.isValidURL(a.fareURL.value.absoluteString))
    && h.isValidURL(a.agencyURL.absoluteString)
  }

  /** What each wire key of an encoded agency holds. */
  lemma EncodedFields(a: Agency)
    ensures Encode(a).JObject?
    ensures var fields := Encode(a).fields;
      && fields["disclaimer"] == JString(a.disclaimer.GetOr(""))
      && fields["id"] == JString(a.id)
      && fields["lang"] == JString(a.language)
      && fields["name"] == JString(a.name)
      && fields["phone"] == JString(a.phone)
      && fields["privateService"] == JBool(a.isPrivateService)
      && fields["timezone"] == JString(a.timeZone)
      && fields["url"] == JString(a.agencyURL.absoluteString)
      && ("email" in fields <==> a.email.Some?)
      && (a.email.Some? ==> fields["email"] == JString(a.email.value))
      && ("fareUrl" in fields <==> a.fareURL.Some?)
      && (a.fareURL.Some? ==> fields["fareUrl"] == JString(a.fareURL.value.absoluteString))
  {
  }

  /** Decoding what an agency is sent as gives back that agency. */
  lemma {:induction false} DecodeEncode(a: Agency, h: Helpers)
    requires Representable(a, h)
    ensures Decode(Encode(a), h) == Success(a)
  {
    EncodedFields(a);
    var fields := Encode(a).fields;
    assert RequiredFieldsDecode(fields, h);
    var e := ExpectedAgency(fields, h);
    assert e.disclaimer == a.disclaimer;
    assert e.email == a.email;
    assert e.fareURL == a.fareURL;
    assert e.agencyURL == a.agencyURL;
  }
}
