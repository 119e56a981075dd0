/** The two pure helpers of the polling client (Smith.MatrixSdk/MatrixClient.cs):
    `SyncEvents`, which turns a `SyncRequest` into the query parameters of
    `GET /sync`, and `Get`, which puts the access token in the Authorization
    header and turns what came back into a snapshot or an error.

    The transport is an outcome handed in from outside (`CallOutcome`): the
    response the server delivered, an aborted call, or a transport fault. */
module MatrixClient {
  import opened Wrappers
  import opened Json
  import opened ApiTypes
  import opened DictionaryEx
  import opened Decimal
  import SyncCodec

  // ---------------------------------------------------------------------------
  // Text helpers: `ToString()` of the query values and `ToLowerInvariant()`

  predicate IsUpper(c: char) { 'A' <= c <= 'Z' }

  function LowerChar(c: char): (r: char)
    ensures !IsUpper(r)
    ensures IsUpper(c) ==> r as int == c as int + 32
    ensures !IsUpper(c) ==> r == c
  {
    if IsUpper(c) then (c as int + 32) as char else c
  }

  /** Invariant-culture lower-casing, restricted to ASCII letters: every text
      the client lower-cases is an ASCII identifier. */
  function ToLower(s: string): (r: string)
    ensures |r| == |s|
    ensures forall i :: 0 <= i < |s| ==> r[i] == LowerChar(s[i])
  {
    seq(|s|, i requires 0 <= i < |s| => LowerChar(s[i]))
  }

  /** `bool.ToString(CultureInfo.InvariantCulture)`. */
  function BoolName(b: bool): string {
    if b then "True" else "False"
  }

  /** `Enum.ToString()`: the member's declared name. */
  function PresenceName(p: SetPresence): string {
    match p
    case Offline => "Offline"
    case Online => "Online"
    case Unavailable => "Unavailable"
  }

  /** The `full_state` value: the lower-cased `ToString()` of the flag. */
  function BoolText(b: bool): (s: string)
    ensures s == (if b then "true" else "false")
  {
    assert ToLower("True") == "true" && ToLower("False") == "false";
    ToLower(BoolName(b))
  }

  /** The `set_presence` value: the lower-cased member name, which the
      reading side maps back to the member. */
  function PresenceText(p: SetPresence): (s: string)
    ensures s in {"offline", "online", "unavailable"}
    ensures ParsePresence(s) == Some(p)
  {
    assert ToLower("Offline") == "offline" && ToLower("Online") == "online";
    assert ToLower("Unavailable") == "unavailable";
    ToLower(PresenceName(p))
  }

  // ---------------------------------------------------------------------------
  // SyncEvents: the query map (MatrixClient.cs:82-89)

  const QueryKeys: set<string> := {"filter", "since", "full_state", "set_presence", "timeout"}

  /** The dictionary literal before filtering: one entry per parameter, null
      where the request has no value. */
  function QueryEntries(r: SyncRequest): (e: map<string, Option<string>>)
    ensures e.Keys == QueryKeys
    ensures e["filter"] == r.filter && e["since"] == r.since
    ensures e["full_state"].Some? <==> r.fullState.Some?
    ensures e["set_presence"].Some? <==> r.setPresence.Some?
    ensures e["timeout"].Some? <==> r.timeout.Some?
  {
    map[
      "filter" := r.filter,
      "since" := r.since,
      "full_state" := (match r.fullState case Some(b) => Some(BoolText(b)) case None => None),
      "set_presence" := (match r.setPresence case Some(p) => Some(PresenceText(p)) case None => None),
      "timeout" := (match r.timeout case Some(t) => Some(IntToDecimal(t)) case None => None)]
  }

  /** The query parameters sent for a request: exactly the parameters with a
      value, each rendered as text. String values go as they are, even empty;
      `full_state` is `true`/`false`; `set_presence` is the lower-case member
      name; `timeout` is decimal text that reads back as the number. */
  function SyncQuery(r: SyncRequest): (q: map<string, string>)
    ensures q.Keys <= QueryKeys
    ensures "filter" in q <==> r.filter.Some?
    ensures "since" in q <==> r.since.Some?
    ensures "full_state" in q <==> r.fullState.Some?
    ensures "set_presence" in q <==> r.setPresence.Some?
    ensures "timeout" in q <==> r.timeout.Some?
    ensures r.filter.Some? ==> q["filter"] == r.filter.value
    ensures r.since.Some? ==> q["since"] == r.since.value
    ensures r.fullState.Some? ==> q["full_state"] == (if r.fullState.value then "true" else "false")
    ensures r.setPresence.Some? ==> q["set_presence"] in {"offline", "online", "unavailable"}
    ensures r.timeout.Some? ==> ParseDecimal(q["timeout"]) == Some(r.timeout.value as int)
  {
    var q := FilterNotNull(QueryEntries(r));
    if r.timeout.Some? then DecimalRoundTrip(r.timeout.value as int); q else q
  }

  // The reading side: what a server makes of the query (the inverse of SyncQuery)

  function ParseBool(s: string): Option<bool> {
    if s == "true" then Some(true) else if s == "false" then Some(false) else None
  }

  function ParsePresence(s: string): Option<SetPresence> {
    if s == "offline" then Some(Offline)
    else if s == "online" then Some(Online)
    else if s == "unavailable" then Some(Unavailable)
    else None
  }

  function ParseTimeout(s: string): Option<Int32> {
    match ParseDecimal(s)
    case Some(i) => if -0x8000_0000 <= i < 0x8000_0000 then Some(i as Int32) else None
    case None => None
  }

  function ParseText(s: string): Option<string> { Some(s) }

  /** An absent key is an absent parameter; a present key must parse. */
  function ParseParameter<T>(q: map<string, string>, key: string, parse: string -> Option<T>): Option<Option<T>> {
    if key !in q then Some(None)
    else match parse(q[key])
      case Some(v) => Some(Some(v))
      case None => None
  }

  /** A query map back to the request it encodes; None for an unknown key or
      a value the client would not have written. */
  function ParseSyncQuery(q: map<string, string>): Option<SyncRequest> {
    if !(q.Keys <= QueryKeys) then None
    else match (ParseParameter(q, "filter", ParseText), ParseParameter(q, "since", ParseText),
                ParseParameter(q, "full_state", ParseBool), ParseParameter(q, "set_presence", ParsePresence),
                ParseParameter(q, "timeout", ParseTimeout))
      case (Some(filter), Some(since), Some(fullState), Some(setPresence), Some(timeout)) =>
        Some(SyncRequest(filter, since, fullState, setPresence, timeout))
      case _ => None
  }

  /** The query carries the whole request: reading it back gives the request. */
  lemma SyncQueryRoundTrip(r: SyncRequest)
    ensures ParseSyncQuery(SyncQuery(r)) == Some(r)
  {
    var q := SyncQuery(r);
    assert ParseParameter(q, "filter", ParseText) == Some(r.filter);
    assert ParseParameter(q, "since", ParseText) == Some(r.since);
    assert ParseParameter(q, "full_state", ParseBool) == Some(r.fullState);
    assert ParseParameter(q, "set_presence", ParsePresence) == Some(r.setPresence);
    assert ParseParameter(q, "timeout", ParseTimeout) == Some(r.timeout);
  }

  /** Different requests are sent as different queries. */
  lemma SyncQueryInjective(a: SyncRequest, b: SyncRequest)
    requires SyncQuery(a) == SyncQuery(b)
    ensures a == b
  {
    SyncQueryRoundTrip(a);
    SyncQueryRoundTrip(b);
  }

  /** Moving the cursor changes the `since` parameter and nothing else. */
  lemma SyncQueryWithSince(r: SyncRequest, since: string)
    ensures SyncQuery(r.(since := Some(since))) == SyncQuery(r)["since" := since]
  {
    var e := QueryEntries(r);
    var e' := QueryEntries(r.(since := Some(since)));
    assert e'.Keys == e["since" := Some(since)].Keys;
    assert e' == e["since" := Some(since)];
    FilterNotNullUpdate(e, "since", since);
  }

  /** The first request of a polling session sends the timeout and nothing else. */
  lemma FirstQuery(timeout: Int32)
    ensures SyncQuery(DefaultSyncRequest.(timeout := Some(timeout))) == map["timeout" := IntToDecimal(timeout)]
  {
  }

  // ---------------------------------------------------------------------------
  // Get: the request (MatrixClient.cs:100-107)

  /** An `Authorization` header value: a scheme and its parameter. */
  datatype AuthHeader = AuthHeader(scheme: string, parameter: string)

  datatype HttpMethod = Get | Post

  /** The request as it leaves the client: the query is kept as a map (how
      `QueryHelpers.AddQueryString` escapes it into the URI is not modelled). */
  datatype HttpRequest = HttpRequest(verb: HttpMethod, uri: string, query: map<string, string>, authorization: AuthHeader)

  /** The header's wire text: the scheme, then one space and the parameter
      when there is one. */
  function HeaderText(h: AuthHeader): (t: string)
    ensures |t| >= |h.scheme| && t[..|h.scheme|] == h.scheme
    ensures t == h.scheme <==> h.parameter == ""
    ensures h.parameter != "" ==> t[|h.scheme|] == ' ' && t[|h.scheme| + 1..] == h.parameter
  {
    if h.parameter == "" then h.scheme else h.scheme + " " + h.parameter
  }

  /** Position of the first `c` in `s`. */
  function IndexOf(s: string, c: char): (i: nat)
    requires c in s
    ensures i < |s| && s[i] == c && c !in s[..i]
  {
    if s[0] == c then 0 else 1 + IndexOf(s[1..], c)
  }

  /** The reading side of the header: the scheme runs to the first space. */
  function ParseAuthHeader(text: string): AuthHeader {
    if ' ' in text then
      var i := IndexOf(text, ' ');
      AuthHeader(text[..i], text[i + 1..])
    else AuthHeader(text, "")
  }

  /** A header whose scheme has no space reads back as itself. */
  lemma AuthHeaderRoundTrip(h: AuthHeader)
    requires ' ' !in h.scheme
    ensures ParseAuthHeader(HeaderText(h)) == h
  {
    if h.parameter != "" {
      var text := HeaderText(h);
      var i := IndexOf(text, ' ');
      assert text[|h.scheme|] == ' ';
      assert forall k :: 0 <= k < |h.scheme| ==> text[k] == h.scheme[k];
      assert i == |h.scheme|;
      assert text[..i] == h.scheme;
      assert text[i + 1..] == h.parameter;
    }
  }

  /** The GET request `Get` sends: the query as given and the token under the
      `Bearer` scheme (section 2.1 of RFC 6750), on the wire as
      `Bearer <token>`. */
  function GetRequest(uri: string, accessToken: string, query: map<string, string>): (req: HttpRequest)
    ensures req.verb == Get && req.uri == uri && req.query == query
    ensures ParseAuthHeader(HeaderText(req.authorization)) == AuthHeader("Bearer", accessToken)
    ensures accessToken != "" ==> HeaderText(req.authorization) == "Bearer " + accessToken
  {
    var h := AuthHeader("Bearer", accessToken);
    AuthHeaderRoundTrip(h);
    HttpRequest(Get, uri, query, h)
  }

  /** `SyncEvents`: the sync endpoint with the request's query. */
  function SyncCall(uri: string, accessToken: string, r: SyncRequest): (req: HttpRequest)
    ensures req.authorization == AuthHeader("Bearer", accessToken)
    ensures ParseSyncQuery(req.query) == Some(r)
  {
    SyncQueryRoundTrip(r);
    GetRequest(uri, accessToken, SyncQuery(r))
  }

  // ---------------------------------------------------------------------------
  // Get: the outcome (MatrixClient.cs:109-114)

  /** What one call came back with. `Delivered` carries the status code and
      the body as JSON; `Aborted` is a cancelled call (`TaskCanceledException`);
      `Faulted` any other failure of the transport. */
  datatype CallOutcome = Delivered(status: int, body: Json) | Aborted | Faulted(reason: string)

  /** Why a call failed. `CallCancelled` is the only one the polling loop
      treats as a completion rather than an error. */
  datatype CallError =
    | HttpStatus(code: int)       // EnsureSuccessStatusCode
    | NullBody                    // the body deserialised to null (NotNull)
    | BadBody(cause: DecodeError) // the body is not a snapshot
    | Transport(reason: string)
    | CallCancelled

  predicate IsSuccessStatus(status: int) { 200 <= status <= 299 }

  /** The result of `Get`: a non-2xx status fails with its code before the
      body is looked at; a `null` body fails; otherwise the body is decoded. */
  function GetResult<T>(outcome: CallOutcome, decode: Decoder<T>): (r: Result<T, CallError>)
    ensures r.Success? <==>
      outcome.Delivered? && IsSuccessStatus(outcome.status) && outcome.body != JNull && decode(outcome.body).Success?
    ensures r.Success? ==> decode(outcome.body) == Success(r.value)
    ensures outcome.Delivered? && !IsSuccessStatus(outcome.status) ==> r == Failure(HttpStatus(outcome.status))
    ensures r == Failure(CallCancelled) <==> outcome.Aborted?
  {
    match outcome
    case Aborted => Failure(CallCancelled)
    case Faulted(reason) => Failure(Transport(reason))
    case Delivered(status, body) =>
      if !IsSuccessStatus(status) then Failure(HttpStatus(status))
      else if body.JNull? then Failure(NullBody)
      else match decode(body)
        case Success(v) => Success(v)
        case Failure(e) => Failure(BadBody(e))
  }

  /** The body of an error response is never decoded: any two bodies give the
      same result. */
  lemma ErrorStatusIgnoresBody<T>(status: int, b1: Json, b2: Json, decode: Decoder<T>)
    requires !IsSuccessStatus(status)
    ensures GetResult(Delivered(status, b1), decode) == GetResult(Delivered(status, b2), decode)
  {
  }

  /** The outcome of one sync call. */
  function SyncResult(outcome: CallOutcome): (r: Result<SyncResponse, CallError>)
    ensures r.Success? ==> outcome.Delivered? && SyncCodec.DecodeSyncResponse(outcome.body) == Success(r.value)
    ensures r.Success? ==> SyncCodec.WfSyncResponse(r.value)
    ensures r == Failure(CallCancelled) <==> outcome.Aborted?
  {
    GetResult(outcome, SyncCodec.DecodeSyncResponse)
  }

  /** A successful sync call returns what the server sent: encoding the
      snapshot gives back a body that decodes to the same snapshot. */
  lemma SyncResultIsBody(outcome: CallOutcome)
    requires SyncResult(outcome).Success?
    ensures var v := SyncResult(outcome).value;
      SyncCodec.DecodeSyncResponse(SyncCodec.EncodeSyncResponse(v)) == Success(v)
  {
    SyncCodec.SyncResponseReencodeStable(outcome.body);
  }
}
