/** The client of the callstats.io REST API: the bounded buffer that collects a
    response, the requests (URLs, form data, JSON payloads) built from a
    `user_info`, and how each call reads the backend's reply.  The transport
    itself is not modelled: a reply is given as whether the transfer succeeded,
    the HTTP code and the parsed JSON object. */
module Callstats {
  import opened Wrappers
  import opened Text
  import opened DataStore

  newtype byte = b: int | 0 <= b < 256

  /** `BUFFER_SIZE`: 10 KB, for responses and for every formatted string. */
  const BUFFER_SIZE: int := 10 * 1024

  /** `write_response` accepts `n` more bytes at `pos` only while a terminating
      zero still fits after them, with one byte to spare. */
  predicate Fits(pos: int, n: int) {
    pos + n < BUFFER_SIZE - 1
  }

  /** The buffer contents after one call of `write_response`: the chunk
      appended, or nothing when the chunk is refused. */
  function Appended(body: seq<byte>, chunk: seq<byte>): Option<seq<byte>> {
    if Fits(|body|, |chunk|) then Some(body + chunk) else None
  }

  /** `struct write_result`: the response buffer and its fill cursor. */
  class WriteResult {
    var data: array<byte>
    var pos: int

    ghost predicate Valid()
      reads this
    {
      data.Length == BUFFER_SIZE && 0 <= pos <= BUFFER_SIZE - 2
    }

    /** The bytes received so far. */
    ghost function Body(): seq<byte>
      reads this, data
      requires Valid()
    {
      data[..pos]
    }

    constructor ()
      ensures Valid() && fresh(data) && pos == 0 && Body() == []
    {
      data := new byte[BUFFER_SIZE](_ => 0);
      pos := 0;
    }

    /** The libcurl write callback: copies `size * nmemb` bytes to `data[pos..]`
        and advances `pos`, or refuses the whole chunk and returns 0. */
    method WriteResponse(ptr: seq<byte>, size: int, nmemb: int) returns (written: int)
      requires Valid()
      requires size >= 0 && nmemb >= 0 && |ptr| == size * nmemb
      modifies this, data
      ensures Valid() && data == old(data)
      ensures Fits(old(pos), |ptr|) ==>
        written == |ptr| && pos == old(pos) + |ptr| &&
        data[..] == old(data[..])[..old(pos)] + ptr + old(data[..])[old(pos) + |ptr|..]
      ensures !Fits(old(pos), |ptr|) ==> written == 0 && pos == old(pos) && data[..] == old(data[..])
      ensures Appended(old(Body()), ptr) == if written == 0 && ptr != [] then None else Some(Body())
    {
      var n := size * nmemb;
      if pos + n >= BUFFER_SIZE - 1 {
        return 0;
      }
      forall i | 0 <= i < n {
        data[pos + i] := ptr[i];
      }
      assert data[..] == old(data[..])[..pos] + ptr + old(data[..])[pos + n..];
      assert data[..pos + n] == old(data[..])[..pos] + ptr;
      pos := pos + n;
      written := n;
    }

    /** `data[res.pos] = '\0'`: always inside the buffer, and it leaves the
        received bytes alone. */
    method Terminate()
      requires Valid()
      modifies data
      ensures Valid() && data[pos] == 0 && Body() == old(Body())
    {
      data[pos] := 0;
    }
  }

  function Concat(chunks: seq<seq<byte>>): seq<byte> {
    if chunks == [] then [] else chunks[0] + Concat(chunks[1..])
  }

  /** What the buffer holds after libcurl hands over `chunks` one by one, and
      whether every chunk was accepted; libcurl abandons the transfer at the
      first chunk the callback refuses. */
  function Absorbed(body: seq<byte>, chunks: seq<seq<byte>>): (seq<byte>, bool)
    decreases |chunks|
  {
    if chunks == [] then (body, true)
    else
      match Appended(body, chunks[0])
      case None => (body, chunks[0] == [])
      case Some(b) => Absorbed(b, chunks[1..])
  }

  /** A whole transfer is accepted exactly when the response leaves room for
      the terminator; then the buffer holds the response in order, and in every
      case it stays short enough for the terminator to fit. */
  lemma {:induction false} AbsorbedTransfer(body: seq<byte>, chunks: seq<seq<byte>>)
    requires |body| <= BUFFER_SIZE - 2
    ensures |Absorbed(body, chunks).0| <= BUFFER_SIZE - 2
    ensures Absorbed(body, chunks).1 <==> |body| + |Concat(chunks)| < BUFFER_SIZE - 1
    ensures Absorbed(body, chunks).1 ==> Absorbed(body, chunks).0 == body + Concat(chunks)
    decreases |chunks|
  {
    if chunks != [] {
      if Fits(|body|, |chunks[0]|) {
        AbsorbedTransfer(body + chunks[0], chunks[1..]);
        assert body + chunks[0] + Concat(chunks[1..]) == body + Concat(chunks);
      } else {
        assert chunks[0] != [];
        assert |Concat(chunks)| >= |chunks[0]|;
      }
    }
  }

  // ---------------------------------------------------------------------
  // Replies

  /** A JSON value of the reply object, as far as the client looks at it. */
  datatype Json = JString(s: string) | JOther

  /** A reply from a backend: whether `curl_easy_perform` succeeded (a
      response too big for the buffer makes it fail), the HTTP code, and the
      reply's JSON object (`None` when the body does not parse). */
  datatype Reply = Reply(transportOk: bool, code: int, body: Option<map<string, Json>>)

  /** The reply was received in full with code 200 and parses. */
  predicate Ok200(r: Reply) {
    r.transportOk && r.code == 200 && r.body.Some?
  }

  /** The success rule of the event calls, stated on its own. */
  predicate Succeeded(r: Reply) {
    Ok200(r) && "status" in r.body.value && r.body.value["status"] == JString("success")
  }

  /** The decision of the event calls, in the order the source checks. */
  function Delivered(r: Reply): bool {
    if !r.transportOk then false
    else if r.code != 200 then false
    else
      match r.body
      case None => false
      case Some(obj) =>
        if "status" !in obj then false
        else
          match obj["status"]
          case JOther => false
          case JString(s) => s == "success"
  }

  /** The string under `key` of a reply, checked in the source's order. */
  function StringField(r: Reply, key: string): Option<string> {
    if !r.transportOk then None
    else if r.code != 200 then None
    else
      match r.body
      case None => None
      case Some(obj) =>
        if key !in obj then None
        else
          match obj[key]
          case JOther => None
          case JString(s) => Some(s)
  }

  // ---------------------------------------------------------------------
  // Requests

  const EventsHost: string := "https://events.callstats.io"
  const StatsHost: string := "https://stats.callstats.io"
  const AuthUrl: string := "https://auth.callstats.io/authenticate"

  /** `snprintf` into a `BUFFER_SIZE` buffer keeps at most `BUFFER_SIZE - 1`
      characters: the whole string when it fits, else exactly that many. */
  function Bounded(s: string): (r: string)
    ensures |r| <= BUFFER_SIZE - 1 && |r| <= |s| && r == s[..|r|]
    ensures |s| <= BUFFER_SIZE - 1 ==> r == s
    ensures |s| > BUFFER_SIZE - 1 ==> |r| == BUFFER_SIZE - 1
  {
    if |s| <= BUFFER_SIZE - 1 then s else s[..BUFFER_SIZE - 1]
  }

  /** A JSON value of a request payload; `Timestamp` holds the timestamp
      argument undivided, where the source sends `timestamp / 1000.0`. */
  datatype Value = Str(s: string) | Timestamp(raw: int) | Obj(fields: map<string, string>)

  /** The top-level keys of an event payload. */
  datatype Key = LocalID | DeviceID | TimestampKey | RemoteID | ConnectionID | EventType | EndpointInfo

  /** The key as it appears in the JSON text. */
  function Name(k: Key): string {
    match k
    case LocalID => "localID"
    case DeviceID => "deviceID"
    case TimestampKey => "timestamp"
    case RemoteID => "remoteID"
    case ConnectionID => "connectionID"
    case EventType => "eventType"
    case EndpointInfo => "endpointInfo"
  }

  /** Different keys are spelled differently, so a payload map is a JSON
      object with the same members. */
  lemma NameInjective(a: Key, b: Key)
    requires a != b
    ensures Name(a) != Name(b)
  {
    if |Name(a)| == |Name(b)| {
      assert Name(a)[0] != Name(b)[0];
    }
  }

  /** An HTTP POST to the analytics backend: a JSON payload with the bearer
      header, or the authentication form. */
  datatype Request =
    | Post(url: string, bearer: string, payload: map<Key, Value>)
    | FormPost(url: string, form: string)

  /** `json_object_set_new(obj, key, json_string(v))`: nothing is set when `v`
      is NULL. */
  function Entry(key: Key, v: Option<string>): map<Key, Value> {
    if v.Some? then map[key := Str(v.value)] else map[]
  }

  /** `localID`, `deviceID` and `timestamp`, common to every event payload. */
  function Identity(user: UserInfo, timestamp: int): map<Key, Value> {
    Entry(LocalID, user.userId) + Entry(DeviceID, user.deviceId) + map[TimestampKey := Timestamp(timestamp)]
  }

  function ConferenceUrl(host: string, appId: string, confId: string): string {
    host + "/v1/apps/" + appId + "/conferences/" + confId
  }

  /** The URL of a per-connection event: the conference URL, then the
      connection id and the event's path. */
  function EventUrl(host: string, appId: string, user: UserInfo, suffix: string): string {
    Bounded(ConferenceUrl(host, appId, Printed(user.confId)) + "/" + Printed(user.ucId) + suffix)
  }

  function Bearer(user: UserInfo): string {
    Bounded("Authorization: Bearer " + Printed(user.token))
  }

  /** The outcome of a call that reports success or failure. */
  datatype Posted = Posted(request: Request, delivered: bool)

  /** The two identity-only events: `user/alive` and `user/left` build the
      same request and differ only in the path they post to. */
  function IdentityPost(appId: string, user: UserInfo, timestamp: int, reply: Reply, path: string): (r: Posted)
    ensures r.request.url == EventUrl(EventsHost, appId, user, path)
    ensures r.request.Post? && r.request.payload.Keys <= {LocalID, DeviceID, TimestampKey}
    ensures r.delivered <==> Succeeded(reply)
  {
    Posted(Post(EventUrl(EventsHost, appId, user, path), Bearer(user),
      Identity(user, timestamp)), Delivered(reply))
  }

  function UserAlive(appId: string, user: UserInfo, timestamp: int, reply: Reply): Posted {
    IdentityPost(appId, user, timestamp, reply, "/events/user/alive")
  }

  function UserLeft(appId: string, user: UserInfo, timestamp: int, reply: Reply): Posted {
    IdentityPost(appId, user, timestamp, reply, "/events/user/left")
  }

  function FabricPayload(user: UserInfo, timestamp: int): map<Key, Value> {
    Identity(user, timestamp) + map[RemoteID := Str("Janus")] + Entry(ConnectionID, user.ucId)
      + map[EventType := Str("fabricSetup")]
  }

  function FabricSetup(appId: string, user: UserInfo, timestamp: int, reply: Reply): (r: Posted)
    ensures r.request.url == EventUrl(EventsHost, appId, user, "/events/fabric")
    ensures r.delivered <==> Succeeded(reply)
  {
    Posted(Post(EventUrl(EventsHost, appId, user, "/events/fabric"), Bearer(user),
      FabricPayload(user, timestamp)), Delivered(reply))
  }

  /** The conference-stats event: the identity keys, the fixed remote id and
      the record's connection id, and exactly these five keys when the record
      is complete. */
  function ConfStats(appId: string, user: UserInfo, timestamp: int, reply: Reply): (r: Posted)
    ensures r.request.url == EventUrl(StatsHost, appId, user, "/events/stats")
    ensures r.request.Post?
    ensures var p := r.request.payload;
      TimestampKey in p && RemoteID in p && p.Keys <= {LocalID, DeviceID, TimestampKey, RemoteID, ConnectionID} &&
      p[RemoteID] == Str("Janus") && p[TimestampKey] == Timestamp(timestamp) &&
      (ConnectionID in p <==> user.ucId.Some?) &&
      (user.ucId.Some? ==> p[ConnectionID] == Str(user.ucId.value)) &&
      (user.userId.Some? && user.deviceId.Some? && user.ucId.Some? ==>
        p.Keys == {LocalID, DeviceID, TimestampKey, RemoteID, ConnectionID})
    ensures r.delivered <==> Succeeded(reply)
  {
    Posted(Post(EventUrl(StatsHost, appId, user, "/events/stats"), Bearer(user),
      Identity(user, timestamp) + map[RemoteID := Str("Janus")] + Entry(ConnectionID, user.ucId)),
      Delivered(reply))
  }

  /** The fabric payload carries exactly its six keys, with the fixed remote id
      and event type and the connection id from the record. */
  lemma FabricKeys(user: UserInfo, timestamp: int)
    ensures var p := FabricPayload(user, timestamp);
      p.Keys <= {LocalID, DeviceID, TimestampKey, RemoteID, ConnectionID, EventType} &&
      p[RemoteID] == Str("Janus") && p[EventType] == Str("fabricSetup") &&
      p[TimestampKey] == Timestamp(timestamp) &&
      (user.ucId.Some? ==> p[ConnectionID] == Str(user.ucId.value)) &&
      (user.userId.Some? && user.deviceId.Some? && user.ucId.Some? ==>
        p.Keys == {LocalID, DeviceID, TimestampKey, RemoteID, ConnectionID, EventType})
  {
  }

  /** The outcome of `callstats_user_joined`: the request and the connection
      id the backend assigned, if any. */
  datatype Joined = Joined(request: Request, ucId: Option<string>)

  function JoinPayload(user: UserInfo, timestamp: int, janusVersion: string, appVersion: string): map<Key, Value> {
    Identity(user, timestamp) + map[EndpointInfo := Obj(map[
      "type" := "middlebox", "buildName" := "Janus",
      "buildVersion" := janusVersion, "appVersion" := appVersion])]
  }

  function UserJoined(appId: string, user: UserInfo, timestamp: int, janusVersion: string, appVersion: string, reply: Reply): (r: Joined)
    ensures r.request.url == Bounded(ConferenceUrl(EventsHost, appId, Printed(user.confId)))
    ensures r.ucId.Some? <==> Ok200(reply) && "ucID" in reply.body.value && reply.body.value["ucID"].JString?
    ensures r.ucId.Some? ==> reply.body.value["ucID"] == JString(r.ucId.value)
  {
    Joined(Post(Bounded(ConferenceUrl(EventsHost, appId, Printed(user.confId))), Bearer(user),
      JoinPayload(user, timestamp, janusVersion, appVersion)), StringField(reply, "ucID"))
  }

  /** The form `callstats_authenticate` posts. */
  function AuthForm(jwt: string, userId: Option<string>, appId: string): string {
    Bounded("grant_type=authorization_code&code=" + jwt + "&client_id=" + Printed(userId) + "@" + appId)
  }

  /** The outcome of `callstats_authenticate`: the form sent, if a token could
      be signed, and the access token received. */
  datatype Authenticated = Authenticated(form: Option<string>, accessToken: Option<string>)

  /** `jwt` is the signed assertion, or `None` when the private key could not
      be read or the signing failed. */
  function Authenticate(appId: string, userId: Option<string>, jwt: Option<string>, reply: Reply): (r: Authenticated)
    ensures r.form.Some? <==> jwt.Some?
    ensures r.accessToken.Some? <==>
      jwt.Some? && Ok200(reply) && "access_token" in reply.body.value && reply.body.value["access_token"].JString?
    ensures r.accessToken.Some? ==> reply.body.value["access_token"] == JString(r.accessToken.value)
  {
    match jwt
    case None => Authenticated(None, None)
    case Some(token) => Authenticated(Some(AuthForm(token, userId, appId)), StringField(reply, "access_token"))
  }

  lemma SplitAfter(a: string, b: string, sep: char)
    requires sep !in a
    ensures Split(a + [sep] + b, sep) == [a] + Split(b, sep)
  {
    var s := a + [sep] + b;
    assert s[|a|] == sep;
    var i := IndexOf(s, sep);
    assert s[..|a|] == a;
    assert i == |a|;
    assert s[i + 1..] == b;
  }

  /** Three pieces free of `sep`, joined by it, split back apart. */
  lemma SplitThree(a: string, b: string, c: string, sep: char)
    requires sep !in a && sep !in b && sep !in c
    ensures Split(a + [sep] + (b + [sep] + c), sep) == [a, b, c]
  {
    SplitAfter(a, b + [sep] + c, sep);
    SplitAfter(b, c, sep);
  }

  lemma NoAmpersand(jwt: string, user: string, appId: string)
    requires '&' !in jwt && '&' !in user && '&' !in appId
    ensures '&' !in "code=" + jwt && '&' !in "client_id=" + user + "@" + appId
  {
  }

  /** The form's three fields come back apart when neither the token, the user
      nor the application id contains an `&` and the form fits the buffer. */
  lemma FormSpelled(jwt: string, user: string, appId: string)
    ensures "grant_type=authorization_code&code=" + jwt + "&client_id=" + user + "@" + appId
      == "grant_type=authorization_code" + ['&'] + (("code=" + jwt) + ['&'] + ("client_id=" + user + "@" + appId))
  {
    assert "grant_type=authorization_code&code=" == "grant_type=authorization_code" + ['&'] + "code=";
  }

  lemma AuthFormFields(jwt: string, userId: Option<string>, appId: string)
    requires '&' !in jwt && '&' !in Printed(userId) && '&' !in appId
    requires |"grant_type=authorization_code&code=" + jwt + "&client_id=" + Printed(userId) + "@" + appId| <= BUFFER_SIZE - 1
    ensures Split(AuthForm(jwt, userId, appId), '&')
      == ["grant_type=authorization_code", "code=" + jwt, "client_id=" + Printed(userId) + "@" + appId]
  {
    var user := Printed(userId);
    var code := "code=" + jwt;
    var client := "client_id=" + user + "@" + appId;
    FormSpelled(jwt, user, appId);
    NoAmpersand(jwt, user, appId);
    SplitThree("grant_type=authorization_code", code, client, '&');
  }

  /** `SplitAfter` for the first piece, stated as a drop. */
  lemma DropFirst(a: string, b: string, sep: char)
    requires sep !in a
    ensures |Split(a + [sep] + b, sep)| == 1 + |Split(b, sep)|
    ensures Split(a + [sep] + b, sep)[1..] == Split(b, sep)
  {
    SplitAfter(a, b, sep);
  }

  lemma HostSpelled()
    ensures EventsHost == "https:" + ['/'] + ['/'] + "events.callstats.io"
  {
  }

  lemma AppsSpelled(rest: string)
    ensures "/v1/apps/" + rest == ['/'] + ("v1" + ['/'] + ("apps" + ['/'] + rest))
  {
    assert "/v1/apps/" == ['/'] + "v1" + ['/'] + "apps" + ['/'];
  }

  lemma EventsHostPieces(rest: string)
    ensures EventsHost + "/v1/apps/" + rest
      == "https:" + ['/'] + ("" + ['/'] + ("events.callstats.io" + ['/'] + ("v1" + ['/'] + ("apps" + ['/'] + rest))))
  {
    var host, tail := "events.callstats.io", ['/'] + ("v1" + ['/'] + ("apps" + ['/'] + rest));
    HostSpelled();
    AppsSpelled(rest);
    calc {
      EventsHost + "/v1/apps/" + rest;
      ("https:" + ['/'] + ['/'] + host) + "/v1/apps/" + rest;
      { Reassociate("https:" + ['/'] + ['/'] + host, "/v1/apps/", rest); }
      ("https:" + ['/'] + ['/'] + host) + ("/v1/apps/" + rest);
      "https:" + ['/'] + ("" + ['/'] + (host + tail));
    }
  }

  /** Five pieces free of `sep` in front of `rest` make up the first five
      pieces of the split. */
  lemma DropFive(a0: string, a1: string, a2: string, a3: string, a4: string, rest: string, sep: char)
    requires sep !in a0 && sep !in a1 && sep !in a2 && sep !in a3 && sep !in a4
    ensures var parts := Split(a0 + [sep] + (a1 + [sep] + (a2 + [sep] + (a3 + [sep] + (a4 + [sep] + rest)))), sep);
      |parts| == 5 + |Split(rest, sep)| && parts[5..] == Split(rest, sep)
  {
    DropFirst(a0, a1 + [sep] + (a2 + [sep] + (a3 + [sep] + (a4 + [sep] + rest))), sep);
    DropFirst(a1, a2 + [sep] + (a3 + [sep] + (a4 + [sep] + rest)), sep);
    DropFirst(a2, a3 + [sep] + (a4 + [sep] + rest), sep);
    DropFirst(a3, a4 + [sep] + rest, sep);
    DropFirst(a4, rest, sep);
  }

  /** The fixed start of every event URL makes up its first five pieces. */
  lemma SplitEventsPrefix(rest: string)
    ensures var parts := Split(EventsHost + "/v1/apps/" + rest, '/');
      |parts| == 5 + |Split(rest, '/')| && parts[5..] == Split(rest, '/')
  {
    EventsHostPieces(rest);
    DropFive("https:", "", "events.callstats.io", "v1", "apps", rest, '/');
  }

  /** The first four pieces of a split, when they are free of `sep`. */
  lemma FirstFour(a0: string, a1: string, a2: string, a3: string, rest: string, sep: char)
    requires sep !in a0 && sep !in a1 && sep !in a2 && sep !in a3
    ensures var parts := Split(a0 + [sep] + (a1 + [sep] + (a2 + [sep] + (a3 + [sep] + rest))), sep);
      |parts| >= 4 && parts[0] == a0 && parts[1] == a1 && parts[2] == a2 && parts[3] == a3
  {
    var s3 := a3 + [sep] + rest;
    var s2 := a2 + [sep] + s3;
    var s1 := a1 + [sep] + s2;
    var parts := Split(a0 + [sep] + s1, sep);
    assert parts[0] == a0 && parts[1..] == Split(s1, sep) by { SplitAfter(a0, s1, sep); }
    assert Split(s1, sep)[0] == a1 && Split(s1, sep)[1..] == Split(s2, sep) by { SplitAfter(a1, s2, sep); }
    assert Split(s2, sep)[0] == a2 && Split(s2, sep)[1..] == Split(s3, sep) by { SplitAfter(a2, s3, sep); }
    assert Split(s3, sep)[0] == a3 by { SplitAfter(a3, rest, sep); }
  }

  lemma EventUrlPieces(appId: string, user: UserInfo, suffix: string)
    requires suffix != [] && suffix[0] == '/'
    requires |ConferenceUrl(EventsHost, appId, Printed(user.confId)) + "/" + Printed(user.ucId) + suffix| <= BUFFER_SIZE - 1
    ensures EventUrl(EventsHost, appId, user, suffix) == EventsHost + "/v1/apps/" +
      (appId + ['/'] + ("conferences" + ['/'] + (Printed(user.confId) + ['/'] + (Printed(user.ucId) + ['/'] + suffix[1..]))))
  {
    assert "/conferences/" == ['/'] + "conferences" + ['/'];
    assert suffix == ['/'] + suffix[1..];
  }

  /** The application, conference and connection ids come back out of an
      event URL as its sixth, eighth and ninth `/`-separated pieces when none
      of them contains a `/` and the URL fits the buffer. */
  lemma EventUrlFields(appId: string, user: UserInfo, suffix: string)
    requires '/' !in appId && '/' !in Printed(user.confId) && '/' !in Printed(user.ucId)
    requires suffix != [] && suffix[0] == '/'
    requires |ConferenceUrl(EventsHost, appId, Printed(user.confId)) + "/" + Printed(user.ucId) + suffix| <= BUFFER_SIZE - 1
    ensures var parts := Split(EventUrl(EventsHost, appId, user, suffix), '/');
      |parts| >= 9 && parts[5] == appId && parts[7] == Printed(user.confId) && parts[8] == Printed(user.ucId)
  {
    var c, u := Printed(user.confId), Printed(user.ucId);
    var rest := appId + ['/'] + ("conferences" + ['/'] + (c + ['/'] + (u + ['/'] + suffix[1..])));
    EventUrlPieces(appId, user, suffix);
    SplitEventsPrefix(rest);
    FirstFour(appId, "conferences", c, u, suffix[1..], '/');
  }
}
