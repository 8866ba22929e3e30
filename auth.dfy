/** The session store and the two handlers of `/api/auth`: a password or an
    approved observer poll issues a 24-hour session token, kept in a
    process-wide map from token to expiry (milliseconds) and swept of expired
    entries before each issue; `check` asks whether a cookie's token is live. */
module Auth {
  import opened Text

  newtype byte = x: int | 0 <= x < 256

  const SessionCookie := "axe_session"
  /** `SESSION_TTL`, in seconds. */
  const SessionTtl := 60 * 60 * 24
  /** The lifetime of a session in the store, in milliseconds. */
  const SessionTtlMs := SessionTtl * 1000
  /** The length of `generateSession`'s random input, in bytes. */
  const TokenBytes := 32

  /** `process.env.AUTH_PASSWORD || "vkey"`. */
  function ConfiguredPassword(env: Option<string>): (password: string)
    ensures Truthy(env) ==> password == env.value
    ensures !Truthy(env) ==> password == "vkey"
  {
    Or(env, "vkey")
  }

  // ------------------------------------------------------------- tokens

  function HexDigit(d: nat): char
    requires d < 16
  {
    "0123456789abcdef"[d]
  }

  /** `n.toString(16)`: lower-case hex digits without leading zeros. */
  function ToHex(n: nat): (r: string)
    ensures 1 <= |r|
    ensures n < 16 <==> |r| == 1
    decreases n
  {
    if n < 16 then [HexDigit(n)] else ToHex(n / 16) + [HexDigit(n % 16)]
  }

  /** `s.padStart(n, c)`. */
  function PadStart(s: string, n: nat, c: char): string {
    if |s| >= n then s else seq(n - |s|, _ => c) + s
  }

  /** `b.toString(16).padStart(2, "0")`. */
  function ByteToHex(b: byte): string {
    PadStart(ToHex(b as nat), 2, '0')
  }

  /** Each byte becomes exactly two hex digits: its high nibble, then its low
      nibble, zero-padded. */
  lemma ByteToHexDigits(b: byte)
    ensures ByteToHex(b) == [HexDigit(b as nat / 16), HexDigit(b as nat % 16)]
  {
    var n := b as nat;
    if n >= 16 {
      assert ToHex(n / 16) == [HexDigit(n / 16)];
    }
  }

  /** `Array.from(bytes, ByteToHex).join("")`: the session token. */
  function GenerateSession(bytes: seq<byte>): string {
    if bytes == [] then "" else ByteToHex(bytes[0]) + GenerateSession(bytes[1..])
  }

  /** The value of a lower-case hex digit. */
  function HexValue(c: char): Option<nat> {
    if '0' <= c <= '9' then Some(c as int - '0' as int)
    else if 'a' <= c <= 'f' then Some(c as int - 'a' as int + 10)
    else None
  }

  /** Reads a token back into the bytes it encodes: two digits per byte. */
  function DecodeToken(s: string): Option<seq<byte>>
    decreases |s|
  {
    if s == [] then Some([])
    else if |s| == 1 then None
    else
      match (HexValue(s[0]), HexValue(s[1]), DecodeToken(s[2..]))
      case (Some(hi), Some(lo), Some(rest)) => Some([(16 * hi + lo) as byte] + rest)
      case _ => None
  }

  lemma HexDigitValue(d: nat)
    requires d < 16
    ensures HexValue(HexDigit(d)) == Some(d)
  {
  }

  /** A token has two lower-case hex digits per byte, and decoding it gives
      back the bytes it was made from, in order. */
  lemma {:induction false} TokenRoundTrip(bytes: seq<byte>)
    ensures |GenerateSession(bytes)| == 2 * |bytes|
    ensures forall i :: 0 <= i < |GenerateSession(bytes)| ==> HexValue(GenerateSession(bytes)[i]).Some?
    ensures DecodeToken(GenerateSession(bytes)) == Some(bytes)
  {
    if bytes != [] {
      var b := bytes[0] as nat;
      ByteToHexDigits(bytes[0]);
      HexDigitValue(b / 16);
      HexDigitValue(b % 16);
      TokenRoundTrip(bytes[1..]);
      var s := GenerateSession(bytes);
      assert s[2..] == GenerateSession(bytes[1..]);
      assert [bytes[0]] + bytes[1..] == bytes;
    }
  }

  /** Thirty-two random bytes make a 64-character token. */
  lemma TokenLength(bytes: seq<byte>)
    requires |bytes| == TokenBytes
    ensures |GenerateSession(bytes)| == 64
  {
    TokenRoundTrip(bytes);
  }

  // -------------------------------------------------------- store contents

  /** The store after `cleanSessions`: every entry whose expiry is not before
      `now`, unchanged. */
  function Swept(m: map<string, int>, now: int): map<string, int> {
    map t | t in m && m[t] >= now :: m[t]
  }

  /** The store after issuing `token`: swept, then the token mapped to a
      24-hour expiry. */
  function Issued(m: map<string, int>, token: string, now: int): map<string, int> {
    Swept(m, now)[token := now + SessionTtlMs]
  }

  /** The `check` action's verdict: a cookie whose token the store holds with a
      truthy expiry later than `now`. */
  predicate Authenticated(m: map<string, int>, cookie: Option<string>, now: int) {
    cookie.Some? && cookie.value in m && m[cookie.value] != 0 && m[cookie.value] > now
  }

  /** With the clock's non-negative time, the truthiness test on the expiry
      adds nothing: a session is live exactly when its expiry is later than
      now. */
  lemma AuthenticatedIffLive(m: map<string, int>, cookie: Option<string>, now: nat)
    ensures Authenticated(m, cookie, now) <==> cookie.Some? && cookie.value in m && m[cookie.value] > now
  {
  }

  /** The sweep removes exactly the entries that expired before `now`,
      keeps an entry that expires at `now`, and changes no value. */
  lemma SweptExactly(m: map<string, int>, now: int)
    ensures forall t :: t in Swept(m, now) <==> t in m && m[t] >= now
    ensures forall t :: t in Swept(m, now) ==> Swept(m, now)[t] == m[t]
  {
  }

  /** An entry expiring exactly at `now` survives the sweep, yet `check`
      already rejects it. */
  lemma SweepKeepsBoundary(m: map<string, int>, token: string, now: int)
    requires token in m && m[token] == now
    ensures token in Swept(m, now)
    ensures !Authenticated(Swept(m, now), Some(token), now)
  {
  }

  /** Sweeping at `now` changes no `check` answer at `now` or later. */
  lemma SweepPreservesCheck(m: map<string, int>, cookie: Option<string>, now: int, later: int)
    requires now <= later
    ensures Authenticated(Swept(m, now), cookie, later) == Authenticated(m, cookie, later)
  {
  }

  /** A freshly issued token passes `check` for exactly the next 24 hours. */
  lemma IssuedThenCheck(m: map<string, int>, token: string, now: nat, later: nat)
    ensures Authenticated(Issued(m, token, now), Some(token), later) <==> later < now + SessionTtlMs
  {
  }

  /** Issuing a token leaves every other token's `check` answer from `now` on
      unchanged, and adds no entry besides the token. */
  lemma IssuedOthers(m: map<string, int>, token: string, other: string, now: int, later: int)
    requires other != token && now <= later
    ensures Authenticated(Issued(m, token, now), Some(other), later) == Authenticated(m, Some(other), later)
    ensures Issued(m, token, now).Keys <= m.Keys + {token}
    ensures token in Issued(m, token, now)
  {
  }

  // ------------------------------------------------------------- requests

  /** `GET /api/auth?action=…&session_id=…` with the request's cookie. */
  datatype GetRequest = GetRequest(action: Option<string>, sessionId: Option<string>, cookie: Option<string>)

  /** The body of `POST /api/auth`, when it parses, and the
      `x-forwarded-for` header. */
  datatype PostBody = PostBody(action: Option<string>, password: Option<string>)
  datatype PostRequest = PostRequest(body: Option<PostBody>, forwardedFor: Option<string>)

  /** What `fetch(<observer>/auth/check/<id>)` and `res.json()` yield: a
      status field, or a failure (network error or unparsable body). */
  datatype CheckOutcome = CheckFailed | Checked(status: Option<string>)

  /** The JSON body posted to `<observer>/auth/start`. */
  datatype StartRequest = StartRequest(appId: string, email: string, ip: string)

  /** What `<observer>/auth/start` yields. */
  datatype StartOutcome = StartFailed | Started(sessionId: Option<string>, code: Option<string>, expiresIn: Option<int>)

  /** The remote observer service, as the handlers see it. */
  datatype Observer = Observer(check: string -> CheckOutcome, start: StartRequest -> StartOutcome)

  datatype Reply =
    | CheckReply(authenticated: bool)
      /** `{status}`, with the session cookie set when the status is "approved". */
    | PollReply(status: Option<string>, sessionCookie: Option<string>)
      /** `{status: "error"}` with 502. */
    | UpstreamFailed
      /** `{authenticated}`, with the cookie on success and "Invalid password" otherwise. */
    | PasswordReply(authenticated: bool, sessionCookie: Option<string>, error: Option<string>)
    | UnlockReply(sessionId: Option<string>, code: Option<string>, expiresIn: Option<int>)
    | Failure(httpStatus: nat, message: string)
      /** An exception the handler does not catch; the framework answers 500. */
    | Crashed

  function HttpStatus(r: Reply): nat {
    match r
    case UpstreamFailed => 502
    case Failure(httpStatus, _) => httpStatus
    case Crashed => 500
    case _ => 200
  }

  /** The body the unlock action posts to the observer. */
  function StartRequestFor(forwardedFor: Option<string>): StartRequest {
    StartRequest("axe-live", "james@axe.observer", Or(forwardedFor, "unknown"))
  }

  /** `GET`: the reply and the store afterwards, for a store `m`, the clock
      `now` and the random bytes the token would be made from. */
  function GetStep(m: map<string, int>, req: GetRequest, now: nat, bytes: seq<byte>, observer: Observer)
    : (map<string, int>, Reply)
  {
    if req.action == Some("check") then
      (m, CheckReply(Authenticated(m, req.cookie, now)))
    else if req.action == Some("poll") then
      if !Truthy(req.sessionId) then (m, Failure(400, "Missing session_id"))
      else
        match observer.check(req.sessionId.value)
        case CheckFailed => (m, UpstreamFailed)
        case Checked(status) =>
          if status == Some("approved") then
            var token := GenerateSession(bytes);
            (Issued(m, token, now), PollReply(status, Some(token)))
          else (m, PollReply(status, None))
    else (m, Failure(400, "Unknown action"))
  }

  /** `POST`: the reply and the store afterwards. */
  function PostStep(m: map<string, int>, req: PostRequest, password: string, now: nat, bytes: seq<byte>,
                    observer: Observer): (map<string, int>, Reply)
  {
    match req.body
    case None => (m, Crashed)
    case Some(body) =>
      if body.action == Some("password") then
        if body.password == Some(password) then
          var token := GenerateSession(bytes);
          (Issued(m, token, now), PasswordReply(true, Some(token), None))
        else (m, PasswordReply(false, None, Some("Invalid password")))
      else if body.action == Some("unlock") then
        match observer.start(StartRequestFor(req.forwardedFor))
        case StartFailed => (m, Failure(502, "Observer unreachable"))
        case Started(sessionId, code, expiresIn) => (m, UnlockReply(sessionId, code, expiresIn))
      else (m, Failure(400, "Unknown action"))
  }

  // -------------------------------------------------- handler properties

  /** `check` never changes the store, and answers by the expiry rule. */
  lemma CheckReadsOnly(m: map<string, int>, req: GetRequest, now: nat, bytes: seq<byte>, observer: Observer)
    requires req.action == Some("check")
    ensures GetStep(m, req, now, bytes, observer).0 == m
    ensures GetStep(m, req, now, bytes, observer).1 == CheckReply(
      req.cookie.Some? && req.cookie.value in m && m[req.cookie.value] > now)
  {
  }

  /** A poll answers 400 without a session id, 502 "error" when the observer
      cannot be read, and echoes any status but "approved"; none of these
      touches the store. */
  lemma PollWithoutIssue(m: map<string, int>, req: GetRequest, now: nat, bytes: seq<byte>, observer: Observer)
    requires req.action == Some("poll")
    ensures !Truthy(req.sessionId) ==>
      GetStep(m, req, now, bytes, observer) == (m, Failure(400, "Missing session_id"))
    ensures Truthy(req.sessionId) && observer.check(req.sessionId.value).CheckFailed? ==>
      GetStep(m, req, now, bytes, observer) == (m, UpstreamFailed)
      && HttpStatus(UpstreamFailed) == 502
    ensures (Truthy(req.sessionId) && observer.check(req.sessionId.value).Checked?
             && observer.check(req.sessionId.value).status != Some("approved")) ==>
      GetStep(m, req, now, bytes, observer) == (m, PollReply(observer.check(req.sessionId.value).status, None))
  {
  }

  /** Every approved poll sweeps and inserts the token made from the given
      bytes, and sets it as the cookie; nothing deduplicates repeated
      approvals. */
  lemma ApprovedPollIssues(m: map<string, int>, req: GetRequest, now: nat, bytes: seq<byte>, observer: Observer)
    requires req.action == Some("poll") && Truthy(req.sessionId)
    requires observer.check(req.sessionId.value) == Checked(Some("approved"))
    ensures var (m', reply) := GetStep(m, req, now, bytes, observer);
      && m' == Issued(m, GenerateSession(bytes), now)
      && reply == PollReply(Some("approved"), Some(GenerateSession(bytes)))
      && Authenticated(m', reply.sessionCookie, now)
  {
  }

  /** A password that is not the configured one is refused and leaves the
      store unchanged; the right one issues a token that passes `check`. */
  lemma PasswordOutcomes(m: map<string, int>, body: PostBody, xff: Option<string>, password: string, now: nat,
                         bytes: seq<byte>, observer: Observer)
    requires body.action == Some("password")
    ensures body.password != Some(password) ==>
      PostStep(m, PostRequest(Some(body), xff), password, now, bytes, observer)
        == (m, PasswordReply(false, None, Some("Invalid password")))
    ensures body.password == Some(password) ==>
      var (m', reply) := PostStep(m, PostRequest(Some(body), xff), password, now, bytes, observer);
      m' == Issued(m, GenerateSession(bytes), now) && reply.authenticated
      && Authenticated(m', reply.sessionCookie, now)
  {
  }

  /** Only an approved poll or the right password changes the store. */
  lemma StoreChangesOnlyOnIssue(m: map<string, int>, get: GetRequest, post: PostRequest, password: string,
                                now: nat, bytes: seq<byte>, observer: Observer)
    ensures GetStep(m, get, now, bytes, observer).0 != m ==>
      get.action == Some("poll") && observer.check(get.sessionId.value) == Checked(Some("approved"))
    ensures PostStep(m, post, password, now, bytes, observer).0 != m ==>
      post.body.Some? && post.body.value.action == Some("password") && post.body.value.password == Some(password)
  {
  }

  /** `unlock` forwards the caller's address (or "unknown") to the observer,
      passes its answer through, and never touches the store. */
  lemma UnlockForwards(m: map<string, int>, req: PostRequest, password: string, now: nat, bytes: seq<byte>,
                       observer: Observer)
    requires req.body.Some? && req.body.value.action == Some("unlock")
    ensures PostStep(m, req, password, now, bytes, observer).0 == m
    ensures var out := observer.start(StartRequest("axe-live", "james@axe.observer", Or(req.forwardedFor, "unknown")));
      PostStep(m, req, password, now, bytes, observer).1 ==
        if out.StartFailed? then Failure(502, "Observer unreachable")
        else UnlockReply(out.sessionId, out.code, out.expiresIn)
  {
  }

  /** Any action other than the known ones is answered 400 "Unknown action",
      by both handlers, without touching the store. */
  lemma UnknownActions(m: map<string, int>, get: GetRequest, body: PostBody, xff: Option<string>, password: string,
                       now: nat, bytes: seq<byte>, observer: Observer)
    requires get.action != Some("check") && get.action != Some("poll")
    requires body.action != Some("password") && body.action != Some("unlock")
    ensures GetStep(m, get, now, bytes, observer) == (m, Failure(400, "Unknown action"))
    ensures PostStep(m, PostRequest(Some(body), xff), password, now, bytes, observer) == (m, Failure(400, "Unknown action"))
  {
  }

  // ------------------------------------------------------------ the store

  /** The module-level `validSessions` map. */
  class SessionStore {
    var sessions: map<string, int>

    constructor ()
      ensures sessions == map[]
    {
      sessions := map[];
    }

    /** `cleanSessions`: deletes, while walking the entries, each one whose
        expiry is before `now`. */
    method CleanSessions(now: int)
      modifies this
      ensures sessions == Swept(old(sessions), now)
    {
      var pending := sessions.Keys;
      while pending != {}
        invariant pending <= old(sessions).Keys
        invariant forall t :: t in sessions <==> t in old(sessions) && (t in pending || old(sessions)[t] >= now)
        invariant forall t :: t in sessions ==> sessions[t] == old(sessions)[t]
        decreases |pending|
      {
        var id :| id in pending;
        if sessions[id] < now {
          sessions := sessions - {id};
        }
        pending := pending - {id};
      }
    }

    /** Sweeps, then stores the token made from `bytes` with a 24-hour expiry. */
    method Issue(bytes: seq<byte>, now: int) returns (token: string)
      modifies this
      ensures token == GenerateSession(bytes)
      ensures sessions == Issued(old(sessions), token, now)
    {
      CleanSessions(now);
      token := GenerateSession(bytes);
      sessions := sessions[token := now + SessionTtlMs];
    }

    /** The `GET` handler. */
    method Get(req: GetRequest, now: nat, bytes: seq<byte>, observer: Observer) returns (reply: Reply)
      modifies this
      ensures (sessions, reply) == GetStep(old(sessions), req, now, bytes, observer)
    {
      if req.action == Some("check") {
        var cookie := req.cookie;
        if cookie.Some? {
          if cookie.value in sessions {
            var exp := sessions[cookie.value];
            if exp != 0 && exp > now {
              return CheckReply(true);
            }
          }
        }
        return CheckReply(false);
      }
      if req.action == Some("poll") {
        var sessionId := req.sessionId;
        if !Truthy(sessionId) {
          return Failure(400, "Missing session_id");
        }
        var data := observer.check(sessionId.value);
        if data.CheckFailed? {
          return UpstreamFailed;
        }
        if data.status == Some("approved") {
          var token := Issue(bytes, now);
          return PollReply(Some("approved"), Some(token));
        }
        return PollReply(data.status, None);
      }
      return Failure(400, "Unknown action");
    }

    /** The `POST` handler, with the configured password. */
    method Post(req: PostRequest, password: string, now: nat, bytes: seq<byte>, observer: Observer)
      returns (reply: Reply)
      modifies this
      ensures (sessions, reply) == PostStep(old(sessions), req, password, now, bytes, observer)
    {
      if req.body.None? {
        return Crashed;
      }
      var body := req.body.value;
      if body.action == Some("password") {
        if body.password == Some(password) {
          var token := Issue(bytes, now);
          return PasswordReply(true, Some(token), None);
        }
        return PasswordReply(false, None, Some("Invalid password"));
      }
      if body.action == Some("unlock") {
        var data := observer.start(StartRequestFor(req.forwardedFor));
        if data.StartFailed? {
          return Failure(502, "Observer unreachable");
        }
        return UnlockReply(data.sessionId, data.code, data.expiresIn);
      }
      return Failure(400, "Unknown action");
    }
  }
}
