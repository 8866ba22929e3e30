/** The passcode gate in front of every page: it asks the auth route whether
    the browser's session cookie is live, shows a loading screen until it
    knows, the page when it is, and a passcode form otherwise. */
module AuthGate {
  import opened Text
  import Auth

  /** `authed`: `null` before the check answers, a boolean after, and
      `undefined` when the check's JSON has no `authenticated` field. */
  datatype Authed = Null | Undefined | Known(value: bool)

  /** What a request of the gate gets back: the fetch or its `.json()`
      threw, or a JSON body with or without an `authenticated` field. */
  datatype Response = Threw | Json(authenticated: Option<bool>)

  datatype Screen = Loading | Children | PasscodeForm

  /** The screen is decided by `authed` alone. */
  function ScreenOf(a: Authed): Screen {
    if a == Null then Loading
    else if a == Known(true) then Children
    else PasscodeForm
  }

  /** Loading exactly while the check is pending, the page exactly when
      authenticated, and the form for `false` and for a missing answer. */
  lemma ScreenByAuthed(a: Authed)
    ensures ScreenOf(a) == Loading <==> a == Null
    ensures ScreenOf(a) == Children <==> a == Known(true)
    ensures ScreenOf(a) == PasscodeForm <==> a == Known(false) || a == Undefined
  {
  }

  /** The check's effect on `authed`: the answer, or `false` when it threw. */
  function AfterCheck(r: Response): Authed {
    match r
    case Threw => Known(false)
    case Json(a) => if a.Some? then Known(a.value) else Undefined
  }

  /** Once the check has answered the gate never shows the loading screen,
      and it shows the page exactly when the answer was `true`. */
  lemma CheckLeavesLoading(r: Response)
    ensures ScreenOf(AfterCheck(r)) != Loading
    ensures ScreenOf(AfterCheck(r)) == Children <==> r == Json(Some(true))
  {
  }

  /** The gate's fields. */
  datatype GateState = GateState(authed: Authed, error: string, password: string)

  /** `handlePassword`: the error is cleared, then a truthy `authenticated`
      lets the user in, any other answer reports "Invalid passcode" and
      empties the field, and an exception reports "Auth failed". */
  function PasswordStep(s: GateState, r: Response): GateState {
    var cleared := s.(error := "");
    match r
    case Threw => cleared.(error := "Auth failed")
    case Json(a) =>
      if a == Some(true) then cleared.(authed := Known(true))
      else cleared.(error := "Invalid passcode", password := "")
  }

  /** The three outcomes of a submission, and what each leaves alone. */
  lemma PasswordOutcomes(s: GateState, r: Response)
    ensures var t := PasswordStep(s, r);
      && (r == Json(Some(true)) ==> t == GateState(Known(true), "", s.password))
      && (r.Json? && r != Json(Some(true)) ==> t == GateState(s.authed, "Invalid passcode", ""))
      && (r.Threw? ==> t == GateState(s.authed, "Auth failed", s.password))
  {
  }

  /** A submission lets the user in exactly on a `true` answer, and never
      shows the page otherwise unless it was already showing. */
  lemma PasswordOpensGate(s: GateState, r: Response)
    ensures ScreenOf(PasswordStep(s, r).authed) == Children <==>
      r == Json(Some(true)) || ScreenOf(s.authed) == Children
  {
  }

  /** Enter and the button submit only a non-empty passcode. */
  predicate CanSubmit(password: string) {
    password != ""
  }

  /** What the gate reads from the auth route's reply: a 500 from an
      uncaught exception is not JSON, and only `check` and `password`
      replies carry `authenticated`. */
  function Seen(reply: Auth.Reply): Response {
    match reply
    case Crashed => Threw
    case CheckReply(a) => Json(Some(a))
    case PasswordReply(a, _, _) => Json(Some(a))
    case _ => Json(None)
  }

  /** On mount the gate shows the page exactly when the store holds a live
      session for the browser's cookie, and the passcode form otherwise. */
  lemma CheckFollowsStore(m: map<string, int>, cookie: Option<string>, now: nat, bytes: seq<Auth.byte>,
                          observer: Auth.Observer)
    ensures var (_, reply) := Auth.GetStep(m, Auth.GetRequest(Some("check"), None, cookie), now, bytes, observer);
      && (ScreenOf(AfterCheck(Seen(reply))) == Children <==> Auth.Authenticated(m, cookie, now))
      && (ScreenOf(AfterCheck(Seen(reply))) == PasscodeForm <==> !Auth.Authenticated(m, cookie, now))
  {
  }

  /** A passcode lets the user in exactly when it is the configured one; a
      wrong one empties the field and reports "Invalid passcode". */
  lemma PasswordFollowsRoute(s: GateState, m: map<string, int>, typed: string, configured: string,
                             xff: Option<string>, now: nat, bytes: seq<Auth.byte>, observer: Auth.Observer)
    ensures var req := Auth.PostRequest(Some(Auth.PostBody(Some("password"), Some(typed))), xff);
      var (_, reply) := Auth.PostStep(m, req, configured, now, bytes, observer);
      var t := PasswordStep(s, Seen(reply));
      && (typed == configured ==> t.authed == Known(true) && t.error == "")
      && (typed != configured ==> t.authed == s.authed && t.error == "Invalid passcode" && t.password == "")
  {
  }

  /** Without a configured password, "vkey" opens the gate and any other
      passcode is refused. */
  lemma DefaultPasscode(s: GateState, m: map<string, int>, typed: string,
                        xff: Option<string>, now: nat, bytes: seq<Auth.byte>, observer: Auth.Observer)
    ensures var req := Auth.PostRequest(Some(Auth.PostBody(Some("password"), Some(typed))), xff);
      var (_, reply) := Auth.PostStep(m, req, Auth.ConfiguredPassword(None), now, bytes, observer);
      var t := PasswordStep(s, Seen(reply));
      typed == "vkey" <==> t.authed == Known(true) && t.error == ""
  {
    PasswordFollowsRoute(s, m, typed, Auth.ConfiguredPassword(None), xff, now, bytes, observer);
  }

  /** The gate component's state. */
  class Gate {
    var authed: Authed
    var error: string
    var password: string

    constructor ()
      ensures authed == Null && error == "" && password == ""
    {
      authed, error, password := Null, "", "";
    }

    function State(): GateState
      reads this
    {
      GateState(authed, error, password)
    }

    /** The check on mount answers. */
    method OnCheck(r: Response)
      modifies this`authed
      ensures authed == AfterCheck(r)
    {
      match r
      case Threw => authed := Known(false);
      case Json(a) => authed := if a.Some? then Known(a.value) else Undefined;
    }

    /** The passcode field's `onChange`. */
    method Type(text: string)
      modifies this`password
      ensures password == text
    {
      password := text;
    }

    /** Enter or the button: with an empty passcode nothing happens;
        otherwise the passcode is posted and `r` is what came back. */
    method Submit(r: Response) returns (sent: Option<string>)
      modifies this
      ensures !CanSubmit(old(password)) ==> sent == None && unchanged(this)
      ensures CanSubmit(old(password)) ==> sent == Some(old(password)) && State() == PasswordStep(old(State()), r)
    {
      if !CanSubmit(password) {
        return None;
      }
      sent := Some(password);
      error := "";
      match r
      case Threw =>
        error := "Auth failed";
      case Json(a) =>
        if a == Some(true) {
          authed := Known(true);
        } else {
          error := "Invalid passcode";
          password := "";
        }
    }
  }
}
