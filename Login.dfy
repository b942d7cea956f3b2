/**
 * The login page's submit handler (`handleLogin` in fend/src/pages/Login.jsx):
 * CSRF-cookie handshake, fingerprint, credential POST, normalisation of the
 * returned user, success message, and a role dispatch deferred to a timer;
 * one catch picks the error message and a finally releases the busy flag.
 *
 * The three awaited calls are inputs: each is given as the way its promise
 * settles. What the handler does is recorded as a sequence of effects, so
 * that ordering properties can be stated over it.
 */
module Login {
  import opened Wrappers
  import opened Js

  const SuccessText := "Login successful!"
  const NoDashboardText := "Login successful, but no dashboard yet for this role."
  const FailedText := "Login failed"

  /** The awaited calls of an attempt: the CSRF-cookie GET, the fingerprint
      generator, and the POST of the credentials. */
  datatype Call = CsrfCookie | Fingerprint | LoginPost(body: Value)

  /** What an observer of the page sees happen, in order. */
  datatype Effect =
    | SetLoading(on: bool)
    | Request(call: Call)
    | SetMessage(text: Value)
    | ScheduleDispatch(user: Value)
    | Navigate(path: string)

  /** How the body of the `try` ends: with a user record, or by throwing. */
  datatype Outcome = LoggedIn(user: Value) | Threw(error: Value)

  /** What the deferred role dispatch does. */
  datatype Decision = GoTo(path: string) | StayPut | Notify(text: string)

  /** The TypeError thrown by reading a property of null or undefined; like
      every error that did not come from an HTTP response, it has no
      `response` property. */
  const NullRead: Value := Obj(map["name" := Str("TypeError")])

  /** The JSON body of the credential POST. */
  function LoginBody(email: string, password: string, fingerprint: Value): Value {
    Obj(map["email" := Str(email), "password" := Str(password), "device_id" := fingerprint])
  }

  /** `res.data.user || res.data`; `None` when `res.data` is null or
      undefined, where the read of `.user` throws. */
  function NormalizeUser(data: Value): (user: Option<Value>)
    ensures user.None? <==> Nullish(data)
    ensures user.Some? ==> !Nullish(user.value)
    ensures user.Some? && Truthy(Get(data, "user")) ==> user.value == Get(data, "user")
    ensures user.Some? && !Truthy(Get(data, "user")) ==> user.value == data
  {
    if Nullish(data) then None else Some(Or(Get(data, "user"), data))
  }

  function RoleOf(user: Value): Value
    requires !Nullish(user)
  {
    Get(user, "role")
  }

  /** The role comparison chain run by the timer; `===` on strings. */
  function Dispatch(user: Value): (d: Decision)
    requires !Nullish(user)
    ensures d == GoTo("/admin") <==> RoleOf(user) == Str("admin")
    ensures d == GoTo("/staff") <==> RoleOf(user) == Str("staff")
    ensures d == StayPut <==> RoleOf(user) == Str("patient")
    ensures d.GoTo? || d == StayPut || d == Notify(NoDashboardText)
    ensures RoleOf(user) !in {Str("admin"), Str("staff"), Str("patient")} ==> d == Notify(NoDashboardText)
  {
    var role := RoleOf(user);
    if role == Str("admin") then GoTo("/admin")
    else if role == Str("staff") then GoTo("/staff")
    else if role == Str("patient") then StayPut
    else Notify(NoDashboardText)
  }

  /** `err.response?.data?.message` for an error that is an object. */
  function ServerMessage(error: Value): Value
    requires !Nullish(error)
  {
    OptGet(OptGet(Get(error, "response"), "data"), "message")
  }

  /** The catch block's message; `None` when the thrown value is null or
      undefined, where reading `err.response` throws inside the catch. */
  function FailureMessage(error: Value): (text: Option<Value>)
    ensures text.None? <==> Nullish(error)
    ensures text.Some? ==> Truthy(text.value)
    ensures text.Some? && Truthy(ServerMessage(error)) ==> text.value == ServerMessage(error)
    ensures text.Some? && !Truthy(ServerMessage(error)) ==> text.value == Str(FailedText)
  {
    if Nullish(error) then None else Some(Or(ServerMessage(error), Str(FailedText)))
  }

  /** How the `try` body ends, given how each awaited call settles. The
      value `post` resolves with stands for `res.data`, the response body. */
  function Pipeline(csrf: Settled<Value>, fingerprint: Settled<Value>, post: Settled<Value>): (r: Outcome)
    ensures csrf.Rejected? ==> r == Threw(csrf.reason)
    ensures csrf.Resolved? && fingerprint.Rejected? ==> r == Threw(fingerprint.reason)
    ensures csrf.Resolved? && fingerprint.Resolved? && post.Rejected? ==> r == Threw(post.reason)
    ensures csrf.Resolved? && fingerprint.Resolved? && post.Resolved? ==> (r.LoggedIn? <==> !Nullish(post.value))
    ensures r.Threw? && csrf.Resolved? && fingerprint.Resolved? && post.Resolved? ==> r.error == NullRead
    ensures r.LoggedIn? ==> csrf.Resolved? && fingerprint.Resolved? && post.Resolved?
    ensures r.LoggedIn? ==> !Nullish(r.user) && NormalizeUser(post.value) == Some(r.user)
  {
    if csrf.Rejected? then Threw(csrf.reason)
    else if fingerprint.Rejected? then Threw(fingerprint.reason)
    else if post.Rejected? then Threw(post.reason)
    else match NormalizeUser(post.value)
      case None => Threw(NullRead)
      case Some(user) => LoggedIn(user)
  }

  /** The calls the attempt makes: each one only after the previous resolved. */
  function Requests(email: string, password: string, csrf: Settled<Value>, fingerprint: Settled<Value>): (t: seq<Effect>)
    ensures |t| == if csrf.Rejected? then 1 else if fingerprint.Rejected? then 2 else 3
    ensures t[0] == Request(CsrfCookie)
    ensures |t| >= 2 ==> t[1] == Request(Fingerprint)
    ensures |t| == 3 ==> fingerprint.Resolved? && t[2] == Request(LoginPost(LoginBody(email, password, fingerprint.value)))
    ensures forall i :: 0 <= i < |t| ==> t[i].Request?
  {
    [Request(CsrfCookie)] +
    if csrf.Rejected? then []
    else
      [Request(Fingerprint)] +
      if fingerprint.Rejected? then []
      else [Request(LoginPost(LoginBody(email, password, fingerprint.value)))]
  }

  /** The end of the `try` body, or the catch block. */
  function Settle(outcome: Outcome): (t: seq<Effect>)
    ensures forall i :: 0 <= i < |t| ==> t[i].SetMessage? || t[i].ScheduleDispatch?
    ensures outcome.LoggedIn? ==> |t| == 2 && t[0] == SetMessage(Str(SuccessText)) && t[1] == ScheduleDispatch(outcome.user)
    ensures outcome.Threw? ==> |t| <= 1 && (t == [] <==> Nullish(outcome.error))
    ensures outcome.Threw? ==> forall i :: 0 <= i < |t| ==> t[i] == SetMessage(FailureMessage(outcome.error).value)
  {
    match outcome
    case LoggedIn(user) => [SetMessage(Str(SuccessText)), ScheduleDispatch(user)]
    case Threw(error) =>
      match FailureMessage(error)
      case Some(text) => [SetMessage(text)]
      case None => []
  }

  /** Everything `handleLogin` does before it returns, apart from the
      `preventDefault()` on the submit event. */
  function LoginEffects(email: string, password: string, csrf: Settled<Value>,
                        fingerprint: Settled<Value>, post: Settled<Value>): (t: seq<Effect>)
    ensures |t| >= 3 && t[0] == SetLoading(true) && t[|t| - 1] == SetLoading(false)
    ensures forall i :: 0 < i < |t| - 1 ==> !t[i].SetLoading?
    ensures t[1] == Request(CsrfCookie)
    ensures forall i :: 0 <= i < |t| ==> !t[i].Navigate?
    ensures var outcome := Pipeline(csrf, fingerprint, post);
      outcome.LoggedIn? ==> t[|t| - 2] == ScheduleDispatch(outcome.user)
    ensures Pipeline(csrf, fingerprint, post).Threw? ==> forall i :: 0 <= i < |t| ==> !t[i].ScheduleDispatch?
  {
    [SetLoading(true)] + Requests(email, password, csrf, fingerprint) +
    Settle(Pipeline(csrf, fingerprint, post)) + [SetLoading(false)]
  }

  /** What the dispatch timer does when it fires. */
  function DispatchEffects(d: Decision): seq<Effect> {
    match d
    case GoTo(path) => [Navigate(path)]
    case StayPut => []
    case Notify(text) => [SetMessage(Str(text))]
  }

  /** A whole attempt: the handler, then its dispatch timer if it set one. */
  function AttemptEffects(email: string, password: string, csrf: Settled<Value>,
                          fingerprint: Settled<Value>, post: Settled<Value>): seq<Effect>
  {
    LoginEffects(email, password, csrf, fingerprint, post) +
    match Pipeline(csrf, fingerprint, post)
    case LoggedIn(user) => DispatchEffects(Dispatch(user))
    case Threw(_) => []
  }

  /** The number of navigations among the effects `t`. */
  function Navigations(t: seq<Effect>): nat {
    if t == [] then 0 else (if t[0].Navigate? then 1 else 0) + Navigations(t[1..])
  }

  /** The message shown after the effects `t`, when `shown` was shown before. */
  function MessageAfter(shown: Value, t: seq<Effect>): Value
    decreases |t|
  {
    if t == [] then shown
    else MessageAfter(if t[0].SetMessage? then t[0].text else shown, t[1..])
  }

  lemma {:induction false} NavigationsAppend(a: seq<Effect>, b: seq<Effect>)
    ensures Navigations(a + b) == Navigations(a) + Navigations(b)
  {
    if a == [] {
      assert a + b == b;
    } else {
      assert (a + b)[1..] == a[1..] + b;
      NavigationsAppend(a[1..], b);
    }
  }

  lemma {:induction false} NoNavigateNoNavigations(t: seq<Effect>)
    requires forall i :: 0 <= i < |t| ==> !t[i].Navigate?
    ensures Navigations(t) == 0
  {
    if t != [] {
      NoNavigateNoNavigations(t[1..]);
    }
  }

  lemma {:induction false} MessageAfterAppend(shown: Value, a: seq<Effect>, b: seq<Effect>)
    ensures MessageAfter(shown, a + b) == MessageAfter(MessageAfter(shown, a), b)
    decreases |a|
  {
    if a == [] {
      assert a + b == b;
    } else {
      assert (a + b)[1..] == a[1..] + b;
      MessageAfterAppend(if a[0].SetMessage? then a[0].text else shown, a[1..], b);
    }
  }

  lemma {:induction false} NoSetMessageKeepsMessage(shown: Value, t: seq<Effect>)
    requires forall i :: 0 <= i < |t| ==> !t[i].SetMessage?
    ensures MessageAfter(shown, t) == shown
  {
    if t != [] {
      NoSetMessageKeepsMessage(shown, t[1..]);
    }
  }

  /** The message the handler leaves on screen: the success text, the
      catch's message, or the old message when the catch itself throws. */
  lemma LoginMessage(shown: Value, email: string, password: string, csrf: Settled<Value>,
                     fingerprint: Settled<Value>, post: Settled<Value>)
    ensures var outcome := Pipeline(csrf, fingerprint, post);
      MessageAfter(shown, LoginEffects(email, password, csrf, fingerprint, post)) ==
        match outcome
        case LoggedIn(_) => Str(SuccessText)
        case Threw(error) => if Nullish(error) then shown else FailureMessage(error).value
  {
    var requests := Requests(email, password, csrf, fingerprint);
    var settle := Settle(Pipeline(csrf, fingerprint, post));
    assert LoginEffects(email, password, csrf, fingerprint, post) == ([SetLoading(true)] + requests) + (settle + [SetLoading(false)]);
    MessageAfterAppend(shown, [SetLoading(true)] + requests, settle + [SetLoading(false)]);
    NoSetMessageKeepsMessage(shown, [SetLoading(true)] + requests);
    MessageAfterAppend(shown, settle, [SetLoading(false)]);
    NoSetMessageKeepsMessage(MessageAfter(shown, settle), [SetLoading(false)]);
    match Pipeline(csrf, fingerprint, post)
    case LoggedIn(user) =>
      assert settle == [SetMessage(Str(SuccessText))] + [ScheduleDispatch(user)];
      MessageAfterAppend(shown, [SetMessage(Str(SuccessText))], [ScheduleDispatch(user)]);
      NoSetMessageKeepsMessage(Str(SuccessText), [ScheduleDispatch(user)]);
    case Threw(error) =>
      if !Nullish(error) {
        var text := FailureMessage(error).value;
        assert settle == [SetMessage(text)];
        assert MessageAfter(shown, settle) == MessageAfter(text, []);
      } else {
        assert settle == [];
      }
  }

  /** A failed handshake ends the attempt: neither the fingerprint generator
      nor the credential POST is called, nothing navigates, and the catch's
      message is what stays on screen. */
  lemma HandshakeFailureAborts(shown: Value, email: string, password: string, csrf: Settled<Value>,
                               fingerprint: Settled<Value>, post: Settled<Value>)
    requires csrf.Rejected?
    ensures var t := AttemptEffects(email, password, csrf, fingerprint, post);
      forall i :: 0 <= i < |t| && t[i].Request? ==> t[i].call == CsrfCookie
    ensures Navigations(AttemptEffects(email, password, csrf, fingerprint, post)) == 0
    ensures !Nullish(csrf.reason) ==>
      MessageAfter(shown, AttemptEffects(email, password, csrf, fingerprint, post)) == FailureMessage(csrf.reason).value
  {
    AtMostOneNavigation(email, password, csrf, fingerprint, post);
    AttemptMessage(shown, email, password, csrf, fingerprint, post);
  }

  /** The POST is made exactly when the handshake and the fingerprint both
      resolved, and its body is exactly the credentials and that fingerprint. */
  lemma PostCarriesFingerprint(email: string, password: string, csrf: Settled<Value>,
                               fingerprint: Settled<Value>, post: Settled<Value>)
    ensures var t := LoginEffects(email, password, csrf, fingerprint, post);
      forall i :: 0 <= i < |t| && t[i].Request? && t[i].call.LoginPost? ==>
        && csrf.Resolved? && fingerprint.Resolved?
        && i == 3 && t[1] == Request(CsrfCookie) && t[2] == Request(Fingerprint)
        && t[i].call.body == Obj(map["email" := Str(email), "password" := Str(password), "device_id" := fingerprint.value])
    ensures var t := LoginEffects(email, password, csrf, fingerprint, post);
      csrf.Resolved? && fingerprint.Resolved? ==>
        t[3] == Request(LoginPost(LoginBody(email, password, fingerprint.value)))
  {
  }

  /** A user record wrapped as `{user: {...}}` and the same record sent bare
      normalise to the same user, so they are dispatched alike. */
  lemma WrappedAndBareShapesAgree(profile: map<string, Value>, wrapper: map<string, Value>)
    requires "user" !in profile || !Truthy(profile["user"])
    ensures NormalizeUser(Obj(wrapper["user" := Obj(profile)])) == Some(Obj(profile))
    ensures NormalizeUser(Obj(profile)) == Some(Obj(profile))
  {
  }

  /** `{user: {role: "staff"}}` and `{role: "staff"}` both lead to /staff. */
  lemma StaffRoutedFromEitherShape()
    ensures Dispatch(NormalizeUser(Obj(map["user" := Obj(map["role" := Str("staff")])])).value) == GoTo("/staff")
    ensures Dispatch(NormalizeUser(Obj(map["role" := Str("staff")])).value) == GoTo("/staff")
  {
  }

  /** An attempt navigates at most once: exactly once when it logged in an
      admin or a staff member, to the destination the dispatch picked, and
      never otherwise. */
  lemma AtMostOneNavigation(email: string, password: string, csrf: Settled<Value>,
                            fingerprint: Settled<Value>, post: Settled<Value>)
    ensures var t := AttemptEffects(email, password, csrf, fingerprint, post);
      var outcome := Pipeline(csrf, fingerprint, post);
      && Navigations(t) <= 1
      && (Navigations(t) == 1 <==> outcome.LoggedIn? && (RoleOf(outcome.user) == Str("admin") || RoleOf(outcome.user) == Str("staff")))
    ensures var t := AttemptEffects(email, password, csrf, fingerprint, post);
      var outcome := Pipeline(csrf, fingerprint, post);
      forall i :: 0 <= i < |t| && t[i].Navigate? ==> outcome.LoggedIn? && Dispatch(outcome.user) == GoTo(t[i].path)
  {
    var handler := LoginEffects(email, password, csrf, fingerprint, post);
    var outcome := Pipeline(csrf, fingerprint, post);
    var later := match outcome case LoggedIn(user) => DispatchEffects(Dispatch(user)) case Threw(_) => [];
    assert AttemptEffects(email, password, csrf, fingerprint, post) == handler + later;
    NavigationsAppend(handler, later);
    NoNavigateNoNavigations(handler);
    if outcome.LoggedIn? && Dispatch(outcome.user).GoTo? {
      assert Navigations(later) == 1 + Navigations([]);
    } else {
      NoNavigateNoNavigations(later);
    }
  }

  /** The message on screen once the attempt and its dispatch are over:
      the success text, kept for a patient and for an admin or staff member
      who navigated away; the no-dashboard text for any other role; the
      catch's message after a failure; and the old message when the thrown
      value is null or undefined, where the catch itself throws. */
  lemma AttemptMessage(shown: Value, email: string, password: string, csrf: Settled<Value>,
                       fingerprint: Settled<Value>, post: Settled<Value>)
    ensures var outcome := Pipeline(csrf, fingerprint, post);
      var m := MessageAfter(shown, AttemptEffects(email, password, csrf, fingerprint, post));
      && (outcome.LoggedIn? && RoleOf(outcome.user) in {Str("admin"), Str("staff"), Str("patient")} ==> m == Str(SuccessText))
      && (outcome.LoggedIn? && RoleOf(outcome.user) !in {Str("admin"), Str("staff"), Str("patient")} ==> m == Str(NoDashboardText))
      && (outcome.Threw? && !Nullish(outcome.error) ==> m == FailureMessage(outcome.error).value)
      && (outcome.Threw? && Nullish(outcome.error) ==> m == shown)
  {
    var handler := LoginEffects(email, password, csrf, fingerprint, post);
    var outcome := Pipeline(csrf, fingerprint, post);
    var later := match outcome case LoggedIn(user) => DispatchEffects(Dispatch(user)) case Threw(_) => [];
    assert AttemptEffects(email, password, csrf, fingerprint, post) == handler + later;
    MessageAfterAppend(shown, handler, later);
    LoginMessage(shown, email, password, csrf, fingerprint, post);
    var d := if outcome.LoggedIn? then Dispatch(outcome.user) else StayPut;
    if d.Notify? {
      assert later == [SetMessage(Str(NoDashboardText))];
      assert MessageAfter(MessageAfter(shown, handler), later) == MessageAfter(Str(NoDashboardText), []);
    } else {
      NoSetMessageKeepsMessage(MessageAfter(shown, handler), later);
    }
  }

  /** Three resolved calls whose body names an admin, bare or wrapped, end
      in exactly one navigation, to /admin. */
  lemma AdminLoginGoesToAdmin(email: string, password: string, csrf: Settled<Value>,
                              fingerprint: Settled<Value>, post: Settled<Value>)
    requires csrf.Resolved? && fingerprint.Resolved? && post.Resolved? && !Nullish(post.value)
    requires RoleOf(NormalizeUser(post.value).value) == Str("admin")
    ensures var t := AttemptEffects(email, password, csrf, fingerprint, post);
      Navigations(t) == 1 && forall i :: 0 <= i < |t| && t[i].Navigate? ==> t[i].path == "/admin"
  {
    AtMostOneNavigation(email, password, csrf, fingerprint, post);
  }

  /** A rejected credential POST navigates nowhere and leaves the catch's
      message on screen: the server's `message` when truthy, else
      "Login failed". */
  lemma RejectedPostShowsMessage(shown: Value, email: string, password: string, csrf: Settled<Value>,
                                 fingerprint: Settled<Value>, post: Settled<Value>)
    requires csrf.Resolved? && fingerprint.Resolved? && post.Rejected? && !Nullish(post.reason)
    ensures var t := AttemptEffects(email, password, csrf, fingerprint, post);
      && Navigations(t) == 0
      && MessageAfter(shown, t) == Or(ServerMessage(post.reason), Str(FailedText))
  {
    AtMostOneNavigation(email, password, csrf, fingerprint, post);
    AttemptMessage(shown, email, password, csrf, fingerprint, post);
  }

  /** On success the handler shows the success text, schedules the dispatch
      and releases the busy flag, all before any effect of the dispatch. */
  lemma SuccessMessageBeforeDispatch(email: string, password: string, csrf: Settled<Value>,
                                     fingerprint: Settled<Value>, post: Settled<Value>)
    requires Pipeline(csrf, fingerprint, post).LoggedIn?
    ensures var t := LoginEffects(email, password, csrf, fingerprint, post);
      var user := Pipeline(csrf, fingerprint, post).user;
      && AttemptEffects(email, password, csrf, fingerprint, post) == t + DispatchEffects(Dispatch(user))
      && t[|t| - 3] == SetMessage(Str(SuccessText))
      && t[|t| - 2] == ScheduleDispatch(user)
      && t[|t| - 1] == SetLoading(false)
  {
  }

  /**
   * The login page's state. `timers` holds, oldest first, the users captured
   * by dispatch timers that have not fired yet; `log` is everything the page
   * has done so far.
   */
  class LoginPage {
    var email: string
    var password: string
    var message: Value
    var loading: bool
    var timers: seq<Value>
    var navigatedTo: Option<string>
    var log: seq<Effect>

    ghost predicate Valid()
      reads this
    {
      forall i :: 0 <= i < |timers| ==> !Nullish(timers[i])
    }

    constructor ()
      ensures Valid()
      ensures email == "" && password == "" && message == Str("") && !loading
      ensures timers == [] && navigatedTo == None && log == []
    {
      email, password := "", "";
      message := Str("");
      loading := false;
      timers := [];
      navigatedTo := None;
      log := [];
    }

    method SetEmail(value: string)
      modifies this`email
      ensures email == value
    {
      email := value;
    }

    method SetPassword(value: string)
      modifies this`password
      ensures password == value
    {
      password := value;
    }

    /** One submission of the form. `escaped` is true when the catch block
        itself throws, so that the returned promise rejects. */
    method HandleLogin(csrf: Settled<Value>, fingerprint: Settled<Value>, post: Settled<Value>)
      returns (escaped: bool)
      requires Valid()
      modifies this
      ensures Valid()
      ensures log == old(log) + LoginEffects(email, password, csrf, fingerprint, post)
      ensures !loading
      ensures message == MessageAfter(old(message), LoginEffects(email, password, csrf, fingerprint, post))
      ensures timers == old(timers) + match Pipeline(csrf, fingerprint, post)
                                      case LoggedIn(user) => [user]
                                      case Threw(_) => []
      ensures escaped <==> Pipeline(csrf, fingerprint, post).Threw? && Nullish(Pipeline(csrf, fingerprint, post).error)
      ensures email == old(email) && password == old(password) && navigatedTo == old(navigatedTo)
    {
      ghost var shown, before := message, log;
      ghost var outcome := Pipeline(csrf, fingerprint, post);
      ghost var requests := Requests(email, password, csrf, fingerprint);
      loading := true;
      log := log + [SetLoading(true)];
      var failure := TryLogin(csrf, fingerprint, post);
      escaped := false;
      if failure.Some? {
        var text := FailureMessage(failure.value);
        if text.Some? {
          message := text.value;
          log := log + [SetMessage(message)];
        } else {
          escaped := true;
        }
      }
      assert log == before + ([SetLoading(true)] + requests + Settle(outcome));
      loading := false;
      log := log + [SetLoading(false)];
      assert log == before + ([SetLoading(true)] + requests + Settle(outcome) + [SetLoading(false)]);
      LoginMessage(shown, email, password, csrf, fingerprint, post);
    }

    /** The `try` body: the three awaited calls in turn, then the success
        message and the dispatch timer. `failure` is what it throws. */
    method TryLogin(csrf: Settled<Value>, fingerprint: Settled<Value>, post: Settled<Value>)
      returns (failure: Option<Value>)
      requires Valid()
      modifies this
      ensures Valid()
      ensures var outcome := Pipeline(csrf, fingerprint, post);
        failure == match outcome case LoggedIn(_) => None case Threw(error) => Some(error)
      ensures var outcome := Pipeline(csrf, fingerprint, post);
        log == old(log) + Requests(email, password, csrf, fingerprint) +
               match outcome case LoggedIn(_) => Settle(outcome) case Threw(_) => []
      ensures var outcome := Pipeline(csrf, fingerprint, post);
        message == match outcome case LoggedIn(_) => Str(SuccessText) case Threw(_) => old(message)
      ensures timers == old(timers) + match Pipeline(csrf, fingerprint, post)
                                      case LoggedIn(user) => [user]
                                      case Threw(_) => []
      ensures email == old(email) && password == old(password)
      ensures navigatedTo == old(navigatedTo) && loading == old(loading)
    {
      failure := None;
      log := log + [Request(CsrfCookie)];
      if csrf.Rejected? {
        failure := Some(csrf.reason);
        return;
      }
      log := log + [Request(Fingerprint)];
      if fingerprint.Rejected? {
        failure := Some(fingerprint.reason);
        return;
      }
      var body := LoginBody(email, password, fingerprint.value);
      log := log + [Request(LoginPost(body))];
      if post.Rejected? {
        failure := Some(post.reason);
        return;
      }
      var user := NormalizeUser(post.value);
      if user.None? {
        failure := Some(NullRead);
        return;
      }
      message := Str(SuccessText);
      log := log + [SetMessage(message)];
      timers := timers + [user.value];
      log := log + [ScheduleDispatch(user.value)];
    }

    /** The 150 ms timer of the oldest pending dispatch fires. */
    method FireTimer()
      requires Valid() && timers != []
      modifies this
      ensures Valid()
      ensures timers == old(timers)[1..]
      ensures log == old(log) + DispatchEffects(Dispatch(old(timers)[0]))
      ensures message == MessageAfter(old(message), DispatchEffects(Dispatch(old(timers)[0])))
      ensures navigatedTo == match Dispatch(old(timers)[0])
                             case GoTo(path) => Some(path)
                             case _ => old(navigatedTo)
      ensures email == old(email) && password == old(password) && loading == old(loading)
    {
      var user := timers[0];
      timers := timers[1..];
      match Dispatch(user)
      case GoTo(path) =>
        navigatedTo := Some(path);
        log := log + [Navigate(path)];
      case StayPut =>
      case Notify(text) =>
        message := Str(text);
        log := log + [SetMessage(message)];
    }
  }
}
