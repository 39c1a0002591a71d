/** The session hook `useAuth` of fetching.js: a `POST` request hook aimed at
    `auth/<action>/`, a login/logout action with its form data, and a
    `loggedIn` flag derived from the settled request. Its two effects are
    explicit transitions. */
module Auth {
  import opened JsValues
  import opened Fetching

  /** The action in flight: `''`, `'login'` or `'logout'`. */
  datatype Action = Idle | LogIn | LogOut

  function ActionName(a: Action): string
  {
    match a
    case Idle => ""
    case LogIn => "login"
    case LogOut => "logout"
  }

  /** The URL the session's request hook is given for `action`. */
  function AuthUrl(apiPath: string, action: Action): (u: string)
    ensures action == LogIn ==> u == apiPath + "auth/login/"
    ensures action == LogOut ==> u == apiPath + "auth/logout/"
    ensures action == Idle ==> u == apiPath + "auth//"
  {
    apiPath + "auth/" + ActionName(action) + "/"
  }

  /** The credentials bag `login` stores. */
  function LoginForm(email: Value, password: Value): Bag
  {
    map["email" := email, "password" := password]
  }

  datatype AuthState = AuthState(action: Action, formData: Bag, loggedIn: bool, req: ReqState)

  /** A freshly mounted session: no action, no form data, and `loggedIn` true. */
  function AuthInitial(): AuthState
  {
    AuthState(Idle, map[], true, Initial())
  }

  function AfterLogin(s: AuthState, email: Value, password: Value): (t: AuthState)
    ensures t.action == LogIn && t.formData == LoginForm(email, password)
    ensures t.loggedIn == s.loggedIn && t.req == s.req
  {
    s.(action := LogIn, formData := LoginForm(email, password))
  }

  /** `logout` drops the session on the client at once, before any response. */
  function AfterLogout(s: AuthState): (t: AuthState)
    ensures t.action == LogOut && t.formData == map[] && !t.loggedIn
    ensures t.req == Initial()
  {
    s.(action := LogOut, formData := map[], loggedIn := false, req := Initial())
  }

  /** The condition under which the dispatch effect calls `send`. Its test that
      the action has a URL segment never decides the outcome. */
  predicate DispatchGuard(action: Action, formData: Bag): (b: bool)
    ensures b <==> action == LogOut || (action == LogIn && Truthy(Lookup(formData, "email")))
    ensures b ==> action != Idle
  {
    ActionName(action) != ""
    && ((action == LogIn && Truthy(Lookup(formData, "email"))) || action == LogOut)
  }

  /** The dispatch effect: for a login with a truthy email, or a logout, it
      sends the form data over the same form data as base payload. */
  function AfterDispatchEffect(s: AuthState): (t: AuthState)
    ensures t.action == s.action && t.formData == s.formData && t.loggedIn == s.loggedIn
    ensures DispatchGuard(s.action, s.formData) ==>
              t.req.shouldSend && t.req.fetchData == Some(s.formData)
              && t.req.loading == s.req.loading && t.req.data == s.req.data && t.req.errors == s.req.errors
              && t.req.statusCode == s.req.statusCode && t.req.ok == s.req.ok
    ensures !DispatchGuard(s.action, s.formData) ==> t.req == s.req
  {
    if DispatchGuard(s.action, s.formData) then
      var sent := Sent(s.req, Some(s.formData), Some(s.formData));
      assert sent.fetchData == Some(s.formData) by {
        assert Spread(s.formData, s.formData) == s.formData;
      }
      s.(req := sent)
    else
      s
  }

  /** The settlement effect, run when `ok` or `statusCode` changes. */
  function AfterSettleEffect(s: AuthState): (t: AuthState)
    ensures t.req == s.req
    ensures s.req.ok == Some(true) && s.action == LogIn ==> t.loggedIn
    ensures !(s.req.ok == Some(true) && s.action == LogIn)
            && (s.req.statusCode == Some(401) || (s.action == LogOut && s.req.ok == Some(true)))
            ==> !t.loggedIn
    ensures !(s.req.ok == Some(true) && s.action == LogIn)
            && !(s.req.statusCode == Some(401) || (s.action == LogOut && s.req.ok == Some(true)))
            ==> t.loggedIn == s.loggedIn
    ensures s.req.ok == Some(false) ==> t.action == Idle && t.formData == map[]
    ensures s.req.ok != Some(false) ==> t.action == s.action && t.formData == s.formData
  {
    var loggedIn :=
      if s.req.ok == Some(true) && s.action == LogIn then true
      else if s.req.statusCode == Some(401) || (s.action == LogOut && s.req.ok == Some(true)) then false
      else s.loggedIn;
    if s.req.ok == Some(false) then
      s.(loggedIn := loggedIn, action := Idle, formData := map[])
    else
      s.(loggedIn := loggedIn)
  }

  /** One mounted `useAuth()` hook and the request hook it owns. */
  class AuthHook {
    const apiPath: string
    const req: RequestHook
    var action: Action
    var formData: Bag
    var loggedIn: bool

    /** The request hook is always rendered with this hook's current
        arguments: a POST to `auth/<action>/` with `formData` as base payload. */
    ghost predicate Valid()
      reads this, req
    {
      req.methodName == "POST"
      && req.url == AuthUrl(apiPath, action)
      && req.initData == Some(formData)
    }

    function State(): AuthState
      reads this, req
    {
      AuthState(action, formData, loggedIn, req.State())
    }

    constructor (apiPath: string)
      ensures Valid() && fresh(req)
      ensures this.apiPath == apiPath && State() == AuthInitial()
    {
      this.apiPath := apiPath;
      action := Idle;
      formData := map[];
      loggedIn := true;
      req := new RequestHook("POST", AuthUrl(apiPath, Idle), Some(map[]));
    }

    method Login(email: Value, password: Value)
      requires Valid()
      modifies this, req
      ensures Valid()
      ensures State() == AfterLogin(old(State()), email, password)
    {
      action := LogIn;
      formData := LoginForm(email, password);
      req.Rebind(AuthUrl(apiPath, action), Some(formData));
    }

    method Logout()
      requires Valid()
      modifies this, req
      ensures Valid()
      ensures State() == AfterLogout(old(State()))
    {
      action := LogOut;
      formData := map[];
      loggedIn := false;
      req.Clear();
      req.Rebind(AuthUrl(apiPath, action), Some(formData));
    }

    /** The effect watching `action`. */
    method DispatchEffect()
      requires Valid()
      modifies req
      ensures Valid()
      ensures State() == AfterDispatchEffect(old(State()))
    {
      if ActionName(action) != "" {
        if (action == LogIn && Truthy(Lookup(formData, "email"))) || action == LogOut {
          req.Send(Some(formData));
        }
      }
    }

    /** The effect watching `ok` and `statusCode`. */
    method SettleEffect()
      requires Valid()
      modifies this, req
      ensures Valid()
      ensures State() == AfterSettleEffect(old(State()))
    {
      if req.ok == Some(true) && action == LogIn {
        loggedIn := true;
      } else if req.statusCode == Some(401) || (action == LogOut && req.ok == Some(true)) {
        loggedIn := false;
      }
      if req.ok == Some(false) {
        action := Idle;
        formData := map[];
        req.Rebind(AuthUrl(apiPath, action), Some(formData));
      }
    }
  }

  /** What the fetch API guarantees of a response: `ok` means a 2xx status. */
  predicate FetchConsistent(o: Outcome)
  {
    o.Response? ==> (o.ok <==> 200 <= o.status < 300)
  }

  /** The request hook after its armed request is dispatched and settles with `o`. */
  function AfterRoundTrip(s: AuthState, o: Outcome): AuthState
  {
    s.(req := Settled(Begun(s.req), o))
  }

  /** A login is sent exactly when its email is truthy; a logout always is. */
  lemma DispatchGuardRules(email: Value, password: Value, formData: Bag)
    ensures DispatchGuard(LogIn, LoginForm(email, password)) <==> Truthy(email)
    ensures DispatchGuard(LogOut, formData)
    ensures !DispatchGuard(Idle, formData)
  {
  }

  /** `login('', pw)` never reaches the network: the request state is untouched. */
  lemma EmptyEmailNeverSends(s: AuthState, password: Value)
    ensures AfterDispatchEffect(AfterLogin(s, Str(""), password)).req == s.req
  {
  }

  /** Whenever the dispatch effect runs after `login(email, pw)` with a truthy
      email (React runs it only when the action was not already a login), it
      arms one POST to `auth/login/` whose body is the credentials. Once that
      request is dispatched and settles, the round trip alone leaves the flag
      as it was; the settlement effect then logs the session in on a
      successful response. */
  lemma LoginScenario(s: AuthState, apiPath: string, protocol: string, headers: Bag, token: Value,
                      email: Value, password: Value, status: int, hasContentType: bool, body: Value)
    requires Truthy(email)
    ensures var armed := AfterDispatchEffect(AfterLogin(s, email, password));
      && armed.req.shouldSend
      && var r := BuildRequest("POST", AuthUrl(apiPath, armed.action),
                               WithCsrf("POST", headers, token), protocol, armed.req.fetchData);
         && r.url == apiPath + "auth/login/"
         && r.init.httpMethod == "POST"
         && r.init.body == Some(map["email" := email, "password" := password])
         && CsrfHeader in r.init.headers && r.init.headers[CsrfHeader] == token
    ensures var armed := AfterDispatchEffect(AfterLogin(s, email, password));
      && AfterRoundTrip(armed, Response(status, true, hasContentType, body)).loggedIn == s.loggedIn
      && AfterSettleEffect(AfterRoundTrip(armed, Response(status, true, hasContentType, body))).loggedIn
  {
    DispatchGuardRules(email, password, map[]);
  }

  /** `logout()` clears the session at once and, whatever the server answers,
      the session stays logged out; the logout request carries `{}` as body. */
  lemma LogoutScenario(s: AuthState, o: Outcome)
    ensures !AfterLogout(s).loggedIn
    ensures AfterDispatchEffect(AfterLogout(s)).req.fetchData == Some(map[])
    ensures !AfterSettleEffect(AfterRoundTrip(AfterDispatchEffect(AfterLogout(s)), o)).loggedIn
  {
  }

  /** A settled 401 logs the session out, whichever action was in flight. */
  lemma UnauthorizedLogsOut(s: AuthState, o: Outcome)
    requires o.Response? && o.status == 401 && FetchConsistent(o)
    ensures !AfterSettleEffect(s.(req := Settled(s.req, o))).loggedIn
  {
  }

  /** Any failed request, including an unreachable server, ends the action. */
  lemma FailureEndsTheAction(s: AuthState, o: Outcome)
    requires o.NetworkTypeError? || (o.Response? && !o.ok)
    ensures var t := AfterSettleEffect(s.(req := Settled(s.req, o)));
      t.action == Idle && t.formData == map[]
  {
  }

  /** Run before any result is recorded, the settlement effect changes nothing;
      in particular a rethrown exception leaves the session as it was. */
  lemma SettleEffectWithoutResultIsInert(s: AuthState)
    ensures s.req.ok.None? && s.req.statusCode.None? ==> AfterSettleEffect(s) == s
    ensures AfterSettleEffect(AfterRoundTrip(s, OtherError)) == AfterRoundTrip(s, OtherError)
  {
  }

  /** Everything that can happen to a mounted session: the two calls it
      exposes, its two effects, and its request being dispatched and settled. */
  datatype AuthEvent =
    | LoginCall(email: Value, password: Value)
    | LogoutCall
    | DispatchEffectRan
    | SettleEffectRan
    | RequestDispatched
    | RequestSettled(outcome: Outcome)

  function AuthStep(s: AuthState, e: AuthEvent): AuthState
  {
    match e
    case LoginCall(email, password) => AfterLogin(s, email, password)
    case LogoutCall => AfterLogout(s)
    case DispatchEffectRan => AfterDispatchEffect(s)
    case SettleEffectRan => AfterSettleEffect(s)
    case RequestDispatched => s.(req := Step(s.req, Some(s.formData), DispatchEvent))
    case RequestSettled(o) => s.(req := Step(s.req, Some(s.formData), SettleEvent(o)))
  }

  function AuthRun(s: AuthState, events: seq<AuthEvent>): AuthState
    decreases |events|
  {
    if events == [] then s else AuthRun(AuthStep(s, events[0]), events[1..])
  }

  /** A bag that is either `{}` or carries exactly the two login credentials. */
  predicate SessionBag(bag: Bag)
  {
    bag == map[] || bag.Keys == {"email", "password"}
  }

  /** What holds of a session at every point of its life: its request state is
      coherent, the form data is the credentials while logging in and `{}`
      otherwise, and any armed payload is `{}` or the credentials. */
  predicate SessionInvariant(s: AuthState)
  {
    && Coherent(s.req)
    && (s.action == LogIn ==> s.formData.Keys == {"email", "password"})
    && (s.action != LogIn ==> s.formData == map[])
    && (s.req.fetchData.Some? ==> SessionBag(s.req.fetchData.value))
  }

  lemma AuthStepKeepsInvariant(s: AuthState, e: AuthEvent)
    requires SessionInvariant(s)
    ensures SessionInvariant(AuthStep(s, e))
  {
    match e
    case RequestDispatched => StepKeepsCoherent(s.req, Some(s.formData), DispatchEvent);
    case RequestSettled(o) => StepKeepsCoherent(s.req, Some(s.formData), SettleEvent(o));
    case _ =>
  }

  /** Whatever happens to a session from its mount on, the invariant holds;
      so every body it sends is `{}` or exactly `{email, password}`. */
  lemma {:induction false} AuthRunKeepsInvariant(s: AuthState, events: seq<AuthEvent>)
    requires SessionInvariant(s)
    ensures SessionInvariant(AuthRun(s, events))
    decreases |events|
  {
    if events != [] {
      AuthStepKeepsInvariant(s, events[0]);
      AuthRunKeepsInvariant(AuthStep(s, events[0]), events[1..]);
    }
  }

  lemma {:induction false} SessionSendsOnlyCredentialsOrNothing(events: seq<AuthEvent>, apiPath: string,
                                                                protocol: string, headers: Bag, token: Value)
    ensures var s := AuthRun(AuthInitial(), events);
      var r := BuildRequest("POST", AuthUrl(apiPath, s.action), headers, protocol, s.req.fetchData);
      r.init.body.Some? ==> SessionBag(r.init.body.value)
  {
    AuthRunKeepsInvariant(AuthInitial(), events);
  }

  /** One run of the settlement effect raises the flag only when the recorded
      result is ok while the action is `login`, and lowers it only on a 401 or
      on an ok result while the action is `logout`. */
  lemma LoggedInChangesOnlyOnResults(s: AuthState)
    ensures !s.loggedIn && AfterSettleEffect(s).loggedIn ==> s.req.ok == Some(true) && s.action == LogIn
    ensures s.loggedIn && !AfterSettleEffect(s).loggedIn ==>
              s.req.statusCode == Some(401) || (s.action == LogOut && s.req.ok == Some(true))
  {
  }

  /** Over the whole session, the flag rises only in the settlement effect, on
      an ok result while the action is `login`; it falls only on `logout()`, or
      in the settlement effect on a 401 or an ok result while the action is
      `logout`. Which request produced the result is not consulted. */
  lemma LoggedInChangesOnlyAt(s: AuthState, e: AuthEvent)
    ensures !s.loggedIn && AuthStep(s, e).loggedIn ==>
              e.SettleEffectRan? && s.req.ok == Some(true) && s.action == LogIn
    ensures s.loggedIn && !AuthStep(s, e).loggedIn ==>
              e.LogoutCall?
              || (e.SettleEffectRan?
                  && (s.req.statusCode == Some(401) || (s.action == LogOut && s.req.ok == Some(true))))
  {
  }

  /** A `login` issued while the logout request is still in flight arms the
      credentials but is never dispatched: the request hook is already armed,
      so its dispatch effect does not run again. When the logout request then
      succeeds, the settlement effect sees `ok` with the action `login` and
      logs the session in, and the credentials are discarded unsent. */
  lemma {:induction false} LogoutResponseCanLogIn(email: Value, password: Value, hasContentType: bool, body: Value)
    requires Truthy(email)
    ensures var s := AuthRun(AuthInitial(),
                             [LogoutCall, DispatchEffectRan, RequestDispatched,
                              LoginCall(email, password), DispatchEffectRan,
                              RequestSettled(Response(200, true, hasContentType, body)), SettleEffectRan]);
      && s.loggedIn && s.action == LogIn
      && !s.req.shouldSend && s.req.fetchData == Some(LoginForm(email, password))
  {
    var events := [LogoutCall, DispatchEffectRan, RequestDispatched,
                   LoginCall(email, password), DispatchEffectRan,
                   RequestSettled(Response(200, true, hasContentType, body)), SettleEffectRan];
    var s0 := AuthInitial();
    var s1 := AuthStep(s0, LogoutCall);
    assert !s1.loggedIn;
    var s2 := AuthStep(s1, DispatchEffectRan);
    assert s2.req.shouldSend;
    var s3 := AuthStep(s2, RequestDispatched);
    var s4 := AuthStep(s3, LoginCall(email, password));
    DispatchGuardRules(email, password, map[]);
    var s5 := AuthStep(s4, DispatchEffectRan);
    assert s5.action == LogIn && s5.req.fetchData == Some(LoginForm(email, password));
    var s6 := AuthStep(s5, RequestSettled(Response(200, true, hasContentType, body)));
    assert s6.req.ok == Some(true);
    var s7 := AuthStep(s6, SettleEffectRan);
    assert s7.loggedIn;
    assert AuthRun(s7, []) == s7;
    assert AuthRun(s6, events[6..]) == s7;
    assert AuthRun(s5, events[5..]) == s7;
    assert AuthRun(s4, events[4..]) == s7;
    assert AuthRun(s3, events[3..]) == s7;
    assert AuthRun(s2, events[2..]) == s7;
    assert AuthRun(s1, events[1..]) == s7;
  }
}
