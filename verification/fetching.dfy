/** The generic request hook `useFetchingBase` of fetching.js: one HTTP call's
    lifecycle (armed by `send`, dispatched by an effect, settled by the network
    outcome), the request it issues, and the one-line wrappers that fix its
    method and URL. The network and the cookie jar are inputs. */
module Fetching {
  import opened JsValues

  /** The deployment settings read from the environment when the module loads. */
  datatype Env = Env(protocol: string, host: string)

  /** The credentials policy chosen once from the configured protocol. */
  function Credentials(protocol: string): (c: string)
    ensures c == "same-origin" <==> protocol == "https"
    ensures c != "same-origin" ==> c == "include"
  {
    if protocol == "https" then "same-origin" else "include"
  }

  function ApiPath(env: Env): string
  {
    env.protocol + "://" + env.host + "/api/"
  }

  function ContentPath(env: Env): string
  {
    env.protocol + "://" + env.host + "/content/"
  }

  const CsrfHeader: string := "X-CSRFToken"
  const NetworkErrorStatus: int := 418
  const NetworkErrorMessage: string := "Could not connect to server. Check your connection."

  /** The headers every request starts from. */
  function DefaultHeaders(): Bag
  {
    map["Content-Type" := Str("application/json"), "Accept" := Str("application/json")]
  }

  /** The error bag recorded when the server cannot be reached. */
  function NetworkErrors(): Value
  {
    Obj(map["network" := Str(NetworkErrorMessage)])
  }

  /** The observable state of one request hook. */
  datatype ReqState = ReqState(
    loading: bool,
    fetchData: Option<Bag>,
    data: Value,
    errors: Value,
    shouldSend: bool,
    statusCode: Option<int>,
    ok: Option<bool>)

  /** The state a freshly mounted hook starts in, and the one `clear` restores. */
  function Initial(): ReqState
  {
    ReqState(false, None, Arr([]), Obj(map[]), false, None, None)
  }

  /** How the network call ended: a response (status, `response.ok`, whether a
      content type was declared, the parsed body), a `TypeError` from `fetch`,
      or any other exception, which is rethrown. */
  datatype Outcome =
    | Response(status: int, ok: bool, hasContentType: bool, body: Value)
    | NetworkTypeError
    | OtherError

  /** The payload `send` arms, given the hook's base payload `initData` and the
      per-call payload `formData`. Any object, even `{}`, is a payload. */
  function Payload(initData: Option<Bag>, formData: Option<Bag>): (r: Option<Bag>)
    ensures formData.Some? && initData.Some? ==>
              r.Some? && r.value.Keys == initData.value.Keys + formData.value.Keys
              && (forall k :: k in formData.value ==> r.value[k] == formData.value[k])
              && (forall k :: k in initData.value && k !in formData.value ==> r.value[k] == initData.value[k])
    ensures formData.Some? && initData.None? ==> r == formData
    ensures formData.None? ==> r == initData
  {
    if formData.Some? then
      if initData.Some? then Some(Spread(initData.value, formData.value)) else formData
    else
      initData
  }

  /** The state after `send(formData)`: the payload is armed and nothing else moves. */
  function Sent(s: ReqState, initData: Option<Bag>, formData: Option<Bag>): (t: ReqState)
    ensures t.shouldSend && t.fetchData == Payload(initData, formData)
    ensures t.loading == s.loading && t.data == s.data && t.errors == s.errors
    ensures t.statusCode == s.statusCode && t.ok == s.ok
  {
    s.(fetchData := Payload(initData, formData), shouldSend := true)
  }

  /** The state when an armed request is dispatched. */
  function Begun(s: ReqState): (t: ReqState)
    ensures t.loading && t.statusCode.None? && t.ok.None?
    ensures t.fetchData == s.fetchData && t.data == s.data && t.errors == s.errors
    ensures t.shouldSend == s.shouldSend
  {
    s.(loading := true, statusCode := None, ok := None)
  }

  /** The state once the network call has ended with `o`. */
  function Settled(s: ReqState, o: Outcome): (t: ReqState)
    ensures !t.loading && !t.shouldSend && t.fetchData == s.fetchData
    ensures o.Response? ==> t.statusCode == Some(o.status) && t.ok == Some(o.ok)
    ensures o.Response? && o.hasContentType && o.ok ==> t.data == o.body && t.errors == Obj(map[])
    ensures o.Response? && o.hasContentType && !o.ok ==> t.errors == o.body && t.data == s.data
    ensures o.Response? && !o.hasContentType ==> t.data == s.data && t.errors == s.errors
    ensures o.NetworkTypeError? ==>
              t.ok == Some(false) && t.statusCode == Some(NetworkErrorStatus)
              && t.errors == NetworkErrors() && t.data == s.data
    ensures o.OtherError? ==>
              t.statusCode == s.statusCode && t.ok == s.ok && t.data == s.data && t.errors == s.errors
  {
    var recorded :=
      match o
      case Response(status, isOk, hasContentType, body) =>
        var parsed :=
          if !hasContentType then s
          else if isOk then s.(data := body, errors := Obj(map[]))
          else s.(errors := body);
        parsed.(statusCode := Some(status), ok := Some(isOk))
      case NetworkTypeError =>
        s.(ok := Some(false), statusCode := Some(NetworkErrorStatus), errors := NetworkErrors())
      case OtherError =>
        s;
    recorded.(loading := false, shouldSend := false)
  }

  /** The request init passed to `fetch`; `body` is the payload that is serialised. */
  datatype RequestInit = RequestInit(
    httpMethod: string,
    headers: Bag,
    mode: string,
    credentials: string,
    body: Option<Bag>)

  datatype Request = Request(url: string, init: RequestInit)

  /** The shared headers after a dispatch of a `methodName` request. */
  function WithCsrf(methodName: string, headers: Bag, token: Value): (h: Bag)
    ensures methodName != "GET" ==> CsrfHeader in h && h[CsrfHeader] == token
    ensures methodName == "GET" ==> h == headers
    ensures forall k :: k != CsrfHeader ==> (k in h <==> k in headers)
    ensures forall k :: k != CsrfHeader && k in h ==> h[k] == headers[k]
  {
    if methodName != "GET" then headers[CsrfHeader := token] else headers
  }

  /** The request a dispatch issues, given the headers object as it stands then. */
  function BuildRequest(methodName: string, url: string, headers: Bag, protocol: string,
                        fetchData: Option<Bag>): (r: Request)
    ensures r.url == url && r.init.httpMethod == methodName && r.init.headers == headers
    ensures r.init.mode == "cors"
    ensures r.init.credentials == "same-origin" <==> protocol == "https"
    ensures r.init.credentials != "same-origin" ==> r.init.credentials == "include"
    ensures r.init.body == fetchData
  {
    Request(url, RequestInit(methodName, headers, "cors", Credentials(protocol), fetchData))
  }

  /** The one module-wide headers object every hook mutates in place. */
  class SharedHeaders {
    var entries: Bag

    constructor ()
      ensures entries == DefaultHeaders()
    {
      entries := DefaultHeaders();
    }
  }

  /** One mounted `useFetchingBase(methodName, url, initData)` hook. `url` and
      `initData` are the arguments of the latest render. */
  class RequestHook {
    const methodName: string
    var url: string
    var initData: Option<Bag>

    var loading: bool
    var fetchData: Option<Bag>
    var data: Value
    var errors: Value
    var shouldSend: bool
    var statusCode: Option<int>
    var ok: Option<bool>

    function State(): ReqState
      reads this
    {
      ReqState(loading, fetchData, data, errors, shouldSend, statusCode, ok)
    }

    constructor (methodName: string, url: string, initData: Option<Bag>)
      ensures this.methodName == methodName && this.url == url && this.initData == initData
      ensures State() == Initial()
    {
      this.methodName := methodName;
      this.url := url;
      this.initData := initData;
      loading := false;
      fetchData := None;
      data := Arr([]);
      errors := Obj(map[]);
      shouldSend := false;
      statusCode := None;
      ok := None;
    }

    /** A re-render that passes the hook new arguments; its state is kept. */
    method Rebind(url: string, initData: Option<Bag>)
      modifies this
      ensures this.url == url && this.initData == initData
      ensures State() == old(State())
    {
      this.url := url;
      this.initData := initData;
    }

    method Clear()
      modifies this
      ensures State() == Initial()
      ensures url == old(url) && initData == old(initData)
    {
      loading := false;
      data := Arr([]);
      errors := Obj(map[]);
      shouldSend := false;
      statusCode := None;
      ok := None;
      fetchData := None;
    }

    method Send(formData: Option<Bag>)
      modifies this
      ensures State() == Sent(old(State()), initData, formData)
      ensures url == old(url) && initData == old(initData)
    {
      if formData.Some? {
        if initData.Some? {
          fetchData := Some(Spread(initData.value, formData.value));
        } else {
          fetchData := formData;
        }
      } else {
        fetchData := initData;
      }
      shouldSend := true;
    }

    /** The effect that runs when `shouldSend` changes: when armed, it marks the
        hook loading, stamps the CSRF token into the shared headers for any
        method but GET, and returns the request `fetch` is called with. */
    method Dispatch(protocol: string, csrfToken: Value, headers: SharedHeaders)
      returns (request: Option<Request>)
      modifies this, headers
      ensures url == old(url) && initData == old(initData)
      ensures old(shouldSend) ==>
                State() == Begun(old(State()))
                && headers.entries == WithCsrf(methodName, old(headers.entries), csrfToken)
                && request == Some(BuildRequest(methodName, url, headers.entries, protocol, fetchData))
      ensures !old(shouldSend) ==>
                State() == old(State()) && headers.entries == old(headers.entries) && request.None?
    {
      request := None;
      if shouldSend {
        loading := true;
        statusCode := None;
        ok := None;
        if methodName != "GET" {
          headers.entries := headers.entries[CsrfHeader := csrfToken];
        }
        var init := RequestInit(methodName, headers.entries, "cors", Credentials(protocol), None);
        if fetchData.Some? {
          init := init.(body := fetchData);
        }
        request := Some(Request(url, init));
      }
    }

    /** The continuation of the dispatched call, from its outcome to the `finally`. */
    method Settle(outcome: Outcome)
      modifies this
      ensures State() == Settled(old(State()), outcome)
      ensures url == old(url) && initData == old(initData)
    {
      match outcome {
        case Response(status, isOk, hasContentType, body) =>
          if hasContentType {
            if isOk {
              data := body;
              errors := Obj(map[]);
            } else {
              errors := body;
            }
          }
          statusCode := Some(status);
          ok := Some(isOk);
        case NetworkTypeError =>
          ok := Some(false);
          statusCode := Some(NetworkErrorStatus);
          errors := NetworkErrors();
        case OtherError =>
      }
      loading := false;
      shouldSend := false;
    }
  }

  /** Everything that can happen to one hook, for reasoning about runs. */
  datatype Event =
    | ClearEvent
    | SendEvent(formData: Option<Bag>)
    | DispatchEvent
    | SettleEvent(outcome: Outcome)

  function Step(s: ReqState, initData: Option<Bag>, e: Event): ReqState
  {
    match e
    case ClearEvent => Initial()
    case SendEvent(formData) => Sent(s, initData, formData)
    case DispatchEvent => if s.shouldSend then Begun(s) else s
    case SettleEvent(o) => Settled(s, o)
  }

  function Run(s: ReqState, initData: Option<Bag>, events: seq<Event>): ReqState
    decreases |events|
  {
    if events == [] then s else Run(Step(s, initData, events[0]), initData, events[1..])
  }

  /** The hook is loading only while a request is armed, and a status code is
      recorded exactly when a success flag is. */
  predicate Coherent(s: ReqState)
  {
    (s.loading ==> s.shouldSend) && (s.statusCode.Some? <==> s.ok.Some?)
  }

  lemma StepKeepsCoherent(s: ReqState, initData: Option<Bag>, e: Event)
    requires Coherent(s)
    ensures Coherent(Step(s, initData, e))
  {
  }

  lemma {:induction false} RunKeepsCoherent(s: ReqState, initData: Option<Bag>, events: seq<Event>)
    requires Coherent(s)
    ensures Coherent(Run(s, initData, events))
    decreases |events|
  {
    if events != [] {
      StepKeepsCoherent(s, initData, events[0]);
      RunKeepsCoherent(Step(s, initData, events[0]), initData, events[1..]);
    }
  }

  lemma ClearResetsEverything(s: ReqState, initData: Option<Bag>)
    ensures Step(s, initData, ClearEvent) == Initial()
    ensures !Initial().loading && !Initial().shouldSend
    ensures Initial().data == Arr([]) && Initial().errors == Obj(map[])
    ensures Initial().statusCode.None? && Initial().ok.None? && Initial().fetchData.None?
    ensures Coherent(Initial())
  {
  }

  /** `send({})` arms a payload: the empty object is truthy, so it gets a body. */
  lemma EmptyObjectIsAPayload(initData: Option<Bag>, methodName: string, url: string,
                              headers: Bag, protocol: string)
    ensures Payload(initData, Some(map[])).Some?
    ensures initData.None? ==> Payload(initData, Some(map[])) == Some(map[])
    ensures initData.Some? ==> Payload(initData, Some(map[])) == initData
    ensures BuildRequest(methodName, url, headers, protocol, Some(map[])).init.body == Some(map[])
  {
    if initData.Some? {
      assert Spread(initData.value, map[]) == initData.value;
    }
  }

  /** Whatever the outcome, a dispatched request ends with the hook idle; an
      exception other than a `TypeError` leaves status and success unset. */
  lemma DispatchBracket(s: ReqState, o: Outcome)
    requires s.shouldSend
    ensures Step(s, None, DispatchEvent) == Begun(s)
    ensures !Settled(Begun(s), o).loading && !Settled(Begun(s), o).shouldSend
    ensures o.OtherError? ==> Settled(Begun(s), o).statusCode.None? && Settled(Begun(s), o).ok.None?
    ensures o.OtherError? ==> Settled(Begun(s), o).data == s.data && Settled(Begun(s), o).errors == s.errors
  {
  }

  /** The init of a dispatched request: the credentials policy follows the
      protocol, the CSRF token is stamped for every method but GET, and a body
      is attached exactly when a payload is armed. */
  lemma RequestInitRules(methodName: string, url: string, headers: Bag, token: Value,
                         protocol: string, fetchData: Option<Bag>)
    ensures var r := BuildRequest(methodName, url, WithCsrf(methodName, headers, token), protocol, fetchData);
      && r.url == url && r.init.httpMethod == methodName && r.init.mode == "cors"
      && (r.init.credentials == "same-origin" <==> protocol == "https")
      && (r.init.credentials != "same-origin" ==> r.init.credentials == "include")
      && (methodName != "GET" ==> CsrfHeader in r.init.headers && r.init.headers[CsrfHeader] == token)
      && (methodName == "GET" ==> r.init.headers == headers)
      && (r.init.body.Some? <==> fetchData.Some?)
      && r.init.body == fetchData
  {
  }

  /** The headers object is shared and never reset, so a GET issued after any
      other request still carries the token that request stamped. */
  lemma CsrfTokenOutlivesItsRequest(methodName: string, token: Value, later: Value)
    requires methodName != "GET"
    ensures var h := WithCsrf("GET", WithCsrf(methodName, DefaultHeaders(), token), later);
      CsrfHeader in h && h[CsrfHeader] == token
    ensures CsrfHeader !in WithCsrf("GET", DefaultHeaders(), later)
  {
  }

  /** The arguments a wrapper hook passes to `useFetchingBase`. */
  datatype HookArgs = HookArgs(methodName: string, url: string, initData: Option<Bag>)

  /** `true` when `url` is `base` followed by `path`. */
  predicate Under(url: string, base: string, path: string)
  {
    |url| == |base| + |path| && url[..|base|] == base && url[|base|..] == path
  }

  /** `useGetContent(path)`: a GET on `path` under the content root. */
  function UseGetContent(env: Env, path: string): (r: HookArgs)
    ensures r.methodName == "GET" && r.initData.None?
    ensures Under(r.url, ContentPath(env), path)
  {
    HookArgs("GET", ContentPath(env) + path, None)
  }

  /** `useGet(path)`: a GET on `path` under the API root. */
  function UseGet(env: Env, path: string): (r: HookArgs)
    ensures r.methodName == "GET" && r.initData.None?
    ensures Under(r.url, ApiPath(env), path)
  {
    HookArgs("GET", ApiPath(env) + path, None)
  }

  /** `usePost(path, data)`: the `useGet` target, with POST and `data` as the
      base payload. */
  function UsePost(env: Env, path: string, data: Option<Bag>): (r: HookArgs)
    ensures r == UseGet(env, path).(methodName := "POST", initData := data)
  {
    HookArgs("POST", ApiPath(env) + path, data)
  }

  /** `usePut` as its evident intent reads: the path is appended and `data` is
      the base payload, as for `usePost` and `usePatch`. */
  function UsePut(env: Env, path: string, data: Option<Bag>): (r: HookArgs)
    ensures r == UsePost(env, path, data).(methodName := "PUT")
  {
    HookArgs("PUT", ApiPath(env) + path, data)
  }

  /** `usePut` as written: a stray comma passes the bare API root as the URL and
      `+path` (a number, not an object) as the base payload; `data` is dropped.
      Whatever its arguments, it is the intended `usePut` of the empty path
      with no payload. */
  function UsePutAsWritten(env: Env, path: string, data: Option<Bag>): (r: HookArgs)
    ensures r == UsePut(env, "", None)
  {
    HookArgs("PUT", ApiPath(env), None)
  }

  /** `usePatch(path, data)`: the `usePost` target and payload, with PATCH. */
  function UsePatch(env: Env, path: string, data: Option<Bag>): (r: HookArgs)
    ensures r == UsePost(env, path, data).(methodName := "PATCH")
  {
    HookArgs("PATCH", ApiPath(env) + path, data)
  }

  /** `useDelete(path)`: the `useGet` target, with DELETE. */
  function UseDelete(env: Env, path: string): (r: HookArgs)
    ensures r == UseGet(env, path).(methodName := "DELETE")
  {
    HookArgs("DELETE", ApiPath(env) + path, None)
  }

  /** Every wrapper targets its own path: two different paths never reach the
      same URL, and each wrapper forwards its `data` as the base payload. */
  lemma WrappersTargetTheirPath(env: Env, path: string, other: string, data: Option<Bag>)
    requires path != other
    ensures UseGetContent(env, path).url != UseGetContent(env, other).url
    ensures UseGet(env, path).url != UseGet(env, other).url
    ensures UsePost(env, path, data).url != UsePost(env, other, data).url
    ensures UsePut(env, path, data).url != UsePut(env, other, data).url
    ensures UsePatch(env, path, data).url != UsePatch(env, other, data).url
    ensures UseDelete(env, path).url != UseDelete(env, other).url
    ensures UsePost(env, path, data).initData == data && UsePut(env, path, data).initData == data
    ensures UsePatch(env, path, data).initData == data
  {
    var a, c := UseGet(env, path).url, UseGet(env, other).url;
    assert a[|ApiPath(env)|..] == path && c[|ApiPath(env)|..] == other;
    var b, d := UseGetContent(env, path).url, UseGetContent(env, other).url;
    assert b[|ContentPath(env)|..] == path && d[|ContentPath(env)|..] == other;
  }

  /** The as-written `usePut` reaches the same URL for every path, so it cannot
      tell two resources apart, and it loses its payload. */
  lemma UsePutAsWrittenLosesPathAndData(env: Env, path: string, other: string, data: Option<Bag>)
    requires path != other
    ensures UsePutAsWritten(env, path, data).url == UsePutAsWritten(env, other, data).url
    ensures UsePutAsWritten(env, path, data).url != UsePut(env, path, data).url
            || UsePutAsWritten(env, other, data).url != UsePut(env, other, data).url
    ensures data.Some? ==> UsePutAsWritten(env, path, data).initData != data
  {
    WrappersTargetTheirPath(env, path, other, data);
  }
}
