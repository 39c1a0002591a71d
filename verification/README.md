# Request, session and form hooks — a Dafny model

This project models the client-side hooks of a single-page application:

- `useFetchingBase` (fetching.js) is a request hook. It owns one HTTP call's state: `loading`, `fetchData`, `data`, `errors`, `shouldSend`, `statusCode` and `ok`. `send` arms a payload. An effect then dispatches the request, stamping a CSRF token into a module-wide headers object. The network outcome settles the state. `clear` resets it. The wrappers `useGet`, `usePost` and the others fix the method and URL.
- `useAuth` (fetching.js) is the session hook. It layers a `login`/`logout` action, its form data and a `loggedIn` flag on one `POST` request hook aimed at `auth/<action>/`. One effect sends the request, and another derives `loggedIn` from the settled status.
- `useForm` (form.js) holds a `values` bag and an `errors` bag. It updates one key at a time. On submit, it forwards the values, or their projection onto an allow-list, to a request hook's `send`.

Layout:

- `js_values.dfy` (`JsValues`) holds JavaScript values, objects as `map<string, Value>`, `null`/`undefined` as `Option`, truthiness, property access and object spread.
- `fetching.dfy` (`Fetching`) has two layers. The pure layer holds the transition functions of the request state (`Sent`, `Begun`, `Settled`) and the request builder. The imperative layer is the class `RequestHook`, whose methods are proved against those functions, and the class `SharedHeaders`. The file also holds the lemmas about runs and the wrappers.
- `auth.dfy` (`Auth`) has the session transitions (`AfterLogin`, `AfterLogout`, `AfterDispatchEffect`, `AfterSettleEffect`). The class `AuthHook` keeps its request hook bound to `auth/<action>/` with the form data as base payload. The scenario lemmas are here too.
- `form.dfy` (`Form`) has the projection fold and the submit loop `CollectFields`, which is proved equal to the fold. The class `FormHook` is here too.

Effects are explicit methods that a caller runs after the fields they watch have changed. The network outcome, the CSRF cookie and the configured protocol and host are parameters.

The model follows the code in these places, where the documented behaviour says otherwise:

- `loggedIn` starts `true`, not `false` (fetching.js:117).
- An empty object `{}` is a payload and gets a body (fetching.js:35, 62).
- `send(P)` on a hook with no base payload arms `P` itself, not a spread copy (fetching.js:39).
- A transport failure gives status 418 and rethrows every other exception (fetching.js:78-88).
- The settlement rule does not look at the email again (fetching.js:122-133).
- The settlement rule does not check which request produced `ok` (fetching.js:122-133). Suppose `login` is called while a logout request is in flight. The request hook is already armed, so the login is never dispatched (fetching.js:96). The logout's ok response then logs the session in. `Auth.LogoutResponseCanLogIn` proves this run.

## Model

| member | source | states |
|---|---|---|
| Fetching.Credentials | fetching.js:5 | the policy is `same-origin` exactly when the protocol is `https`, otherwise `include` |
| Fetching.Payload | fetching.js:34-43 | with both payloads present the armed payload is the spread: every key of either, the per-call payload's keys winning; without a base it is the per-call payload; without a per-call payload it is the base |
| Fetching.Sent | fetching.js:34-45 | `send` arms that payload and sets `shouldSend`; loading, data, errors, status and ok are untouched |
| Fetching.Begun | fetching.js:48-51 | dispatch sets `loading` and clears `statusCode` and `ok`, leaving payload, data and errors |
| Fetching.Settled | fetching.js:65-92 | after any outcome `loading` and `shouldSend` are false; a response always records status and ok; with a content type an ok body becomes `data` and empties `errors`, a failed body becomes `errors` and keeps `data`; without a content type both stay; a `TypeError` gives ok false, status 418, the fixed network error bag, data kept; any other error changes nothing else |
| Fetching.WithCsrf | fetching.js:52-54 | for any method but GET the shared headers carry the cookie's token under `X-CSRFToken`; for GET they are left as they are; no other header changes |
| Fetching.BuildRequest | fetching.js:56-64 | the request goes to the given url with the given method and headers, mode `cors`, credentials `same-origin` iff the protocol is `https` and otherwise `include`, and the armed payload as its body (none when none is armed) |
| Fetching.SharedHeaders.constructor | fetching.js:10-13 | the shared headers start as JSON content type and accept |
| Fetching.RequestHook.constructor | fetching.js:15-22 | a new hook is idle: not loading, no payload, data `[]`, errors `{}`, not armed, status and ok null |
| Fetching.RequestHook.Rebind | fetching.js:15 | a re-render passes new url and base payload and keeps the state |
| Fetching.RequestHook.Clear | fetching.js:24-32 | `clear` puts the state back to the initial one whatever it was |
| Fetching.RequestHook.Send | fetching.js:34-45 | the new state is `Sent` of the old one |
| Fetching.RequestHook.Dispatch | fetching.js:47-64 | when armed, the new state is `Begun` of the old one, the shared headers get the token for non-GET methods, and the returned request carries the method, those headers, `cors`, the credentials policy and a body exactly when a payload is armed; when not armed nothing changes and no request is issued |
| Fetching.RequestHook.Settle | fetching.js:65-92 | the new state is `Settled` of the old one |
| Fetching.StepKeepsCoherent | fetching.js:24-92 | each transition keeps "loading only while armed" and "status recorded exactly when ok is" |
| Fetching.RunKeepsCoherent | fetching.js:24-92 | every run of clears, sends, dispatches and settlements from a coherent state stays coherent |
| Fetching.ClearResetsEverything | fetching.js:16-32 | `clear` restores every field: loading false, data `[]`, errors `{}`, not armed, status, ok and payload null |
| Fetching.EmptyObjectIsAPayload | fetching.js:35-43 | `send({})` arms a payload, namely `{}` or a copy of the base payload, and that payload is sent as a body |
| Fetching.DispatchBracket | fetching.js:48-92 | an armed dispatch begins loading and, whatever the outcome, ends with loading and shouldSend false; a rethrown error leaves status and ok null and data and errors as they were |
| Fetching.RequestInitRules | fetching.js:5-64 | the request goes to the hook's url with its method and `cors`; credentials are `same-origin` iff the protocol is `https`, otherwise `include`; the token header is set for non-GET methods and GET leaves the headers alone; a body is attached iff a payload is armed, and it is that payload |
| Fetching.CsrfTokenOutlivesItsRequest | fetching.js:10-54 | since the headers object is shared and never reset, a GET after a non-GET dispatch still sends the earlier token, while a GET from the default headers sends none |
| Fetching.UseGetContent | fetching.js:102 | a GET with no base payload whose url is the content root followed by exactly the path |
| Fetching.UseGet | fetching.js:104 | a GET with no base payload whose url is the API root followed by exactly the path |
| Fetching.UsePost | fetching.js:106 | the `useGet` target for the same path, with method POST and `data` as base payload |
| Fetching.UsePut | fetching.js:108 | corrected `usePut`: the `usePost` target and payload for the same path and data, with method PUT |
| Fetching.UsePutAsWritten | fetching.js:108 | `usePut` as written: whatever the path and data, the same as the corrected `usePut` of the empty path with no base payload |
| Fetching.UsePatch | fetching.js:110 | the `usePost` target and payload for the same path and data, with method PATCH |
| Fetching.UseDelete | fetching.js:112 | the `useGet` target for the same path, with method DELETE |
| Fetching.WrappersTargetTheirPath | fetching.js:102-112 | for every wrapper, two different paths reach two different urls; POST, PUT and PATCH forward their `data` as base payload |
| Fetching.UsePutAsWrittenLosesPathAndData | fetching.js:108 | the PUT wrapper as written reaches one url for every path, so for two different paths at least one misses its intended url, and it drops `data` |
| Auth.AuthUrl | fetching.js:118-120 | the session request goes to `apiPath + 'auth/' + action + '/'` |
| Auth.AfterLogin | fetching.js:143-146 | `login` sets the action to `login` and the form data to exactly `{email, password}`, touching nothing else |
| Auth.AfterLogout | fetching.js:148-153 | `logout` sets the action to `logout`, empties the form data, sets `loggedIn` false and clears the request state, all at once |
| Auth.AfterDispatchEffect | fetching.js:135-141 | when the guard holds, the request is armed with the form data as payload (spread over itself as base) and its loading, data, errors, status and ok are kept; otherwise the request state is untouched |
| Auth.AfterSettleEffect | fetching.js:122-133 | ok on a login sets `loggedIn`; otherwise a 401, or ok on a logout, clears it; otherwise it is kept; `ok === false` also resets action and form data |
| Auth.AuthHook.constructor | fetching.js:114-120 | a new session has no action, no form data, `loggedIn` true, and an idle POST hook on `auth//` |
| Auth.AuthHook.Login | fetching.js:143-146 | the new state is `AfterLogin`, and the request hook is re-bound to the new url and form data |
| Auth.AuthHook.Logout | fetching.js:148-153 | the new state is `AfterLogout`, and the request hook is re-bound |
| Auth.AuthHook.DispatchEffect | fetching.js:135-141 | the new state is `AfterDispatchEffect` |
| Auth.AuthHook.SettleEffect | fetching.js:122-133 | the new state is `AfterSettleEffect`, and the request hook is re-bound when the action resets |
| Auth.DispatchGuard | fetching.js:136-137 | the effect sends exactly for a logout, or for a login whose form data has a truthy email; never with no action |
| Auth.DispatchGuardRules | fetching.js:136-137 | a login is sent iff its email is truthy; a logout always is; no action never is |
| Auth.EmptyEmailNeverSends | fetching.js:136-146 | `login('', pw)` followed by the dispatch effect leaves the request state untouched, so nothing reaches the network |
| Auth.LoginScenario | fetching.js:114-146 | whenever the dispatch effect runs after a login with a truthy email, logged in or not, it arms one POST to `auth/login/` with body exactly `{email, password}` and the CSRF header; once that request is dispatched, the round trip alone leaves `loggedIn` as it was, and the settlement effect on a successful response sets it |
| Auth.LogoutScenario | fetching.js:122-153 | `logout` sets `loggedIn` false immediately and sends `{}`; whatever the outcome, `loggedIn` stays false |
| Auth.UnauthorizedLogsOut | fetching.js:126-128 | a settled 401 response clears `loggedIn` whatever the action was |
| Auth.FailureEndsTheAction | fetching.js:129-132 | a failed response or an unreachable server resets the action to `''` and the form data to `{}` |
| Auth.SettleEffectWithoutResultIsInert | fetching.js:122-133 | with ok and status both null the settlement effect changes nothing, so a rethrown error leaves the session as it was |
| Auth.AuthStepKeepsInvariant | fetching.js:114-153 | each call, effect, dispatch or settlement keeps the session invariant: the request state is coherent, the form data is exactly the two credentials while logging in and `{}` otherwise, and any armed payload is `{}` or the credentials |
| Auth.AuthRunKeepsInvariant | fetching.js:114-153 | every run of those events keeps the session invariant |
| Auth.SessionSendsOnlyCredentialsOrNothing | fetching.js:114-153 | from a fresh mount, whatever has happened, a request the session issues carries as body either `{}` or exactly `{email, password}` |
| Auth.LoggedInChangesOnlyOnResults | fetching.js:122-128 | one run of the settlement effect raises `loggedIn` only on an ok result while the action is `login`, and lowers it only on a 401 or an ok result while the action is `logout` |
| Auth.LoggedInChangesOnlyAt | fetching.js:114-153 | over every session event, `loggedIn` rises only in the settlement effect on ok with `login`, and falls only on `logout()` or in the settlement effect on a 401 or ok with `logout` |
| Auth.LogoutResponseCanLogIn | fetching.js:96-153 | a login issued while the logout request is in flight is never dispatched; when the logout succeeds the session ends logged in with the credentials discarded unsent |
| Form.SetField | form.js:13-15 | the named key gets the new value, and every other key keeps its presence and value |
| Form.Projection | form.js:22-26 | the bag built by the loop has exactly the listed keys, each bound to the current value or `undefined` |
| Form.Submitted | form.js:22-29 | with an allow-list the forwarded bag has exactly the listed keys; without one it is `values` itself; either way every forwarded value is the current one |
| Form.CollectFields | form.js:22-26 | the loop builds exactly the projection |
| Form.FormHook.constructor | form.js:3-5 | values start as the defaults and errors as `{}` |
| Form.FormHook.HandleChange | form.js:7-11 | values become the old values with `e.target.name` set to `e.target.value`; errors are kept |
| Form.FormHook.HandleValueChange | form.js:13-15 | values become the old values with `name` set to `value`; errors are kept |
| Form.FormHook.HandleSubmit | form.js:17-32 | errors become `{}`, values are kept, and the request hook is in the state of one `send` of the submitted bag; `validate` plays no part |
| Form.AllowListExample | form.js:22-26 | the allow-list `['a','b']` over `{a:1,b:2,c:3}` forwards exactly `{a:1,b:2}` |
| Form.MissingFieldIsForwardedUndefined | form.js:25 | a listed field with no value is forwarded as `undefined` |
| Form.ProjectionIsRestriction | form.js:22-26 | when every listed field has a value, the forwarded bag is `values` restricted to the list |

## Findings

| source | as written | input that shows it | evidently intended | confidence | as-written member | corrected member |
|---|---|---|---|---|---|---|
| fetching.js:108 | `usePut` calls `useFetchingBase('PUT', apiPath, + path, data)`. A stray comma makes the url the bare API root, makes the base payload the number `+path`, and drops `data`. | `usePut('items/3', {name: 'x'})` targets `<api>/` instead of `<api>/items/3` and has no base payload | `useFetchingBase('PUT', apiPath + path, data)`, like `usePost` and `usePatch` | high; not executed | Fetching.UsePutAsWrittenLosesPathAndData | Fetching.WrappersTargetTheirPath |

## Left out

- `fetch`, `await` and `response.json()` are network I/O. The outcome of a call is an input, `Outcome`, that carries the parsed body. A body that fails to parse throws an error that is not a `TypeError`, so it falls under `OtherError`.
- React's scheduling is left out. An effect runs only when the values it watches change, and the caller of the effect methods decides that. The model does not enforce two consequences: a second `send` while already armed does not dispatch again, and a second `login` while the action is already `login` does not send. A run that follows React's scheduling must leave out those dispatches, as `Auth.LogoutResponseCanLogIn` does.
- Overlapping requests and the race on the shared headers object are concurrency and are not modelled. The headers object is modelled sequentially.
- `js-cookie`, `process.env` and `console.error` are foreign calls. The CSRF token, protocol and host are parameters, and the logging is dropped.
- `JSON.stringify` is not modelled. The body is the payload object that would be serialised.
- Rethrown exceptions are not propagated. The model only records that status and ok stay null.
- The raw setters the hooks return (`setData`, `setErrors`, `setLoggedIn`) are plain assignments and are not modelled.
- `e.preventDefault()` is DOM behaviour and is not modelled.
- Numbers are integers. No floating point or `NaN` is modelled.
- Payloads are objects or absent. Every caller in these files passes an object, so a string or array spread into a payload is not modelled.
- Fetching.UsePutAsWritten: records the number `+path` as no base payload. With a numeral path such as `'12'`, a `send()` without a payload would send that number as the body; the model does not show this.
