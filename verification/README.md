# CSAuth: a Dafny model of the session guard of cleverstack-angular-seed

`app/modules/cs_session/providers/cs_auth.js` defines the AngularJS provider
`CSAuthProvider` and the service `CSAuth` it creates. The service keeps the
session (`currentUser`). It offers `login`, `register` and `logout`, which go
through a host-supplied user service and broadcast `CSAuth:*` events. It also
guards navigation: on every `$locationChangeStart` it may first fetch the
session, then runs the `locationChange` handler. The default handler turns the
destination URL into a route key and sends a guest away from a private route
to `/login`. Four handler slots (`loginStart`, `loginSuccess`, `logoutSuccess`,
`locationChange`) are filled with defaults by `$get` unless the host set them
through `setHandler`.

The model has five modules:

- `Wrappers` (`wrappers.dfy`): `Option` (JavaScript `null`) and `Result` (a thrown `Error`).
- `Routing` (`routing.dfy`): the route-key expression of line 211 as pure
  functions (`Split`, `Splice`, `Join`, `RouteKey`). Lemmas relate them to the
  URL they come from.
- `HandlerRegistry` (`handlers.dfy`): the slot names, the checks of
  `setHandler` (as written, and corrected, see Findings) and how `$get`
  resolves null slots to defaults.
- `Auth` (`auth.dfy`): the class `AuthService`. Its fields are `currentUser`,
  the `$location` path and `redirect` search entry, and three logs: the events
  broadcast, the calls made to the user service, and the invocations of host
  functions held in handler slots. Its methods are the service's functions,
  the default handlers and the listeners. Pure functions (`LoginStartEffect`,
  `LoginSuccessEffect`, `LogoutSuccessEffect`, `Reaction`, `GuardEffect`)
  specify what the handlers do. The methods `InvokeLoginStart`,
  `InvokeLoginSuccess`, `InvokeLogoutSuccess`, `Broadcast` and
  `DefaultLocationChange` implement the same branches on the object's state,
  and each is proved equal to its specification function. The two are
  specification and implementation, not two copies of one definition: lemmas
  about the handlers are stated on the functions, and the methods' `ensures`
  carry them over to the service.
- `Provider` (`provider.dfy`): the class `AuthProvider`, with the handlers
  object, `setHandler` and `$get`. It also holds three client methods that
  replay the provider's documented example with its route table (public `/`
  and `/error`, private `/users`).

Each call to the user service is a promise. Its outcome is an argument
(`Settled`: `Resolved(value)` or `Rejected`), so each `.then` branch is a
plain branch. `$route.current` is an argument of `OnLocationChangeStart`
(`routeReady`), since the router owns it.

Some behaviours of the code are easy to misread:

- `isLoggedIn` is `!!currentUser` (line 289). A session whose user has no id
  counts as logged in, while the guard (line 212) still treats that visitor as
  a guest (`UnidentifiedSessionIsLoggedInButGuarded`). The identified-user test
  is left commented out at line 290.
- `login` with a resolved user that has no id keeps the session as it was
  (lines 326-336): only the rejection branch clears it.
- `logout` clears the session only when the service call resolves (lines
  347-350), and calls the service only for an identified session.
- Hydration takes whatever `getCurrentUser` resolves with, even a user with no
  id (line 235). A rejection keeps the session as it was (lines 240-245).
- A destination missing from the route table is let through (fail-open),
  because `$route.routes[next] || false` is falsy (lines 213 and 216).
- Hydration runs on every navigation that starts while `$route.current` is
  unset (line 231). Nothing coalesces overlapping navigations.

## Model

| member | source | states |
|---|---|---|
| `Routing.Split` | app/modules/cs_session/providers/cs_auth.js:211 | `split` always yields at least one piece (the recursion relies on it) |
| `Routing.Join` | app/modules/cs_session/providers/cs_auth.js:211 | `join(sep)`; it is the inverse of `Split` in both directions through `JoinSplit` and `SplitJoin` |
| `Routing.PieceCount` | app/modules/cs_session/providers/cs_auth.js:211 | a split has exactly one piece more than the string has separators |
| `Routing.PiecesAvoidSeparator` | app/modules/cs_session/providers/cs_auth.js:211 | no piece of a split contains the separator |
| `Routing.JoinSplit` | app/modules/cs_session/providers/cs_auth.js:211 | joining the pieces of a split with the same separator gives back the string |
| `Routing.SplitJoin` | app/modules/cs_session/providers/cs_auth.js:211 | splitting the join of non-empty, separator-free pieces gives back the pieces |
| `Routing.FirstPiece` | app/modules/cs_session/providers/cs_auth.js:211 | `split(sep)[0]` is the longest prefix without the separator |
| `Routing.Splice` | app/modules/cs_session/providers/cs_auth.js:211 | `splice(3)` keeps exactly the elements from index 3 on, none when there are fewer |
| `Routing.RouteKey` | app/modules/cs_session/providers/cs_auth.js:211 | the route key always begins with `/` and never contains `?` |
| `Routing.RouteKeyCutsAtQuery` | app/modules/cs_session/providers/cs_auth.js:211 | the key after its `/` is the path after scheme and host, cut exactly at its first `?` |
| `Routing.RouteKeyOfUrl` | app/modules/cs_session/providers/cs_auth.js:211 | `scheme//host/path` and `scheme//host/path?query` both give `/path`, whatever slashes path and query hold |
| `Routing.RouteKeyOfOrigin` | app/modules/cs_session/providers/cs_auth.js:211 | a URL with nothing after the host gives `/` |
| `HandlerRegistry.AsWrittenRejectsEveryKey` | app/modules/cs_session/providers/cs_auth.js:379-393 | the checks as written reject every key, so `setHandler` always throws |
| `HandlerRegistry.HasHandlePrefix` | app/modules/cs_session/providers/cs_auth.js:380 | holds exactly of keys whose first six characters are `handle`; `HandlerName` always produces such a key |
| `HandlerRegistry.CheckHandlerAsWritten` | app/modules/cs_session/providers/cs_auth.js:379-393 | the three checks in the code's order; a success writes the key itself, an own property with the `handle` prefix, and needs a function; `AsWrittenRejectsEveryKey` shows it never succeeds on the real slots |
| `HandlerRegistry.DocumentedNamesRejected` | app/modules/cs_session/providers/cs_auth.js:45-51 | the documented `handleLoginStart` fails the property check, and the bare `loginStart` fails the prefix check |
| `HandlerRegistry.HandlerName` | app/modules/cs_session/providers/cs_auth.js:45-51 | the external name of a slot carries the `handle` prefix and is six characters longer |
| `HandlerRegistry.SlotOf` | app/modules/cs_session/providers/cs_auth.js:45-51 | the slot a `handle…` name designates, as the documentation uses it; its `HandlerName` is the name it came from |
| `HandlerRegistry.CheckHandler` | app/modules/cs_session/providers/cs_auth.js:379-393 | corrected check: a success names an own slot whose external name is the key, with a function; `HandlerNameAccepted` and `OnlyHandlerNamesAccepted` give both directions |
| `HandlerRegistry.HandlerNameAccepted` | app/modules/cs_session/providers/cs_auth.js:379-393 | corrected check: the external name of a slot, with a function, is accepted and writes that slot |
| `HandlerRegistry.OnlyHandlerNamesAccepted` | app/modules/cs_session/providers/cs_auth.js:379-393 | corrected check: only the external names of slots, with a function, are accepted (the converse of the above) |
| `HandlerRegistry.DocumentedNamesAccepted` | app/modules/cs_session/providers/cs_auth.js:45-51 | corrected check: `handleLoginStart` and `handleLoginSuccess` set `loginStart` and `loginSuccess` |
| `HandlerRegistry.EverySlotSettable` | app/modules/cs_session/providers/cs_auth.js:119-124 | each of the four slots can be set through its external name |
| `HandlerRegistry.Fill` | app/modules/cs_session/providers/cs_auth.js:162-210 | `handlers.x = handlers.x \|\| default`: keeps every slot key, fills every null slot, and keeps every slot the host set |
| `HandlerRegistry.Resolve` | app/modules/cs_session/providers/cs_auth.js:162-210 | each of the four handlers the service calls is the host function set in its slot, or the default when the slot is null |
| `HandlerRegistry.FillIdempotent` | app/modules/cs_session/providers/cs_auth.js:162-210 | filling the slots a second time changes nothing, so every read of a slot gives the same function |
| `HandlerRegistry.UnconfiguredResolvesToDefaults` | app/modules/cs_session/providers/cs_auth.js:119-124 | with no slot set, all four handlers are the defaults |
| `Auth.Identified` | app/modules/cs_session/providers/cs_auth.js:212 | `currentUser !== null && currentUser.id`, the test of the guard at line 212 and of `logout` at line 347 |
| `Auth.LoginStartEffect` | app/modules/cs_session/providers/cs_auth.js:162-169 | default: goes to `/login` and invokes no host function; a host function is invoked once with `redirect` and the location stays |
| `Auth.LoginSuccessEffect` | app/modules/cs_session/providers/cs_auth.js:179-187 | default: either the `redirect` search is cleared or the path becomes `/`, with no host function invoked; a host function is invoked once with no arguments and the location stays |
| `Auth.LogoutSuccessEffect` | app/modules/cs_session/providers/cs_auth.js:197-200 | default: only the path changes, to `/`; a host function is invoked once and the location stays |
| `Auth.Reaction` | app/modules/cs_session/providers/cs_auth.js:254-269 | `loginRequired` only moves the path to `/login`; events without a listener change nothing |
| `Auth.GuardEffect` | app/modules/cs_session/providers/cs_auth.js:210-223 | a host `locationChange` is invoked once with `next` and `current`, broadcasting nothing; the guard broadcasts at most one `loginStart`, and `GuardRedirectsOnlyGuestsOnPrivateRoutes` says exactly when |
| `Auth.GuardRedirectsOnlyGuestsOnPrivateRoutes` | app/modules/cs_session/providers/cs_auth.js:210-223 | the default guard broadcasts `loginStart` and calls `loginStart(key without "/")` iff the user is unidentified and the key is listed as not public; otherwise it changes nothing |
| `Auth.LoginReturnsToDestination` | app/modules/cs_session/providers/cs_auth.js:162-187 | default `loginStart` then default `loginSuccess` lands on the encoded destination with the search cleared |
| `Auth.AuthService.constructor` | app/modules/cs_session/providers/cs_auth.js:92 | the session starts empty, with no events or calls |
| `Auth.AuthService.GetCurrentUser` | app/modules/cs_session/providers/cs_auth.js:278-280 | returns the session, changing nothing |
| `Auth.AuthService.IsLoggedIn` | app/modules/cs_session/providers/cs_auth.js:288-291 | true exactly when there is a user, whether or not it has an id |
| `Auth.AuthService.Broadcast` | app/modules/cs_session/providers/cs_auth.js:254-269 | appends the event; `loginSuccess` and `logoutSuccess` run their slots, `loginRequired` goes to `/login`, other events change nothing |
| `Auth.AuthService.InvokeLoginStart` | app/modules/cs_session/providers/cs_auth.js:162-169 | default: path `/login` and search `{redirect: encode(redirect)}`; a host function is invoked with `redirect` |
| `Auth.AuthService.InvokeLoginSuccess` | app/modules/cs_session/providers/cs_auth.js:179-187 | default: to a non-empty saved `redirect` with the search cleared, else to `/` keeping the search |
| `Auth.AuthService.InvokeLogoutSuccess` | app/modules/cs_session/providers/cs_auth.js:197-200 | default: to `/` |
| `Auth.AuthService.DefaultLocationChange` | app/modules/cs_session/providers/cs_auth.js:210-223 | for an unidentified user on a listed non-public route: exactly one `loginStart` event, then `loginStart(key without "/")`; otherwise nothing changes |
| `Auth.AuthService.InvokeLocationChange` | app/modules/cs_session/providers/cs_auth.js:237-250 | the `locationChange` slot runs once: the default guard, or the host function with `next` and `current` |
| `Auth.AuthService.OnLocationChangeStart` | app/modules/cs_session/providers/cs_auth.js:230-252 | asks the user service for the session only without a current route; takes the resolved value even without an id, keeps the session on rejection; then runs `locationChange` once |
| `Auth.AuthService.Register` | app/modules/cs_session/providers/cs_auth.js:300-316 | identified user: with `autoLogin` the session is set and `loginSuccess` precedes `registrationSuccess`; without, only `registrationSuccess` and the session is kept; otherwise the session is cleared and `registrationFailure` is broadcast |
| `Auth.AuthService.Login` | app/modules/cs_session/providers/cs_auth.js:325-337 | identified user: the session is set and `loginSuccess` is broadcast once; user without id: session kept, `loginFailure`; rejection: session cleared, `loginFailure` |
| `Auth.AuthService.Logout` | app/modules/cs_session/providers/cs_auth.js:345-352 | `logoutSuccess` first, always; the service's `logout` is called only for an identified session, and only its resolution clears the session |
| `Provider.AuthProvider.constructor` | app/modules/cs_session/providers/cs_auth.js:119-124 | all four slots start null |
| `Provider.AuthProvider.SetHandlerAsWritten` | app/modules/cs_session/providers/cs_auth.js:379-393 | throws for a key without `handle`, a key that is not an own property, a non-function; otherwise changes `handlers[key]` only |
| `Provider.AuthProvider.SetHandler` | app/modules/cs_session/providers/cs_auth.js:379-393 | corrected: the same three errors; otherwise changes only the slot the `handle…` name designates |
| `Provider.AuthProvider.Get` | app/modules/cs_session/providers/cs_auth.js:135-210 | no user service: throws and changes nothing; otherwise fills null slots with defaults and returns a service with no session using the host functions set |
| `Provider.GuestOpensPrivatePage` | app/modules/cs_session/providers/cs_auth.js:54-79 | a guest opening `/users` lands on `/login` with redirect `users`; logging in returns to it |
| `Provider.ConfigureLoginStart` | app/modules/cs_session/providers/cs_auth.js:43-47 | the documented `setHandler('handleLoginStart', f)` is refused as written; corrected, it sets `loginStart` alone |
| `Provider.HostLoginStartHandler` | app/modules/cs_session/providers/cs_auth.js:210-219 | with a host `loginStart`, a guest opening `/users` invokes it with `users` and the location stays |
| `Provider.UnidentifiedSessionIsLoggedInButGuarded` | app/modules/cs_session/providers/cs_auth.js:212-291 | a hydrated user without id is logged in for `isLoggedIn`, yet is still sent to `/login` from a private route |

## Findings

| source | as written | input that shows it | evidently intended | confidence | as-written member | corrected member |
|---|---|---|---|---|---|---|
| app/modules/cs_session/providers/cs_auth.js:379-393 | `setHandler` requires the key to start with `handle` and to be an own property of `handlers`. The only own properties are `loginStart`, `loginSuccess`, `logoutSuccess` and `locationChange`, so no key passes and every call throws. | `setHandler('handleLoginStart', function () {})`, the call documented at lines 45-47, throws "handle name handleLoginStart is not a valid property". `setHandler('loginStart', …)` throws on the prefix. | `handle` followed by the capitalised slot name sets that slot (`handleLoginStart` sets `loginStart`), as the documentation uses it | high that every call throws; medium on the intended mapping; not executed | `HandlerRegistry.AsWrittenRejectsEveryKey` | `HandlerRegistry.OnlyHandlerNamesAccepted` |

`Provider.AuthProvider.SetHandlerAsWritten` models the code as written. The
rest of the model configures slots through the corrected
`Provider.AuthProvider.SetHandler`, and `HandlerRegistry.HandlerNameAccepted`
proves the other direction of the corrected check.

A second slip has no observable effect. The `CSAuth:loginSuccess` listener
(lines 254-258) tests `typeof handlers.locationChange` but calls
`handlers.loginSuccess`. After `$get` both slots always hold functions, so the
model calls `loginSuccess` unconditionally.

## Left out

- `setUserService` (lines 363-368) and the `$injector` lookup (lines 135-137) are dependency-injection wiring. `Get` takes only whether a user service was found. It models the "please configure a userService" error of lines 139-141.
- `console.log` diagnostics have no behavioural effect.
- Promises and asynchrony: each user-service call's outcome is an argument, and its effects land at once. Interleaved or racing `login`/hydration calls are not modelled. Neither is the timing of the guard relative to the navigation, which has already proceeded when a hydration settles. Neither are the promises the service functions return to their callers, such as a rejected `logout` propagating to the caller.
- `encodeURIComponent` is the uninterpreted function `encode`.
- `$location` and `$route` are plain state: a path, the `redirect` search entry and a route table. Other search entries are not tracked. AngularJS's own behaviour is not modelled: `path()` adds a leading `/`, and some versions reject `search(false)` instead of clearing the search. `$route.routes` is taken as given; the router's extra trailing-slash entries are not modelled.
- Host functions placed in handler slots are foreign code. Their invocation is logged with its string arguments, but their effects on the location or the session, and the event object passed to them, are not modelled.
- Listeners the host itself registers on `CSAuth:*` events are not modelled. The event log records each broadcast.
- JavaScript values outside the modelled types are not modelled. The user service might resolve `login` or `register` with `null`, which makes `user.id` throw. It might resolve `getCurrentUser` with `undefined`, which makes line 212 throw when it reads `.id` of it. `User.id` is either present (truthy) or `None` (any falsy or missing id).
- Handler slots are fixed once `$get` has run. The service keeps the resolved handlers as constants, while the code reads the shared `handlers` object on every call (lines 218, 238, 256, 262). So a corrected `SetHandler` called after `$get` would take effect in the code but not in the model. As written, `setHandler` never succeeds, so the two cannot differ.
- Calling `$get` more than once per provider is not modelled. AngularJS calls it once per injector, and each call returns a fresh service with an empty session.
- The login and registration UI named in the doc comments (lines 39-52) is not part of this model.
