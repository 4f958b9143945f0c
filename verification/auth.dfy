/**
 * The CSAuth service: the session (`currentUser`), the actions `login`,
 * `register` and `logout`, the navigation guard run on `$locationChangeStart`,
 * and the listeners on the `CSAuth:*` events it broadcasts.
 *
 * The router state it reads and writes (`$location`, `$route.routes`) is plain
 * state here; the user service is represented by the log of the calls made to
 * it, and each call's outcome is an argument; host functions put in handler
 * slots are represented by the log of their invocations.
 */
module Auth {
  import opened Wrappers
  import opened Routing
  import opened HandlerRegistry

  /** A user record from the user service. Only `id` is read: `None` stands for any falsy or missing id. */
  datatype User = User(id: Option<string>, data: map<string, string>)

  /** The credentials passed through to the user service, never inspected. */
  type Credentials = map<string, string>

  /** How a promise returned by the user service settled. */
  datatype Settled<+T> = Resolved(value: T) | Rejected

  /** An entry of `$route.routes`; `isPublic` is the truthiness of its `public` property. */
  datatype Route = Route(isPublic: bool)

  /** `$location`: its path and the `redirect` entry of its search object. */
  datatype Location = Location(path: string, redirect: Option<string>)

  /**
   * The events broadcast on `$rootScope`: `CSAuth:loginStart`, `CSAuth:loginSuccess`,
   * `CSAuth:loginFailure`, `CSAuth:logoutSuccess`, `CSAuth:loginRequired`,
   * `CSAuth:registrationSuccess` and `CSAuth:registrationFailure`.
   */
  datatype Event =
    | LoginStart | LoginSuccess | LoginFailure | LogoutSuccess | LoginRequired
    | RegistrationSuccess | RegistrationFailure

  /** A call made to the user service. */
  datatype ServiceCall = GetCurrentUserCall | LoginCall(credentials: Credentials) | RegisterCall(credentials: Credentials) | LogoutCall

  /** An invocation of a host function held in a handler slot, with its string arguments. */
  datatype HandlerCall = HandlerCall(callback: Callback, args: seq<string>)

  /** What the handlers act on: the location and the host functions invoked so far. */
  datatype HostView = HostView(location: Location, handlerCalls: seq<HandlerCall>)

  /** `currentUser !== null && currentUser.id`: a session with an identified user. */
  predicate Identified(user: Option<User>)
  {
    user.Some? && user.value.id.Some?
  }

  /** `loginStart(redirect)`: the default goes to `/login` with the encoded destination as `redirect`. */
  function LoginStartEffect(h: Handler, encode: string -> string, redirect: string, v: HostView): (r: HostView)
    ensures h.Default? ==> r.handlerCalls == v.handlerCalls && r.location.path == "/login"
    ensures h.Custom? ==> r.location == v.location && r.handlerCalls == v.handlerCalls + [HandlerCall(h.callback, [redirect])]
  {
    match h
    case Default => v.(location := Location("/login", Some(encode(redirect))))
    case Custom(cb) => v.(handlerCalls := v.handlerCalls + [HandlerCall(cb, [redirect])])
  }

  /**
   * `loginSuccess()`: the default goes to a non-empty `redirect` and clears the
   * search, and otherwise goes to `/` leaving the search as it is.
   */
  function LoginSuccessEffect(h: Handler, v: HostView): (r: HostView)
    ensures h.Default? ==> r.handlerCalls == v.handlerCalls && (r.location.redirect.None? || r.location.path == "/")
    ensures h.Custom? ==> r.location == v.location && r.handlerCalls == v.handlerCalls + [HandlerCall(h.callback, [])]
  {
    match h
    case Default =>
      var r := v.location.redirect;
      if r.Some? && r.value != "" then v.(location := Location(r.value, None))
      else v.(location := v.location.(path := "/"))
    case Custom(cb) => v.(handlerCalls := v.handlerCalls + [HandlerCall(cb, [])])
  }

  /** `logoutSuccess()`: the default goes to `/`. */
  function LogoutSuccessEffect(h: Handler, v: HostView): (r: HostView)
    ensures h.Default? ==> r.handlerCalls == v.handlerCalls && r.location == v.location.(path := "/")
    ensures h.Custom? ==> r.location == v.location && r.handlerCalls == v.handlerCalls + [HandlerCall(h.callback, [])]
  {
    match h
    case Default => v.(location := v.location.(path := "/"))
    case Custom(cb) => v.(handlerCalls := v.handlerCalls + [HandlerCall(cb, [])])
  }

  /** What the listeners registered by `$get` do when an event is broadcast. */
  function Reaction(hs: Handlers, e: Event, v: HostView): (r: HostView)
    ensures !(e.LoginSuccess? || e.LogoutSuccess? || e.LoginRequired?) ==> r == v
    ensures e.LoginRequired? ==> r == v.(location := v.location.(path := "/login"))
  {
    match e
    case LoginSuccess => LoginSuccessEffect(hs.loginSuccess, v)
    case LogoutSuccess => LogoutSuccessEffect(hs.logoutSuccess, v)
    case LoginRequired => v.(location := v.location.(path := "/login"))
    case _ => v
  }

  /**
   * One run of the `locationChange` slot for a navigation to `next`: the events
   * broadcast and the new view. The default sends a guest on a private route
   * to `loginStart`; a host function is invoked with `next` and `current`.
   */
  function GuardEffect(hs: Handlers, routes: map<string, Route>, encode: string -> string, user: Option<User>,
                       next: string, current: string, events: seq<Event>, v: HostView): (r: (seq<Event>, HostView))
    ensures hs.locationChange.Custom? ==>
              r == (events, v.(handlerCalls := v.handlerCalls + [HandlerCall(hs.locationChange.callback, [next, current])]))
    ensures r.0 == events || r.0 == events + [LoginStart]
  {
    match hs.locationChange
    case Custom(cb) => (events, v.(handlerCalls := v.handlerCalls + [HandlerCall(cb, [next, current])]))
    case Default =>
      var key := RouteKey(next);
      if !Identified(user) && key in routes && !routes[key].isPublic
      then (events + [LoginStart], LoginStartEffect(hs.loginStart, encode, key[1..], v))
      else (events, v)
  }

  /**
   * The default guard broadcasts `loginStart` and calls the `loginStart` slot
   * with the route key without its leading `/` exactly when the user is not
   * identified and the route table lists the key as not public. Identified
   * users, public routes and routes missing from the table are let through.
   */
  lemma GuardRedirectsOnlyGuestsOnPrivateRoutes(hs: Handlers, routes: map<string, Route>, encode: string -> string,
                                                user: Option<User>, next: string, current: string,
                                                events: seq<Event>, v: HostView)
    requires hs.locationChange == Default
    ensures var key := RouteKey(next);
            var (events', v') := GuardEffect(hs, routes, encode, user, next, current, events, v);
            && (events' == events + [LoginStart] <==> !Identified(user) && key in routes && !routes[key].isPublic)
            && (events' == events || events' == events + [LoginStart])
            && (events' == events ==> v' == v)
            && (events' != events ==> v' == LoginStartEffect(hs.loginStart, encode, key[1..], v))
  {
  }

  /**
   * With the default handlers, being sent to `/login` and then logging in comes
   * back to the encoded destination with the search cleared (to `/` with an
   * empty `redirect` left in place when the encoding is empty).
   */
  lemma LoginReturnsToDestination(encode: string -> string, destination: string, v: HostView)
    ensures var back := LoginSuccessEffect(Default, LoginStartEffect(Default, encode, destination, v));
            && back.handlerCalls == v.handlerCalls
            && (encode(destination) != "" ==> back.location == Location(encode(destination), None))
            && (encode(destination) == "" ==> back.location == Location("/", Some("")))
  {
  }

  /** The service object returned by `$get`, with the provider's closure state it shares. */
  class AuthService {
    /** The handlers object after `$get` filled it; nothing writes it afterwards. */
    const handlers: Handlers
    /** `$route.routes`, keyed by route path. */
    const routes: map<string, Route>
    /** `encodeURIComponent`, a host library function left uninterpreted. */
    const encode: string -> string

    /** `currentUser`: `None` is `null`. */
    var currentUser: Option<User>
    var location: Location
    /** Every event broadcast so far, in order. */
    var events: seq<Event>
    /** Every call made to the user service so far, in order. */
    var serviceCalls: seq<ServiceCall>
    /** Every invocation of a host function held in a handler slot so far, in order. */
    var handlerCalls: seq<HandlerCall>

    function View(): HostView
      reads this
    {
      HostView(location, handlerCalls)
    }

    constructor (handlers: Handlers, routes: map<string, Route>, encode: string -> string, location: Location)
      ensures this.handlers == handlers && this.routes == routes && this.encode == encode
      ensures this.location == location && currentUser == None
      ensures events == [] && serviceCalls == [] && handlerCalls == []
    {
      this.handlers := handlers;
      this.routes := routes;
      this.encode := encode;
      this.location := location;
      currentUser := None;
      events := [];
      serviceCalls := [];
      handlerCalls := [];
    }

    /** `getCurrentUser()`: the session as it is, changing nothing. */
    method GetCurrentUser() returns (user: Option<User>)
      ensures user == currentUser
    {
      user := currentUser;
    }

    /** `isLoggedIn()`: `!!currentUser`, true for any user, identified or not. */
    method IsLoggedIn() returns (loggedIn: bool)
      ensures loggedIn <==> currentUser.Some?
    {
      loggedIn := currentUser != None;
    }

    /** `$rootScope.$broadcast(e)`: records the event and runs the listeners `$get` registered. */
    method Broadcast(e: Event)
      modifies this`location, this`events, this`handlerCalls
      ensures events == old(events) + [e]
      ensures View() == Reaction(handlers, e, old(View()))
    {
      events := events + [e];
      match e
      case LoginSuccess => InvokeLoginSuccess();
      case LogoutSuccess => InvokeLogoutSuccess();
      case LoginRequired => location := location.(path := "/login");
      case _ =>
    }

    /** Calls the `loginStart` slot. */
    method InvokeLoginStart(redirect: string)
      modifies this`location, this`handlerCalls
      ensures View() == LoginStartEffect(handlers.loginStart, encode, redirect, old(View()))
    {
      match handlers.loginStart
      case Custom(cb) => handlerCalls := handlerCalls + [HandlerCall(cb, [redirect])];
      case Default =>
        location := Location("/login", Some(encode(redirect)));
    }

    /** Calls the `loginSuccess` slot. */
    method InvokeLoginSuccess()
      modifies this`location, this`handlerCalls
      ensures View() == LoginSuccessEffect(handlers.loginSuccess, old(View()))
    {
      match handlers.loginSuccess
      case Custom(cb) => handlerCalls := handlerCalls + [HandlerCall(cb, [])];
      case Default =>
        if location.redirect.Some? && location.redirect.value != "" {
          location := location.(path := location.redirect.value);
          location := location.(redirect := None);
        } else {
          location := location.(path := "/");
        }
    }

    /** Calls the `logoutSuccess` slot. */
    method InvokeLogoutSuccess()
      modifies this`location, this`handlerCalls
      ensures View() == LogoutSuccessEffect(handlers.logoutSuccess, old(View()))
    {
      match handlers.logoutSuccess
      case Custom(cb) => handlerCalls := handlerCalls + [HandlerCall(cb, [])];
      case Default =>
        location := location.(path := "/");
    }

    /** The default `locationChange` handler: redirects a guest away from a private route. */
    method DefaultLocationChange(next: string)
      modifies this`location, this`events, this`handlerCalls
      ensures var key := RouteKey(next);
              if !Identified(currentUser) && key in routes && !routes[key].isPublic
              then events == old(events) + [LoginStart]
                   && View() == LoginStartEffect(handlers.loginStart, encode, key[1..], old(View()))
              else events == old(events) && View() == old(View())
    {
      var key := RouteKey(next);
      if currentUser == None || currentUser.value.id == None {
        // `$route.routes[next] || false`
        var route := if key in routes then Some(routes[key]) else None;
        if route.Some? && !route.value.isPublic {
          Broadcast(LoginStart);
          InvokeLoginStart(key[1..]);
        }
      }
    }

    /** Calls the `locationChange` slot for a navigation from `current` to `next`. */
    method InvokeLocationChange(next: string, current: string)
      modifies this`location, this`events, this`handlerCalls
      ensures (events, View()) == GuardEffect(handlers, routes, encode, currentUser, next, current, old(events), old(View()))
    {
      match handlers.locationChange
      case Custom(cb) => handlerCalls := handlerCalls + [HandlerCall(cb, [next, current])];
      case Default => DefaultLocationChange(next);
    }

    /**
     * The `$locationChangeStart` listener. While the router has no current route
     * (`routeReady` false) it first asks the user service for the session and
     * takes whatever it resolves with, keeping the session on a rejection; then,
     * on every path, it runs the `locationChange` slot once.
     */
    method OnLocationChangeStart(next: string, current: string, routeReady: bool, session: Settled<Option<User>>)
      modifies this`currentUser, this`location, this`events, this`handlerCalls, this`serviceCalls
      ensures serviceCalls == old(serviceCalls) + (if routeReady then [] else [GetCurrentUserCall])
      ensures currentUser == if !routeReady && session.Resolved? then session.value else old(currentUser)
      ensures (events, View()) == GuardEffect(handlers, routes, encode, currentUser, next, current, old(events), old(View()))
    {
      if !routeReady {
        serviceCalls := serviceCalls + [GetCurrentUserCall];
        match session
        case Resolved(user) =>
          currentUser := user;
          InvokeLocationChange(next, current);
        case Rejected =>
          InvokeLocationChange(next, current);
      } else {
        InvokeLocationChange(next, current);
      }
    }

    /**
     * `register(credentials, autoLogin)`. An identified user is registered: with
     * `autoLogin` it becomes the session and `loginSuccess` is broadcast before
     * `registrationSuccess`; without, only `registrationSuccess` is broadcast and
     * the session is kept. An unidentified user or a rejection clears the session
     * and broadcasts `registrationFailure`.
     */
    method Register(credentials: Credentials, autoLogin: bool, settled: Settled<User>)
      modifies this`currentUser, this`location, this`events, this`handlerCalls, this`serviceCalls
      ensures serviceCalls == old(serviceCalls) + [RegisterCall(credentials)]
      ensures settled.Resolved? && settled.value.id.Some? && autoLogin ==>
                && currentUser == Some(settled.value)
                && events == old(events) + [LoginSuccess, RegistrationSuccess]
                && View() == LoginSuccessEffect(handlers.loginSuccess, old(View()))
      ensures settled.Resolved? && settled.value.id.Some? && !autoLogin ==>
                currentUser == old(currentUser) && events == old(events) + [RegistrationSuccess] && View() == old(View())
      ensures (settled.Rejected? || settled.value.id.None?) ==>
                currentUser == None && events == old(events) + [RegistrationFailure] && View() == old(View())
    {
      serviceCalls := serviceCalls + [RegisterCall(credentials)];
      match settled
      case Resolved(user) =>
        if user.id.Some? {
          if autoLogin {
            currentUser := Some(user);
            Broadcast(LoginSuccess);
          }
          Broadcast(RegistrationSuccess);
        } else {
          currentUser := None;
          Broadcast(RegistrationFailure);
        }
      case Rejected =>
        currentUser := None;
        Broadcast(RegistrationFailure);
    }

    /**
     * `login(credentials)`. An identified user becomes the session and
     * `loginSuccess` is broadcast once; an unidentified user leaves the session
     * as it was and broadcasts `loginFailure`; a rejection clears the session and
     * broadcasts `loginFailure`.
     */
    method Login(credentials: Credentials, settled: Settled<User>)
      modifies this`currentUser, this`location, this`events, this`handlerCalls, this`serviceCalls
      ensures serviceCalls == old(serviceCalls) + [LoginCall(credentials)]
      ensures settled.Resolved? && settled.value.id.Some? ==>
                && currentUser == Some(settled.value)
                && events == old(events) + [LoginSuccess]
                && View() == LoginSuccessEffect(handlers.loginSuccess, old(View()))
      ensures settled.Resolved? && settled.value.id.None? ==>
                currentUser == old(currentUser) && events == old(events) + [LoginFailure] && View() == old(View())
      ensures settled.Rejected? ==>
                currentUser == None && events == old(events) + [LoginFailure] && View() == old(View())
    {
      serviceCalls := serviceCalls + [LoginCall(credentials)];
      match settled
      case Resolved(user) =>
        if user.id.Some? {
          currentUser := Some(user);
          Broadcast(LoginSuccess);
        } else {
          Broadcast(LoginFailure);
        }
      case Rejected =>
        currentUser := None;
        Broadcast(LoginFailure);
    }

    /**
     * `logout()`. Broadcasts `logoutSuccess` first, whatever the session. Only an
     * identified session calls the user service's `logout`, and only its
     * resolution clears the session; otherwise the session is kept.
     */
    method Logout(settled: Settled<()>)
      modifies this`currentUser, this`location, this`events, this`handlerCalls, this`serviceCalls
      ensures events == old(events) + [LogoutSuccess]
      ensures View() == LogoutSuccessEffect(handlers.logoutSuccess, old(View()))
      ensures serviceCalls == old(serviceCalls) + (if Identified(old(currentUser)) then [LogoutCall] else [])
      ensures currentUser == if Identified(old(currentUser)) && settled.Resolved? then None else old(currentUser)
    {
      Broadcast(LogoutSuccess);
      if currentUser != None && currentUser.value.id != None {
        serviceCalls := serviceCalls + [LogoutCall];
        if settled.Resolved? {
          currentUser := None;
        }
      }
    }
  }
}
