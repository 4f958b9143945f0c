/**
 * CSAuthProvider: the configuration-time object. It owns the handlers object,
 * validates `setHandler` calls, and its `$get` fills the empty slots with the
 * defaults and creates the service.
 */
module Provider {
  import opened Wrappers
  import opened Routing
  import opened HandlerRegistry
  import opened Auth

  /** The error `$get` throws when no user service can be found. */
  datatype ConfigError = MissingUserService

  class AuthProvider {
    /** The handlers object shared with the service. */
    var handlers: Slots

    ghost predicate Valid()
      reads this
    {
      handlers.Keys == SlotNames
    }

    constructor ()
      ensures Valid() && handlers == Unconfigured
    {
      handlers := Unconfigured;
    }

    /**
     * `setHandler(key, foo)` as written: throws unless the key starts with
     * 'handle', is an own property of the handlers object and `foo` is a
     * function; otherwise writes `handlers[key]` and nothing else. By
     * `AsWrittenRejectsEveryKey` the success path is never taken.
     */
    method SetHandlerAsWritten(key: string, foo: Value) returns (r: Result<string, HandlerError>)
      requires Valid()
      modifies this
      ensures Valid()
      ensures r == CheckHandlerAsWritten(key, foo, SlotNames)
      ensures r.Ok? ==> foo.Function? && handlers == old(handlers)[key := Some(Custom(foo.callback))]
      ensures r.Err? ==> handlers == old(handlers)
    {
      r := CheckHandlerAsWritten(key, foo, handlers.Keys);
      if r.Ok? {
        handlers := handlers[key := Some(Custom(foo.callback))];
      }
    }

    /**
     * `setHandler(key, foo)` as its documentation uses it: `handleLoginStart`
     * sets the `loginStart` slot. Throws for a key without the 'handle' prefix,
     * a key naming no slot, or a value that is not a function; otherwise writes
     * that one slot and nothing else.
     */
    method SetHandler(key: string, foo: Value) returns (r: Result<string, HandlerError>)
      requires Valid()
      modifies this
      ensures Valid()
      ensures r == CheckHandler(key, foo, SlotNames)
      ensures r.Ok? ==> foo.Function? && handlers == old(handlers)[r.value := Some(Custom(foo.callback))]
      ensures r.Err? ==> handlers == old(handlers)
    {
      r := CheckHandler(key, foo, handlers.Keys);
      if r.Ok? {
        handlers := handlers[r.value := Some(Custom(foo.callback))];
      }
    }

    /**
     * `$get`: throws when no user service was found; otherwise fills every null
     * slot with its default and returns a service with no session, whose
     * handlers are the host functions set and the defaults elsewhere.
     */
    method Get(userServiceFound: bool, routes: map<string, Route>, encode: string -> string, location: Location)
      returns (r: Result<AuthService, ConfigError>)
      requires Valid()
      modifies this
      ensures Valid()
      ensures !userServiceFound ==> r == Err(MissingUserService) && handlers == old(handlers)
      ensures userServiceFound ==>
                && r.Ok? && fresh(r.value)
                && handlers == Fill(old(handlers))
                && r.value.handlers == Resolve(old(handlers))
                && r.value.routes == routes && r.value.encode == encode && r.value.location == location
                && r.value.currentUser == None
                && r.value.events == [] && r.value.serviceCalls == [] && r.value.handlerCalls == []
    {
      if !userServiceFound {
        return Err(MissingUserService);
      }
      var resolved := Resolve(handlers);
      handlers := Fill(handlers);
      var service := new AuthService(resolved, routes, encode, location);
      r := Ok(service);
    }
  }

  /** The route table of the provider's documentation: public home and error pages, a private user list. */
  const ExampleRoutes: map<string, Route> := map["/" := Route(true), "/users" := Route(false), "/error" := Route(true)]

  /**
   * With the default handlers, a visitor whose session check finds no user and
   * who opens `/users` is sent to `/login` with `users` as the redirect; logging
   * in then brings them back to it.
   */
  method GuestOpensPrivatePage(scheme: string, host: string, encode: string -> string, user: User)
    returns (atLogin: Location, afterLogin: Location)
    requires '/' !in scheme && '/' !in host
    requires user.id.Some?
    ensures atLogin == Location("/login", Some(encode("users")))
    ensures encode("users") != "" ==> afterLogin == Location(encode("users"), None)
  {
    var provider := new AuthProvider();
    UnconfiguredResolvesToDefaults();
    var created := provider.Get(true, ExampleRoutes, encode, Location("/", None));
    var auth := created.value;

    var page := "users";
    var url := scheme + "//" + host + "/" + page;
    RouteKeyOfUrl(scheme, host, page, "");
    var key := RouteKey(url);
    assert key == "/" + page;
    assert key == "/users" && key[1..] == page;
    assert key in ExampleRoutes && !ExampleRoutes[key].isPublic;
    auth.OnLocationChangeStart(url, "", false, Resolved(None));
    atLogin := auth.location;

    auth.Login(map[], Resolved(user));
    afterLogin := auth.location;
  }

  /** `$get` on a provider where only `loginStart` was set to `f`. */
  method ServiceWithHostLoginStart(provider: AuthProvider, encode: string -> string, f: Callback) returns (auth: AuthService)
    requires provider.handlers == Unconfigured[LoginStartSlot := Some(Custom(f))]
    modifies provider
    ensures fresh(auth)
    ensures auth.handlers == Handlers(Custom(f), Default, Default, Default)
    ensures auth.routes == ExampleRoutes && auth.encode == encode && auth.location == Location("/", None)
    ensures auth.currentUser == None && auth.handlerCalls == []
  {
    OnlyLoginStartSet(f);
    var created := provider.Get(true, ExampleRoutes, encode, Location("/", None));
    auth := created.value;
  }

  /**
   * The documented configuration `setHandler('handleLoginStart', f)` is refused
   * as written, leaving every slot null; under its documented meaning it sets
   * the `loginStart` slot alone.
   */
  method ConfigureLoginStart(f: Callback) returns (provider: AuthProvider, asWritten: Result<string, HandlerError>, fixed: Result<string, HandlerError>)
    ensures asWritten == Err(UnknownHandler("handleLoginStart"))
    ensures fixed == Ok(LoginStartSlot)
    ensures fresh(provider) && provider.handlers == Unconfigured[LoginStartSlot := Some(Custom(f))]
  {
    provider := new AuthProvider();
    DocumentedNamesRejected(f);
    asWritten := provider.SetHandlerAsWritten("handleLoginStart", Function(f));
    assert provider.handlers == Unconfigured;
    DocumentedNamesAccepted(f);
    fixed := provider.SetHandler("handleLoginStart", Function(f));
  }

  /**
   * With a host function `f` in the `loginStart` slot, a guest opening `/users`
   * invokes `f` with `users` and stays where it is.
   */
  method HostLoginStartHandler(scheme: string, host: string, encode: string -> string, f: Callback)
    returns (calls: seq<HandlerCall>, at: Location)
    requires '/' !in scheme && '/' !in host
    ensures calls == [HandlerCall(f, ["users"])]
    ensures at == Location("/", None)
  {
    var provider, _, _ := ConfigureLoginStart(f);
    var auth := ServiceWithHostLoginStart(provider, encode, f);

    var page := "users";
    var url := scheme + "//" + host + "/" + page;
    RouteKeyOfUrl(scheme, host, page, "");
    var key := RouteKey(url);
    assert key == "/" + page;
    assert key == "/users" && key[1..] == page;
    assert key in ExampleRoutes && !ExampleRoutes[key].isPublic;
    auth.OnLocationChangeStart(url, "", false, Resolved(None));
    calls := auth.handlerCalls;
    at := auth.location;
  }

  /**
   * A session check resolving with a user that has no id makes `isLoggedIn`
   * true, while the guard still treats the visitor as a guest and sends them to `/login`.
   */
  method UnidentifiedSessionIsLoggedInButGuarded(scheme: string, host: string, encode: string -> string,
                                                 data: map<string, string>)
    returns (loggedIn: bool, at: Location)
    requires '/' !in scheme && '/' !in host
    ensures loggedIn
    ensures at == Location("/login", Some(encode("users")))
  {
    var provider := new AuthProvider();
    UnconfiguredResolvesToDefaults();
    var created := provider.Get(true, ExampleRoutes, encode, Location("/", None));
    var auth := created.value;

    var page := "users";
    var url := scheme + "//" + host + "/" + page;
    RouteKeyOfUrl(scheme, host, page, "");
    var key := RouteKey(url);
    assert key == "/" + page;
    assert key == "/users" && key[1..] == page;
    assert key in ExampleRoutes && !ExampleRoutes[key].isPublic;
    auth.OnLocationChangeStart(url, "", false, Resolved(Some(User(None, data))));
    loggedIn := auth.IsLoggedIn();
    at := auth.location;
  }
}
