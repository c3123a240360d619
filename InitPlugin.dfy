/**
 * The storefront's start-up plugin. Once per page load it checks a reload-loop
 * fuse kept in local storage, forwards the session cookie to the GraphQL client
 * as a header, and either initialises the store at once or waits for the first
 * user interaction. Initialising the store refreshes the cart (at most once per
 * page), installs a GraphQL error handler that recovers from a broken session by
 * clearing cookies and reloading, and on success clears the fuse's keys.
 */
module InitPlugin {
  import opened Wrappers
  import opened JsText
  import ProductCache

  /** Local-storage key of the time of the last recovery reload, in epoch milliseconds. */
  const ReloadTimestampKey: string := "init-reload-timestamp"
  /** Local-storage key of a reload counter; this plugin only ever removes it. */
  const ReloadCountKey: string := "init-reload-count"
  /** Name of the GraphQL header that carries the session, the same as the session cookie's. */
  const SessionHeader: string := "woocommerce-session"
  /** The fuse's window, in milliseconds. */
  const ReloadWindow: int := 10000

  const EventsToFireOn: seq<string> :=
    ["mousedown", "keydown", "touchstart", "scroll", "wheel", "click", "resize", "mousemove", "mouseover"]
  const PagesToInitializeRightAway: seq<string> := ["/checkout", "/my-account", "/order-summary"]
  /** GraphQL error messages that mean the session is unusable. */
  const ServerErrors: seq<string> := ["The iss do not match with this server", "Invalid session token"]

  /** The events the page waits on, as a set. */
  function EventSet(): set<string> {
    set i | 0 <= i < |EventsToFireOn| :: EventsToFireOn[i]
  }

  /** What the plugin asks of the world outside this model, in the order it asks. */
  datatype Effect =
    | SetGqlHeader(name: string, value: string)
    | RefreshCart
    | InstallErrorHandler
    | SetItem(key: string, value: string)
    | RemoveItem(key: string)
    | ClearAllCookies
    | Reload

  /**
   * What the plugin reads from its surroundings when it runs: the clock, the
   * build mode, the current route and the store setting that defers start-up
   * to the first user action.
   */
  datatype Env = Env(now: nat, isDev: bool, path: string, initStoreOnUserAction: bool)

  /** A GraphQL client error: the message of each entry of `gqlErrors`, if it has one. */
  datatype GqlError = GqlError(gqlErrors: seq<Option<string>>)

  /** `localStorage.getItem(key)` */
  function GetItem(storage: map<string, string>, key: string): (v: Option<string>)
    ensures v.Some? <==> key in storage
    ensures v.Some? ==> v.value == storage[key]
  {
    if key in storage then Some(storage[key]) else None
  }

  /** A JavaScript truth test on a string or `null`: present and not empty. */
  predicate Truthy(v: Option<string>) {
    v.Some? && v.value != ""
  }

  /**
   * The fuse: a timestamp is stored, and `now - parseInt(timestamp) < 10000`.
   * A timestamp that does not parse is `NaN`, which is never less than anything.
   */
  predicate ReloadedRecently(storage: map<string, string>, now: int) {
    var stamp := GetItem(storage, ReloadTimestampKey);
    Truthy(stamp) &&
    match ParseInt(stamp.value)
    case None => false
    case Some(t) => now - t < ReloadWindow
  }

  /**
   * The fuse trips exactly when a timestamp is stored that parses to a number
   * less than 10000 milliseconds before `now`.
   */
  lemma FuseTripsWithinWindow(storage: map<string, string>, now: int)
    ensures ReloadedRecently(storage, now) <==>
      && ReloadTimestampKey in storage
      && ParseInt(storage[ReloadTimestampKey]).Some?
      && now - ParseInt(storage[ReloadTimestampKey]).value < ReloadWindow
  {
  }

  predicate IsPathThatRequiresInit(path: string) {
    exists i :: 0 <= i < |PagesToInitializeRightAway| && Includes(path, PagesToInitializeRightAway[i])
  }

  /** Initialise at once in development, on a page that needs the session, or when start-up is not deferred. */
  predicate ShouldInit(env: Env)
    ensures ShouldInit(env) <==>
      env.isDev || !env.initStoreOnUserAction ||
      exists i, j :: 0 <= i < |PagesToInitializeRightAway| && OccursAt(env.path, PagesToInitializeRightAway[i], j)
  {
    env.isDev || IsPathThatRequiresInit(env.path) || !env.initStoreOnUserAction
  }

  /** A nested account page or an order summary starts at once, even with start-up deferred. */
  lemma AccountPagesInitAtOnce(now: nat)
    ensures ShouldInit(Env(now, false, "/my-account/orders/", true))
    ensures ShouldInit(Env(now, false, "/order-summary/4711/", true))
  {
    assert OccursAt("/my-account/orders/", PagesToInitializeRightAway[1], 0);
    assert OccursAt("/order-summary/4711/", PagesToInitializeRightAway[2], 0);
  }

  /** The product listing in production, with start-up deferred, waits for an interaction. */
  lemma ProductListingWaits(now: nat)
    ensures !ShouldInit(Env(now, false, "/products/", true))
  {
    var path := "/products/";
    forall j | 0 <= j < 2
      ensures !OccursAt(path, "/checkout", j)
    {
      assert path[j + 1] != "/checkout"[1];
    }
    assert !Includes(path, PagesToInitializeRightAway[0]);
    assert !Includes(path, PagesToInitializeRightAway[1]);
    assert !Includes(path, PagesToInitializeRightAway[2]);
  }

  /** The first GraphQL error's message is one of the fatal server errors. */
  predicate IsServerError(err: GqlError)
    ensures IsServerError(err) ==> |err.gqlErrors| > 0
    ensures IsServerError(err) <==>
      |err.gqlErrors| > 0 &&
      (err.gqlErrors[0] == Some("The iss do not match with this server") ||
       err.gqlErrors[0] == Some("Invalid session token"))
  {
    |err.gqlErrors| > 0 && err.gqlErrors[0].Some? && err.gqlErrors[0].value in ServerErrors
  }

  /**
   * Cache and plugin share one local storage. The fuse's keys lack the cache
   * prefix, so clearing the product cache never touches them.
   */
  lemma FuseKeysOutsideCache()
    ensures !StartsWith(ReloadTimestampKey, ProductCache.Prefix)
    ensures !StartsWith(ReloadCountKey, ProductCache.Prefix)
  {
    assert ProductCache.Prefix[0] == 'v';
    assert ReloadTimestampKey[0] == 'i' && ReloadCountKey[0] == 'i';
  }

  /** How many times `e` occurs in `effects`. */
  function Count(effects: seq<Effect>, e: Effect): nat {
    if effects == [] then 0 else (if effects[0] == e then 1 else 0) + Count(effects[1..], e)
  }

  lemma {:induction false} CountAppend(s: seq<Effect>, t: seq<Effect>, e: Effect)
    ensures Count(s + t, e) == Count(s, e) + Count(t, e)
  {
    if s == [] {
      assert s + t == t;
    } else {
      assert (s + t)[1..] == s[1..] + t;
      CountAppend(s[1..], t, e);
    }
  }

  lemma CountCons(a: Effect, t: seq<Effect>, e: Effect)
    ensures Count([a] + t, e) == (if a == e then 1 else 0) + Count(t, e)
  {
    assert ([a] + t)[1..] == t;
  }

  /** The header effect of a session cookie: one header when the cookie is truthy, none otherwise. */
  function SessionHeaderEffects(cookie: Option<string>): (es: seq<Effect>)
    ensures Truthy(cookie) ==> es == [SetGqlHeader(SessionHeader, "Session " + cookie.value)]
    ensures !Truthy(cookie) ==> es == []
  {
    if Truthy(cookie) then [SetGqlHeader(SessionHeader, "Session " + cookie.value)] else []
  }

  /** Forwarding the session cookie neither refreshes the cart nor reloads the page. */
  lemma HeaderNeitherRefreshesNorReloads(cookie: Option<string>)
    ensures Count(SessionHeaderEffects(cookie), RefreshCart) == 0
    ensures Count(SessionHeaderEffects(cookie), Reload) == 0
  {
    if Truthy(cookie) {
      CountCons(SetGqlHeader(SessionHeader, "Session " + cookie.value), [], RefreshCart);
      CountCons(SetGqlHeader(SessionHeader, "Session " + cookie.value), [], Reload);
    }
  }

  /** Whether a finished cart refresh clears the fuse: it succeeded and a reload count is stored. */
  predicate ClearsFuse(storage: map<string, string>, cartRefreshed: bool) {
    cartRefreshed && Truthy(GetItem(storage, ReloadCountKey))
  }

  /** Storage after the cart refresh finished. */
  function StorageAfterRefresh(storage: map<string, string>, cartRefreshed: bool): (s: map<string, string>)
    ensures ClearsFuse(storage, cartRefreshed) ==>
      s.Keys == storage.Keys - {ReloadCountKey, ReloadTimestampKey}
    ensures !ClearsFuse(storage, cartRefreshed) ==> s == storage
    ensures forall k :: k in s ==> k in storage && s[k] == storage[k]
    ensures ClearsFuse(storage, cartRefreshed) ==> ReloadCountKey !in s && ReloadTimestampKey !in s
  {
    if ClearsFuse(storage, cartRefreshed) then storage - {ReloadCountKey, ReloadTimestampKey} else storage
  }

  /** Once a successful refresh has cleared the fuse, no page load trips it, whenever it comes. */
  lemma ClearedFuseNeverTrips(storage: map<string, string>, cartRefreshed: bool, now: int)
    requires ClearsFuse(storage, cartRefreshed)
    ensures ReloadCountKey !in StorageAfterRefresh(storage, cartRefreshed)
    ensures !ReloadedRecently(StorageAfterRefresh(storage, cartRefreshed), now)
  {
  }

  /** The cart refresh never closes a fuse that was open at `now`. */
  lemma RefreshKeepsFuseOpen(storage: map<string, string>, cartRefreshed: bool, now: int)
    requires !ReloadedRecently(storage, now)
    ensures !ReloadedRecently(StorageAfterRefresh(storage, cartRefreshed), now)
  {
    if ClearsFuse(storage, cartRefreshed) {
      ClearedFuseNeverTrips(storage, cartRefreshed, now);
    }
  }

  /** The effects of the one real run of `initStore`, in order. */
  function StoreRunEffects(storage: map<string, string>, cartRefreshed: bool): seq<Effect> {
    [RefreshCart, InstallErrorHandler] +
    (if ClearsFuse(storage, cartRefreshed) then [RemoveItem(ReloadCountKey), RemoveItem(ReloadTimestampKey)] else [])
  }

  /** The effects of recovering from a fatal error at `now`: stamp the fuse first, then clear cookies, then reload. */
  function RecoveryEffects(now: nat): seq<Effect> {
    [SetItem(ReloadTimestampKey, NatToDecimal(now)), ClearAllCookies, Reload]
  }

  /** A run of `initStore` refreshes the cart once and never reloads the page, whatever the refresh returned. */
  lemma StoreRunRefreshesOnceNeverReloads(storage: map<string, string>, cartRefreshed: bool)
    ensures Count(StoreRunEffects(storage, cartRefreshed), RefreshCart) == 1
    ensures Count(StoreRunEffects(storage, cartRefreshed), Reload) == 0
    ensures !cartRefreshed ==> StorageAfterRefresh(storage, cartRefreshed) == storage
  {
    var head: seq<Effect> := [RefreshCart, InstallErrorHandler];
    var tail: seq<Effect> := if ClearsFuse(storage, cartRefreshed)
      then [RemoveItem(ReloadCountKey), RemoveItem(ReloadTimestampKey)] else [];
    CountCons(RefreshCart, [InstallErrorHandler], RefreshCart);
    CountCons(RefreshCart, [InstallErrorHandler], Reload);
    CountCons(InstallErrorHandler, [], RefreshCart);
    CountCons(InstallErrorHandler, [], Reload);
    if tail != [] {
      CountCons(RemoveItem(ReloadCountKey), [RemoveItem(ReloadTimestampKey)], RefreshCart);
      CountCons(RemoveItem(ReloadCountKey), [RemoveItem(ReloadTimestampKey)], Reload);
      CountCons(RemoveItem(ReloadTimestampKey), [], RefreshCart);
      CountCons(RemoveItem(ReloadTimestampKey), [], Reload);
    }
    CountAppend(head, tail, RefreshCart);
    CountAppend(head, tail, Reload);
  }

  /** A recovery refreshes no cart and reloads exactly once. */
  lemma RecoveryReloadsOnce(now: nat)
    ensures Count(RecoveryEffects(now), RefreshCart) == 0
    ensures Count(RecoveryEffects(now), Reload) == 1
  {
    var stamp := SetItem(ReloadTimestampKey, NatToDecimal(now));
    CountCons(stamp, [ClearAllCookies, Reload], RefreshCart);
    CountCons(stamp, [ClearAllCookies, Reload], Reload);
    CountCons(ClearAllCookies, [Reload], RefreshCart);
    CountCons(ClearAllCookies, [Reload], Reload);
    CountCons(Reload, [], RefreshCart);
    CountCons(Reload, [], Reload);
  }

  /** The timestamp a recovery writes trips the fuse for the whole window that follows. */
  lemma {:induction false} StampTripsFuse(storage: map<string, string>, stampedAt: nat, now: int)
    requires stampedAt <= now < stampedAt + ReloadWindow
    ensures ReloadedRecently(storage[ReloadTimestampKey := NatToDecimal(stampedAt)], now)
  {
    ParseIntOfNatToDecimal(stampedAt);
  }

  /** Once the window has passed, that timestamp no longer trips the fuse. */
  lemma {:induction false} StampExpires(storage: map<string, string>, stampedAt: nat, now: int)
    requires now >= stampedAt + ReloadWindow
    ensures !ReloadedRecently(storage[ReloadTimestampKey := NatToDecimal(stampedAt)], now)
  {
    ParseIntOfNatToDecimal(stampedAt);
  }

  /** An absent timestamp, or one that `parseInt` reads as NaN, never trips the fuse. */
  lemma UnparsableStampNeverTrips(storage: map<string, string>, now: int)
    requires ReloadTimestampKey in storage ==> ParseInt(storage[ReloadTimestampKey]) == None
    ensures !ReloadedRecently(storage, now)
  {
  }

  /** Stamps that are NaN for `parseInt`: padded text, a signed word, a bare hex prefix. */
  lemma NaNStampsNeverTrip(storage: map<string, string>, now: int)
    ensures !ReloadedRecently(storage[ReloadTimestampKey := "  x"], now)
    ensures !ReloadedRecently(storage[ReloadTimestampKey := "-x"], now)
    ensures !ReloadedRecently(storage[ReloadTimestampKey := "0x"], now)
  {
    ParseIntNaNAfterWhitespace();
    ParseIntNaNAfterSign();
    ParseIntNaNBareHexPrefix();
    UnparsableStampNeverTrips(storage[ReloadTimestampKey := "  x"], now);
    UnparsableStampNeverTrips(storage[ReloadTimestampKey := "-x"], now);
    UnparsableStampNeverTrips(storage[ReloadTimestampKey := "0x"], now);
  }

  /**
   * One page load: the module flag `pluginInitialized`, the closure flag
   * `initialised`, the attached interaction listeners, whether the GraphQL error
   * handler is installed, local storage, the session cookie, and the effects
   * requested so far.
   */
  class Page {
    /** During server-side rendering the plugin does nothing. */
    const onServer: bool
    var pluginInitialized: bool
    /** The plugin body got past the fuse, so `initStore` and its flag exist. */
    ghost var bootstrapped: bool
    var initialised: bool
    var listeners: set<string>
    var handlerInstalled: bool
    var storage: map<string, string>
    var sessionCookie: Option<string>
    var effects: seq<Effect>

    ghost predicate Valid()
      reads this
    {
      && (bootstrapped ==> pluginInitialized)
      && (initialised ==> bootstrapped)
      && (listeners != {} ==> bootstrapped)
      && listeners <= EventSet()
      && (handlerInstalled <==> initialised)
      && (!bootstrapped ==> effects == [])
      && Count(effects, RefreshCart) == (if initialised then 1 else 0)
    }

    /** A fresh page load: the module is evaluated anew; storage and cookies carry over. */
    constructor (onServer: bool, storage: map<string, string>, sessionCookie: Option<string>)
      ensures Valid()
      ensures this.onServer == onServer && this.storage == storage && this.sessionCookie == sessionCookie
      ensures !pluginInitialized && !bootstrapped && !initialised && !handlerInstalled
      ensures listeners == {} && effects == []
    {
      this.onServer := onServer;
      this.storage := storage;
      this.sessionCookie := sessionCookie;
      pluginInitialized := false;
      bootstrapped := false;
      initialised := false;
      listeners := {};
      handlerInstalled := false;
      effects := [];
    }

    /**
     * The plugin body. It does nothing on the server or once it already ran.
     * Within the fuse's window it only marks itself as run. Otherwise it forwards
     * the session cookie as a header and then either runs `initStore` at once or
     * attaches the interaction listeners.
     */
    method RunPlugin(env: Env, cartRefreshed: bool)
      requires Valid()
      modifies this
      ensures Valid()
      ensures onServer || old(pluginInitialized) ==> unchanged(this)
      ensures !onServer ==> pluginInitialized
      ensures sessionCookie == old(sessionCookie) && handlerInstalled == initialised
      ensures !onServer && !old(pluginInitialized) && ReloadedRecently(old(storage), env.now) ==>
        && !bootstrapped && !initialised && listeners == {}
        && storage == old(storage) && effects == old(effects) == []
      ensures !onServer && !old(pluginInitialized) && !ReloadedRecently(old(storage), env.now) ==>
        && bootstrapped
        && initialised == ShouldInit(env)
        && listeners == (if ShouldInit(env) then {} else EventSet())
        && storage == (if ShouldInit(env) then StorageAfterRefresh(old(storage), cartRefreshed) else old(storage))
        && effects == SessionHeaderEffects(old(sessionCookie)) +
                      (if ShouldInit(env) then StoreRunEffects(old(storage), cartRefreshed) else [])
    {
      if onServer || pluginInitialized {
        return;
      }
      if ReloadedRecently(storage, env.now) {
        pluginInitialized := true;
        return;
      }
      pluginInitialized := true;
      bootstrapped := true;
      effects := effects + SessionHeaderEffects(sessionCookie);
      CountAppend([], SessionHeaderEffects(sessionCookie), RefreshCart);
      if ShouldInit(env) {
        InitStore(cartRefreshed);
      } else {
        listeners := EventSet();
      }
    }

    /**
     * `initStore`: every call after the first only detaches the listeners. The
     * first refreshes the cart, installs the error handler and, when the refresh
     * succeeded and a reload count is stored, removes the count and the timestamp.
     */
    method InitStore(cartRefreshed: bool)
      requires Valid() && bootstrapped
      modifies this
      ensures Valid() && bootstrapped && initialised && handlerInstalled
      ensures pluginInitialized == old(pluginInitialized) && sessionCookie == old(sessionCookie)
      ensures old(initialised) ==>
        listeners == {} && storage == old(storage) && effects == old(effects)
      ensures !old(initialised) ==>
        && listeners == old(listeners)
        && storage == StorageAfterRefresh(old(storage), cartRefreshed)
        && effects == old(effects) + StoreRunEffects(old(storage), cartRefreshed)
    {
      if initialised {
        listeners := {};
        return;
      }
      initialised := true;
      var run := StoreRunEffects(storage, cartRefreshed);
      StoreRunRefreshesOnceNeverReloads(storage, cartRefreshed);
      CountAppend(effects, run, RefreshCart);
      handlerInstalled := true;
      storage := StorageAfterRefresh(storage, cartRefreshed);
      effects := effects + run;
    }

    /**
     * A user interaction of kind `event`. A listener for it was attached with
     * `once`, so it is detached before `initStore` runs; other kinds stay attached.
     */
    method Interact(event: string, cartRefreshed: bool)
      requires Valid()
      modifies this
      ensures Valid()
      ensures event !in old(listeners) ==> unchanged(this)
      ensures event in old(listeners) ==>
        && initialised && pluginInitialized == old(pluginInitialized) && sessionCookie == old(sessionCookie)
        && (old(initialised) ==> listeners == {} && storage == old(storage) && effects == old(effects))
        && (!old(initialised) ==>
             && listeners == old(listeners) - {event}
             && storage == StorageAfterRefresh(old(storage), cartRefreshed)
             && effects == old(effects) + StoreRunEffects(old(storage), cartRefreshed))
    {
      if event !in listeners {
        return;
      }
      listeners := listeners - {event};
      InitStore(cartRefreshed);
    }

    /**
     * The GraphQL error handler, once installed. A fatal server error outside the
     * fuse's window stamps the fuse, clears the cookies and reloads, in that order.
     * Anything else changes nothing.
     */
    method OnGqlError(err: GqlError, now: nat)
      requires Valid()
      modifies this
      ensures Valid()
      ensures !old(handlerInstalled) || !IsServerError(err) || ReloadedRecently(old(storage), now) ==>
        unchanged(this)
      ensures old(handlerInstalled) && IsServerError(err) && !ReloadedRecently(old(storage), now) ==>
        && storage == old(storage)[ReloadTimestampKey := NatToDecimal(now)]
        && sessionCookie == None
        && effects == old(effects) + RecoveryEffects(now)
        && pluginInitialized == old(pluginInitialized) && initialised == old(initialised)
        && listeners == old(listeners) && handlerInstalled == old(handlerInstalled)
    {
      if !handlerInstalled {
        return;
      }
      if |err.gqlErrors| > 0 {
        if IsServerError(err) {
          if ReloadedRecently(storage, now) {
            return;
          }
          RecoveryReloadsOnce(now);
          CountAppend(effects, RecoveryEffects(now), RefreshCart);
          var stamp := NatToDecimal(now);
          storage := storage[ReloadTimestampKey := stamp];
          sessionCookie := None;
          effects := effects + RecoveryEffects(now);
        }
      }
    }
  }

  /**
   * Start-up on a page load outside the fuse's window refreshes the cart right
   * away exactly when the start-up decision says so, and otherwise waits with
   * every interaction listener attached.
   */
  method StartUp(storage: map<string, string>, cookie: Option<string>, env: Env, cartRefreshed: bool)
    returns (refreshes: nat, waiting: set<string>)
    requires !ReloadedRecently(storage, env.now)
    ensures refreshes == (if ShouldInit(env) then 1 else 0)
    ensures waiting == (if ShouldInit(env) then {} else EventSet())
  {
    var page := new Page(false, storage, cookie);
    page.RunPlugin(env, cartRefreshed);
    refreshes, waiting := Count(page.effects, RefreshCart), page.listeners;
  }

  /**
   * With start-up deferred, no cart refresh happens before an interaction, and any
   * run of interactions refreshes the cart exactly once if it contains one of the
   * awaited kinds, and never otherwise.
   */
  method InteractionsRefreshOnce(storage: map<string, string>, cookie: Option<string>, env: Env,
                                 events: seq<string>, cartRefreshed: bool)
    returns (before: nat, after: nat)
    requires !ReloadedRecently(storage, env.now) && !ShouldInit(env)
    ensures before == 0
    ensures after == (if exists i :: 0 <= i < |events| && events[i] in EventSet() then 1 else 0)
  {
    var page := new Page(false, storage, cookie);
    page.RunPlugin(env, cartRefreshed);
    before := Count(page.effects, RefreshCart);
    var n := 0;
    while n < |events|
      invariant 0 <= n <= |events|
      invariant page.Valid() && page.bootstrapped
      invariant page.initialised <==> exists i :: 0 <= i < n && events[i] in EventSet()
      invariant !page.initialised ==> page.listeners == EventSet()
    {
      page.Interact(events[n], cartRefreshed);
      n := n + 1;
    }
    after := Count(page.effects, RefreshCart);
  }

  /**
   * A page load that tripped the fuse stays inert: no interaction and no error
   * makes it refresh the cart, set a header, touch storage or reload.
   */
  method TrippedFuseStaysInert(storage: map<string, string>, cookie: Option<string>, env: Env,
                               events: seq<string>, errors: seq<GqlError>, cartRefreshed: bool)
    returns (effects: seq<Effect>, stored: map<string, string>)
    requires ReloadedRecently(storage, env.now)
    ensures effects == [] && stored == storage
  {
    var page := new Page(false, storage, cookie);
    page.RunPlugin(env, cartRefreshed);
    var n := 0;
    while n < |events|
      invariant page.Valid() && !page.bootstrapped && page.storage == storage
    {
      page.Interact(events[n], cartRefreshed);
      n := n + 1;
    }
    n := 0;
    while n < |errors|
      invariant page.Valid() && !page.bootstrapped && page.storage == storage
    {
      page.OnGqlError(errors[n], env.now);
      n := n + 1;
    }
    effects, stored := page.effects, page.storage;
  }

  /**
   * The reload loop is broken: a fatal error on a page that started cleanly
   * reloads once, and the page load that follows within the window refreshes no
   * cart and requests nothing at all.
   */
  method FatalErrorThenReload(storage: map<string, string>, cookie: Option<string>, env: Env,
                              err: GqlError, errorAt: nat, next: Env, cartRefreshed: bool)
    returns (reloads: nat, nextEffects: seq<Effect>)
    requires !ReloadedRecently(storage, env.now) && !ReloadedRecently(storage, errorAt)
    requires ShouldInit(env) && IsServerError(err)
    requires errorAt <= next.now < errorAt + ReloadWindow
    ensures reloads == 1 && nextEffects == []
  {
    var page := new Page(false, storage, cookie);
    page.RunPlugin(env, cartRefreshed);
    StoreRunRefreshesOnceNeverReloads(storage, cartRefreshed);
    HeaderNeitherRefreshesNorReloads(cookie);
    CountAppend(SessionHeaderEffects(cookie), StoreRunEffects(storage, cartRefreshed), Reload);
    ghost var started, startedStorage := page.effects, page.storage;
    assert Count(started, Reload) == 0;
    RefreshKeepsFuseOpen(storage, cartRefreshed, errorAt);
    assert !ReloadedRecently(startedStorage, errorAt);
    page.OnGqlError(err, errorAt);
    CountAppend(started, RecoveryEffects(errorAt), Reload);
    RecoveryReloadsOnce(errorAt);
    assert Count(page.effects, Reload) == 1;
    reloads := Count(page.effects, Reload);
    StampTripsFuse(startedStorage, errorAt, next.now);
    var reloaded := new Page(false, page.storage, page.sessionCookie);
    reloaded.RunPlugin(next, cartRefreshed);
    nextEffects := reloaded.effects;
  }

  /** Two fatal errors within the window of each other on one page reload it only once. */
  method RepeatedFatalErrors(storage: map<string, string>, cookie: Option<string>, env: Env,
                             first: GqlError, firstAt: nat, second: GqlError, secondAt: nat, cartRefreshed: bool)
    returns (reloads: nat)
    requires !ReloadedRecently(storage, env.now) && !ReloadedRecently(storage, firstAt)
    requires ShouldInit(env) && IsServerError(first) && IsServerError(second)
    requires firstAt <= secondAt < firstAt + ReloadWindow
    ensures reloads == 1
  {
    var page := new Page(false, storage, cookie);
    page.RunPlugin(env, cartRefreshed);
    StoreRunRefreshesOnceNeverReloads(storage, cartRefreshed);
    HeaderNeitherRefreshesNorReloads(cookie);
    CountAppend(SessionHeaderEffects(cookie), StoreRunEffects(storage, cartRefreshed), Reload);
    ghost var started, startedStorage := page.effects, page.storage;
    assert Count(started, Reload) == 0;
    RefreshKeepsFuseOpen(storage, cartRefreshed, firstAt);
    assert !ReloadedRecently(startedStorage, firstAt);
    page.OnGqlError(first, firstAt);
    CountAppend(started, RecoveryEffects(firstAt), Reload);
    RecoveryReloadsOnce(firstAt);
    ghost var recovered := page.effects;
    assert Count(recovered, Reload) == 1;
    StampTripsFuse(startedStorage, firstAt, secondAt);
    assert ReloadedRecently(page.storage, secondAt);
    page.OnGqlError(second, secondAt);
    assert page.effects == recovered;
    reloads := Count(page.effects, Reload);
  }

  /**
   * On a page load past the fuse, the session header is the first request, made
   * exactly when the cookie is truthy and never otherwise; an immediate start-up
   * refreshes the cart right after it.
   */
  method SessionHeaderFirst(storage: map<string, string>, cookie: Option<string>, env: Env, cartRefreshed: bool)
    returns (effects: seq<Effect>)
    requires !ReloadedRecently(storage, env.now)
    ensures Truthy(cookie) ==> |effects| > 0 && effects[0] == SetGqlHeader(SessionHeader, "Session " + cookie.value)
    ensures forall k :: 0 <= k < |effects| && effects[k].SetGqlHeader? ==> k == 0 && Truthy(cookie)
    ensures ShouldInit(env) ==>
      var first := if Truthy(cookie) then 1 else 0;
      first < |effects| && effects[first] == RefreshCart
  {
    var page := new Page(false, storage, cookie);
    page.RunPlugin(env, cartRefreshed);
    effects := page.effects;
    var header := SessionHeaderEffects(cookie);
    var run := if ShouldInit(env) then StoreRunEffects(storage, cartRefreshed) else [];
    assert effects == header + run;
    assert forall k :: 0 <= k < |run| ==> !run[k].SetGqlHeader?;
  }

  /**
   * A successful cart refresh with a reload count stored removes the count and the
   * timestamp, so the next page load starts normally at any time.
   */
  method SuccessClearsFuse(storage: map<string, string>, cookie: Option<string>, env: Env, next: Env)
    returns (stored: map<string, string>, nextRefreshes: nat)
    requires !ReloadedRecently(storage, env.now) && ShouldInit(env)
    requires Truthy(GetItem(storage, ReloadCountKey))
    ensures ReloadCountKey !in stored && ReloadTimestampKey !in stored
    ensures nextRefreshes == (if ShouldInit(next) then 1 else 0)
  {
    var page := new Page(false, storage, cookie);
    page.RunPlugin(env, true);
    stored := page.storage;
    var reloaded := new Page(false, stored, page.sessionCookie);
    reloaded.RunPlugin(next, true);
    nextRefreshes := Count(reloaded.effects, RefreshCart);
  }

  /**
   * On a page whose start-up waits for an interaction, the error handler is not
   * installed yet, so a fatal error before any interaction reloads nothing and
   * leaves storage as it was.
   */
  method FatalErrorBeforeInteraction(storage: map<string, string>, cookie: Option<string>, env: Env,
                                     err: GqlError, errorAt: nat, cartRefreshed: bool)
    returns (reloads: nat, stored: map<string, string>)
    requires !ReloadedRecently(storage, env.now) && !ShouldInit(env) && IsServerError(err)
    ensures reloads == 0 && stored == storage
  {
    var page := new Page(false, storage, cookie);
    page.RunPlugin(env, cartRefreshed);
    HeaderNeitherRefreshesNorReloads(cookie);
    assert page.effects == SessionHeaderEffects(cookie) + [];
    page.OnGqlError(err, errorAt);
    reloads, stored := Count(page.effects, Reload), page.storage;
  }
}
