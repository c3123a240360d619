# Storefront client state: product cache, product store, start-up plugin

A Dafny model of three pieces of client-side state in a Nuxt storefront:

- **Product cache** (`ProductCache.dfy`, `woonuxt_base/app/composables/useProductCache.ts`):
  a cache kept in local storage. Every entry lives under `"v1:" + key` with the time it was
  written. Reading an entry more than 30 minutes old removes it and returns nothing. A bulk
  clear removes every `"v1:"` key and nothing else. `Cache<T>` holds the storage as a
  `map<string, Slot<T>>`. A slot is either an entry or text that does not parse as one. The
  clock is a `now` argument.
- **Product store** (`ProductStore.dfy`, `woonuxt_base/app/composables/useProducts.ts`):
  `Products<P>` holds the canonical list `allProducts`, the displayed list `products` (`None`
  until first set, as the `null` initial state) and the loading flag. The filtering, searching
  and sorting collaborators are `Stage` values: an "active" flag and a transform that returns
  `None` when it throws. `ApplyProductFilters` is the pipeline as written. `RunStages` is an
  independent fold over a list of stages. The lemmas tie the two together, show the order is
  filter, then search, then sort, and show that a failing stage fails the whole run.
- **Start-up plugin** (`InitPlugin.dfy`, `woonuxt_base/app/plugins/init.ts`): `Page` is one page
  load. It holds the module flag `pluginInitialized`, the closure flag `initialised`, the
  attached interaction listeners, whether the GraphQL error handler is installed, local storage
  (`map<string, string>`), the session cookie, and a log of the effects requested from outside
  code in order (header, cart refresh, handler installation, storage writes and removals,
  cookie clearing, reload). `Page.Valid()` keeps "the cart is refreshed at most once per page
  load" and "a page that never got past the reload fuse has requested nothing". The fuse reads
  the stored timestamp with `parseInt`, and the recovery path writes it with `toString`.
  `JsText.dfy` models both, and `ParseIntOfNatToDecimal` proves that reading back a written
  stamp gives the same number. `StampTripsFuse` uses that to show the next page load within
  10 s aborts.

Methods that change an object are stated against the object's old state. The multi-step
properties are methods that build fresh objects, drive them, and promise their result. For
example, `SetThenGet`, `FilterDropsFirst`, `InteractionsRefreshOnce` and `FatalErrorThenReload`.

This plugin never writes `init-reload-count`. So its success cleanup only fires for a count
left by other code, and a timestamp written by its own recovery path is never removed: it just
stops tripping the fuse after 10 s (`StampExpires`). The comment at
`woonuxt_base/app/plugins/init.ts:27` says the abort path clears the timestamp. The code does
not, and the model follows the code.

The cache and the plugin use the same browser local storage, modelled as two maps, one per
component. The two never interfere: the fuse's keys do not start with the cache's `"v1:"`
prefix (`FuseKeysOutsideCache`), and a bulk cache clear removes only keys that do.

## Model

| member | source | states |
|---|---|---|
| `JsText.Includes` | woonuxt_base/app/plugins/init.ts:119 | `s.includes(sub)` holds exactly when `sub` occurs at some index of `s` |
| `JsText.NatToDecimal` | woonuxt_base/app/plugins/init.ts:82 | `Date.now().toString()` is a non-empty run of decimal digits with no leading zero |
| `JsText.ParseIntOfNatToDecimal` | woonuxt_base/app/plugins/init.ts:82-83 | `parseInt` of the stamp written by `toString` gives back the same number, so the fuse reads what recovery wrote |
| `JsText.ParseInt` | woonuxt_base/app/plugins/init.ts:20 | `parseInt` gives NaN exactly when, past leading whitespace and one sign, there is no decimal digit, or there is a `0x`/`0X` prefix with no hexadecimal digit after it |
| `JsText.ParseIntNaNAfterWhitespace` | woonuxt_base/app/plugins/init.ts:20 | `parseInt("  x")` is NaN: whitespace is skipped but no digit follows |
| `JsText.ParseIntNaNAfterSign` | woonuxt_base/app/plugins/init.ts:20 | `parseInt("-x")` is NaN: a sign alone is not a number |
| `JsText.ParseIntNaNBareHexPrefix` | woonuxt_base/app/plugins/init.ts:20 | `parseInt("0x")` is NaN, although it starts with a digit |
| `ProductCache.StorageKey` | woonuxt_base/app/composables/useProductCache.ts:16 | the storage key starts with `"v1:"` and the rest is the logical key |
| `ProductCache.StorageKeyInjective` | woonuxt_base/app/composables/useProductCache.ts:45 | distinct logical keys never share a storage key |
| `ProductCache.ExpiryIsStrict` | woonuxt_base/app/composables/useProductCache.ts:6-20 | an entry is fresh exactly 30 min (1 800 000 ms) after it was written and stale 1 ms later; once stale it stays stale as the clock advances |
| `ProductCache.Cache.constructor` | woonuxt_base/app/composables/useProductCache.ts:5-13 | the cache sees the local storage it is given, unchanged, and whether it runs on the server |
| `ProductCache.Cache.GetCachedData` | woonuxt_base/app/composables/useProductCache.ts:12-32 | on the server: nothing. Missing or unreadable entry: nothing, storage unchanged. Entry older than 30 min (strictly): nothing, and only that key is removed. Otherwise: the stored data, storage unchanged |
| `ProductCache.Cache.SetCachedData` | woonuxt_base/app/composables/useProductCache.ts:37-49 | stores `{data, now}` under `"v1:" + key`, replacing any old entry; no other key changes. On the server or on a refused write, storage is unchanged |
| `ProductCache.Cache.ClearProductCache` | woonuxt_base/app/composables/useProductCache.ts:54-67 | removes exactly the keys starting with `"v1:"` and keeps every other key and its value. Nothing changes on the server |
| `ProductCache.SetThenGet` | woonuxt_base/app/composables/useProductCache.ts:20-27 | a read at most 30 min after a write returns the written data, including at exactly 30 min |
| `ProductCache.SetThenReadLate` | woonuxt_base/app/composables/useProductCache.ts:20-25 | a read more than 30 min after a write returns nothing and removes that key only: every other key keeps its value |
| `ProductCache.SetLeavesOtherKeys` | woonuxt_base/app/composables/useProductCache.ts:45 | writing one key does not change what another key reads |
| `ProductCache.ClearThenGet` | woonuxt_base/app/composables/useProductCache.ts:57-63 | after a bulk clear every logical key reads as absent |
| `ProductStore.ApplyProductFilters` | woonuxt_base/app/composables/useProducts.ts:39-50 | no active stage: the list unchanged. An active filter that throws, or an active search that throws when there is no filter, makes the pipeline throw. With only sorting active the result is exactly the sort's |
| `ProductStore.ApplyRunsFilterSearchSort` | woonuxt_base/app/composables/useProducts.ts:39-50 | `applyProductFilters` equals running the filter, search and sort stages in that order, each only if active |
| `ProductStore.RunStagesAppend` | woonuxt_base/app/composables/useProducts.ts:44-49 | running stages in sequence composes: a failure in an earlier stage ends the run, otherwise later stages get its output |
| `ProductStore.RunInactiveStages` | woonuxt_base/app/composables/useProducts.ts:44-49 | inactive stages pass the list through unchanged |
| `ProductStore.FailingStageFailsRun` | woonuxt_base/app/composables/useProducts.ts:82-88 | an active stage that throws on its input makes the whole pipeline fail |
| `ProductStore.Products.constructor` | woonuxt_base/app/composables/useProducts.ts:1-6 | the store starts with no canonical products, no displayed list (`null`) and loading off |
| `ProductStore.Products.SetProducts` | woonuxt_base/app/composables/useProducts.ts:12-32 | a non-array empties both lists. An array sets both lists to its value. Loading ends either way |
| `ProductStore.Products.SetProductsLoading` | woonuxt_base/app/composables/useProducts.ts:34-36 | only the loading flag changes |
| `ProductStore.Products.UpdateProductList` | woonuxt_base/app/composables/useProducts.ts:53-89 | scrolls once. No active stage: shows the canonical list. Otherwise shows the pipeline's result, or keeps the old display when a stage throws. The canonical list never changes |
| `ProductStore.FilterDropsFirst` | woonuxt_base/app/composables/useProducts.ts:28-84 | with only the filter active and a filter that drops p1, `setProducts([p1,p2])` then `updateProductList` shows `[p2]` and keeps `[p1,p2]` canonical |
| `ProductStore.RecomputeKeepsCanonical` | woonuxt_base/app/composables/useProducts.ts:53-89 | after any number of recomputations the canonical list is still the one last set, and a display list is always present (never `null`), and it is the canonical list or the successful result of one of the pipelines applied to it |
| `InitPlugin.SessionHeaderFirst` | woonuxt_base/app/plugins/init.ts:37-44 | on a page load past the fuse, the first effect is the header `woocommerce-session: Session <token>` when the cookie is truthy; no header is ever set at any other position or for a falsy cookie; an immediate start-up refreshes the cart right after the header (or first, with no header) |
| `InitPlugin.StorageAfterRefresh` | woonuxt_base/app/plugins/init.ts:101-109 | after a successful refresh with a truthy reload count, exactly the count and the timestamp keys are gone. Otherwise storage is untouched, and no key ever gains or changes a value |
| `InitPlugin.ClearedFuseNeverTrips` | woonuxt_base/app/plugins/init.ts:101-109 | once that cleanup ran, the fuse is open at every time: no later page load aborts |
| `InitPlugin.RefreshKeepsFuseOpen` | woonuxt_base/app/plugins/init.ts:97-110 | the refresh, successful or not, never closes a fuse that was open |
| `InitPlugin.SuccessClearsFuse` | woonuxt_base/app/plugins/init.ts:17-29 | after a successful start-up with a reload count stored, both fuse keys are gone and the next page load, at any time, refreshes the cart exactly when its start-up decision says so |
| `InitPlugin.HeaderNeitherRefreshesNorReloads` | woonuxt_base/app/plugins/init.ts:39-44 | forwarding the session cookie requests neither a cart refresh nor a reload |
| `InitPlugin.StoreRunRefreshesOnceNeverReloads` | woonuxt_base/app/plugins/init.ts:63-110 | the real run of `initStore` refreshes the cart once and never reloads. A failed refresh leaves storage as it was |
| `InitPlugin.RecoveryReloadsOnce` | woonuxt_base/app/plugins/init.ts:82-89 | recovery reloads exactly once and refreshes no cart |
| `InitPlugin.StampTripsFuse` | woonuxt_base/app/plugins/init.ts:18-24 | a timestamp written at t trips the fuse at every time in [t, t + 10000) |
| `InitPlugin.StampExpires` | woonuxt_base/app/plugins/init.ts:18-24 | from t + 10000 on, that timestamp no longer trips the fuse |
| `InitPlugin.FuseTripsWithinWindow` | woonuxt_base/app/plugins/init.ts:18-24 | the fuse trips exactly when a timestamp is stored, it parses to a number, and `now` minus that number is below 10000 |
| `InitPlugin.UnparsableStampNeverTrips` | woonuxt_base/app/plugins/init.ts:19-24 | an absent timestamp, or one for which `parseInt` gives NaN, never trips the fuse, at any time |
| `InitPlugin.NaNStampsNeverTrip` | woonuxt_base/app/plugins/init.ts:19-24 | the stamps `"  x"`, `"-x"` and `"0x"` never trip the fuse |
| `InitPlugin.ShouldInit` | woonuxt_base/app/plugins/init.ts:113-121 | start-up is immediate exactly in development, when start-up is not deferred, or when one of `/checkout`, `/my-account`, `/order-summary` occurs anywhere in the path |
| `InitPlugin.AccountPagesInitAtOnce` | woonuxt_base/app/plugins/init.ts:117-121 | the paths `/my-account/orders/` and `/order-summary/4711/` start at once in production with start-up deferred |
| `InitPlugin.ProductListingWaits` | woonuxt_base/app/plugins/init.ts:117-121 | the path `/products/` in production with start-up deferred waits for interaction |
| `InitPlugin.IsServerError` | woonuxt_base/app/plugins/init.ts:69-72 | an error is fatal exactly when it has at least one GraphQL entry and the first entry's message is `The iss do not match with this server` or `Invalid session token` |
| `InitPlugin.FuseKeysOutsideCache` | woonuxt_base/app/plugins/init.ts:18 | neither fuse key starts with the cache's `"v1:"` prefix, so clearing the product cache (which shares the same local storage) never removes them |
| `InitPlugin.Page.constructor` | woonuxt_base/app/plugins/init.ts:1-2 | a new page load starts with the module flag off, no listeners and no effects; storage and cookies carry over |
| `InitPlugin.Page.RunPlugin` | woonuxt_base/app/plugins/init.ts:4-143 | a no-op on the server or once run. Inside the fuse's window it only sets the flag. Otherwise it sets the session header, then runs `initStore` at once or attaches all nine listeners |
| `InitPlugin.Page.InitStore` | woonuxt_base/app/plugins/init.ts:50-111 | later calls only detach listeners. The first refreshes the cart, installs the handler and applies the success cleanup, in that order |
| `InitPlugin.Page.Interact` | woonuxt_base/app/plugins/init.ts:131-139 | an awaited event detaches its own listener and calls `initStore`. Any other event changes nothing |
| `InitPlugin.Page.OnGqlError` | woonuxt_base/app/plugins/init.ts:67-95 | a fatal first message outside the fuse's window writes the timestamp, then clears cookies, then reloads. Anything else changes nothing |
| `InitPlugin.StartUp` | woonuxt_base/app/plugins/init.ts:113-139 | outside the fuse's window the cart is refreshed right away exactly when the decision says so. Otherwise the page waits with all listeners attached |
| `InitPlugin.InteractionsRefreshOnce` | woonuxt_base/app/plugins/init.ts:46-60 | with start-up deferred, no refresh happens before an interaction. Any run of events refreshes exactly once if it holds an awaited kind, never otherwise |
| `InitPlugin.TrippedFuseStaysInert` | woonuxt_base/app/plugins/init.ts:17-29 | a page load that tripped the fuse requests nothing and keeps storage, whatever interactions and errors follow |
| `InitPlugin.FatalErrorThenReload` | woonuxt_base/app/plugins/init.ts:71-89 | on a page that started past the fuse (no timestamp, a stale one, or one that is NaN) and whose store started at once (`ShouldInit`), a fatal error outside the fuse's window reloads once, and the page load that follows within 10 s requests nothing |
| `InitPlugin.FatalErrorBeforeInteraction` | woonuxt_base/app/plugins/init.ts:67-95 | on a page past the fuse whose start-up waits for an interaction, a fatal error before any interaction reloads nothing and leaves storage unchanged, because the handler is installed only inside `initStore` |
| `InitPlugin.RepeatedFatalErrors` | woonuxt_base/app/plugins/init.ts:73-78 | on a page that started past the fuse (any stored stamp that does not trip it) and whose store started at once (`ShouldInit`), two fatal errors within 10 s of each other reload only once |

## Left out

- Console logging and stack traces: diagnostics only.
- `scrollToTop` is only counted (`scrollsToTop`); the viewport is not modelled.
- JSON serialisation and the deep copy in `setProducts`: products and cache data are plain values, so a copy is the value itself. Aliasing between `products` and `allProducts` after the no-filter branch is not observable without in-place mutation, which nothing here does.
- A cache entry whose text parses as JSON of some other shape is not modelled; such text counts as unreadable. The code would return its `data` field (`undefined` if absent), and with a missing or non-numeric `timestamp` the age is NaN, so that entry never expires.
- Local storage that throws on read or removal (storage disabled) is not modelled. A refused cache write (quota) is an input. A refused write of the reload timestamp is not modelled.
- `Date.now()`, the route, the build mode, the store setting, the cart refresh result and the session cookie are inputs. `parseInt` results above 2^53, where floating point loses digits, and `toString` of numbers of 10^21 or more are not modelled.
- `useCookie`, `getDomain`, `useGqlHeaders`, `refreshCart`, `useGqlError`, `clearAllCookies` and `window.location.reload` are outside code. They appear only as entries in the effect log. `clearAllCookies` is taken to remove the session cookie.
- Browser event listeners are a set of event names. `{ once: true }` removes the firing kind, and the second path of `initStore` empties the set. Event dispatch is the `Interact` method.
- Async/await and Vue/Nuxt reactivity: each operation runs to completion before the next one starts. The cart refresh finishes inside `initStore`, so nothing interleaves with it.
- The bodies of `filterProducts`, `searchProducts` and `sortProducts` are in other files. They are arbitrary functions that may fail.
- The second recovery policy (attempt counter with logout) is not part of this code. This plugin only removes `init-reload-count` and never writes it.
