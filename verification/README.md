# Thread-scoped WebDriver registry — a Dafny model

This project models the driver bookkeeping of Selenide's
`WebDriverThreadLocalContainer`. Each test thread gets one browser driver,
created lazily on first use and cached after that. The container keeps every
live driver in one shared, insertion-ordered list, so that a shutdown sweep
can close them all. Closing a driver first removes it from the bookkeeping.
Then, unless the "hold browser open" option is set, it quits the browser and
force-kills it when the driver is `Killable`. Failures are swallowed, as the
code decides.

Files:

- `lifecycle.dfy` (module `Lifecycle`): the `Driver` handle, the outcomes of
  `quit` and `kill`, and the event log. It also holds pure specification
  functions: `RemoveFirst` (the `ArrayList.remove(Object)` the container
  relies on), `KillAttempt`, `CloseAttempt` (one termination) and `Drain`
  (the shutdown loop). The lemmas about them are here too.
- `registry.dfy` (module `Registry`): the container as a class. It has the
  list `all`, the per-thread slot `slot: map<ThreadId, Driver>` and a ghost
  `log` of the calls made on the factory and on drivers. There is one method
  per operation. `InStep`, the invariant that ties slot and list together,
  is proved here.
- `scenarios.dfy` (module `Scenarios`): call sequences on one container
  (caching, distinct threads, close-then-get, the sweep). They are proved from
  the operations' contracts alone.

Modelling choices:

- The calling thread is an explicit `ThreadId` parameter. The Java
  `ThreadLocal` becomes the map `slot`; a thread without a key holds no driver.
- `Driver` is a Dafny class, so a driver's identity is reference identity, as
  for Java objects. `ArrayList.remove` compares with `equals`; the model
  assumes that this is identity for driver objects (see "Left out"). The factory (`createDriver`) is a `Build`
  parameter: it either builds a fresh `Driver`, killable or not, or throws.
- The global flag `holdBrowserOpen` is a parameter of every closing operation.
  So is the browsers' behaviour (`Browsers`): what `quit` and `kill` do for
  each driver.
- A thrown exception is a `thrown` result, or `CreationFailed` for the
  factory. The model follows the code's `catch` clauses exactly. `quit`
  (line 72) catches only `WebDriverException`; any other throwable from it
  leaves `closeWebDriver(d)` once the `finally` kill has run. `killBrowser`
  (line 85) catches every `Exception`; an `Error` escapes.

Behaviour worth knowing:

- `closeWebDriver(d)` clears the calling thread's slot unconditionally (line
  66), whichever driver `d` is. During the shutdown sweep that clears only the
  sweeping thread's own slot. Every other thread's slot still holds a driver
  that is no longer listed (`SweepLeavesOtherSlots`,
  `SweepStrandsOtherThreads`).
- Only a `WebDriverException` from `quit` (line 72) and an `Exception` from
  `kill` (line 85) are swallowed. Any other throwable ends the close, and
  therefore ends the sweep, with the remaining drivers still listed
  (`DrainStopsAtFirstEscape`).
- A driver held by n threads appears in the list at least n times (`InStep`).
  It may appear more often: `setWebDriver` appends its argument (line 40)
  without checking whether another thread already holds it, so that driver
  is then listed twice. The public operations preserve `InStep`.
  `closeWebDriver(d)` and the sweep do not.

## Model

| member | source | states |
|---|---|---|
| `Lifecycle.FirstIndex` | src/main/java/com/codeborne/selenide/impl/WebDriverThreadLocalContainer.java:67 | the index `ArrayList.remove` deletes at holds `d`, and no earlier element is `d` |
| `Lifecycle.RemoveFirst` | src/main/java/com/codeborne/selenide/impl/WebDriverThreadLocalContainer.java:67 | removing a listed driver shortens the list by one and takes exactly one copy of it out of the multiset; an unlisted driver leaves the list unchanged |
| `Lifecycle.RemoveFirstKeepsOrder` | src/main/java/com/codeborne/selenide/impl/WebDriverThreadLocalContainer.java:67 | the removed element is the first occurrence, and the elements before and after it stay in their order |
| `Lifecycle.RemoveFirstHead` | src/main/java/com/codeborne/selenide/impl/WebDriverThreadLocalContainer.java:61 | closing `get(0)` removes exactly the front of the list |
| `Lifecycle.KillAttempt` | src/main/java/com/codeborne/selenide/impl/WebDriverThreadLocalContainer.java:81-90 | defines what `killBrowser` does: a kill call exactly when the driver is `Killable`, that call is a kill of this driver, and it throws exactly when kill throws an `Error`; an `Exception` is swallowed |
| `Lifecycle.CloseAttempt` | src/main/java/com/codeborne/selenide/impl/WebDriverThreadLocalContainer.java:69-78 | defines the termination part of `closeWebDriver(d)`: under hold-open no call and no throwable; otherwise a quit of `d` comes first and every later call is a kill of `d`. `CloseAttemptCalls` and `CloseAttemptEscapes` state the rest |
| `Lifecycle.CloseAttemptCalls` | src/main/java/com/codeborne/selenide/impl/WebDriverThreadLocalContainer.java:69-89 | under hold-open no quit and no kill; otherwise exactly one quit, made first, and a kill exactly when the driver is `Killable` |
| `Lifecycle.CloseAttemptEscapes` | src/main/java/com/codeborne/selenide/impl/WebDriverThreadLocalContainer.java:69-89 | a close throws exactly when quit throws something other than a `WebDriverException` or kill throws something other than an `Exception`; hold-open never throws |
| `Lifecycle.Drain` | src/main/java/com/codeborne/selenide/impl/WebDriverThreadLocalContainer.java:59-63 | defines the sweep on a list: close the front driver until the list is empty or a close throws. It has no contract of its own; its properties are `DrainShape`, `DrainEscapes`, `DrainStopsAtFirstEscape`, `DrainQuitsEachInOrder`, `DrainKillsKillableInOrder` and `DrainHoldingOpen` |
| `Lifecycle.DrainShape` | src/main/java/com/codeborne/selenide/impl/WebDriverThreadLocalContainer.java:59-63 | the sweep only takes from the front; on a non-empty list each run removes at least one driver; it leaves nothing unless a throwable ended it |
| `Lifecycle.DrainEscapes` | src/main/java/com/codeborne/selenide/impl/WebDriverThreadLocalContainer.java:59-63 | the sweep ends by a throwable if and only if closing some listed driver throws |
| `Lifecycle.DrainStopsAtFirstEscape` | src/main/java/com/codeborne/selenide/impl/WebDriverThreadLocalContainer.java:59-63 | when the first throwing close is that of `s[i]`, exactly the drivers after position i stay listed |
| `Lifecycle.DrainQuitsEachInOrder` | src/main/java/com/codeborne/selenide/impl/WebDriverThreadLocalContainer.java:59-79 | a sweep that nothing interrupts quits every listed driver once, in list order |
| `Lifecycle.DrainKillsKillableInOrder` | src/main/java/com/codeborne/selenide/impl/WebDriverThreadLocalContainer.java:59-90 | a sweep that nothing interrupts kills exactly the killable listed drivers, once each, in list order |
| `Lifecycle.DrainHoldingOpen` | src/main/java/com/codeborne/selenide/impl/WebDriverThreadLocalContainer.java:59-69 | under hold-open the sweep empties the list with no quit, no kill and no throwable |
| `Registry.Release` | src/main/java/com/codeborne/selenide/impl/WebDriverThreadLocalContainer.java:52-57 | letting go of the thread's listed driver takes one copy of it out of the list; without a driver the list is unchanged |
| `Registry.Closing` | src/main/java/com/codeborne/selenide/impl/WebDriverThreadLocalContainer.java:52-57 | closing an empty slot, or closing under hold-open, makes no call and throws nothing; otherwise the first call is a quit of the slot's driver |
| `Registry.HeldIsListed` | src/main/java/com/codeborne/selenide/impl/WebDriverThreadLocalContainer.java:25-26 | while slot and list are in step, every thread's driver is in the list |
| `Registry.InStepAfterInstall` | src/main/java/com/codeborne/selenide/impl/WebDriverThreadLocalContainer.java:39-40 | storing a driver in an empty slot and appending it to the list keeps slot and list in step |
| `Registry.InStepAfterRelease` | src/main/java/com/codeborne/selenide/impl/WebDriverThreadLocalContainer.java:66-67 | clearing a thread's slot and removing that thread's driver from the list keeps slot and list in step |
| `Registry.SweepLeavesOtherSlots` | src/main/java/com/codeborne/selenide/impl/WebDriverThreadLocalContainer.java:59-67 | after a sweep on thread t, any other thread u that held a driver still holds it, and slot and list are no longer in step |
| `Registry.WebDriverThreadLocalContainer.constructor` | src/main/java/com/codeborne/selenide/impl/WebDriverThreadLocalContainer.java:25-35 | a new container has an empty list, no slots, no calls made, and is in step |
| `Registry.WebDriverThreadLocalContainer.Fetched` | src/main/java/com/codeborne/selenide/impl/WebDriverThreadLocalContainer.java:43-50 | defines the state change of the lazy fetch: with a stored driver or a failing factory nothing changes; otherwise a fresh driver of the factory's kind is in the slot, last in the list, and its creation is the one new call. `GetWebDriver`, `GetPageSource` and `GetCurrentUrl` ensure it |
| `Registry.WebDriverThreadLocalContainer.GetWebDriver` | src/main/java/com/codeborne/selenide/impl/WebDriverThreadLocalContainer.java:43-50 | with a stored driver: returns it and changes nothing. Without one: calls the factory once; its fresh driver goes into the slot and at the end of the list and is returned. If the factory throws: nothing changes. In step before means in step after |
| `Registry.WebDriverThreadLocalContainer.SetWebDriver` | src/main/java/com/codeborne/selenide/impl/WebDriverThreadLocalContainer.java:37-41 | first closes the thread's existing driver. Unless that close threw, `d` is then in the slot and last in the list. If it threw, `d` is not installed. In step before means in step after |
| `Registry.WebDriverThreadLocalContainer.CloseWebDriver` | src/main/java/com/codeborne/selenide/impl/WebDriverThreadLocalContainer.java:52-57 | with an empty slot nothing changes. Otherwise the slot is cleared, one copy of its driver leaves the list, and that driver gets the close attempt. In step before means in step after |
| `Registry.WebDriverThreadLocalContainer.CloseWebDriverOf` | src/main/java/com/codeborne/selenide/impl/WebDriverThreadLocalContainer.java:65-79 | the calling thread's slot is cleared and the first occurrence of `d` leaves the list, whatever happens next. The calls made and the throwable that escapes are those of the close attempt |
| `Registry.WebDriverThreadLocalContainer.CloseAllWebDrivers` | src/main/java/com/codeborne/selenide/impl/WebDriverThreadLocalContainer.java:59-63 | the loop ends (each round removes the front). The list, the calls made and the escaping throwable are those of `Drain` on the original list. Only the sweeping thread's slot is cleared, and only when the list was non-empty |
| `Registry.WebDriverThreadLocalContainer.KillBrowser` | src/main/java/com/codeborne/selenide/impl/WebDriverThreadLocalContainer.java:81-90 | kills only a killable driver; only an `Error` from kill escapes |
| `Registry.WebDriverThreadLocalContainer.ClearBrowserCache` | src/main/java/com/codeborne/selenide/impl/WebDriverThreadLocalContainer.java:92-96 | deletes the cookies of the thread's existing driver; with an empty slot it makes no call and creates no driver |
| `Registry.WebDriverThreadLocalContainer.GetPageSource` | src/main/java/com/codeborne/selenide/impl/WebDriverThreadLocalContainer.java:98-100 | the same lazy fetch as `GetWebDriver`, then the page source of the thread's driver |
| `Registry.WebDriverThreadLocalContainer.GetCurrentUrl` | src/main/java/com/codeborne/selenide/impl/WebDriverThreadLocalContainer.java:102-104 | the same lazy fetch as `GetWebDriver`, then the current URL of the thread's driver |
| `Scenarios.RepeatedGetIsCached` | src/main/java/com/codeborne/selenide/impl/WebDriverThreadLocalContainer.java:43-50 | a second fetch on the same thread returns the identical driver, and the two calls together use the factory at most once |
| `Scenarios.ThreadsGetDistinctDrivers` | src/main/java/com/codeborne/selenide/impl/WebDriverThreadLocalContainer.java:43-50 | two threads that each obtain a driver hold different drivers |
| `Scenarios.CloseThenGetIsNew` | src/main/java/com/codeborne/selenide/impl/WebDriverThreadLocalContainer.java:43-57 | after the thread's driver is closed, the next fetch yields a different driver |
| `Scenarios.ClearCacheCreatesNothing` | src/main/java/com/codeborne/selenide/impl/WebDriverThreadLocalContainer.java:92-96 | clearing the cache of a thread without a driver leaves slot, list and call log as they were |
| `Scenarios.SweepClosesEveryDriver` | src/main/java/com/codeborne/selenide/impl/WebDriverThreadLocalContainer.java:59-90 | the container's sweep throws if and only if some close throws. Otherwise it empties the list, quits each listed driver once in list order, and kills exactly the killable ones |
| `Scenarios.SweepHoldingOpen` | src/main/java/com/codeborne/selenide/impl/WebDriverThreadLocalContainer.java:59-69 | under hold-open the container's sweep empties the list without any call and without throwing |
| `Scenarios.SweepStrandsOtherThreads` | src/main/java/com/codeborne/selenide/impl/WebDriverThreadLocalContainer.java:59-67 | a sweep by thread t that nothing interrupts empties the list, but another thread u that held a driver still holds the same one, so slot and list are out of step |

## Left out

- Driver construction (`createDriver`, `maximize`, `createInstanceOf`, `createRemoteDriver`, lines 106-180), including the htmlunit emulated-browser extraction. It is configuration dispatch, reflection and Selenium constructors. The factory is modelled only by its outcome: a fresh driver, or a throw.
- Registering the shutdown hook (lines 29-34) is not modelled. The sweep is the `CloseAllWebDrivers` method, called with the shutdown thread's id.
- Concurrency: true thread-local storage and the unsynchronised `ArrayList`. The model is one sequential interleaving, with the calling thread named explicitly. The race between a sweep and concurrent insertions is not covered.
- Logging to `System.err` and `printStackTrace` (lines 73, 86-87) and the message cleanup helper it calls: treated as output with no effect on state.
- The browser effects of `quit`, `kill` and `deleteAllCookies` are recorded only as ghost log events. The page source and URL are opaque functions of the driver.
- GetPageSource, GetCurrentUrl: a throw from the driver's own `getPageSource`/`getCurrentUrl` call is not modelled. It would happen after the lazy fetch and would not change the container's state.
- ClearBrowserCache: a throw from `deleteAllCookies` is not modelled. The container's state is the same either way.
- `null` drivers are not modelled: neither `setWebDriver(null)` nor a factory that returns `null`. A `Driver` in the model is always a real object.
- Drivers are compared by identity. `ArrayList.remove` (line 67) uses `equals`, and a driver class may override it: for instance one built through a `WebDriverProvider` (lines 161-162) or passed to `setWebDriver`. With such a driver `remove` could delete a different, equal element. The model does not cover that case.
- `Browsers` fixes one quit outcome and one kill outcome per driver. A driver listed twice therefore behaves the same on its second close as on its first. The model does not capture a browser whose second `quit` behaves differently because the session is already gone.
