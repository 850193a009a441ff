/** Properties of call sequences on one container, derived from the
    operations' contracts alone. */
module Scenarios {
  import opened Lifecycle
  import opened Registry

  /** Asking again on the same thread, with no set or close in between,
      returns the identical driver and does not call the factory again. */
  method RepeatedGetIsCached(c: WebDriverThreadLocalContainer, t: ThreadId, first: Build, second: Build)
    returns (r1: Result<Driver>, r2: Result<Driver>)
    modifies c
    ensures r1.Ok? ==> r2 == r1
    ensures r1.Ok? ==> |c.log| <= |old(c.log)| + 1
  {
    r1 := c.GetWebDriver(t, first);
    label between:
    r2 := c.GetWebDriver(t, second);
    assert r1.Ok? ==> c.log == old@between(c.log);
  }

  /** Two threads without drivers that both obtain one hold different drivers. */
  method ThreadsGetDistinctDrivers(c: WebDriverThreadLocalContainer, t1: ThreadId, t2: ThreadId, b1: Build, b2: Build)
    returns (r1: Result<Driver>, r2: Result<Driver>)
    requires t1 != t2 && t1 !in c.slot && t2 !in c.slot
    modifies c
    ensures r1.Ok? && r2.Ok? ==> r1.value != r2.value
    ensures r1.Ok? && r2.Ok? ==> t1 in c.slot && t2 in c.slot && c.slot[t1] == r1.value && c.slot[t2] == r2.value
  {
    r1 := c.GetWebDriver(t1, b1);
    r2 := c.GetWebDriver(t2, b2);
  }

  /** After the thread's driver is closed, asking again yields a new driver. */
  method CloseThenGetIsNew(c: WebDriverThreadLocalContainer, t: ThreadId, holdOpen: bool, b: Browsers, build: Build)
    returns (closed: Driver, r: Result<Driver>)
    requires t in c.slot
    modifies c
    ensures r.Ok? ==> r.value != closed
    ensures closed == old(c.slot[t])
  {
    closed := c.slot[t];
    var _ := c.CloseWebDriver(t, holdOpen, b);
    r := c.GetWebDriver(t, build);
  }

  /** Clearing the cache of a thread without a driver creates none and calls nothing. */
  method ClearCacheCreatesNothing(c: WebDriverThreadLocalContainer, t: ThreadId)
    requires t !in c.slot
    modifies c
    ensures t !in c.slot && c.all == old(c.all) && c.log == old(c.log)
  {
    c.ClearBrowserCache(t);
  }

  /** The shutdown sweep without hold-open: it ends by a throwable exactly
      when closing some listed driver throws one; otherwise the list is empty,
      every listed driver was quit once, in list order, and exactly the
      killable ones were killed, in list order. */
  method SweepClosesEveryDriver(c: WebDriverThreadLocalContainer, t: ThreadId, b: Browsers) returns (thrown: bool)
    modifies c
    ensures thrown <==> exists i :: 0 <= i < |old(c.all)| && CloseAttempt(old(c.all)[i], false, b).escapes
    ensures |old(c.log)| <= |c.log|
    ensures !thrown ==> c.all == []
    ensures !thrown ==> Targets(c.log[|old(c.log)|..], Quit) == old(c.all)
    ensures !thrown ==> Targets(c.log[|old(c.log)|..], Kill) == Killable(old(c.all))
  {
    thrown := c.CloseAllWebDrivers(t, false, b);
    DrainEscapes(old(c.all), false, b);
    DrainShape(old(c.all), false, b);
    assert c.log[|old(c.log)|..] == Drain(old(c.all), false, b).calls;
    if !thrown {
      DrainQuitsEachInOrder(old(c.all), b);
      DrainKillsKillableInOrder(old(c.all), b);
    }
  }

  /** The shutdown sweep under hold-open empties the list without a quit or a kill. */
  method SweepHoldingOpen(c: WebDriverThreadLocalContainer, t: ThreadId, b: Browsers) returns (thrown: bool)
    modifies c
    ensures !thrown && c.all == [] && c.log == old(c.log)
  {
    thrown := c.CloseAllWebDrivers(t, true, b);
    DrainHoldingOpen(old(c.all), b);
  }

  /** A sweep run by thread t clears only t's own slot: any other thread that
      held a driver still holds it after the list has been emptied, so slot
      and list are no longer in step. */
  method SweepStrandsOtherThreads(c: WebDriverThreadLocalContainer, t: ThreadId, u: ThreadId, holdOpen: bool, b: Browsers)
    returns (thrown: bool)
    requires u in c.slot && u != t && c.all != []
    modifies c
    ensures !thrown ==> u in c.slot && c.slot[u] == old(c.slot[u])
    ensures !thrown ==> c.all == [] && !InStep(c.slot, c.all)
  {
    thrown := c.CloseAllWebDrivers(t, holdOpen, b);
    DrainShape(old(c.all), holdOpen, b);
    if !thrown {
      SweepLeavesOtherSlots(old(c.slot), t, u);
    }
  }
}
