/** The thread-scoped driver registry: a per-thread slot and the shared,
    insertion-ordered list of every driver it has handed out. */
module Registry {
  import opened Lifecycle

  /** The result of an operation that may have to create a driver first:
      the value, or the factory threw and nothing was stored. */
  datatype Result<T> = Ok(value: T) | CreationFailed

  /** The threads whose slot holds `d`. */
  ghost function Holders(slot: map<ThreadId, Driver>, d: Driver): set<ThreadId>
  {
    set t | t in slot && slot[t] == d
  }

  /** Slot and list in step: a driver held by n threads occurs at least n
      times in the list, so no slot refers to a driver the list has lost. */
  ghost predicate InStep(slot: map<ThreadId, Driver>, all: seq<Driver>)
  {
    forall d | d in slot.Values :: |Holders(slot, d)| <= multiset(all)[d]
  }

  /** The list after thread `t` lets go of its driver, if it holds one. */
  function Release(slot: map<ThreadId, Driver>, all: seq<Driver>, t: ThreadId): (r: seq<Driver>)
    ensures t in slot && slot[t] in all ==> |r| == |all| - 1
    ensures multiset(r) == if t in slot then multiset(all) - multiset{slot[t]} else multiset(all)
  {
    if t in slot then RemoveFirst(all, slot[t]) else all
  }

  /** What closing the driver of thread `t`, if any, asks of the browsers. */
  function Closing(slot: map<ThreadId, Driver>, t: ThreadId, holdOpen: bool, b: Browsers): (r: Attempt)
    ensures t !in slot ==> r.calls == [] && !r.escapes
    ensures t in slot && holdOpen ==> r.calls == [] && !r.escapes
    ensures t in slot && !holdOpen ==> |r.calls| >= 1 && r.calls[0] == Called(Quit, slot[t])
  {
    if t in slot then CloseAttempt(slot[t], holdOpen, b) else Attempt([], false)
  }

  lemma HeldIsListed(slot: map<ThreadId, Driver>, all: seq<Driver>, t: ThreadId)
    requires InStep(slot, all) && t in slot
    ensures slot[t] in all
  {
    var d := slot[t];
    assert d in slot.Values;
    assert t in Holders(slot, d);
    assert |Holders(slot, d)| <= multiset(all)[d];
  }

  /** Storing `d` in the empty slot of `t` adds `t` to the holders of `d` and to no other. */
  lemma HoldersAfterInstall(slot: map<ThreadId, Driver>, t: ThreadId, d: Driver, x: Driver)
    requires t !in slot
    ensures |Holders(slot[t := d], x)| == |Holders(slot, x)| + (if x == d then 1 else 0)
  {
    if x == d {
      assert Holders(slot[t := d], x) == Holders(slot, x) + {t};
    } else {
      assert Holders(slot[t := d], x) == Holders(slot, x);
    }
  }

  /** Clearing the slot of `t` removes `t` from the holders of its driver and of no other. */
  lemma HoldersAfterRelease(slot: map<ThreadId, Driver>, t: ThreadId, x: Driver)
    requires t in slot
    ensures |Holders(slot - {t}, x)| == |Holders(slot, x)| - (if x == slot[t] then 1 else 0)
  {
    if x == slot[t] {
      assert Holders(slot - {t}, x) == Holders(slot, x) - {t};
    } else {
      assert Holders(slot - {t}, x) == Holders(slot, x);
    }
  }

  /** A driver no slot holds has no holders. */
  lemma NoHolders(slot: map<ThreadId, Driver>, x: Driver)
    requires x !in slot.Values
    ensures Holders(slot, x) == {}
  {
    forall t | t in slot
      ensures slot[t] != x
    {
      assert slot[t] in slot.Values;
    }
  }

  /** Installing a driver in an empty slot and appending it to the list keeps them in step. */
  lemma InStepAfterInstall(slot: map<ThreadId, Driver>, all: seq<Driver>, t: ThreadId, d: Driver)
    requires InStep(slot, all) && t !in slot
    ensures InStep(slot[t := d], all + [d])
  {
    forall x | x in slot[t := d].Values
      ensures |Holders(slot[t := d], x)| <= multiset(all + [d])[x]
    {
      HoldersAfterInstall(slot, t, d, x);
      if x !in slot.Values {
        NoHolders(slot, x);
      }
    }
  }

  /** Clearing a thread's slot and removing its driver from the list keeps them in step. */
  lemma InStepAfterRelease(slot: map<ThreadId, Driver>, all: seq<Driver>, t: ThreadId)
    requires InStep(slot, all)
    ensures InStep(slot - {t}, Release(slot, all, t))
  {
    if t in slot {
      HeldIsListed(slot, all, t);
      forall x | x in (slot - {t}).Values
        ensures |Holders(slot - {t}, x)| <= multiset(Release(slot, all, t))[x]
      {
        assert x in slot.Values;
        HoldersAfterRelease(slot, t, x);
      }
    } else {
      assert slot - {t} == slot;
    }
  }

  /** The shutdown sweep does not keep slot and list in step: it empties the
      list but clears only the sweeping thread's own slot, so any other
      thread's slot is left holding a driver that is no longer listed. */
  lemma SweepLeavesOtherSlots(slot: map<ThreadId, Driver>, t: ThreadId, u: ThreadId)
    requires u in slot && u != t
    ensures u in slot - {t} && !InStep(slot - {t}, [])
  {
    var d := slot[u];
    assert u in Holders(slot - {t}, d);
  }

  class WebDriverThreadLocalContainer {
    /** Every live driver, in the order it was stored. */
    var all: seq<Driver>
    /** The per-thread slot: a thread without a key holds no driver. */
    var slot: map<ThreadId, Driver>
    /** The calls made on the factory and on drivers, oldest first. */
    ghost var log: seq<Event>

    ghost predicate Valid()
      reads this
    {
      InStep(slot, all)
    }

    /** A new container holds no driver. Registering the shutdown hook is not
        part of this model. */
    constructor ()
      ensures all == [] && slot == map[] && log == []
      ensures Valid()
    {
      all := [];
      slot := map[];
      log := [];
    }

    /** The state change of a lazy fetch on thread `t`: with a driver in the
        slot, or when the factory throws, nothing changes; otherwise the
        factory is called once, and its new driver is stored in the slot and
        at the end of the list. */
    twostate predicate Fetched(t: ThreadId, build: Build)
      reads this
    {
      if t in old(slot) || build.BuildFails? then
        slot == old(slot) && all == old(all) && log == old(log)
      else
        t in slot && fresh(slot[t]) && slot[t].killable == build.killable &&
        slot == old(slot)[t := slot[t]] && all == old(all) + [slot[t]] &&
        log == old(log) + [Created(slot[t])]
    }

    /** getWebDriver: the thread's driver, created on first use. */
    method GetWebDriver(t: ThreadId, build: Build) returns (r: Result<Driver>)
      modifies this
      ensures Fetched(t, build)
      ensures r.Ok? <==> t in slot
      ensures r.Ok? ==> r.value == slot[t]
      ensures old(Valid()) ==> Valid()
    {
      if t !in slot {
        match build
        case BuildFails =>
          return CreationFailed;
        case Builds(killable) =>
          var d := new Driver(killable);
          slot := slot[t := d];
          all := all + [d];
          log := log + [Created(d)];
          if old(Valid()) {
            InStepAfterInstall(old(slot), old(all), t, d);
          }
      }
      r := Ok(slot[t]);
    }

    /** setWebDriver: close the thread's current driver, then install `d`.
        When closing throws, the throwable leaves before `d` is installed. */
    method SetWebDriver(t: ThreadId, d: Driver, holdOpen: bool, b: Browsers) returns (thrown: bool)
      modifies this
      ensures thrown == Closing(old(slot), t, holdOpen, b).escapes
      ensures log == old(log) + Closing(old(slot), t, holdOpen, b).calls
      ensures slot == if thrown then old(slot) - {t} else old(slot)[t := d]
      ensures all == Release(old(slot), old(all), t) + (if thrown then [] else [d])
      ensures old(Valid()) ==> Valid()
    {
      thrown := CloseWebDriver(t, holdOpen, b);
      if thrown {
        return;
      }
      ghost var released := slot;
      ghost var listed := all;
      slot := slot[t := d];
      all := all + [d];
      if old(Valid()) {
        InStepAfterInstall(released, listed, t, d);
      }
    }

    /** closeWebDriver(): close the thread's driver, if it has one. */
    method CloseWebDriver(t: ThreadId, holdOpen: bool, b: Browsers) returns (thrown: bool)
      modifies this
      ensures thrown == Closing(old(slot), t, holdOpen, b).escapes
      ensures log == old(log) + Closing(old(slot), t, holdOpen, b).calls
      ensures slot == old(slot) - {t}
      ensures all == Release(old(slot), old(all), t)
      ensures old(Valid()) ==> Valid()
    {
      if t in slot {
        thrown := CloseWebDriverOf(t, slot[t], holdOpen, b);
      } else {
        thrown := false;
        assert slot == old(slot) - {t};
      }
      if old(Valid()) {
        InStepAfterRelease(old(slot), old(all), t);
      }
    }

    /** closeWebDriver(d): bookkeeping first and unconditionally (the calling
        thread's slot is cleared whatever it holds, and the first occurrence
        of `d` leaves the list), then the termination attempt. */
    method CloseWebDriverOf(t: ThreadId, d: Driver, holdOpen: bool, b: Browsers) returns (thrown: bool)
      modifies this
      ensures slot == old(slot) - {t}
      ensures all == RemoveFirst(old(all), d)
      ensures log == old(log) + CloseAttempt(d, holdOpen, b).calls
      ensures thrown == CloseAttempt(d, holdOpen, b).escapes
    {
      slot := slot - {t};
      all := RemoveFirst(all, d);
      thrown := false;
      if !holdOpen {
        AppendAssoc(log, [Called(Quit, d)], KillAttempt(d, b).calls);
        log := log + [Called(Quit, d)];
        var quit := b.quitOf(d);
        // a WebDriverException is caught; any other throwable from quit is
        // rethrown once the finally block has run
        var killThrown := KillBrowser(d, b);
        thrown := quit.QuitThrowsOther? || killThrown;
      }
    }

    /** closeAllWebDrivers: close the front driver until the list is empty.
        Each round removes the front, so the loop ends; a throwable escaping
        one close ends the sweep with the rest still listed. */
    method CloseAllWebDrivers(t: ThreadId, holdOpen: bool, b: Browsers) returns (thrown: bool)
      modifies this
      ensures all == Drain(old(all), holdOpen, b).remaining
      ensures log == old(log) + Drain(old(all), holdOpen, b).calls
      ensures thrown == Drain(old(all), holdOpen, b).escapes
      ensures slot == if old(all) == [] then old(slot) else old(slot) - {t}
    {
      ghost var sweep := Drain(all, holdOpen, b);
      ghost var done: seq<Event> := [];
      thrown := false;
      while all != []
        invariant !thrown
        invariant |all| <= |old(all)|
        invariant slot == if |all| == |old(all)| then old(slot) else old(slot) - {t}
        invariant log == old(log) + done
        invariant sweep.calls == done + Drain(all, holdOpen, b).calls
        invariant sweep.remaining == Drain(all, holdOpen, b).remaining
        invariant sweep.escapes == Drain(all, holdOpen, b).escapes
        decreases |all|
      {
        ghost var a := CloseAttempt(all[0], holdOpen, b);
        ghost var next := Drain(all[1..], holdOpen, b);
        DrainStep(all, holdOpen, b);
        AppendAssoc(old(log), done, a.calls);
        AppendAssoc(done, a.calls, next.calls);
        RemoveFirstHead(all);
        thrown := CloseWebDriverOf(t, all[0], holdOpen, b);
        done := done + a.calls;
        if thrown {
          return;
        }
      }
    }

    /** killBrowser: a kill for a killable driver only; an `Exception` from it is swallowed. */
    method KillBrowser(d: Driver, b: Browsers) returns (thrown: bool)
      modifies this`log
      ensures log == old(log) + KillAttempt(d, b).calls
      ensures thrown == KillAttempt(d, b).escapes
    {
      thrown := false;
      if d.killable {
        log := log + [Called(Kill, d)];
        thrown := b.killOf(d).KillThrowsError?;
      }
    }

    /** clearBrowserCache: delete the cookies of the thread's existing driver;
        never creates one. */
    method ClearBrowserCache(t: ThreadId)
      modifies this`log
      ensures log == old(log) + if t in slot then [Called(DeleteAllCookies, slot[t])] else []
    {
      if t in slot {
        log := log + [Called(DeleteAllCookies, slot[t])];
      }
    }

    /** getPageSource: the page source of the thread's driver, created on first use. */
    method GetPageSource(t: ThreadId, build: Build, pageSourceOf: Driver -> string) returns (r: Result<string>)
      modifies this
      ensures Fetched(t, build)
      ensures r.Ok? <==> t in slot
      ensures r.Ok? ==> r.value == pageSourceOf(slot[t])
      ensures old(Valid()) ==> Valid()
    {
      var d := GetWebDriver(t, build);
      r := if d.Ok? then Ok(pageSourceOf(d.value)) else CreationFailed;
    }

    /** getCurrentUrl: the current URL of the thread's driver, created on first use. */
    method GetCurrentUrl(t: ThreadId, build: Build, currentUrlOf: Driver -> string) returns (r: Result<string>)
      modifies this
      ensures Fetched(t, build)
      ensures r.Ok? <==> t in slot
      ensures r.Ok? ==> r.value == currentUrlOf(slot[t])
      ensures old(Valid()) ==> Valid()
    {
      var d := GetWebDriver(t, build);
      r := if d.Ok? then Ok(currentUrlOf(d.value)) else CreationFailed;
    }
  }
}
