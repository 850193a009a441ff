/** Driver handles, the calls made on them, and a pure description of what
    closing one driver, or draining the whole registry list, does. */
module Lifecycle {

  /** The identity of an execution thread; the calling thread is always an explicit parameter. */
  type ThreadId = nat

  /** A browser-driver handle. Only its identity and whether it implements
      forced termination (`Killable`) matter to the registry. */
  class Driver {
    const killable: bool

    constructor (killable: bool)
      ensures this.killable == killable
    {
      this.killable := killable;
    }
  }

  /** What the driver factory does when it is asked for a driver: it builds a
      new one (killable or not), or it throws (bad configuration, failed construction). */
  datatype Build = Builds(killable: bool) | BuildFails

  /** How a `quit` call on a driver ends. Only a `WebDriverException` is caught by the container. */
  datatype QuitOutcome = QuitReturns | QuitThrowsWebDriverException | QuitThrowsOther

  /** How a `kill` call ends. Every `Exception` is caught; an `Error` is not. */
  datatype KillOutcome = KillReturns | KillThrowsException | KillThrowsError

  /** The browsers' behaviour, as seen by the container. */
  datatype Browsers = Browsers(quitOf: Driver -> QuitOutcome, killOf: Driver -> KillOutcome)

  datatype Op = Quit | Kill | DeleteAllCookies

  /** What the container asked of the outside world: the factory, or a driver. */
  datatype Event = Created(driver: Driver) | Called(op: Op, driver: Driver)

  /** The calls one step makes, and whether a throwable leaves it. */
  datatype Attempt = Attempt(calls: seq<Event>, escapes: bool)

  /** The calls a drain makes, what is left of the list, and whether a throwable ended it. */
  datatype Sweeping = Sweeping(calls: seq<Event>, remaining: seq<Driver>, escapes: bool)

  /** The drivers that the calls of kind `op` were made on, in call order. */
  function Targets(calls: seq<Event>, op: Op): (r: seq<Driver>)
  {
    if calls == [] then []
    else (if calls[0].Called? && calls[0].op == op then [calls[0].driver] else []) + Targets(calls[1..], op)
  }

  lemma {:induction false} TargetsAppend(a: seq<Event>, b: seq<Event>, op: Op)
    ensures Targets(a + b, op) == Targets(a, op) + Targets(b, op)
  {
    if a == [] {
      assert a + b == b;
    } else {
      assert (a + b)[1..] == a[1..] + b;
      TargetsAppend(a[1..], b, op);
    }
  }

  /** The killable drivers of `s`, in order. */
  function Killable(s: seq<Driver>): (r: seq<Driver>)
  {
    if s == [] then [] else (if s[0].killable then [s[0]] else []) + Killable(s[1..])
  }

  // ---------------------------------------------------------------------
  // ArrayList.remove(Object): remove the first occurrence, if any
  // ---------------------------------------------------------------------

  /** Position of the first occurrence of `d` in `s`. */
  function FirstIndex(s: seq<Driver>, d: Driver): (i: nat)
    requires d in s
    ensures i < |s| && s[i] == d && d !in s[..i]
  {
    if s[0] == d then 0
    else
      var j := FirstIndex(s[1..], d);
      assert s[..1 + j] == [s[0]] + s[1..][..j];
      1 + j
  }

  /** `s` without the first occurrence of `d`; `s` itself when `d` does not occur. */
  function RemoveFirst(s: seq<Driver>, d: Driver): (r: seq<Driver>)
    ensures d in s ==> |r| == |s| - 1
    ensures d !in s ==> r == s
    ensures multiset(r) == multiset(s) - multiset{d}
  {
    if d in s then
      var i := FirstIndex(s, d);
      assert s == s[..i] + [s[i]] + s[i + 1..];
      s[..i] + s[i + 1..]
    else s
  }

  /** Removing the element at the front removes exactly the front. */
  lemma RemoveFirstHead(s: seq<Driver>)
    requires s != []
    ensures RemoveFirst(s, s[0]) == s[1..]
  {
    assert FirstIndex(s, s[0]) == 0;
  }

  /** Removal keeps every other element, in the original order: the element
      removed is the first one equal to `d`, and what is left around it is
      untouched. */
  lemma RemoveFirstKeepsOrder(s: seq<Driver>, d: Driver)
    requires d in s
    ensures exists i :: 0 <= i < |s| && s[i] == d && d !in s[..i] &&
                        RemoveFirst(s, d) == s[..i] + s[i + 1..]
  {
    var i := FirstIndex(s, d);
    assert s[i] == d && d !in s[..i];
  }

  // ---------------------------------------------------------------------
  // Terminating one driver (killBrowser and the tail of closeWebDriver(d))
  // ---------------------------------------------------------------------

  /** killBrowser: a kill only for a killable driver; an `Exception` from it is
      swallowed, an `Error` escapes. */
  function KillAttempt(d: Driver, b: Browsers): (r: Attempt)
    ensures d.killable <==> r.calls != []
    ensures forall e | e in r.calls :: e == Called(Kill, d)
    ensures r.escapes <==> d.killable && b.killOf(d) == KillThrowsError
  {
    if d.killable then Attempt([Called(Kill, d)], b.killOf(d).KillThrowsError?)
    else Attempt([], false)
  }

  /** The termination part of closeWebDriver(d): nothing under hold-open;
      otherwise one quit, then (in the `finally` block) the kill attempt.
      A `WebDriverException` from quit is swallowed; any other throwable from
      quit is rethrown once the kill attempt has returned, unless the kill
      attempt throws an `Error` of its own, which then escapes instead. */
  function CloseAttempt(d: Driver, holdOpen: bool, b: Browsers): (r: Attempt)
    ensures holdOpen ==> r.calls == [] && !r.escapes
    ensures !holdOpen ==> 1 <= |r.calls| && r.calls[0] == Called(Quit, d)
    ensures !holdOpen ==> forall e | e in r.calls[1..] :: e == Called(Kill, d)
  {
    if holdOpen then Attempt([], false)
    else
      var kill := KillAttempt(d, b);
      Attempt([Called(Quit, d)] + kill.calls, b.quitOf(d).QuitThrowsOther? || kill.escapes)
  }

  /** Hold-open means no call at all; otherwise exactly one quit, first, and a
      kill exactly when the driver is killable. */
  lemma CloseAttemptCalls(d: Driver, holdOpen: bool, b: Browsers)
    ensures var a := CloseAttempt(d, holdOpen, b);
      Targets(a.calls, Quit) == (if holdOpen then [] else [d]) &&
      Targets(a.calls, Kill) == (if !holdOpen && d.killable then [d] else []) &&
      Targets(a.calls, DeleteAllCookies) == [] &&
      (!holdOpen ==> a.calls[0] == Called(Quit, d))
  {
    var a := CloseAttempt(d, holdOpen, b);
    if !holdOpen {
      var kill := KillAttempt(d, b);
      TargetsAppend([Called(Quit, d)], kill.calls, Quit);
      TargetsAppend([Called(Quit, d)], kill.calls, Kill);
      TargetsAppend([Called(Quit, d)], kill.calls, DeleteAllCookies);
    }
  }

  /** Failures are swallowed: closing escapes only through a quit failure that
      is not a `WebDriverException` or a kill failure that is not an `Exception`. */
  lemma CloseAttemptEscapes(d: Driver, holdOpen: bool, b: Browsers)
    ensures CloseAttempt(d, holdOpen, b).escapes <==>
      !holdOpen && (b.quitOf(d) == QuitThrowsOther || (d.killable && b.killOf(d) == KillThrowsError))
  {
  }

  // ---------------------------------------------------------------------
  // Draining the registry list (closeAllWebDrivers)
  // ---------------------------------------------------------------------

  /** Close the front driver until the list is empty or a close throws. */
  function Drain(s: seq<Driver>, holdOpen: bool, b: Browsers): (r: Sweeping)
  {
    if s == [] then Sweeping([], [], false)
    else
      var a := CloseAttempt(s[0], holdOpen, b);
      if a.escapes then Sweeping(a.calls, s[1..], true)
      else
        var rest := Drain(s[1..], holdOpen, b);
        Sweeping(a.calls + rest.calls, rest.remaining, rest.escapes)
  }

  /** One round of the drain: close the front driver, then either stop with
      the rest still listed or go on with the rest. */
  lemma DrainStep(s: seq<Driver>, holdOpen: bool, b: Browsers)
    requires s != []
    ensures CloseAttempt(s[0], holdOpen, b).escapes ==>
      Drain(s, holdOpen, b) == Sweeping(CloseAttempt(s[0], holdOpen, b).calls, s[1..], true)
    ensures !CloseAttempt(s[0], holdOpen, b).escapes ==>
      Drain(s, holdOpen, b).calls == CloseAttempt(s[0], holdOpen, b).calls + Drain(s[1..], holdOpen, b).calls &&
      Drain(s, holdOpen, b).remaining == Drain(s[1..], holdOpen, b).remaining &&
      Drain(s, holdOpen, b).escapes == Drain(s[1..], holdOpen, b).escapes
  {
  }

  lemma AppendAssoc<T>(x: seq<T>, y: seq<T>, z: seq<T>)
    ensures (x + y) + z == x + (y + z)
  {
  }

  /** A drain only ever takes from the front: what is left is a proper suffix
      of a non-empty list, and nothing is left unless a throwable ended it. */
  lemma {:induction false} DrainShape(s: seq<Driver>, holdOpen: bool, b: Browsers)
    ensures var r := Drain(s, holdOpen, b);
      |r.remaining| <= |s| && (s != [] ==> |r.remaining| < |s|) &&
      r.remaining == s[|s| - |r.remaining|..] &&
      (!r.escapes ==> r.remaining == [])
  {
    if s != [] && !CloseAttempt(s[0], holdOpen, b).escapes {
      DrainShape(s[1..], holdOpen, b);
    }
  }

  /** The drain ends by a throwable exactly when closing some driver of the list throws. */
  lemma {:induction false} DrainEscapes(s: seq<Driver>, holdOpen: bool, b: Browsers)
    ensures Drain(s, holdOpen, b).escapes <==>
      exists i :: 0 <= i < |s| && CloseAttempt(s[i], holdOpen, b).escapes
  {
    if s != [] {
      DrainEscapes(s[1..], holdOpen, b);
      if exists i :: 0 <= i < |s| && CloseAttempt(s[i], holdOpen, b).escapes {
        var i :| 0 <= i < |s| && CloseAttempt(s[i], holdOpen, b).escapes;
        if i > 0 {
          assert s[1..][i - 1] == s[i];
        }
      } else {
        forall i | 0 <= i < |s| - 1
          ensures !CloseAttempt(s[1..][i], holdOpen, b).escapes
        {
          assert s[1..][i] == s[i + 1];
        }
      }
    }
  }

  /** When the first throwing close is that of `s[i]`, the drain stops right
      after it: every driver behind it stays in the list. */
  lemma {:induction false} DrainStopsAtFirstEscape(s: seq<Driver>, holdOpen: bool, b: Browsers, i: nat)
    requires i < |s| && CloseAttempt(s[i], holdOpen, b).escapes
    requires forall j :: 0 <= j < i ==> !CloseAttempt(s[j], holdOpen, b).escapes
    ensures Drain(s, holdOpen, b).escapes && Drain(s, holdOpen, b).remaining == s[i + 1..]
  {
    if i > 0 {
      forall j | 0 <= j < i - 1
        ensures !CloseAttempt(s[1..][j], holdOpen, b).escapes
      {
        assert s[1..][j] == s[j + 1];
      }
      DrainStopsAtFirstEscape(s[1..], holdOpen, b, i - 1);
      assert s[1..][i..] == s[i + 1..];
    }
  }

  /** A drain that nothing interrupts quits every driver of the list exactly
      once, in list order. */
  lemma {:induction false} DrainQuitsEachInOrder(s: seq<Driver>, b: Browsers)
    requires !Drain(s, false, b).escapes
    ensures Targets(Drain(s, false, b).calls, Quit) == s
  {
    if s != [] {
      var a := CloseAttempt(s[0], false, b);
      var rest := Drain(s[1..], false, b);
      DrainStep(s, false, b);
      DrainQuitsEachInOrder(s[1..], b);
      CloseAttemptCalls(s[0], false, b);
      TargetsAppend(a.calls, rest.calls, Quit);
      assert s == [s[0]] + s[1..];
    }
  }

  /** A drain that nothing interrupts kills exactly the killable drivers of
      the list, once each, in list order. */
  lemma {:induction false} DrainKillsKillableInOrder(s: seq<Driver>, b: Browsers)
    requires !Drain(s, false, b).escapes
    ensures Targets(Drain(s, false, b).calls, Kill) == Killable(s)
  {
    if s != [] {
      var a := CloseAttempt(s[0], false, b);
      var rest := Drain(s[1..], false, b);
      DrainStep(s, false, b);
      DrainKillsKillableInOrder(s[1..], b);
      CloseAttemptCalls(s[0], false, b);
      TargetsAppend(a.calls, rest.calls, Kill);
    }
  }

  /** Under hold-open the drain empties the list without a single quit or kill. */
  lemma {:induction false} DrainHoldingOpen(s: seq<Driver>, b: Browsers)
    ensures Drain(s, true, b) == Sweeping([], [], false)
  {
    if s != [] {
      DrainHoldingOpen(s[1..], b);
    }
  }
}
