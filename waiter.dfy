/** The one-shot result waiter (internal/errors/errors.go).

    The Go type guards `err` with a `sync.Once` and signals it through a `sync.WaitGroup`
    whose counter goes from 1 to 0. Here the Once is the flag `resolved`, the WaitGroup is
    the counter `pending`, and the optional `context.CancelFunc` is the flag `hasCancel`
    with a count of the calls made to it. Blocking is a precondition: `Wait` can only be
    called once the waiter is resolved. */
module Waiter {
  import opened Errs

  class OneErrorWaiter {
    /** Whether a cancel function is attached (only the context variant has one). */
    const hasCancel: bool
    /** How many times the attached cancel function has been called. */
    var cancelCalls: nat
    /** The WaitGroup counter. */
    var pending: nat
    /** Whether the Once has run. */
    var resolved: bool
    /** The stored result; `None` is a nil error. */
    var err: Option<Error>

    ghost predicate Valid()
      reads this
    {
      && pending == (if resolved then 0 else 1)
      && (!resolved ==> err == None && cancelCalls == 0)
      && (!hasCancel ==> cancelCalls == 0)
    }

    /** `WaitOneErrorOrNil`: unresolved, counter 1, no cancel function. */
    constructor ()
      ensures Valid()
      ensures !hasCancel && !resolved && pending == 1 && err == None && cancelCalls == 0
    {
      hasCancel := false;
      cancelCalls := 0;
      pending := 1;
      resolved := false;
      err := None;
    }

    /** `WaitOneErrorOrNilWithontext`: as above, with the cancel function of a derived,
        cancellable context attached; the context is represented by `cancelCalls`. */
    constructor WithContext()
      ensures Valid()
      ensures hasCancel && !resolved && pending == 1 && err == None && cancelCalls == 0
    {
      hasCancel := true;
      cancelCalls := 0;
      pending := 1;
      resolved := false;
      err := None;
    }

    /** `Release`: the first call stores `e`, lowers the counter to 0 and calls the cancel
        function, if any; every later call changes nothing. */
    method Release(e: Option<Error>)
      requires Valid()
      modifies this
      ensures Valid()
      ensures old(resolved) ==> unchanged(this)
      ensures !old(resolved) ==>
        && resolved && err == e && pending == old(pending) - 1
        && cancelCalls == old(cancelCalls) + (if hasCancel then 1 else 0)
    {
      if !resolved {
        resolved := true;
        err := e;
        if hasCancel {
          cancelCalls := cancelCalls + 1;
        }
        pending := pending - 1;
      }
    }

    /** `Wait`: returns the stored result once the counter is 0, calling the cancel
        function again if there is one. */
    method Wait() returns (e: Option<Error>)
      requires Valid() && resolved
      modifies this
      ensures Valid()
      ensures e == err
      ensures resolved == old(resolved) && err == old(err) && pending == old(pending)
      ensures cancelCalls == old(cancelCalls) + (if hasCancel then 1 else 0)
    {
      if hasCancel {
        cancelCalls := cancelCalls + 1;
      }
      e := err;
    }
  }

  /** Releasing `nil` and then waiting yields nil. */
  method ReleaseNilThenWait() returns (got: Option<Error>)
    ensures got == None
  {
    var w := new OneErrorWaiter();
    w.Release(None);
    got := w.Wait();
  }

  /** Whatever sequence of results is released, in whatever order, every wait returns the
      first one, and the cancel function of a context waiter has been called once by the
      releases and once more by each wait. */
  method ReleaseManyThenWait(releases: seq<Option<Error>>, waits: nat, withContext: bool)
    returns (got: seq<Option<Error>>, cancelCalls: nat)
    requires |releases| > 0
    ensures |got| == waits
    ensures forall k :: 0 <= k < waits ==> got[k] == releases[0]
    ensures cancelCalls == (if withContext then 1 + waits else 0)
  {
    var w: OneErrorWaiter;
    if withContext {
      w := new OneErrorWaiter.WithContext();
    } else {
      w := new OneErrorWaiter();
    }
    var i := 0;
    while i < |releases|
      invariant 0 <= i <= |releases|
      invariant w.Valid() && w.hasCancel == withContext
      invariant i == 0 ==> !w.resolved
      invariant i > 0 ==> w.resolved && w.err == releases[0]
      invariant w.cancelCalls == (if i > 0 && withContext then 1 else 0)
    {
      w.Release(releases[i]);
      i := i + 1;
    }
    got := [];
    var j := 0;
    while j < waits
      invariant 0 <= j <= waits
      invariant w.Valid() && w.resolved && w.err == releases[0] && w.hasCancel == withContext
      invariant w.cancelCalls == (if withContext then 1 + j else 0)
      invariant |got| == j
      invariant forall k :: 0 <= k < j ==> got[k] == releases[0]
    {
      var e := w.Wait();
      got := got + [e];
      j := j + 1;
    }
    cancelCalls := w.cancelCalls;
  }
}
