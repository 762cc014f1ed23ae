/** The class `Tailnet` of modules/tailscale.js: its private fields, updated by
    `start`, `rebind`, `close` and the poll timer. */
module Tailnets {
  import opened Basics
  import opened TailnetStart

  class Tailnet {
    const connectTimeout: int
    var native: bool
    var closing: bool
    var nativeStarted: bool
    var state: Name
    var startResult: Promise
    var startDeadline: Option<int>
    var startTimeoutRemaining: Option<int>
    var rebindResult: Promise
    var rebindNotBefore: int
    var rebindDeadline: int
    var closeResult: Promise

    ghost function View(): State
      reads this
    {
      State(connectTimeout, native, closing, nativeStarted, state, startResult, startDeadline,
        startTimeoutRemaining, rebindResult, rebindNotBefore, rebindDeadline, closeResult)
    }

    ghost predicate Valid()
      reads this
    {
      NameInv(View())
    }

    constructor (connectTimeout: int)
      requires 0 < connectTimeout
      ensures Valid() && View() == New(connectTimeout)
    {
      this.connectTimeout := connectTimeout;
      native, closing, nativeStarted, state := true, false, false, Idle;
      startResult, startDeadline, startTimeoutRemaining := Unmade, None, None;
      rebindResult, rebindNotBefore, rebindDeadline, closeResult := Unmade, 0, 0, Unmade;
    }

    /** `start`: throws unless idle and never started. */
    method StartUp(now: int) returns (ok: bool)
      requires Valid()
      modifies this
      ensures Valid()
      ensures ok == Enabled(old(View()), Start(now))
      ensures View() == if ok then Apply(old(View()), Start(now)) else old(View())
    {
      if !native || state != Idle || nativeStarted {
        return false;
      }
      StepKeepsNameInv(View(), Start(now));
      nativeStarted, state := true, Connecting;
      startResult, startTimeoutRemaining := Pending, None;
      startDeadline := Some(now + connectTimeout);
      ok := true;
    }

    /** The part of `#poll` between the error check and the two promise checks. */
    method Meter(now: int, name: Name)
      modifies this
      ensures View() == Metered(old(View()), now, name)
    {
      var waitingForUser := Waiting(name);
      if startResult.Pending? && waitingForUser && startDeadline.Some? {
        startTimeoutRemaining := Some(Max(0, startDeadline.value - now));
        startDeadline := None;
      } else if startResult.Pending? && !waitingForUser && startDeadline.None? {
        startDeadline := Some(now + if startTimeoutRemaining.Some? then startTimeoutRemaining.value
          else connectTimeout);
        startTimeoutRemaining := None;
      }
    }

    method CheckPromises(now: int, name: Name)
      modifies this
      ensures View() == RebindChecked(StartChecked(old(View()), now, name), now, name)
    {
      if startResult.Pending? && name.Connected? {
        startResult, startTimeoutRemaining := Fulfilled, None;
      } else if startResult.Pending? && startDeadline.Some? && now >= startDeadline.value {
        startResult, startTimeoutRemaining := Rejected(TimedOut), None;
      }
      if rebindResult.Pending? && name.Connected? && now >= rebindNotBefore {
        rebindResult := Fulfilled;
      } else if rebindResult.Pending? && now >= rebindDeadline {
        rebindResult := Rejected(TimedOut);
      }
    }

    /** `#poll`. */
    method PollOnce(now: int, nativeState: nat, nativeClosed: bool)
      requires Valid() && (nativeStarted || closing)
      modifies this
      ensures Valid()
      ensures View() == Polled(old(View()), now, nativeState, nativeClosed)
    {
      StepKeepsNameInv(View(), Poll(now, nativeState, nativeClosed));
      if !native {
        return;
      }
      if closing {
        if nativeClosed {
          native, closing, state := false, false, Closed;
          closeResult := Settle(closeResult, Fulfilled);
        }
        return;
      }
      var name := NameOf(nativeState);
      if rebindResult.Pending? && name.Connected? && now < rebindNotBefore {
        name := Reconnecting;
      }
      state := name;
      if name.Failed? {
        startResult := Settle(startResult, Rejected(NativeError));
        rebindResult := Settle(rebindResult, Rejected(NativeError));
        startTimeoutRemaining := None;
        return;
      }
      Meter(now, name);
      CheckPromises(now, name);
    }

    /** `rebind`: throws unless connected; a pending promise is handed out again. */
    method RebindNow(now: int) returns (made: bool)
      requires Valid()
      modifies this
      ensures Valid()
      ensures made == Enabled(old(View()), Rebind(now))
      ensures View() == if made then Apply(old(View()), Rebind(now)) else old(View())
    {
      if !native || state != Connected || rebindResult.Pending? {
        return false;
      }
      StepKeepsNameInv(View(), Rebind(now));
      state, rebindResult := Reconnecting, Pending;
      rebindNotBefore, rebindDeadline := now + 500, now + connectTimeout;
      made := true;
    }

    method CloseDown() returns (made: bool)
      requires Valid()
      modifies this
      ensures Valid()
      ensures made == Enabled(old(View()), Close)
      ensures View() == if made then Apply(old(View()), Close) else old(View())
    {
      if !native || closeResult.Pending? {
        return false;
      }
      StepKeepsNameInv(View(), Close);
      startResult := Settle(startResult, Rejected(ClosedByUser));
      rebindResult := Settle(rebindResult, Rejected(ClosedByUser));
      startTimeoutRemaining := None;
      closeResult, closing := Pending, true;
      made := true;
    }
  }
}
