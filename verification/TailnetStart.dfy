/** The promises of `Tailnet` in modules/tailscale.js: `start` with a deadline that
    pauses while the user is needed, `rebind` and `close`, all settled by `#poll`. */
module TailnetStart {
  import opened Basics

  datatype Name =
    | Idle | WifiWait | Connecting | Registering | Connected | Reconnecting
    | Failed | NeedsAuth | NeedsApproval | Closed

  const STATE_NAMES: seq<Name> :=
    [Idle, WifiWait, Connecting, Registering, Connected, Reconnecting, Failed, NeedsAuth, NeedsApproval,
     Reconnecting, Closed]

  /** An unknown native state counts as an error. */
  function NameOf(native: nat): Name {
    if native < |STATE_NAMES| then STATE_NAMES[native] else Failed
  }

  predicate Waiting(name: Name) {
    name.NeedsAuth? || name.NeedsApproval?
  }

  datatype Reason = NativeError | TimedOut | ClosedByUser

  datatype Promise = Unmade | Pending | Fulfilled | Rejected(reason: Reason)

  function Settle(p: Promise, outcome: Promise): Promise {
    if p.Pending? then outcome else p
  }

  datatype State = State(
    connectTimeout: int, open: bool, closing: bool, nativeStarted: bool, name: Name,
    start: Promise, startDeadline: Option<int>, startRemaining: Option<int>,
    rebind: Promise, rebindNotBefore: int, rebindDeadline: int,
    close: Promise)

  function New(connectTimeout: int): State {
    State(connectTimeout, true, false, false, Idle, Unmade, None, None, Unmade, 0, 0, Unmade)
  }

  function Max(a: int, b: int): int {
    if a < b then b else a
  }

  /** What `#poll` makes of the native state. */
  function Observed(s: State, now: int, native: nat): Name {
    if s.rebind.Pending? && NameOf(native).Connected? && now < s.rebindNotBefore then Reconnecting
    else NameOf(native)
  }

  /** The clock of `start` stops while the user is needed and goes on afterwards. */
  function Metered(s: State, now: int, name: Name): State {
    if !s.start.Pending? then s
    else if Waiting(name) && s.startDeadline.Some? then
      s.(startRemaining := Some(Max(0, s.startDeadline.value - now)), startDeadline := None)
    else if !Waiting(name) && s.startDeadline.None? then
      s.(startDeadline := Some(now + if s.startRemaining.Some? then s.startRemaining.value else s.connectTimeout),
        startRemaining := None)
    else s
  }

  function StartChecked(s: State, now: int, name: Name): State {
    if !s.start.Pending? then s
    else if name.Connected? then s.(start := Fulfilled, startRemaining := None)
    else if s.startDeadline.Some? && now >= s.startDeadline.value then
      s.(start := Rejected(TimedOut), startRemaining := None)
    else s
  }

  function RebindChecked(s: State, now: int, name: Name): State {
    if !s.rebind.Pending? then s
    else if name.Connected? && now >= s.rebindNotBefore then s.(rebind := Fulfilled)
    else if now >= s.rebindDeadline then s.(rebind := Rejected(TimedOut))
    else s
  }

  function Polled(s: State, now: int, native: nat, nativeClosed: bool): State {
    if !s.open then s
    else if s.closing then
      if nativeClosed then s.(open := false, closing := false, name := Closed, close := Settle(s.close, Fulfilled))
      else s
    else
      var name := Observed(s, now, native);
      var t := s.(name := name);
      if name.Failed? then
        t.(start := Settle(s.start, Rejected(NativeError)), rebind := Settle(s.rebind, Rejected(NativeError)),
          startRemaining := None)
      else RebindChecked(StartChecked(Metered(t, now, name), now, name), now, name)
  }

  datatype Step =
    | Start(now: int)
    | Poll(now: int, native: nat, nativeClosed: bool)
    | Rebind(now: int)
    | Close

  /** A disabled call throws or hands out the promise it already has; the poll timer
      runs from the first `start`, `rebind` or `close` on. */
  predicate Enabled(s: State, step: Step) {
    match step
    case Start(_) => s.open && s.name.Idle? && !s.nativeStarted
    case Rebind(_) => s.open && s.name.Connected? && !s.rebind.Pending?
    case Close => s.open && !s.close.Pending?
    case Poll(_, _, _) => s.nativeStarted || s.closing
  }

  function Apply(s: State, step: Step): State
    requires Enabled(s, step)
  {
    match step
    case Start(now) =>
      s.(nativeStarted := true, name := Connecting, start := Pending, startRemaining := None,
        startDeadline := Some(now + s.connectTimeout))
    case Poll(now, native, nativeClosed) => Polled(s, now, native, nativeClosed)
    case Rebind(now) =>
      s.(name := Reconnecting, rebind := Pending, rebindNotBefore := now + 500,
        rebindDeadline := now + s.connectTimeout)
    case Close =>
      s.(start := Settle(s.start, Rejected(ClosedByUser)), rebind := Settle(s.rebind, Rejected(ClosedByUser)),
        startRemaining := None, close := Pending, closing := true)
  }

  function Exec(s: State, steps: seq<Step>): State
    decreases |steps|
  {
    if steps == [] then s
    else Exec(if Enabled(s, steps[0]) then Apply(s, steps[0]) else s, steps[1..])
  }

  // ------------------------------------------------------- reference definition

  /** Whether the time after these polls is charged: before the first one, and after
      any that did not find the user needed. */
  predicate Charging(polls: seq<(int, Name)>) {
    polls == [] || !Waiting(polls[|polls| - 1].1)
  }

  function LastTime(begin: int, polls: seq<(int, Name)>): int {
    if polls == [] then begin else polls[|polls| - 1].0
  }

  /** The time spent, from `begin` to the last poll, in states that do not wait for
      the user. */
  function Charged(begin: int, polls: seq<(int, Name)>): int {
    if polls == [] then 0
    else
      var before := polls[..|polls| - 1];
      Charged(begin, before) + (if Charging(before) then LastTime(begin, polls) - LastTime(begin, before) else 0)
  }

  /** How `start` ends, by the first poll that decides it: an error, a connection, or
      a poll outside the waiting states with the whole timeout charged. */
  function Verdict(timeout: int, begin: int, polls: seq<(int, Name)>): Promise {
    if polls == [] then Pending
    else
      var sofar := Verdict(timeout, begin, polls[..|polls| - 1]);
      var name := polls[|polls| - 1].1;
      if !sofar.Pending? then sofar
      else if name.Failed? then Rejected(NativeError)
      else if name.Connected? then Fulfilled
      else if !Waiting(name) && Charged(begin, polls) >= timeout then Rejected(TimedOut)
      else Pending
  }

  // ---------------------------------------------------------------- invariants

  /** While `start` is pending exactly one of deadline and remainder is set, and it
      stands for the timeout less the time charged, never below zero. */
  ghost predicate BudgetInv(s: State, begin: int, polls: seq<(int, Name)>) {
    var left := s.connectTimeout - Charged(begin, polls);
    && (s.startDeadline.Some? <==> s.startRemaining.None?)
    && (s.startDeadline.Some? <==> Charging(polls))
    && (s.startDeadline.Some? ==> s.startDeadline.value == LastTime(begin, polls) + left && 0 < left)
    && (s.startRemaining.Some? ==> s.startRemaining.value == Max(0, left))
  }

  /** A pending promise and a connection never meet between two events. */
  ghost predicate NameInv(s: State) {
    && (s.start.Pending? && s.open && !s.closing ==> !s.name.Connected? && !s.name.Failed?)
    && (s.rebind.Pending? && s.open && !s.closing ==>
        s.nativeStarted && !s.start.Pending? && !s.name.Connected? && !s.name.Failed?)
    && (s.open && !s.nativeStarted ==> s.name.Idle?)
    && (s.closing <==> s.close.Pending?)
    && (s.closing ==> s.open)
    && (s.start.Unmade? <==> !s.nativeStarted)
    && (s.close.Fulfilled? <==> !s.open)
  }

  lemma {:induction false} StepKeepsNameInv(s: State, step: Step)
    requires NameInv(s) && Enabled(s, step)
    ensures NameInv(Apply(s, step))
  {
  }

  lemma {:induction false} RunKeepsNameInv(s: State, steps: seq<Step>)
    requires NameInv(s)
    ensures NameInv(Exec(s, steps))
    decreases |steps|
  {
    if steps != [] {
      if Enabled(s, steps[0]) {
        StepKeepsNameInv(s, steps[0]);
        RunKeepsNameInv(Apply(s, steps[0]), steps[1..]);
      } else {
        RunKeepsNameInv(s, steps[1..]);
      }
    }
  }

  // -------------------------------------------------------------- main results

  /** How `start` ends over a whole run: by the polls, or by the first `close` before
      they decide. */
  function Expected(timeout: int, begin: int, polls: seq<(int, Name)>, steps: seq<Step>): Promise
    decreases |steps|
  {
    if !Verdict(timeout, begin, polls).Pending? then Verdict(timeout, begin, polls)
    else if steps == [] then Pending
    else
      match steps[0]
      case Close => Rejected(ClosedByUser)
      case Poll(now, native, _) => Expected(timeout, begin, polls + [(now, NameOf(native))], steps[1..])
      case _ => Expected(timeout, begin, polls, steps[1..])
  }

  /** One poll keeps the budget, and settles `start` exactly as the verdict says. */
  lemma {:induction false} PollMatchesVerdict(s: State, begin: int, polls: seq<(int, Name)>, now: int, native: nat,
                                              nativeClosed: bool)
    requires NameInv(s) && s.open && !s.closing && s.start.Pending? && BudgetInv(s, begin, polls)
    requires Verdict(s.connectTimeout, begin, polls).Pending?
    ensures var t := Polled(s, now, native, nativeClosed);
      var more := polls + [(now, NameOf(native))];
      && t.start == Verdict(s.connectTimeout, begin, more)
      && (t.start.Pending? ==> BudgetInv(t, begin, more) && t.open && !t.closing)
      && t.connectTimeout == s.connectTimeout
  {
    var more := polls + [(now, NameOf(native))];
    assert more[..|more| - 1] == polls;
    assert Observed(s, now, native) == NameOf(native);
    assert Charged(begin, more) == Charged(begin, polls) + (if Charging(polls) then now - LastTime(begin,
      polls) else 0);
  }

  lemma {:induction false} SettledStays(s: State, steps: seq<Step>)
    requires NameInv(s) && !s.start.Pending? && !s.start.Unmade?
    ensures Exec(s, steps).start == s.start
    decreases |steps|
  {
    if steps != [] {
      if Enabled(s, steps[0]) {
        StepKeepsNameInv(s, steps[0]);
        SettledStays(Apply(s, steps[0]), steps[1..]);
      } else {
        SettledStays(s, steps[1..]);
      }
    }
  }

  lemma {:induction false} RunMatchesVerdict(s: State, begin: int, polls: seq<(int, Name)>, steps: seq<Step>)
    requires NameInv(s) && s.open && !s.closing && s.start.Pending? && BudgetInv(s, begin, polls)
    requires Verdict(s.connectTimeout, begin, polls).Pending?
    ensures Exec(s, steps).start == Expected(s.connectTimeout, begin, polls, steps)
    decreases |steps|
  {
    if steps != [] {
      var rest := steps[1..];
      match steps[0] {
        case Start(_) => RunMatchesVerdict(s, begin, polls, rest);
        case Rebind(_) => RunMatchesVerdict(s, begin, polls, rest);
        case Close =>
          StepKeepsNameInv(s, Close);
          SettledStays(Apply(s, Close), rest);
        case Poll(now, native, nativeClosed) =>
          var t := Apply(s, steps[0]);
          StepKeepsNameInv(s, steps[0]);
          PollMatchesVerdict(s, begin, polls, now, native, nativeClosed);
          if t.start.Pending? {
            RunMatchesVerdict(t, begin, polls + [(now, NameOf(native))], rest);
          } else {
            SettledStays(t, rest);
          }
      }
    }
  }

  /** However often waits for the user alternate with other states, `start` settles
      as the reference says: the time-out comes exactly at the first poll outside the
      waiting states, not connected and not failed, at which the whole timeout has
      been charged. It settles once. */
  lemma StartIsExact(timeout: int, begin: int, steps: seq<Step>)
    requires 0 < timeout
    ensures Exec(New(timeout), [Start(begin)] + steps).start == Expected(timeout, begin, [], steps)
  {
    var s := Apply(New(timeout), Start(begin));
    assert ([Start(begin)] + steps)[1..] == steps;
    assert BudgetInv(s, begin, []);
    RunMatchesVerdict(s, begin, [], steps);
  }

  /** Time spent waiting for the user is free: stretching a wait by any amount (that
      is, delaying every later poll) changes no charge. */
  lemma {:induction false} WaitingIsFree(begin: int, polls: seq<(int, Name)>, later: seq<(int, Name)>, delay: int)
    requires polls != [] && Waiting(polls[|polls| - 1].1)
    ensures Charged(begin, polls + Delayed(later, delay)) == Charged(begin, polls + later)
    decreases |later|
  {
    if later == [] {
      assert polls + Delayed(later, delay) == polls + later;
    } else {
      var n := |later| - 1;
      var a, b := polls + later, polls + Delayed(later, delay);
      assert a[..|a| - 1] == polls + later[..n];
      assert b[..|b| - 1] == polls + Delayed(later[..n], delay);
      WaitingIsFree(begin, polls, later[..n], delay);
      assert Charging(a[..|a| - 1]) == Charging(b[..|b| - 1]);
    }
  }

  function Delayed(polls: seq<(int, Name)>, delay: int): (d: seq<(int, Name)>)
    ensures |d| == |polls|
  {
    seq(|polls|, i requires 0 <= i < |polls| => (polls[i].0 + delay, polls[i].1))
  }

  /** How `rebind` ends: a connection counts only 500 ms after the request. */
  function RebindExpected(notBefore: int, deadline: int, steps: seq<Step>): Promise
    decreases |steps|
  {
    if steps == [] then Pending
    else
      match steps[0]
      case Close => Rejected(ClosedByUser)
      case Poll(now, native, _) =>
        if NameOf(native).Failed? then Rejected(NativeError)
        else if NameOf(native).Connected? && now >= notBefore then Fulfilled
        else if now >= deadline then Rejected(TimedOut)
        else RebindExpected(notBefore, deadline, steps[1..])
      case _ => RebindExpected(notBefore, deadline, steps[1..])
  }

  /** The first event after a pending `rebind` decides it as the reference says, or
      leaves it pending with the same two limits. */
  lemma {:induction false} RebindStep(s: State, step: Step)
    requires NameInv(s) && s.open && !s.closing && s.rebind.Pending? && Enabled(s, step)
    ensures var t := Apply(s, step);
      && t.rebind == RebindExpected(s.rebindNotBefore, s.rebindDeadline, [step])
      && (t.rebind.Pending? ==> t.open && !t.closing)
      && (t.rebind.Pending? ==> t.rebindNotBefore == s.rebindNotBefore && t.rebindDeadline == s.rebindDeadline)
  {
  }

  /** The promise a `rebind` call returned, over any later run that makes no new one. */
  lemma {:induction false} RebindIsExact(s: State, steps: seq<Step>)
    requires NameInv(s) && s.open && !s.closing && s.rebind.Pending?
    requires forall step | step in steps :: !step.Rebind?
    ensures Exec(s, steps).rebind == RebindExpected(s.rebindNotBefore, s.rebindDeadline, steps)
    decreases |steps|
  {
    if steps != [] {
      var rest := steps[1..];
      if Enabled(s, steps[0]) {
        StepKeepsNameInv(s, steps[0]);
        RebindStep(s, steps[0]);
        assert [steps[0]][1..] == [];
        var t := Apply(s, steps[0]);
        if t.rebind.Pending? {
          RebindIsExact(t, rest);
        } else {
          RebindStays(t, rest);
        }
      } else {
        RebindIsExact(s, rest);
      }
    }
  }

  lemma {:induction false} RebindStays(s: State, steps: seq<Step>)
    requires NameInv(s) && !s.rebind.Pending?
    requires forall step | step in steps :: !step.Rebind?
    ensures Exec(s, steps).rebind == s.rebind
    decreases |steps|
  {
    if steps != [] {
      if Enabled(s, steps[0]) {
        StepKeepsNameInv(s, steps[0]);
        RebindStays(Apply(s, steps[0]), steps[1..]);
      } else {
        RebindStays(s, steps[1..]);
      }
    }
  }

  /** In every run: while the tailnet is neither closing nor closed, no promise is
      pending in the connected or the error state; `close` is fulfilled exactly when
      the native side is gone. */
  lemma PromisesMeetTheState(timeout: int, steps: seq<Step>)
    ensures NameInv(Exec(New(timeout), steps))
  {
    RunKeepsNameInv(New(timeout), steps);
  }

  /** A promise is stranded exactly when it is made while the tailnet is closing:
      `close` settles every promise pending at that time, and `#poll` looks at no
      promise but its own from then on. */
  lemma {:induction false} MadeWhileClosingIsStranded(s: State, steps: seq<Step>)
    requires NameInv(s) && (s.closing || !s.open)
    ensures s.rebind.Pending? ==> Exec(s, steps).rebind.Pending?
    ensures s.start.Pending? ==> Exec(s, steps).start.Pending?
    decreases |steps|
  {
    if steps != [] {
      if Enabled(s, steps[0]) {
        StepKeepsNameInv(s, steps[0]);
        MadeWhileClosingIsStranded(Apply(s, steps[0]), steps[1..]);
      } else {
        MadeWhileClosingIsStranded(s, steps[1..]);
      }
    }
  }

  /** A pending promise of a tailnet that is not closing is settled by one `close`,
      and by one poll that finds an error: there it can never be stranded. */
  lemma MadeBeforeClosingSettles(s: State, now: int, native: nat, nativeClosed: bool)
    requires NameInv(s) && s.open && !s.closing
    ensures Enabled(s, Close)
    ensures !Apply(s, Close).start.Pending? && !Apply(s, Close).rebind.Pending?
    ensures NameOf(native).Failed? ==>
      !Polled(s, now, native, nativeClosed).start.Pending? && !Polled(s, now, native, nativeClosed).rebind.Pending?
  {
  }

  ghost predicate RebindCanSettle(s: State) {
    exists steps: seq<Step> :: !Exec(s, steps).rebind.Pending?
  }

  ghost predicate StartCanSettle(s: State) {
    exists steps: seq<Step> :: !Exec(s, steps).start.Pending?
  }

  /** In every reachable state a pending promise can still be settled, by some later
      run, if and only if the tailnet is neither closing nor closed. */
  lemma PendingCanSettle(timeout: int, before: seq<Step>)
    ensures var s := Exec(New(timeout), before);
      && (s.rebind.Pending? ==> (RebindCanSettle(s) <==> s.open && !s.closing))
      && (s.start.Pending? ==> (StartCanSettle(s) <==> s.open && !s.closing))
  {
    RunKeepsNameInv(New(timeout), before);
    var s := Exec(New(timeout), before);
    if s.open && !s.closing {
      OneCloseSettles(s);
    } else {
      forall steps: seq<Step>
        ensures s.rebind.Pending? ==> Exec(s, steps).rebind.Pending?
        ensures s.start.Pending? ==> Exec(s, steps).start.Pending?
      {
        MadeWhileClosingIsStranded(s, steps);
      }
    }
  }

  lemma OneCloseSettles(s: State)
    requires NameInv(s) && s.open && !s.closing
    ensures RebindCanSettle(s) && StartCanSettle(s)
  {
    MadeBeforeClosingSettles(s, 0, 0, false);
    assert [Close][1..] == [];
    assert Exec(s, [Close]) == Apply(s, Close);
  }

  /** The stranded case is real: `rebind` right after `close` on a connected tailnet. */
  lemma RebindAfterCloseIsAccepted(timeout: int)
    requires 0 < timeout
    ensures var s := Exec(New(timeout), [Start(0), Poll(1, 4, false), Close, Rebind(2)]);
      s.closing && s.rebind.Pending?
  {
    var steps := [Start(0), Poll(1, 4, false), Close, Rebind(2)];
    assert steps[1..] == [Poll(1, 4, false), Close, Rebind(2)];
    assert steps[1..][1..] == [Close, Rebind(2)];
    assert steps[1..][1..][1..] == [Rebind(2)];
    assert steps[1..][1..][1..][1..] == [];
    var a := Apply(New(timeout), Start(0));
    var b := Apply(a, Poll(1, 4, false));
    assert b.name.Connected? && b.start.Fulfilled?;
    var c := Apply(b, Close);
    assert c.closing && Enabled(c, Rebind(2));
  }
}
