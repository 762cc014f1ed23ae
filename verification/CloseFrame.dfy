/** The close frame of examples/cores3-websocket/websocket-stream.js, and when a message
    leaves as one fragment. */
module CloseFrames {
  import opened Basics
  import opened WebSocketQueues

  /** The two code bytes and the reason, as `close` builds them. */
  function ClosePayload(code: nat, reason: seq<byte>): seq<byte> {
    [(code / 256) % 256, code % 256] + reason
  }

  /** The codes and reasons that `close` lets through. */
  predicate ValidClose(code: nat, reason: seq<byte>) {
    (code == 1000 || 3000 <= code <= 4999) && |reason| <= 123
  }

  /** The receiving side of the same class reads back what `close` built. */
  lemma ClosePayloadRoundTrip(code: nat, reason: seq<byte>)
    requires ValidClose(code, reason)
    ensures var data := ClosePayload(code, reason);
      && |data| <= 125
      && data[0] as int * 256 + data[1] as int == code && data[2..] == reason
  {
  }

  /** What a step writes: nothing, or the next bytes of the next unsent message, under
      the allowance of that moment. */
  ghost predicate WritesNext(s: State, t: State) {
    && s.accepted <= t.accepted
    && (t.wire == s.wire ||
        (&& |t.wire| == |s.wire| + 1 && t.wire[..|s.wire|] == s.wire && s.sent < |t.accepted|
         && Continues(t.wire[|s.wire|], t.accepted[s.sent], s.cut, s.sent)
         && t.wire[|s.wire|].allowance == s.allowance))
  }

  lemma {:induction false} PushWritesNext(s: State, message: Message, client: Client)
    requires Inv(s) && !s.phase.Closed?
    ensures WritesNext(s, Push(s, message, client))
  {
    var t := Push(s, message, client);
    assert t.accepted[|s.accepted|] == message;
    if s.queue == [] && 0 < s.allowance && s.allowance < |message.data| {
      assert t.wire == s.wire + [Fragment(|s.accepted|, message.data[..s.allowance], message.options, true,
        s.allowance)];
    }
  }

  lemma {:induction false} PassWritesNext(s: State, client: Client)
    requires Inv(s) && Enabled(s, Drain)
    ensures WritesNext(s, Pass(s, client))
  {
    assert s.queue[0].message == s.accepted[s.sent];
  }

  lemma {:induction false} StepWritesNext(s: State, step: Step, client: Client)
    requires Inv(s) && Enabled(s, step)
    ensures WritesNext(s, Apply(s, step, client))
  {
    match step
    case Send(message) => PushWritesNext(s, message, client);
    case Close(payload) => PushWritesNext(s, Message(payload, CloseOpcode, ByClose), client);
    case Drain => PassWritesNext(s, client);
    case _ =>
  }

  /** Fragment `k` is the first of its message. */
  predicate Begins(wire: seq<Fragment>, k: nat)
    requires k < |wire|
  {
    k == 0 || !wire[k - 1].more
  }

  /** A first fragment is the whole message exactly when the allowance covered it. */
  predicate WholeIffFits(f: Fragment, accepted: seq<Message>) {
    && f.id < |accepted|
    && (f.more <==> |accepted[f.id].data| > f.allowance)
    && (!f.more ==> f.data == accepted[f.id].data)
  }

  ghost predicate FirstsFit(wire: seq<Fragment>, accepted: seq<Message>) {
    forall k: nat | k < |wire| && Begins(wire, k) :: WholeIffFits(wire[k], accepted)
  }

  lemma {:induction false} NothingCut(s: State)
    requires WireInv(s) && (s.wire == [] || !s.wire[|s.wire| - 1].more)
    ensures s.cut == 0
  {
    assert Assemble(s.wire).rest == [];
    assert |Cut(s)| == s.cut;
  }

  lemma NewFirst(f: Fragment, accepted: seq<Message>, sent: nat, allowance: nat)
    requires sent < |accepted| && Continues(f, accepted[sent], 0, sent) && f.allowance == allowance
    ensures WholeIffFits(f, accepted)
  {
  }

  lemma {:induction false} FirstsGrow(wire: seq<Fragment>, accepted: seq<Message>, longer: seq<Message>)
    requires FirstsFit(wire, accepted) && accepted <= longer
    ensures FirstsFit(wire, longer)
  {
    forall k: nat | k < |wire| && Begins(wire, k)
      ensures WholeIffFits(wire[k], longer)
    {
      assert WholeIffFits(wire[k], accepted);
    }
  }

  lemma {:induction false} FirstsOne(wire: seq<Fragment>, f: Fragment, accepted: seq<Message>)
    requires FirstsFit(wire, accepted)
    requires wire == [] || !wire[|wire| - 1].more ==> WholeIffFits(f, accepted)
    ensures FirstsFit(wire + [f], accepted)
  {
    forall k: nat | k < |wire| + 1 && Begins(wire + [f], k)
      ensures WholeIffFits((wire + [f])[k], accepted)
    {
      if k < |wire| {
        assert Begins(wire, k);
      }
    }
  }

  lemma {:induction false} StepKeepsFirsts(s: State, t: State)
    requires WireInv(s) && FirstsFit(s.wire, s.accepted) && WritesNext(s, t)
    ensures FirstsFit(t.wire, t.accepted)
  {
    FirstsGrow(s.wire, s.accepted, t.accepted);
    if t.wire != s.wire {
      var f := t.wire[|s.wire|];
      if s.wire == [] || !s.wire[|s.wire| - 1].more {
        NothingCut(s);
        NewFirst(f, t.accepted, s.sent, s.allowance);
      }
      FirstsOne(s.wire, f, t.accepted);
      assert t.wire == s.wire + [f];
    }
  }

  lemma {:induction false} RunKeepsFirsts(s: State, steps: seq<Step>, client: Client)
    requires Inv(s) && FirstsFit(s.wire, s.accepted)
    ensures FirstsFit(Exec(s, steps, client).wire, Exec(s, steps, client).accepted)
    decreases |steps|
  {
    if steps != [] {
      if Enabled(s, steps[0]) {
        StepKeepsInv(s, steps[0], client);
        StepWritesNext(s, steps[0], client);
        StepKeepsFirsts(s, Apply(s, steps[0], client));
        RunKeepsFirsts(Apply(s, steps[0], client), steps[1..], client);
      } else {
        RunKeepsFirsts(s, steps[1..], client);
      }
    }
  }

  /** The message leaves as one fragment; it leaves in several. */
  predicate OneFragment(wire: seq<Fragment>, id: nat) {
    exists k :: 0 <= k < |wire| && IsLastOf(wire[k], id) && IsOnly(wire, k)
  }

  predicate IsOnly(wire: seq<Fragment>, k: int)
    requires 0 <= k < |wire|
  {
    forall j | 0 <= j < |wire| && j != k :: wire[j].id != wire[k].id
  }

  predicate Split(wire: seq<Fragment>, id: nat) {
    exists k :: 0 <= k < |wire| && wire[k].id == id && wire[k].more
  }

  predicate FirstOf(wire: seq<Fragment>, k: nat, id: nat) {
    && k < |wire| && wire[k].id == id
    && forall j | 0 <= j < k :: wire[j].id != id
  }

  lemma {:induction false} AssembleGrows(wire: seq<Fragment>, k: nat)
    requires k <= |wire|
    ensures Assemble(wire[..k]).messages <= Assemble(wire).messages
    decreases |wire|
  {
    if k < |wire| {
      var init, last := wire[..|wire| - 1], wire[|wire| - 1];
      assert wire == init + [last] && wire[..k] == init[..k];
      AssembleGrows(init, k);
      AssembleOne(init, last);
    } else {
      assert wire[..k] == wire;
    }
  }

  lemma {:induction false} MoreKeepsId(wire: seq<Fragment>, k: nat)
    requires InOrder(wire) && 0 < k < |wire| && wire[k - 1].more
    ensures wire[k].id == wire[k - 1].id
  {
    assert wire[..k] == wire[..k - 1] + [wire[k - 1]];
    AssembleOne(wire[..k - 1], wire[k - 1]);
  }

  /** The first fragment of a message begins one, and a last one has no successor. */
  lemma {:induction false} FirstBegins(wire: seq<Fragment>, k: nat, id: nat)
    requires InOrder(wire) && FirstOf(wire, k, id)
    ensures Begins(wire, k)
    ensures !wire[k].more ==> IsOnly(wire, k)
  {
    if 0 < k && wire[k - 1].more {
      MoreKeepsId(wire, k);
    }
    if !wire[k].more {
      assert wire[..k + 1] == wire[..k] + [wire[k]];
      AssembleOne(wire[..k], wire[k]);
      forall j | k < j < |wire|
        ensures wire[j].id != id
      {
        assert wire[..j][..k + 1] == wire[..k + 1];
        AssembleGrows(wire[..j], k + 1);
      }
    }
  }

  /** Over runs, for every message and so for the close frame: it leaves as one
      fragment exactly when the allowance at its first write covers all of it, and
      split exactly when it does not. */
  lemma WholeExactlyWhenItFits(steps: seq<Step>, client: Client, id: nat, k: nat)
    ensures var s := Exec(INITIAL, steps, client);
      FirstOf(s.wire, k, id) ==>
        && id < |s.accepted|
        && (OneFragment(s.wire, id) <==> |s.accepted[id].data| <= s.wire[k].allowance)
        && (Split(s.wire, id) <==> |s.accepted[id].data| > s.wire[k].allowance)
  {
    Initially();
    RunKeepsInv(INITIAL, steps, client);
    RunKeepsFirsts(INITIAL, steps, client);
    var s := Exec(INITIAL, steps, client);
    if FirstOf(s.wire, k, id) {
      FirstBegins(s.wire, k, id);
      assert WholeIffFits(s.wire[k], s.accepted);
      if !s.wire[k].more {
        assert IsLastOf(s.wire[k], id) && IsOnly(s.wire, k);
      }
    }
  }

  /** The allowance recorded with a fragment is that of the state that wrote it, in
      which the message was the next to go. */
  lemma {:induction false} WrittenUnderAllowance(steps: seq<Step>, client: Client, k: nat) returns (n: nat)
    requires k < |Exec(INITIAL, steps, client).wire|
    ensures n < |steps|
    ensures var before := Exec(INITIAL, steps[..n], client);
      && Enabled(before, steps[n]) && |before.wire| == k
      && Exec(INITIAL, steps, client).wire[k].allowance == before.allowance
      && Exec(INITIAL, steps, client).wire[k].id == before.sent
    decreases |steps|
  {
    var init, last := steps[..|steps| - 1], steps[|steps| - 1];
    assert steps == init + [last];
    RunLast(INITIAL, init, last, client);
    Initially();
    RunKeepsInv(INITIAL, init, client);
    var before := Exec(INITIAL, init, client);
    if Enabled(before, last) {
      StepWritesNext(before, last, client);
    }
    var t := Exec(INITIAL, steps, client);
    if k < |before.wire| {
      n := WrittenUnderAllowance(init, client, k);
      assert init[..n] == steps[..n];
      assert t.wire[k] == before.wire[k];
    } else {
      n := |init|;
    }
  }

  lemma {:induction false} RunLast(s: State, steps: seq<Step>, last: Step, client: Client)
    ensures var t := Exec(s, steps, client);
      Exec(s, steps + [last], client) == if Enabled(t, last) then Apply(t, last, client) else t
    decreases |steps|
  {
    if steps == [] {
      assert [last][1..] == [];
    } else {
      assert (steps + [last])[1..] == steps[1..] + [last];
      RunLast(if Enabled(s, steps[0]) then Apply(s, steps[0], client) else s, steps[1..], last, client);
    }
  }

  /** Both ways to a split close frame: it is cut when it is sent, or by a later grant
      that is too small for it. */
  lemma CloseIsSplitAtOnce(client: Client)
    ensures var s := Exec(INITIAL, [Writable(1), Close([3, 232])], client);
      s.accepted == [Message([3, 232], CloseOpcode, ByClose)] && Split(s.wire, 0)
  {
    var open := Apply(INITIAL, Writable(1), client);
    assert [Writable(1), Close([3, 232])] == [Writable(1)] + ([Close([3, 232])] + []);
    RunOne(INITIAL, Writable(1), [Close([3, 232])] + [], client);
    RunOne(open, Close([3, 232]), [], client);
    var s := Apply(open, Close([3, 232]), client);
    assert s.wire[0].id == 0 && s.wire[0].more;
  }

  lemma CloseIsSplitLater(client: Client)
    ensures var s := Exec(INITIAL, [Writable(0), Close([3, 232]), Writable(1), Drain], client);
      s.accepted == [Message([3, 232], CloseOpcode, ByClose)] && Split(s.wire, 0)
  {
    RunFour(INITIAL, Writable(0), Close([3, 232]), Writable(1), Drain, client);
    var s := Exec(INITIAL, [Writable(0), Close([3, 232]), Writable(1), Drain], client);
    assert s.wire[0].id == 0 && s.wire[0].more;
  }
}
