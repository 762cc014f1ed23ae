/** The send side of examples/cores3-websocket/websocket-stream.js: messages are
    split to the client's changing write allowance and the rest is queued. A step
    is one client write at most, so that callbacks may call back in between. */
module WebSocketQueues {
  import opened Basics

  datatype Phase = Connecting | Open | Closing | Closed

  datatype Options = Text | Binary | CloseOpcode

  /** Who waits for the message: the callbacks of `send`, the promise of a stream
      write, or nobody for the close frame. */
  datatype Via = BySend | ByStream | ByClose

  datatype Message = Message(data: seq<byte>, options: Options, via: Via)

  datatype Item = Item(id: nat, message: Message, offset: nat)

  /** One client write; `allowance` is what the client allowed when it happened. */
  datatype Fragment = Fragment(id: nat, data: seq<byte>, options: Options, more: bool, allowance: nat)

  /** `onComplete` or a resolved promise, and `onError`. */
  datatype Answer = Completed(id: nat) | Failed(id: nat)

  /** `accepted`, `wire`, `answers`: all that was ever sent, written and answered.
      `sent` messages are completely on the wire, and `cut` bytes of the next one. */
  datatype State = State(
    phase: Phase, allowance: nat, queue: seq<Item>,
    accepted: seq<Message>, wire: seq<Fragment>, answers: seq<Answer>,
    sent: nat, cut: nat, opens: nat, closes: nat)

  const INITIAL := State(Connecting, 0, [], [], [], [], 0, 0, 0, 0)

  /** The client's answer to its n-th write: any function at all. */
  type Client = nat -> nat

  function AnswerTo(id: nat, via: Via): seq<Answer> {
    if via.ByClose? then [] else [Completed(id)]
  }

  /** A failed drain still resolves the promise of a stream write. */
  function DropAnswerTo(id: nat, via: Via): seq<Answer> {
    match via
    case BySend => [Failed(id)]
    case ByStream => [Completed(id)]
    case ByClose => []
  }

  /** `#clientWrite` of `data`, which belongs to message `id`. */
  function ClientWrite(s: State, id: nat, data: seq<byte>, options: Options, more: bool, client: Client): State {
    s.(wire := s.wire + [Fragment(id, data, options, more, s.allowance)], allowance := client(|s.wire|))
  }

  /** `#write` followed by what `send` and the stream sink do with its result. */
  function Push(s: State, message: Message, client: Client): State {
    var id := |s.accepted|;
    var accepting := s.(accepted := s.accepted + [message]);
    if s.queue != [] then accepting.(queue := s.queue + [Item(id, message, 0)])
    else if |message.data| <= s.allowance then
      ClientWrite(accepting, id, message.data, message.options, false, client).(
        sent := s.sent + 1, answers := s.answers + AnswerTo(id, message.via))
    else if s.allowance > 0 then
      ClientWrite(accepting, id, message.data[..s.allowance], message.options, true, client).(
        queue := [Item(id, message, s.allowance)], cut := s.allowance)
    else accepting.(queue := [Item(id, message, 0)])
  }

  /** One pass of the loop in `onWritable`. */
  function Pass(s: State, client: Client): State
    requires s.queue != [] && HeadInPlace(s)
  {
    var Item(id, message, offset) := s.queue[0];
    var rest := message.data[offset..];
    if |rest| <= s.allowance then
      ClientWrite(s, id, rest, message.options, false, client).(
        queue := s.queue[1..], sent := s.sent + 1, cut := 0, answers := s.answers + AnswerTo(id, message.via))
    else if s.allowance > 0 then
      ClientWrite(s, id, rest[..s.allowance], message.options, true, client).(
        queue := [Item(id, message, offset + s.allowance)] + s.queue[1..], cut := offset + s.allowance)
    else s
  }

  /** One pass of the loop in `#drainWritable(error)`. */
  function DropHead(s: State): State
    requires s.queue != []
  {
    s.(queue := s.queue[1..], answers := s.answers + DropAnswerTo(s.queue[0].id, s.queue[0].message.via))
  }

  datatype Step =
    | Send(message: Message)
    | Close(payload: seq<byte>)
    | Writable(count: nat)
    | Drain
    | Fail
    | Drop

  /** No more of the head is written than it has; see `DrainIsEnabled`. */
  predicate HeadInPlace(s: State)
    requires s.queue != []
  {
    s.queue[0].offset <= |s.queue[0].message.data|
  }

  predicate Enabled(s: State, step: Step) {
    match step
    case Send(message) => (s.phase.Connecting? || s.phase.Open?) && !message.via.ByClose?
    case Close(_) => s.phase.Open?
    case Writable(_) => true
    case Drain => (s.phase.Open? || s.phase.Closing?) && s.queue != [] && HeadInPlace(s)
    case Fail => !s.phase.Closed?
    case Drop => s.phase.Closed? && s.queue != []
  }

  function Apply(s: State, step: Step, client: Client): State
    requires Enabled(s, step)
  {
    match step
    case Send(message) => Push(s, message, client)
    case Close(payload) => Push(s, Message(payload, CloseOpcode, ByClose), client).(phase := Closing)
    case Writable(count) => Granted(s, count)
    case Drain => Pass(s, client)
    case Fail => s.(phase := Closed, closes := s.closes + 1)
    case Drop => DropHead(s)
  }

  /** The start of `onWritable`; the first call opens the socket. */
  function Granted(s: State, count: nat): State {
    var granted := s.(allowance := count);
    if s.phase.Connecting? then granted.(phase := Open, opens := s.opens + 1) else granted
  }

  // ------------------------------------------------------------------ receiver

  /** What the receiving side makes of the fragments (`#read`): messages, and the
      bytes of one still unfinished. */
  datatype Assembly = Assembly(messages: seq<(seq<byte>, Options)>, rest: seq<byte>)

  function Assemble(wire: seq<Fragment>): Assembly {
    if wire == [] then Assembly([], [])
    else
      var before := Assemble(wire[..|wire| - 1]);
      var last := wire[|wire| - 1];
      var data := before.rest + last.data;
      if last.more then Assembly(before.messages, data)
      else Assembly(before.messages + [(data, last.options)], [])
  }

  function Content(messages: seq<Message>): (c: seq<(seq<byte>, Options)>)
    ensures |c| == |messages|
  {
    seq(|messages|, i requires 0 <= i < |messages| => (messages[i].data, messages[i].options))
  }

  // ---------------------------------------------------------------- invariants

  /** The receiver has exactly the sent messages and the cut bytes of the next. */
  ghost predicate ContentInv(s: State) {
    && s.sent <= |s.accepted| && (s.sent == |s.accepted| ==> s.cut == 0)
    && (s.cut > 0 ==> s.cut < |s.accepted[s.sent].data|)
    && Assemble(s.wire) == Assembly(Content(s.accepted[..s.sent]), Cut(s))
  }

  function Cut(s: State): seq<byte>
    requires s.sent <= |s.accepted|
    requires s.cut > 0 ==> s.sent < |s.accepted| && s.cut <= |s.accepted[s.sent].data|
  {
    if s.cut == 0 then [] else s.accepted[s.sent].data[..s.cut]
  }

  /** Every fragment belongs to the message the receiver is collecting, and fits. */
  ghost predicate InOrder(wire: seq<Fragment>) {
    forall k | 0 <= k < |wire| ::
      wire[k].id == |Assemble(wire[..k]).messages| && Fits(wire[k])
  }

  ghost predicate WireInv(s: State) {
    ContentInv(s) && InOrder(s.wire)
  }

  predicate Fits(f: Fragment) {
    |f.data| <= f.allowance && (f.more ==> |f.data| == f.allowance > 0)
  }

  ghost predicate QueueInv(s: State) {
    && |s.queue| <= |s.accepted|
    && (forall i | 0 <= i < |s.queue| ::
          s.queue[i].id == Settled(s) + i && s.queue[i].message == s.accepted[Settled(s) + i])
    && (forall i | 0 < i < |s.queue| :: s.queue[i].offset == 0)
    && (s.queue != [] && !s.phase.Closed? ==> s.queue[0].offset == s.cut)
    && (if s.phase.Closed? then s.sent <= Settled(s) else s.sent == Settled(s))
    && (s.queue == [] && !s.phase.Closed? ==> s.cut == 0)
  }

  /** How many messages are no longer queued. */
  function Settled(s: State): int {
    |s.accepted| - |s.queue|
  }

  /** Nothing is accepted after the close frame. */
  ghost predicate CloseInv(s: State) {
    && (forall i | 0 <= i < |s.accepted| :: s.accepted[i].via.ByClose? ==>
          i == |s.accepted| - 1 && (s.phase.Closing? || s.phase.Closed?))
    && s.closes == (if s.phase.Closed? then 1 else 0)
    && s.opens <= 1 && (s.phase.Connecting? ==> s.opens == 0)
  }

  /** The answers owed once `settled` messages have left the queue, of which the
      first `sent` completely. */
  function Owed(accepted: seq<Message>, sent: nat, settled: nat): seq<Answer>
    requires settled <= |accepted|
  {
    if settled == 0 then []
    else Owed(accepted, sent, settled - 1) + LastOwed(accepted, sent, settled)
  }

  function LastOwed(accepted: seq<Message>, sent: nat, settled: nat): (last: seq<Answer>)
    requires 0 < settled <= |accepted|
    ensures |last| <= 1
  {
    var id, via := settled - 1, accepted[settled - 1].via;
    if settled <= sent then AnswerTo(id, via) else DropAnswerTo(id, via)
  }

  ghost predicate AnswerInv(s: State)
    requires |s.queue| <= |s.accepted|
  {
    s.answers == Owed(s.accepted, s.sent, Settled(s))
  }

  ghost predicate Inv(s: State) {
    QueueInv(s) && WireInv(s) && CloseInv(s) && AnswerInv(s)
  }

  lemma Initially()
    ensures Inv(INITIAL)
  {
  }

  lemma AssembleOne(wire: seq<Fragment>, f: Fragment)
    ensures var a := Assemble(wire);
      Assemble(wire + [f]) ==
        if f.more then Assembly(a.messages, a.rest + f.data)
        else Assembly(a.messages + [(a.rest + f.data, f.options)], [])
  {
    assert (wire + [f])[..|wire|] == wire;
  }

  lemma InOrderOne(wire: seq<Fragment>, f: Fragment)
    requires InOrder(wire) && f.id == |Assemble(wire).messages| && Fits(f)
    ensures InOrder(wire + [f])
  {
    forall k | 0 <= k < |wire + [f]|
      ensures (wire + [f])[k].id == |Assemble((wire + [f])[..k]).messages| && Fits((wire + [f])[k])
    {
      assert (wire + [f])[..k] == wire[..k];
      if k == |wire| {
        assert wire[..k] == wire;
      }
    }
  }

  /** `f` carries the next bytes of message `m`, of which `cut` are written. */
  predicate Continues(f: Fragment, m: Message, cut: nat, id: nat) {
    && cut + |f.data| <= |m.data|
    && f.data == m.data[cut..cut + |f.data|] && f.options == m.options && f.id == id && Fits(f)
    && (f.more <==> cut + |f.data| < |m.data|)
  }

  lemma {:induction false} WriteNext(s: State, t: State, f: Fragment)
    requires WireInv(s) && s.sent < |t.accepted| && s.accepted <= t.accepted
    requires Continues(f, t.accepted[s.sent], s.cut, s.sent)
    requires t.wire == s.wire + [f]
    requires if f.more then t.sent == s.sent && t.cut == s.cut + |f.data| else t.sent == s.sent + 1 && t.cut == 0
    ensures WireInv(t)
  {
    InOrderOne(s.wire, f);
    WriteContent(s, t, f);
  }

  lemma {:induction false} WriteContent(s: State, t: State, f: Fragment)
    requires ContentInv(s) && s.sent < |t.accepted| && s.accepted <= t.accepted
    requires Continues(f, t.accepted[s.sent], s.cut, s.sent)
    requires t.wire == s.wire + [f]
    requires if f.more then t.sent == s.sent && t.cut == s.cut + |f.data| else t.sent == s.sent + 1 && t.cut == 0
    ensures ContentInv(t)
  {
    var m := t.accepted[s.sent];
    AssembleOne(s.wire, f);
    assert s.accepted[..s.sent] == t.accepted[..s.sent];
    assert Cut(s) + f.data == m.data[..s.cut + |f.data|];
    if !f.more {
      assert m.data[..s.cut + |f.data|] == m.data;
      assert Content(t.accepted[..s.sent + 1]) == Content(t.accepted[..s.sent]) + [(m.data, m.options)];
    }
  }

  lemma {:induction false} PushKeepsWire(s: State, message: Message, client: Client)
    requires Inv(s) && !s.phase.Closed?
    ensures WireInv(Push(s, message, client))
  {
    var t := Push(s, message, client);
    if s.queue != [] || |message.data| > s.allowance == 0 {
      assert Content(s.accepted[..s.sent]) == Content(t.accepted[..t.sent]);
    } else if |message.data| <= s.allowance {
      WriteNext(s, t, t.wire[|s.wire|]);
    } else {
      WriteNext(s, t, t.wire[|s.wire|]);
    }
  }

  /** The loop of `onWritable` can always go on while something is queued. */
  lemma DrainIsEnabled(s: State)
    requires Inv(s) && (s.phase.Open? || s.phase.Closing?) && s.queue != []
    ensures Enabled(s, Drain)
  {
    assert s.queue[0].message == s.accepted[s.sent];
  }

  lemma {:induction false} PassKeepsWire(s: State, client: Client)
    requires Inv(s) && Enabled(s, Drain)
    ensures WireInv(Pass(s, client))
  {
    var t := Pass(s, client);
    var rest := |s.queue[0].message.data| - s.cut;
    assert s.queue[0].message == s.accepted[s.sent];
    if rest <= s.allowance {
      WriteNext(s, t, t.wire[|s.wire|]);
    } else if s.allowance > 0 {
      WriteNext(s, t, t.wire[|s.wire|]);
    }
  }

  lemma {:induction false} OwedPrefix(a: seq<Message>, b: seq<Message>, sentA: nat, sentB: nat, settled: nat)
    requires settled <= |a| && settled <= |b| && a[..settled] == b[..settled]
    requires sentA == sentB || (settled <= sentA && settled <= sentB)
    ensures Owed(a, sentA, settled) == Owed(b, sentB, settled)
  {
    if settled > 0 {
      assert a[..settled - 1] == a[..settled][..settled - 1] && b[..settled - 1] == b[..settled][..settled - 1];
      assert a[settled - 1] == a[..settled][settled - 1] && b[settled - 1] == b[..settled][settled - 1];
      OwedPrefix(a, b, sentA, sentB, settled - 1);
    }
  }

  lemma {:induction false} PushKeepsQueue(s: State, message: Message, client: Client)
    requires QueueInv(s) && !s.phase.Closed?
    ensures QueueInv(Push(s, message, client))
  {
    var t := Push(s, message, client);
    assert forall i | 0 <= i < |s.accepted| :: t.accepted[i] == s.accepted[i];
  }

  lemma {:induction false} PushKeepsAnswers(s: State, message: Message, client: Client)
    requires QueueInv(s) && AnswerInv(s) && !s.phase.Closed?
    ensures |Push(s, message, client).queue| <= |s.accepted| + 1
    ensures AnswerInv(Push(s, message, client))
  {
    var t := Push(s, message, client);
    OwedPrefix(s.accepted, t.accepted, s.sent, t.sent, Settled(s));
    if s.queue == [] && |message.data| <= s.allowance {
      assert Settled(t) == Settled(s) + 1 == t.sent;
      assert LastOwed(t.accepted, t.sent, Settled(t)) == AnswerTo(|s.accepted|, message.via);
    } else {
      assert Settled(t) == Settled(s) && t.answers == s.answers;
    }
  }

  lemma {:induction false} PushShape(s: State, message: Message, client: Client)
    ensures var t := Push(s, message, client);
      && t.accepted == s.accepted + [message] && t.phase == s.phase
      && t.opens == s.opens && t.closes == s.closes
  {
  }

  lemma {:induction false} PushKeepsInv(s: State, message: Message, client: Client)
    requires Inv(s) && (s.phase.Connecting? || s.phase.Open?)
    ensures var t := Push(s, message, client);
      && WireInv(t) && QueueInv(t) && AnswerInv(t)
      && t.accepted == s.accepted + [message] && t.phase == s.phase
      && t.opens == s.opens && t.closes == s.closes
  {
    PushShape(s, message, client);
    PushKeepsWire(s, message, client);
    PushKeepsQueue(s, message, client);
    PushKeepsAnswers(s, message, client);
  }

  /** The state after the close frame, when only the phase is still to change. */
  lemma {:induction false} ClosingKeepsInv(s: State, t: State, message: Message)
    requires CloseInv(s) && s.phase.Open? && t.phase.Open?
    requires QueueInv(t) && WireInv(t) && AnswerInv(t)
    requires t.accepted == s.accepted + [message] && t.opens == s.opens && t.closes == s.closes
    ensures Inv(t.(phase := Closing))
  {
    ClosingKeepsClose(s, t.(phase := Closing), message);
  }

  lemma {:induction false} ClosingKeepsClose(s: State, t: State, message: Message)
    requires CloseInv(s) && s.phase.Open? && t.phase.Closing?
    requires t.accepted == s.accepted + [message] && t.opens == s.opens && t.closes == s.closes
    ensures CloseInv(t)
  {
  }

  lemma {:induction false} CloseKeepsInv(s: State, payload: seq<byte>, client: Client)
    requires Inv(s) && s.phase.Open?
    ensures Inv(Apply(s, Close(payload), client))
  {
    var message := Message(payload, CloseOpcode, ByClose);
    PushKeepsInv(s, message, client);
    ClosingKeepsInv(s, Push(s, message, client), message);
  }

  /** The head left the queue, or only its offset moved. */
  lemma {:induction false} HeadLeaves(s: State, t: State)
    requires QueueInv(s) && !s.phase.Closed? && s.queue != []
    requires t.accepted == s.accepted && t.phase == s.phase && t.queue == s.queue[1..]
    requires t.sent == s.sent + 1 && t.cut == 0
    ensures QueueInv(t)
  {
    assert Settled(t) == Settled(s) + 1;
  }

  lemma {:induction false} HeadMoves(s: State, t: State, offset: nat)
    requires QueueInv(s) && !s.phase.Closed? && s.queue != []
    requires t.accepted == s.accepted && t.phase == s.phase && t.sent == s.sent && t.cut == offset
    requires t.queue == [Item(s.queue[0].id, s.queue[0].message, offset)] + s.queue[1..]
    ensures QueueInv(t)
  {
    assert Settled(t) == Settled(s);
  }

  lemma {:induction false} PassKeepsQueue(s: State, client: Client)
    requires QueueInv(s) && Enabled(s, Drain)
    ensures QueueInv(Pass(s, client))
  {
    var t := Pass(s, client);
    if |t.queue| < |s.queue| {
      HeadLeaves(s, t);
    } else if 0 < s.allowance {
      HeadMoves(s, t, s.queue[0].offset + s.allowance);
    }
  }

  lemma {:induction false} PassKeepsAnswers(s: State, client: Client)
    requires QueueInv(s) && AnswerInv(s) && Enabled(s, Drain)
    ensures |Pass(s, client).queue| <= |s.accepted|
    ensures AnswerInv(Pass(s, client))
  {
    var t := Pass(s, client);
    assert s.queue[0].message == s.accepted[s.sent];
    OwedPrefix(s.accepted, t.accepted, s.sent, t.sent, Settled(s));
  }

  lemma {:induction false} PassKeepsInv(s: State, client: Client)
    requires Inv(s) && Enabled(s, Drain)
    ensures Inv(Pass(s, client))
  {
    PassKeepsWire(s, client);
    PassKeepsQueue(s, client);
    PassKeepsAnswers(s, client);
  }

  lemma {:induction false} DropKeepsInv(s: State)
    requires Inv(s) && Enabled(s, Drop)
    ensures Inv(DropHead(s))
  {
    var t := DropHead(s);
    assert s.queue[0].message == s.accepted[Settled(s)];
    assert Settled(t) == Settled(s) + 1;
    assert LastOwed(s.accepted, s.sent, Settled(t)) == DropAnswerTo(s.queue[0].id, s.queue[0].message.via);
    assert AnswerInv(t) && QueueInv(t);
  }

  lemma {:induction false} StepKeepsInv(s: State, step: Step, client: Client)
    requires Inv(s) && Enabled(s, step)
    ensures Inv(Apply(s, step, client))
  {
    match step
    case Send(message) => PushKeepsInv(s, message, client);
    case Close(payload) => CloseKeepsInv(s, payload, client);
    case Drain => PassKeepsInv(s, client);
    case Drop => DropKeepsInv(s);
    case Writable(count) => GrantKeepsInv(s, count);
    case Fail => FailKeepsInv(s);
  }

  lemma {:induction false} GrantKeepsInv(s: State, count: nat)
    requires Inv(s)
    ensures Inv(Granted(s, count))
  {
    var t := Granted(s, count);
    assert t.queue == s.queue && t.accepted == s.accepted && t.wire == s.wire && t.answers == s.answers;
    assert WireInv(t) && Settled(t) == Settled(s);
  }

  lemma {:induction false} FailKeepsInv(s: State)
    requires Inv(s) && !s.phase.Closed?
    ensures Inv(s.(phase := Closed, closes := s.closes + 1))
  {
  }

  /** A run; a step that is not enabled at its turn is one the source refuses. */
  function Exec(s: State, steps: seq<Step>, client: Client): State
    decreases |steps|
  {
    if steps == [] then s
    else Exec(if Enabled(s, steps[0]) then Apply(s, steps[0], client) else s, steps[1..], client)
  }

  lemma {:induction false} RunKeepsInv(s: State, steps: seq<Step>, client: Client)
    requires Inv(s)
    ensures Inv(Exec(s, steps, client))
    decreases |steps|
  {
    if steps != [] {
      if Enabled(s, steps[0]) {
        StepKeepsInv(s, steps[0], client);
        RunKeepsInv(Apply(s, steps[0], client), steps[1..], client);
      } else {
        RunKeepsInv(s, steps[1..], client);
      }
    }
  }

  // -------------------------------------------------------------- main results

  /** For every sequence of sends, closes, allowance changes and failures, and every
      client: the receiver has reassembled exactly the first `sent` messages in send
      order, fragments of different messages never mix, every fragment fits the
      allowance it was written under, and all but the last of a message carry
      `more` (section 5.4 of RFC 6455). */
  lemma MessagesArriveInOrder(steps: seq<Step>, client: Client)
    ensures var s := Exec(INITIAL, steps, client);
      && s.sent <= |s.accepted|
      && Assemble(s.wire).messages == Content(s.accepted[..s.sent])
      && Assemble(s.wire).rest <= (if s.sent < |s.accepted| then s.accepted[s.sent].data else [])
      && InOrder(s.wire)
  {
    Initially();
    RunKeepsInv(INITIAL, steps, client);
  }

  /** Nothing is accepted after the close frame. */
  lemma CloseIsLast(steps: seq<Step>, client: Client, i: nat)
    ensures var s := Exec(INITIAL, steps, client);
      i < |s.accepted| && s.accepted[i].via.ByClose? ==> i == |s.accepted| - 1
  {
    Initially();
    RunKeepsInv(INITIAL, steps, client);
  }

  predicate IsLastOf(f: Fragment, id: nat) {
    f.id == id && !f.more
  }

  lemma {:induction false} LastFragments(wire: seq<Fragment>, id: nat)
    requires InOrder(wire)
    ensures (exists k | 0 <= k < |wire| :: IsLastOf(wire[k], id)) <==> id < |Assemble(wire).messages|
    decreases |wire|
  {
    if wire != [] {
      var before, last := wire[..|wire| - 1], wire[|wire| - 1];
      assert wire == before + [last];
      assert forall k | 0 <= k < |before| :: before[..k] == wire[..k];
      assert InOrder(before);
      LastFragments(before, id);
      AssembleOne(before, last);
      assert last.id == |Assemble(before).messages|;
      if id < |Assemble(wire).messages| {
        if id < |Assemble(before).messages| {
          var k :| 0 <= k < |before| && IsLastOf(before[k], id);
          assert IsLastOf(wire[k], id);
        } else {
          assert IsLastOf(wire[|wire| - 1], id);
        }
      }
      forall k | 0 <= k < |wire| && IsLastOf(wire[k], id)
        ensures id < |Assemble(wire).messages|
      {
        if k < |before| {
          assert IsLastOf(before[k], id);
        }
      }
    }
  }

  /** Answers come in send order, so no message is answered twice. */
  predicate InSendOrder(answers: seq<Answer>) {
    forall i, j | 0 <= i < j < |answers| :: answers[i].id < answers[j].id
  }

  lemma {:induction false} OwedInOrder(accepted: seq<Message>, sent: nat, settled: nat)
    requires settled <= |accepted|
    ensures InSendOrder(Owed(accepted, sent, settled))
    ensures forall answer | answer in Owed(accepted, sent, settled) :: answer.id < settled
    decreases settled
  {
    if settled > 0 {
      OwedInOrder(accepted, sent, settled - 1);
    }
  }

  /** Which answers are owed to message `id`. */
  lemma {:induction false} OwedKind(accepted: seq<Message>, sent: nat, settled: nat, id: nat)
    requires settled <= |accepted| && id < |accepted|
    ensures Failed(id) in Owed(accepted, sent, settled) <==> sent <= id < settled && accepted[id].via.BySend?
    ensures Completed(id) in Owed(accepted, sent, settled) <==>
      id < settled && (accepted[id].via.ByStream? || (accepted[id].via.BySend? && id < sent))
    decreases settled
  {
    if settled > 0 {
      OwedKind(accepted, sent, settled - 1, id);
      var before := Owed(accepted, sent, settled - 1);
      var last := LastOwed(accepted, sent, settled);
      assert Failed(id) in before + last <==> Failed(id) in before || Failed(id) in last;
      assert Completed(id) in before + last <==> Completed(id) in before || Completed(id) in last;
    }
  }

  /** The last fragment of message `id` is on the wire. */
  ghost predicate Delivered(s: State, id: nat) {
    exists k | 0 <= k < |s.wire| :: IsLastOf(s.wire[k], id)
  }

  /** No message is answered twice, and every accepted `send` is answered exactly
      when it leaves the queue: by onComplete if its last fragment was written and
      by onError otherwise. */
  lemma SendsAreAnsweredOnce(steps: seq<Step>, client: Client, id: nat)
    ensures var s := Exec(INITIAL, steps, client);
      InSendOrder(s.answers) &&
      (id < |s.accepted| && s.accepted[id].via.BySend? ==>
        && (id < Settled(s) <==> Completed(id) in s.answers || Failed(id) in s.answers)
        && (Completed(id) in s.answers <==> Delivered(s, id))
        && (Failed(id) in s.answers <==> id < Settled(s) && !Delivered(s, id)))
  {
    Initially();
    RunKeepsInv(INITIAL, steps, client);
    var s := Exec(INITIAL, steps, client);
    OwedInOrder(s.accepted, s.sent, Settled(s));
    if id < |s.accepted| {
      OwedKind(s.accepted, s.sent, Settled(s), id);
      LastFragments(s.wire, id);
    }
  }

  /** The promise of a stream write always resolves, and exactly when the message has
      left the queue. It resolves without delivery exactly for the messages that were
      still queued when the socket went to state 3; before that it tells delivery. */
  lemma StreamWritesAlwaysResolve(steps: seq<Step>, client: Client, id: nat)
    ensures var s := Exec(INITIAL, steps, client);
      id < |s.accepted| && s.accepted[id].via.ByStream? ==>
        && Failed(id) !in s.answers
        && (Completed(id) in s.answers <==> id < Settled(s))
        && (Completed(id) in s.answers && !Delivered(s, id) <==> s.sent <= id < Settled(s))
        && (!s.phase.Closed? ==> (Completed(id) in s.answers <==> Delivered(s, id)))
  {
    Initially();
    RunKeepsInv(INITIAL, steps, client);
    var s := Exec(INITIAL, steps, client);
    if id < |s.accepted| {
      OwedKind(s.accepted, s.sent, Settled(s), id);
      LastFragments(s.wire, id);
    }
  }

  lemma RunOne(s: State, step: Step, rest: seq<Step>, client: Client)
    ensures Exec(s, [step] + rest, client) == Exec(if Enabled(s, step) then Apply(s, step, client) else s, rest, client)
  {
    assert ([step] + rest)[1..] == rest;
  }

  /** Four steps of a run in a row. */
  lemma RunFour(s: State, a: Step, b: Step, c: Step, d: Step, client: Client)
    requires Enabled(s, a) && Enabled(Apply(s, a, client), b)
    requires Enabled(Apply(Apply(s, a, client), b, client), c)
    requires Enabled(Apply(Apply(Apply(s, a, client), b, client), c, client), d)
    ensures Exec(s, [a, b, c, d], client) ==
      Apply(Apply(Apply(Apply(s, a, client), b, client), c, client), d, client)
  {
    var t := Apply(s, a, client);
    var u := Apply(t, b, client);
    var v := Apply(u, c, client);
    assert [a, b, c, d] == [a] + ([b] + ([c] + ([d] + [])));
    RunOne(s, a, [b] + ([c] + ([d] + [])), client);
    RunOne(t, b, [c] + ([d] + []), client);
    RunOne(u, c, [d] + [], client);
    RunOne(v, d, [], client);
  }

  /** Such a promise: written to an open socket without allowance, which then fails. */
  lemma DroppedWriteResolves(data: seq<byte>, client: Client)
    requires data != []
    ensures var s := Exec(INITIAL, [Writable(0), Send(Message(data, Binary, ByStream)), Fail, Drop], client);
      s.accepted[..] == [Message(data, Binary, ByStream)] && Completed(0) in s.answers && !Delivered(s, 0)
  {
    RunFour(INITIAL, Writable(0), Send(Message(data, Binary, ByStream)), Fail, Drop, client);
  }

  /** State 3 is final: nothing is written, accepted or reopened any more, an empty
      queue stays empty, and `closed` was resolved exactly once. */
  lemma {:induction false} ClosedIsFinal(s: State, steps: seq<Step>, client: Client)
    requires Inv(s) && s.phase.Closed?
    ensures var t := Exec(s, steps, client);
      && t.phase.Closed? && t.wire == s.wire && t.accepted == s.accepted
      && |t.queue| <= |s.queue| && t.closes == 1
    decreases |steps|
  {
    if steps != [] {
      if Enabled(s, steps[0]) {
        StepKeepsInv(s, steps[0], client);
        ClosedIsFinal(Apply(s, steps[0], client), steps[1..], client);
      } else {
        ClosedIsFinal(s, steps[1..], client);
      }
    }
  }
}
