/** The two loops of examples/cores3-websocket/websocket-stream.js as runs of single
    steps, and how fast the queue drains. */
module QueueLoops {
  import opened Basics
  import opened WebSocketQueues

  /** The loop of `onWritable` runs until the head no longer fits whole. */
  function Draining(s: State, client: Client): State
    requires Inv(s) && (s.phase.Open? || s.phase.Closing? || s.queue == [])
    ensures Inv(Draining(s, client))
    decreases |s.queue|
  {
    if s.queue == [] then s
    else
      DrainIsEnabled(s);
      PassKeepsInv(s, client);
      if |s.queue[0].message.data| - s.queue[0].offset <= s.allowance then Draining(Pass(s, client), client)
      else Pass(s, client)
  }

  function OnWritable(s: State, count: nat, client: Client): State
    requires Inv(s) && (s.phase.Closed? ==> s.queue == [])
  {
    if s.phase.Connecting? then Granted(s, count) else Draining(Granted(s, count), client)
  }

  function Dropping(s: State): State
    requires Inv(s) && s.phase.Closed?
    ensures Inv(Dropping(s))
    decreases |s.queue|
  {
    if s.queue == [] then s
    else
      DropKeepsInv(s);
      Dropping(DropHead(s))
  }

  function Repeat(step: Step, n: nat): (steps: seq<Step>)
    ensures |steps| == n
  {
    seq(n, _ => step)
  }

  /** The loops of the source are runs of single steps, so what holds of every run
      holds between its callbacks. */
  lemma {:induction false} DrainingIsARun(s: State, client: Client)
    requires Inv(s) && (s.phase.Open? || s.phase.Closing?)
    ensures exists n :: Draining(s, client) == Exec(s, Repeat(Drain, n), client)
    decreases |s.queue|
  {
    if s.queue == [] {
      assert Exec(s, Repeat(Drain, 0), client) == s;
    } else {
      DrainIsEnabled(s);
      PassKeepsInv(s, client);
      var t := Pass(s, client);
      if |s.queue[0].message.data| - s.queue[0].offset <= s.allowance {
        DrainingIsARun(t, client);
        var n :| Draining(t, client) == Exec(t, Repeat(Drain, n), client);
        DrainFirst(s, n, client);
      } else {
        DrainFirst(s, 0, client);
        assert Exec(t, Repeat(Drain, 0), client) == t;
      }
    }
  }

  lemma {:induction false} DrainFirst(s: State, n: nat, client: Client)
    requires Inv(s) && Enabled(s, Drain)
    ensures Inv(Pass(s, client))
    ensures Exec(s, Repeat(Drain, n + 1), client) == Exec(Pass(s, client), Repeat(Drain, n), client)
  {
    PassKeepsInv(s, client);
    RepeatFirst(Drain, n);
    RunOne(s, Drain, Repeat(Drain, n), client);
  }

  lemma RepeatFirst(step: Step, n: nat)
    ensures Repeat(step, n + 1) == [step] + Repeat(step, n)
  {
  }

  lemma {:induction false} DroppingIsARun(s: State, client: Client)
    requires Inv(s) && s.phase.Closed?
    ensures Dropping(s) == Exec(s, Repeat(Drop, |s.queue|), client) && Dropping(s).queue == []
    decreases |s.queue|
  {
    if s.queue != [] {
      DropKeepsInv(s);
      DroppingIsARun(DropHead(s), client);
      assert Repeat(Drop, |s.queue|)[1..] == Repeat(Drop, |s.queue| - 1);
    }
  }

  // ------------------------------------------------------------ the queue drains

  function Left(item: Item): nat {
    if item.offset <= |item.message.data| then |item.message.data| - item.offset else 0
  }

  /** What the queue holds up to message `id`: its bytes, and one for each message. */
  function Ahead(queue: seq<Item>, id: nat): nat {
    if queue == [] || queue[0].id > id then 0 else Left(queue[0]) + 1 + Ahead(queue[1..], id)
  }

  lemma {:induction false} AheadAppend(queue: seq<Item>, item: Item, id: nat)
    requires item.id > id
    ensures Ahead(queue + [item], id) == Ahead(queue, id)
    decreases |queue|
  {
    if queue == [] {
    } else {
      assert (queue + [item])[1..] == queue[1..] + [item];
      AheadAppend(queue[1..], item, id);
    }
  }

  lemma {:induction false} PassShortens(s: State, client: Client, id: nat)
    requires Inv(s) && Enabled(s, Drain)
    ensures Ahead(Pass(s, client).queue, id) <= Ahead(s.queue, id)
    ensures 0 < Ahead(s.queue, id) && 0 < s.allowance ==> Ahead(Pass(s, client).queue, id) < Ahead(s.queue, id)
  {
    var t := Pass(s, client);
    if |t.queue| == |s.queue| {
      assert t.queue[1..] == s.queue[1..];
    } else if |s.queue| > 1 {
      assert s.queue[1].id == s.queue[0].id + 1;
    }
  }

  lemma {:induction false} DrainingShortens(s: State, client: Client, id: nat)
    requires Inv(s) && (s.phase.Open? || s.phase.Closing?)
    ensures Ahead(Draining(s, client).queue, id) <= Ahead(s.queue, id)
    ensures 0 < Ahead(s.queue, id) && 0 < s.allowance ==> Ahead(Draining(s, client).queue, id) < Ahead(s.queue, id)
    ensures Draining(s, client).accepted == s.accepted && Draining(s, client).phase == s.phase
    decreases |s.queue|
  {
    if s.queue != [] {
      DrainIsEnabled(s);
      PassKeepsInv(s, client);
      PassShortens(s, client, id);
      if |s.queue[0].message.data| - s.queue[0].offset <= s.allowance {
        DrainingShortens(Pass(s, client), client, id);
      }
    }
  }

  /** What may happen to an open socket, between failures. */
  datatype Event = Grant(count: nat) | Sending(message: Message) | Ending(payload: seq<byte>)

  predicate Running(s: State) {
    s.phase.Open? || s.phase.Closing?
  }

  /** A call of `send` or `close`. */
  function Called(s: State, step: Step, client: Client): (t: State)
    requires Inv(s) && Running(s) && (step.Send? || step.Close?)
    ensures Inv(t) && Running(t)
  {
    if Enabled(s, step) then
      StepKeepsInv(s, step, client);
      Apply(s, step, client)
    else s
  }

  function GrantedMore(s: State, count: nat, client: Client): (t: State)
    requires Inv(s) && Running(s)
    ensures Inv(t) && Running(t)
  {
    DrainingShortens(Granted(s, count), client, 0);
    OnWritable(s, count, client)
  }

  function Handle(s: State, event: Event, client: Client): (t: State)
    requires Inv(s) && Running(s)
    ensures Inv(t) && Running(t)
  {
    match event
    case Grant(count) => GrantedMore(s, count, client)
    case Sending(message) => Called(s, Send(message), client)
    case Ending(payload) => Called(s, Close(payload), client)
  }

  lemma {:induction false} PushKeepsAhead(s: State, message: Message, client: Client, id: nat)
    requires Inv(s) && Running(s) && id < |s.accepted|
    ensures Ahead(Push(s, message, client).queue, id) == Ahead(s.queue, id)
  {
    AheadAppend(s.queue, Item(|s.accepted|, message, 0), id);
  }

  function HandleAll(s: State, events: seq<Event>, client: Client): (t: State)
    requires Inv(s) && Running(s)
    ensures Inv(t) && Running(t)
    decreases |events|
  {
    if events == [] then s else HandleAll(Handle(s, events[0], client), events[1..], client)
  }

  function Grants(events: seq<Event>): nat {
    if events == [] then 0 else (if events[0].Grant? then 1 else 0) + Grants(events[1..])
  }

  lemma {:induction false} CallKeepsAhead(s: State, step: Step, client: Client, id: nat)
    requires Inv(s) && Running(s) && id < |s.accepted| && (step.Send? || step.Close?)
    ensures var t := Called(s, step, client);
      s.accepted <= t.accepted && Ahead(t.queue, id) == Ahead(s.queue, id)
  {
    if Enabled(s, step) {
      match step
      case Send(message) => PushKeepsAhead(s, message, client, id);
      case Close(payload) => PushKeepsAhead(s, Message(payload, CloseOpcode, ByClose), client, id);
    }
  }

  lemma {:induction false} GrantShortens(s: State, count: nat, client: Client, id: nat)
    requires Inv(s) && Running(s) && 0 < count
    ensures var t := GrantedMore(s, count, client);
      && s.accepted == t.accepted
      && Ahead(t.queue, id) <= Ahead(s.queue, id)
      && (0 < Ahead(s.queue, id) ==> Ahead(t.queue, id) < Ahead(s.queue, id))
  {
    DrainingShortens(Granted(s, count), client, id);
  }

  lemma {:induction false} HandleShortens(s: State, event: Event, client: Client, id: nat)
    requires Inv(s) && Running(s) && id < |s.accepted| && (event.Grant? ==> 0 < event.count)
    ensures var t := Handle(s, event, client);
      && s.accepted <= t.accepted
      && Ahead(t.queue, id) <= Ahead(s.queue, id)
      && (event.Grant? && 0 < Ahead(s.queue, id) ==> Ahead(t.queue, id) < Ahead(s.queue, id))
  {
    match event
    case Grant(count) => GrantShortens(s, count, client, id);
    case Sending(message) => CallKeepsAhead(s, Send(message), client, id);
    case Ending(payload) => CallKeepsAhead(s, Close(payload), client, id);
  }

  lemma {:induction false} GrantsShorten(s: State, events: seq<Event>, client: Client, id: nat)
    requires Inv(s) && Running(s) && id < |s.accepted|
    requires forall event | event in events && event.Grant? :: 0 < event.count
    ensures var t := HandleAll(s, events, client);
      && s.accepted <= t.accepted
      && (Ahead(t.queue, id) == 0 || Ahead(t.queue, id) + Grants(events) <= Ahead(s.queue, id))
    decreases |events|
  {
    if events != [] {
      HandleShortens(s, events[0], client, id);
      GrantsShorten(Handle(s, events[0], client), events[1..], client, id);
    }
  }

  /** The queue drains: whatever else is sent and however little the client grants, a
      message is completely written after as many grants above zero as bytes and
      messages were queued up to it. */
  lemma GrantsDrainTheQueue(s: State, events: seq<Event>, client: Client, id: nat)
    requires Inv(s) && Running(s) && id < |s.accepted|
    requires forall event | event in events && event.Grant? :: 0 < event.count
    requires Grants(events) >= Ahead(s.queue, id)
    ensures var t := HandleAll(s, events, client);
      id < Settled(t) == t.sent && Delivered(t, id)
  {
    var t := HandleAll(s, events, client);
    GrantsShorten(s, events, client, id);
    LastFragments(t.wire, id);
  }
}
