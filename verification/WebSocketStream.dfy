/** The class of examples/cores3-websocket/websocket-stream.js as far as it sends:
    its fields, its two loops, and the state they stand for in `WebSocketQueues`. */
module WebSocketStreams {
  import opened Basics
  import opened CloseFrames
  import opened QueueLoops
  import opened WebSocketQueues

  class WebSocketStream {
    const client: nat -> nat
    var state: Phase
    var writableLength: nat
    var writableBuffers: seq<Item>
    // what the client and the callers have seen
    var accepted: seq<Message>
    var wire: seq<Fragment>
    var answers: seq<Answer>
    var opens: nat
    var closes: nat
    ghost var sent: nat
    ghost var cut: nat

    ghost function View(): State
      reads this
    {
      State(state, writableLength, writableBuffers, accepted, wire, answers, sent, cut, opens, closes)
    }

    /** Between two events of the socket. */
    ghost predicate Valid()
      reads this
    {
      Inv(View()) && (state.Closed? ==> writableBuffers == [])
    }

    constructor (client: nat -> nat)
      ensures Valid() && View() == INITIAL && this.client == client
    {
      this.client := client;
      state, writableLength, writableBuffers := Connecting, 0, [];
      accepted, wire, answers, opens, closes := [], [], [], 0, 0;
      sent, cut := 0, 0;
    }

    /** `#clientWrite`. */
    method ClientWriteOut(id: nat, data: seq<byte>, options: Options, more: bool)
      modifies this
      ensures View() == ClientWrite(old(View()), id, data, options, more, client)
    {
      var count := client(|wire|);
      wire := wire + [Fragment(id, data, options, more, writableLength)];
      writableLength := count;
    }

    /** `#write`, with the answer that its callers give a message written whole. */
    method Write(message: Message) returns (queued: bool)
      modifies this
      ensures View() == Push(old(View()), message, client)
      ensures queued == (|writableBuffers| > |old(writableBuffers)|)
    {
      var id := |accepted|;
      accepted := accepted + [message];
      queued := true;
      if writableBuffers != [] {
        writableBuffers := writableBuffers + [Item(id, message, 0)];
      } else {
        var dataLength := |message.data|;
        if dataLength <= writableLength {
          ClientWriteOut(id, message.data, message.options, false);
          sent := sent + 1;
          answers := answers + AnswerTo(id, message.via);
          queued := false;
        } else if writableLength > 0 {
          var offset := writableLength;
          ClientWriteOut(id, message.data[..offset], message.options, true);
          cut := offset;
          writableBuffers := [Item(id, message, offset)];
        } else {
          writableBuffers := [Item(id, message, 0)];
        }
      }
    }

    /** `send` and the stream sink's `write`: refused in states 2 and 3. */
    method SendMessage(message: Message) returns (ok: bool)
      requires Valid() && !message.via.ByClose?
      modifies this
      ensures Valid()
      ensures ok == Enabled(old(View()), Send(message))
      ensures View() == if ok then Apply(old(View()), Send(message), client) else old(View())
    {
      if state.Closing? || state.Closed? {
        return false;
      }
      StepKeepsInv(View(), Send(message), client);
      var queued := Write(message);
      ok := true;
    }

    /** `close`: invalid codes and reasons throw, and states 0, 2 and 3 do nothing. */
    method CloseSocket(code: nat, reason: seq<byte>) returns (ok: bool)
      requires Valid()
      modifies this
      ensures Valid()
      ensures ok == ValidClose(code, reason)
      ensures View() ==
        if ok && old(state).Open? then Apply(old(View()), Close(ClosePayload(code, reason)), client)
        else old(View())
    {
      if code != 1000 && (code < 3000 || code > 4999) {
        return false;
      }
      if |reason| > 123 {
        return false;
      }
      if state.Open? {
        StepKeepsInv(View(), Close(ClosePayload(code, reason)), client);
        var queued := Write(Message(ClosePayload(code, reason), CloseOpcode, ByClose));
        state := Closing;
      }
      ok := true;
    }

    /** One pass of the loop in `onWritable`; `whole` is false where it breaks. */
    method PassOnce() returns (whole: bool)
      requires writableBuffers != [] && writableBuffers[0].offset <= |writableBuffers[0].message.data|
      modifies this
      ensures View() == Pass(old(View()), client)
      ensures whole ==
        (|old(writableBuffers)[0].message.data| - old(writableBuffers)[0].offset <= old(writableLength))
    {
      var Item(id, message, offset) := writableBuffers[0];
      var dataLength := |message.data| - offset;
      whole := dataLength <= writableLength;
      if whole {
        ClientWriteOut(id, message.data[offset..], message.options, false);
        writableBuffers := writableBuffers[1..];
        sent, cut := sent + 1, 0;
        answers := answers + AnswerTo(id, message.via);
      } else if writableLength > 0 {
        var count := writableLength;
        ClientWriteOut(id, message.data[offset..][..count], message.options, true);
        writableBuffers := [Item(id, message, offset + count)] + writableBuffers[1..];
        cut := offset + count;
      }
    }

    /** The client can take `count` more bytes. */
    method Writable(count: nat)
      requires Valid()
      modifies this
      ensures Valid()
      ensures View() == OnWritable(old(View()), count, client)
    {
      StepKeepsInv(View(), Step.Writable(count), client);
      writableLength := count;
      if state.Connecting? {
        state, opens := Open, opens + 1;
        return;
      }
      DrainBuffers();
    }

    /** The loop of `onWritable`. */
    method DrainBuffers()
      requires Valid() && !state.Connecting?
      modifies this
      ensures Valid()
      ensures View() == Draining(old(View()), client)
    {
      ghost var goal := Draining(View(), client);
      while writableBuffers != []
        invariant Valid() && !state.Connecting?
        invariant goal == Draining(View(), client)
        decreases |writableBuffers|
      {
        PassKeepsInv(View(), client);
        var whole := PassOnce();
        if !whole {
          break;
        }
      }
    }

    /** `onError`, and the peer's close: state 3, then everything queued fails. */
    method Fail()
      requires Valid()
      modifies this
      ensures Valid()
      ensures View() == if old(state).Closed? then old(View()) else Dropping(Apply(old(View()), Step.Fail, client))
    {
      if state.Closed? {
        return;
      }
      StepKeepsInv(View(), Step.Fail, client);
      state, closes := Closed, closes + 1;
      DrainWritable();
    }

    /** `#drainWritable`. */
    method DrainWritable()
      requires Inv(View()) && state.Closed?
      modifies this
      ensures View() == Dropping(old(View())) && Inv(View()) && state.Closed? && writableBuffers == []
    {
      ghost var goal := Dropping(View());
      while writableBuffers != []
        invariant Inv(View()) && state.Closed?
        invariant goal == Dropping(View())
        decreases |writableBuffers|
      {
        DropHeadOf();
      }
    }

    /** One pass of its loop. */
    method DropHeadOf()
      requires Inv(View()) && state.Closed? && writableBuffers != []
      modifies this
      ensures View() == DropHead(old(View())) && Inv(View())
    {
      DropKeepsInv(View());
      var buffer := writableBuffers[0];
      writableBuffers := writableBuffers[1..];
      answers := answers + DropAnswerTo(buffer.id, buffer.message.via);
    }
  }
}
