/** The stream reader of a TCP connection: while the receive ring holds data it gets
    some. */
module TcpReaders {
  import opened Basics
  import opened TcpStreams
  import opened TcpWriters

  /** The party the reader waits for takes its turn. */
  predicate ServesReader(s: State, step: Step) {
    if s.js.Reading? then step.JsReadTake?
    else if s.js.Callbacks? && s.js.events.readable && s.js.readable > 0 then step.JsCallback?
    else if s.readableLength > 0 then step.JsPull?
    else if s.rec.pending.readable && !s.task.Posting? then step.JsDeliver?
    else ByTask(step)
  }

  /** Turns still owed to a reader while the receive ring holds something. */
  function ReaderRank(s: State): nat {
    if s.js.Reading? then 1
    else if s.js.Callbacks? && s.js.events.readable && s.js.readable > 0 then 2
    else if s.readableLength > 0 then 3
    else if s.rec.pending.readable && !s.task.Posting? then 4
    else if s.rec.pending.readable then 5
    else 6
  }

  /** A reader that always wants data, and nothing that ends the connection. */
  predicate ReaderStep(step: Step) {
    HealthyStep(step) && step != JsCallback(false)
  }

  /** The reader is not set back, and is closer if it was served. */
  predicate Serves(s: State, t: State, step: Step) {
    && Healthy(t) && t.rec.rx != [] && ReaderRank(t) <= ReaderRank(s)
    && (ServesReader(s, step) ==> ReaderRank(t) < ReaderRank(s))
  }

  lemma {:induction false} TaskServes(s: State, step: Step)
    requires Inv(s) && Healthy(s) && s.rec.rx != [] && Enabled(s, step) && ReaderStep(step) && ByTask(step)
    ensures Serves(s, Apply(s, step), step)
  {
    if Transmits(step) {
      TransmitServes(s, step);
    } else if Receives(step) {
      ReceiveServes(s, step);
    } else {
      SignalServes(s, step);
    }
  }

  lemma {:induction false} TransmitServes(s: State, step: Step)
    requires Inv(s) && Healthy(s) && s.rec.rx != [] && Enabled(s, step) && ReaderStep(step) && Transmits(step)
    ensures Serves(s, Apply(s, step), step)
  {
  }

  lemma {:induction false} ReceiveServes(s: State, step: Step)
    requires Inv(s) && Healthy(s) && s.rec.rx != [] && Enabled(s, step) && ReaderStep(step) && Receives(step)
    ensures Serves(s, Apply(s, step), step)
  {
  }

  lemma {:induction false} SignalServes(s: State, step: Step)
    requires Inv(s) && Healthy(s) && s.rec.rx != [] && Enabled(s, step) && ReaderStep(step) && Signals(step)
    ensures Serves(s, Apply(s, step), step)
  {
  }

  lemma {:induction false} CallbackServes(s: State)
    requires Inv(s) && Healthy(s) && s.rec.rx != [] && s.js.Callbacks?
    ensures Serves(s, Callback(s, true), JsCallback(true))
  {
    if s.js.events.readable {
      ReadableShape(s, true);
    }
  }

  lemma {:induction false} JsServes(s: State, step: Step)
    requires Inv(s) && Healthy(s) && s.rec.rx != [] && Enabled(s, step) && ReaderStep(step) && !ByTask(step)
    ensures Apply(s, step).enqueued == s.enqueued ==> Serves(s, Apply(s, step), step)
  {
    if step.JsCallback? {
      CallbackServes(s);
    }
  }

  /** Turns of the party the reader waits for, until it gets something. */
  function ReaderTurns(s: State, steps: seq<Step>, seen: seq<byte>): nat
    decreases |steps|
  {
    if steps == [] || s.enqueued != seen then 0
    else if !Enabled(s, steps[0]) then ReaderTurns(s, steps[1..], seen)
    else (if ServesReader(s, steps[0]) then 1 else 0) + ReaderTurns(Apply(s, steps[0]), steps[1..], seen)
  }

  /** A reader that wants data gets some within six turns of the party it waits for,
      while the receive ring holds any, in every interleaving. */
  lemma {:induction false} ReaderIsServed(s: State, steps: seq<Step>)
    requires Inv(s) && Healthy(s) && s.rec.rx != []
    requires forall step | step in steps :: ReaderStep(step)
    ensures ReaderTurns(s, steps, s.enqueued) <= ReaderRank(s) <= 6
    decreases |steps|
  {
    if steps != [] {
      var step, rest := steps[0], steps[1..];
      if Enabled(s, step) {
        InvKept(s, step);
        if ByTask(step) {
          TaskServes(s, step);
        } else {
          JsServes(s, step);
        }
        if Apply(s, step).enqueued == s.enqueued {
          ReaderIsServed(Apply(s, step), rest);
        }
      } else {
        ReaderIsServed(s, rest);
      }
    }
  }

  /** That party has an enabled step now, or the JS thread has one that leads there. */
  lemma ReaderTurnIsEnabled(s: State)
    requires Inv(s) && Healthy(s) && s.rec.rx != []
    ensures exists step :: (
      Enabled(s, step) && ReaderStep(step) && (ServesReader(s, step) || step.JsCallback? || step.JsWriteTake?))
  {
    if ServesReader(s, JsReadTake) {
      assert Enabled(s, JsReadTake);
    } else if s.js.Callbacks? {
      assert Enabled(s, JsCallback(true));
    } else if s.js.Writing? {
      assert Enabled(s, JsWriteTake);
    } else if s.readableLength > 0 {
      assert Enabled(s, JsPull);
    } else if s.rec.pending.readable && !s.task.Posting? {
      assert Enabled(s, JsDeliver);
    } else {
      assert s.task.Posting? || s.task.Triggering?;
      assert Enabled(s, if s.task.Posting? then TaskPost else TaskTrigger);
    }
  }
}
