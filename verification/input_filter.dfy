/**
 * The input goroutine's filter as an object: the `pending` buffer and the
 * `timerCh` slot are fields that the methods update in place, as the loop
 * in the goroutine does. Writes to the pseudo-terminal and sends on the
 * control channel are recorded in ghost fields, and so is every event the
 * filter has seen. The goroutine's `select` becomes the caller's choice of
 * method: Process or ProcessChunk for data read from the terminal,
 * OnTimeout for the expiry of the armed timer.
 */
module InputFilter {
  import opened FocusFilter

  lemma ConcatAssoc<T>(a: seq<T>, b: seq<T>, c: seq<T>)
    ensures (a + b) + c == a + (b + c)
  {
  }

  class Filter {
    /** The bytes held back while a focus report may still be arriving. */
    var pending: seq<Byte>
    /** Whether `timerCh` holds a live timer (it is nil otherwise). */
    var armed: bool
    /** One entry per write to the pseudo-terminal, in order. */
    ghost var written: seq<seq<Byte>>
    /** The values sent on the control channel, in order. */
    ghost var signals: seq<ControlSignal>
    /** Every event the filter has handled, in order. */
    ghost var history: seq<Event>

    ghost function Current(): State
      reads this
    {
      State(pending, armed)
    }

    /**
     * The object invariant: the state has one of the three shapes, the timer
     * is armed exactly when bytes are held, and the state, the writes and
     * the signals are what the filter yields from idle on the history.
     */
    ghost predicate Valid()
      reads this
    {
      FocusFilter.Valid(Current()) &&
      Run(Idle, history) == Step(Current(), written, signals)
    }

    constructor ()
      ensures Valid()
      ensures pending == [] && !armed
      ensures written == [] && signals == [] && history == []
    {
      pending := [];
      armed := false;
      written := [];
      signals := [];
      history := [];
    }

    /** What the whole history has produced, stated against the reference definitions. */
    ghost predicate Accounted()
      reads this
    {
      Flatten(written) + pending == Kept(history) && signals == Controls(history)
    }

    lemma Accounting()
      requires Valid()
      ensures Accounted()
    {
      Conservation(Idle, history);
      SignalsAreControls(Idle, history);
      assert Lift([]) + history == history;
    }

    /** One byte read from the terminal. */
    method Process(b: Byte)
      requires Valid()
      modifies this
      ensures Valid() && Accounted()
      ensures history == old(history) + [Input(b)]
      ensures var t := StepByte(old(Current()), b);
        Current() == t.next && written == old(written) + t.writes && signals == old(signals) + t.signals
    {
      if b == CtrlZ || b == CtrlBackslash {
        if |pending| > 0 {
          written := written + [pending];
          pending := [];
        }
        armed := false;
        signals := signals + [if b == CtrlZ then SigSuspend else SigQuit];
      } else if |pending| == 0 {
        if b == Esc {
          pending := [Esc];
          armed := true;
        } else {
          written := written + [[b]];
        }
      } else if |pending| == 1 {
        if b == LeftBracket {
          pending := pending + [LeftBracket];
          armed := true;
        } else if b == Esc {
          written := written + [[Esc]];
          pending := [Esc];
          armed := true;
        } else {
          written := written + [[Esc, b]];
          pending := [];
          armed := false;
        }
      } else {
        if b == FocusIn || b == FocusOut {
          pending := [];
          armed := false;
        } else if b == Esc {
          written := written + [[Esc, LeftBracket]];
          pending := [Esc];
          armed := true;
        } else {
          written := written + [[Esc, LeftBracket, b]];
          pending := [];
          armed := false;
        }
      }
      RunSnoc(Idle, history, Input(b));
      history := history + [Input(b)];
      Accounting();
    }

    /** A chunk read from the terminal, handled one byte at a time. */
    method ProcessChunk(data: seq<Byte>)
      requires Valid()
      modifies this
      ensures Valid() && Accounted()
      ensures history == old(history) + Lift(data)
      ensures var t := Run(old(Current()), Lift(data));
        Current() == t.next && written == old(written) + t.writes && signals == old(signals) + t.signals
    {
      ghost var s0, w0, sig0 := Current(), written, signals;
      ghost var seen: seq<Event> := [];
      for i := 0 to |data|
        invariant seen == Lift(data[..i])
        invariant Valid()
        invariant history == old(history) + seen
        invariant var t := Run(s0, seen);
          Current() == t.next && written == w0 + t.writes && signals == sig0 + t.signals
      {
        ghost var done := Run(s0, seen);
        ghost var w, sig := written, signals;
        Process(data[i]);
        ghost var t := StepByte(done.next, data[i]);
        RunSnoc(s0, seen, Input(data[i]));
        ConcatAssoc(w0, done.writes, t.writes);
        ConcatAssoc(sig0, done.signals, t.signals);
        ConcatAssoc(old(history), seen, [Input(data[i])]);
        seen := seen + [Input(data[i])];
        LiftPrefix(data, i);
      }
      assert data[..|data|] == data;
      Accounting();
    }

    /** The armed timer has fired: the held bytes go out unchanged and the timer slot is cleared. */
    method OnTimeout()
      requires Valid()
      modifies this
      ensures Valid() && Accounted()
      ensures history == old(history) + [TimerFired]
      ensures pending == [] && !armed && signals == old(signals)
      ensures written == old(written) + Flush(old(pending))
    {
      if |pending| > 0 {
        written := written + [pending];
        pending := [];
      }
      armed := false;
      RunSnoc(Idle, history, TimerFired);
      history := history + [TimerFired];
      Accounting();
    }
  }
}
