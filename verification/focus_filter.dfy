/**
 * The focus-event input filter of the wrapper, as pure functions.
 *
 * Every byte typed at the terminal passes through a three-state automaton
 * before it reaches the child's pseudo-terminal. The automaton holds back a
 * prefix of a possible focus report (ESC, or ESC '['), swallows the complete
 * reports ESC '[' 'I' (focus in) and ESC '[' 'O' (focus out), turns the two
 * job-control bytes Ctrl-Z and Ctrl-\ into control signals, and forwards
 * everything else verbatim. A single timer is armed while bytes are held;
 * when it fires the held bytes are forwarded unchanged.
 *
 * This module gives the step of the automaton as functions of its state
 * (one function per kind of event), a run over a list of events, and an
 * independent description of which bytes survive (`Kept`), and proves the
 * run against it. The class in module InputFilter is specified by these.
 */
module FocusFilter {

  type Byte = bv8

  const Esc: Byte := 0x1B
  const CtrlZ: Byte := 0x1A
  const CtrlBackslash: Byte := 0x1C
  /** '[' , the second byte of a CSI introducer */
  const LeftBracket: Byte := 0x5B
  /** 'I', the final byte of a focus-in report */
  const FocusIn: Byte := 0x49
  /** 'O', the final byte of a focus-out report */
  const FocusOut: Byte := 0x4F

  /** The values sent on the control channel; SigNone is declared but never sent. */
  datatype ControlSignal = SigNone | SigSuspend | SigQuit

  predicate IsControl(b: Byte) {
    b == CtrlZ || b == CtrlBackslash
  }

  function SignalOf(b: Byte): (sig: ControlSignal)
    requires IsControl(b)
    ensures sig != SigNone
    ensures sig == SigSuspend <==> b == CtrlZ
  {
    if b == CtrlZ then SigSuspend else SigQuit
  }

  /** The filter's state: the held bytes and whether the timer is armed. */
  datatype State = State(pending: seq<Byte>, armed: bool)

  const Idle := State([], false)

  /** The three shapes the held bytes may take, with the timer armed exactly when something is held. */
  predicate Valid(s: State) {
    (s.pending == [] || s.pending == [Esc] || s.pending == [Esc, LeftBracket]) &&
    s.armed == (s.pending != [])
  }

  /** The result of one or more events: the new state, the writes to the child, the signals sent. */
  datatype Step = Step(next: State, writes: seq<seq<Byte>>, signals: seq<ControlSignal>)

  /** One event seen by the filter's select loop: an input byte, or the expiry of the armed timer. */
  datatype Event = Input(b: Byte) | TimerFired

  /** The write produced when held bytes are flushed: none when nothing is held. */
  function Flush(pending: seq<Byte>): (ws: seq<seq<Byte>>)
    ensures |ws| <= 1
    ensures ws == [] <==> pending == []
    ensures ws != [] ==> ws[0] == pending
  {
    if |pending| > 0 then [pending] else []
  }

  /** One input byte, control bytes checked before the escape state. */
  function StepByte(s: State, b: Byte): (r: Step)
    ensures Valid(s) ==> Valid(r.next)
    ensures |r.writes| <= 1
    ensures r.signals == if IsControl(b) then [SignalOf(b)] else []
    ensures IsControl(b) ==> r.next == Idle && r.writes == Flush(s.pending)
    ensures Valid(s) && r.next.pending == [] ==> !r.next.armed
  {
    if IsControl(b) then
      Step(Idle, Flush(s.pending), [SignalOf(b)])
    else if |s.pending| == 0 then
      if b == Esc then Step(State([Esc], true), [], [])
      else Step(State([], s.armed), [[b]], [])
    else if |s.pending| == 1 then
      if b == LeftBracket then Step(State(s.pending + [LeftBracket], true), [], [])
      else if b == Esc then Step(State([Esc], true), [[Esc]], [])
      else Step(Idle, [[Esc, b]], [])
    else
      if b == FocusIn || b == FocusOut then Step(Idle, [], [])
      else if b == Esc then Step(State([Esc], true), [[Esc, LeftBracket]], [])
      else Step(Idle, [[Esc, LeftBracket, b]], [])
  }

  /** Expiry of the timer: the held bytes go out as one write, unchanged. */
  function StepTimeout(s: State): (r: Step)
    ensures r.next == Idle && r.signals == []
    ensures r.writes == Flush(s.pending)
  {
    Step(Idle, Flush(s.pending), [])
  }

  function StepEvent(s: State, e: Event): Step {
    match e
    case Input(b) => StepByte(s, b)
    case TimerFired => StepTimeout(s)
  }

  /** `first` followed by `second` */
  function Then(first: Step, second: Step): Step {
    Step(second.next, first.writes + second.writes, first.signals + second.signals)
  }

  /** The filter run over a list of events from state `s`. */
  function Run(s: State, es: seq<Event>): (r: Step)
    ensures Valid(s) ==> Valid(r.next)
    ensures |r.writes| <= |es|
    decreases |es|
  {
    if es == [] then Step(s, [], [])
    else
      var t := StepEvent(s, es[0]);
      Then(t, Run(t.next, es[1..]))
  }

  function Lift(bytes: seq<Byte>): (es: seq<Event>)
    ensures |es| == |bytes|
    ensures forall i :: 0 <= i < |bytes| ==> es[i] == Input(bytes[i])
  {
    seq(|bytes|, i requires 0 <= i < |bytes| => Input(bytes[i]))
  }

  /** All writes concatenated: the byte stream the child receives. */
  function Flatten(ws: seq<seq<Byte>>): seq<Byte> {
    if ws == [] then [] else ws[0] + Flatten(ws[1..])
  }

  predicate IsFocusReport(es: seq<Event>) {
    |es| >= 3 && es[0] == Input(Esc) && es[1] == Input(LeftBracket) &&
    (es[2] == Input(FocusIn) || es[2] == Input(FocusOut))
  }

  /**
   * The reference definition of what the filter lets through: the input
   * bytes in order, with every focus report that arrives without a timer
   * expiry inside it, every control byte and every timer event removed.
   */
  function Kept(es: seq<Event>): seq<Byte>
    decreases |es|
  {
    if es == [] then []
    else match es[0]
      case TimerFired => Kept(es[1..])
      case Input(b) =>
        if IsControl(b) then Kept(es[1..])
        else if IsFocusReport(es) then Kept(es[3..])
        else [b] + Kept(es[1..])
  }

  /** The reference definition of the signals: one per control byte, in order. */
  function Controls(es: seq<Event>): (sigs: seq<ControlSignal>)
    ensures SigNone !in sigs
    decreases |es|
  {
    if es == [] then []
    else match es[0]
      case Input(b) => (if IsControl(b) then [SignalOf(b)] else []) + Controls(es[1..])
      case TimerFired => Controls(es[1..])
  }

  // ---------------------------------------------------------------------
  // Composition of runs

  lemma {:induction false} FlattenAppend(a: seq<seq<Byte>>, b: seq<seq<Byte>>)
    ensures Flatten(a + b) == Flatten(a) + Flatten(b)
    decreases |a|
  {
    if a != [] {
      assert (a + b)[1..] == a[1..] + b;
      FlattenAppend(a[1..], b);
    } else {
      assert a + b == b;
    }
  }

  lemma ThenAssoc(x: Step, y: Step, z: Step)
    ensures Then(x, Then(y, z)) == Then(Then(x, y), z)
  {
    assert x.writes + (y.writes + z.writes) == (x.writes + y.writes) + z.writes;
    assert x.signals + (y.signals + z.signals) == (x.signals + y.signals) + z.signals;
  }

  lemma RunCons(s: State, e: Event, rest: seq<Event>)
    ensures Run(s, [e] + rest) == Then(StepEvent(s, e), Run(StepEvent(s, e).next, rest))
  {
    assert ([e] + rest)[1..] == rest;
  }

  /** Running two lists one after the other is running their concatenation. */
  lemma {:induction false} RunAppend(s: State, a: seq<Event>, b: seq<Event>)
    ensures Run(s, a + b) == Then(Run(s, a), Run(Run(s, a).next, b))
    decreases |a|
  {
    if a == [] {
      assert a + b == b;
    } else {
      var t := StepEvent(s, a[0]);
      assert (a + b)[0] == a[0];
      assert (a + b)[1..] == a[1..] + b;
      RunAppend(t.next, a[1..], b);
      var x := Run(t.next, a[1..]);
      var y := Run(x.next, b);
      calc {
        Run(s, a + b);
        Then(t, Run(t.next, a[1..] + b));
        Then(t, Then(x, y));
        { ThenAssoc(t, x, y); }
        Then(Then(t, x), y);
        Then(Run(s, a), y);
      }
    }
  }

  /** One more event at the end of a run is one more step from where the run stopped. */
  lemma RunSnoc(s: State, es: seq<Event>, e: Event)
    ensures Run(s, es + [e]) == Then(Run(s, es), StepEvent(Run(s, es).next, e))
  {
    RunAppend(s, es, [e]);
    RunCons(Run(s, es).next, e, []);
  }

  lemma LiftPrefix(data: seq<Byte>, i: nat)
    requires i < |data|
    ensures Lift(data[..i + 1]) == Lift(data[..i]) + [Input(data[i])]
  {
  }

  // ---------------------------------------------------------------------
  // Byte conservation

  // Sequence shapes, each proved apart from the reference scan.

  lemma LiftIdleThen(x: seq<Event>)
    ensures Lift([]) + x == x
  {
    assert Lift([]) == [];
  }

  lemma LiftEscThen(x: seq<Event>)
    ensures Lift([Esc]) + x == [Input(Esc)] + x
  {
    assert Lift([Esc]) == [Input(Esc)];
  }

  lemma LiftCsiThen(x: seq<Event>)
    ensures Lift([Esc, LeftBracket]) + x == [Input(Esc)] + ([Input(LeftBracket)] + x)
  {
    assert Lift([Esc, LeftBracket]) == [Input(Esc), Input(LeftBracket)];
  }

  lemma ConsTwo(a: Byte, b: Byte, k: seq<Byte>)
    ensures [a] + ([b] + k) == [a, b] + k
  {
  }

  lemma ConsThree(a: Byte, b: Byte, c: Byte, k: seq<Byte>)
    ensures [a] + ([b] + ([c] + k)) == [a, b, c] + k
  {
  }

  lemma FlattenOne(w: seq<Byte>)
    ensures Flatten([w]) == w
  {
    assert [w][1..] == [];
  }

  // The reference scan over one event at the front.

  lemma KeptInput(b: Byte, rest: seq<Event>)
    requires b != Esc
    ensures Kept([Input(b)] + rest) == (if IsControl(b) then [] else [b]) + Kept(rest)
  {
    assert ([Input(b)] + rest)[1..] == rest;
  }

  lemma KeptTimer(rest: seq<Event>)
    ensures Kept([TimerFired] + rest) == Kept(rest)
  {
    assert ([TimerFired] + rest)[1..] == rest;
  }

  lemma NotFocusAfterEsc(e: Event, rest: seq<Event>)
    requires e != Input(LeftBracket)
    ensures !IsFocusReport([Input(Esc)] + ([e] + rest))
  {
    assert ([Input(Esc)] + ([e] + rest))[1] == e;
  }

  /** An ESC not followed by '[' is kept, and the scan resumes after it. */
  lemma KeptEsc(e: Event, rest: seq<Event>)
    requires e != Input(LeftBracket)
    ensures Kept([Input(Esc)] + ([e] + rest)) == [Esc] + Kept([e] + rest)
  {
    NotFocusAfterEsc(e, rest);
    assert ([Input(Esc)] + ([e] + rest))[1..] == [e] + rest;
  }

  lemma NotFocusAfterCsi(e: Event, rest: seq<Event>)
    requires e != Input(FocusIn) && e != Input(FocusOut)
    ensures !IsFocusReport([Input(Esc)] + ([Input(LeftBracket)] + ([e] + rest)))
  {
    assert ([Input(Esc)] + ([Input(LeftBracket)] + ([e] + rest)))[2] == e;
  }

  /** ESC '[' followed by anything but a focus final byte is kept, and the scan resumes after it. */
  lemma KeptCsi(e: Event, rest: seq<Event>)
    requires e != Input(FocusIn) && e != Input(FocusOut)
    ensures Kept([Input(Esc)] + ([Input(LeftBracket)] + ([e] + rest))) == [Esc, LeftBracket] + Kept([e] + rest)
  {
    var tail := [Input(LeftBracket)] + ([e] + rest);
    NotFocusAfterCsi(e, rest);
    assert ([Input(Esc)] + tail)[1..] == tail;
    KeptInput(LeftBracket, [e] + rest);
    ConsTwo(Esc, LeftBracket, Kept([e] + rest));
  }

  lemma KeptFocus(final: Byte, rest: seq<Event>)
    requires final == FocusIn || final == FocusOut
    ensures Kept([Input(Esc)] + ([Input(LeftBracket)] + ([Input(final)] + rest))) == Kept(rest)
  {
    var es := [Input(Esc)] + ([Input(LeftBracket)] + ([Input(final)] + rest));
    assert es[1] == Input(LeftBracket) && es[2] == Input(final);
    assert es[3..] == rest;
  }

  lemma KeptHeld(s: State)
    requires Valid(s)
    ensures Kept(Lift(s.pending)) == s.pending
  {
    if s.pending == [] {
      LiftIdleThen([]);
    } else if s.pending == [Esc] {
      LiftEscThen([]);
      var es := [Input(Esc)] + [];
      assert es[1..] == [];
    } else {
      LiftCsiThen([]);
      var es := [Input(Esc)] + ([Input(LeftBracket)] + []);
      assert es[1..] == [Input(LeftBracket)] + [];
      KeptInput(LeftBracket, []);
      ConsTwo(Esc, LeftBracket, []);
      assert Lift(s.pending) + [] == Lift(s.pending);
      assert Kept([]) == [];
    }
  }

  // One step of the filter against the reference scan.

  /** The bytes one event moves from the held bytes and the event into the writes, from state `s`. */
  predicate KeepsBytes(s: State, e: Event, rest: seq<Event>) {
    var t := StepEvent(s, e);
    Flatten(t.writes) + Kept(Lift(t.next.pending) + rest) == Kept(Lift(s.pending) + ([e] + rest))
  }

  /** KeepsBytes from its pieces, each established on its own. */
  lemma KeepsBytesOf(s: State, e: Event, rest: seq<Event>, t: Step, out: seq<Byte>, held: seq<Event>, before: seq<Event>)
    requires StepEvent(s, e) == t
    requires Flatten(t.writes) == out
    requires Lift(t.next.pending) + rest == held
    requires Lift(s.pending) + ([e] + rest) == before
    requires out + Kept(held) == Kept(before)
    ensures KeepsBytes(s, e, rest)
  {
  }

  lemma StepKeptIdle(e: Event, rest: seq<Event>)
    ensures KeepsBytes(Idle, e, rest)
  {
    var before := [e] + rest;
    LiftIdleThen(before);
    match e
    case TimerFired =>
      LiftIdleThen(rest);
      KeptTimer(rest);
      KeepsBytesOf(Idle, e, rest, Step(Idle, [], []), [], rest, before);
    case Input(b) =>
      if b == Esc {
        LiftEscThen(rest);
        KeepsBytesOf(Idle, e, rest, Step(State([Esc], true), [], []), [], before, before);
      } else if IsControl(b) {
        LiftIdleThen(rest);
        KeptInput(b, rest);
        KeepsBytesOf(Idle, e, rest, Step(Idle, [], [SignalOf(b)]), [], rest, before);
      } else {
        LiftIdleThen(rest);
        KeptInput(b, rest);
        FlattenOne([b]);
        KeepsBytesOf(Idle, e, rest, Step(Idle, [[b]], []), [b], rest, before);
      }
  }

  lemma StepKeptEscFlush(e: Event, rest: seq<Event>)
    requires e == TimerFired || (e.Input? && IsControl(e.b))
    ensures KeepsBytes(State([Esc], true), e, rest)
  {
    var before := [Input(Esc)] + ([e] + rest);
    LiftEscThen([e] + rest);
    LiftIdleThen(rest);
    KeptEsc(e, rest);
    if e == TimerFired {
      KeptTimer(rest);
    } else {
      KeptInput(e.b, rest);
    }
    FlattenOne([Esc]);
    KeepsBytesOf(State([Esc], true), e, rest, StepEvent(State([Esc], true), e), [Esc], rest, before);
  }

  lemma StepKeptEscEsc(rest: seq<Event>)
    ensures KeepsBytes(State([Esc], true), Input(Esc), rest)
  {
    var held := [Input(Esc)] + rest;
    var before := [Input(Esc)] + held;
    LiftEscThen(held);
    LiftEscThen(rest);
    KeptEsc(Input(Esc), rest);
    FlattenOne([Esc]);
    KeepsBytesOf(State([Esc], true), Input(Esc), rest, Step(State([Esc], true), [[Esc]], []), [Esc], held, before);
  }

  lemma StepKeptEscOther(b: Byte, rest: seq<Event>)
    requires b != Esc && b != LeftBracket && !IsControl(b)
    ensures KeepsBytes(State([Esc], true), Input(b), rest)
  {
    var before := [Input(Esc)] + ([Input(b)] + rest);
    LiftEscThen([Input(b)] + rest);
    LiftIdleThen(rest);
    KeptEsc(Input(b), rest);
    KeptInput(b, rest);
    ConsTwo(Esc, b, Kept(rest));
    FlattenOne([Esc, b]);
    KeepsBytesOf(State([Esc], true), Input(b), rest, Step(Idle, [[Esc, b]], []), [Esc, b], rest, before);
  }

  lemma StepKeptEscBracket(rest: seq<Event>)
    ensures KeepsBytes(State([Esc], true), Input(LeftBracket), rest)
  {
    var before := [Input(Esc)] + ([Input(LeftBracket)] + rest);
    LiftEscThen([Input(LeftBracket)] + rest);
    LiftCsiThen(rest);
    KeepsBytesOf(State([Esc], true), Input(LeftBracket), rest, Step(State([Esc, LeftBracket], true), [], []), [], before, before);
  }

  lemma StepKeptEsc(e: Event, rest: seq<Event>)
    ensures KeepsBytes(State([Esc], true), e, rest)
  {
    if e == TimerFired || IsControl(e.b) {
      StepKeptEscFlush(e, rest);
    } else if e.b == Esc {
      StepKeptEscEsc(rest);
    } else if e.b == LeftBracket {
      StepKeptEscBracket(rest);
    } else {
      StepKeptEscOther(e.b, rest);
    }
  }

  lemma StepKeptCsiFocus(b: Byte, rest: seq<Event>)
    requires b == FocusIn || b == FocusOut
    ensures KeepsBytes(State([Esc, LeftBracket], true), Input(b), rest)
  {
    var before := [Input(Esc)] + ([Input(LeftBracket)] + ([Input(b)] + rest));
    LiftCsiThen([Input(b)] + rest);
    LiftIdleThen(rest);
    KeptFocus(b, rest);
    KeepsBytesOf(State([Esc, LeftBracket], true), Input(b), rest, Step(Idle, [], []), [], rest, before);
  }

  lemma StepKeptCsiFlush(e: Event, rest: seq<Event>)
    requires e == TimerFired || (e.Input? && IsControl(e.b))
    ensures KeepsBytes(State([Esc, LeftBracket], true), e, rest)
  {
    var before := [Input(Esc)] + ([Input(LeftBracket)] + ([e] + rest));
    LiftCsiThen([e] + rest);
    LiftIdleThen(rest);
    KeptCsi(e, rest);
    if e == TimerFired {
      KeptTimer(rest);
    } else {
      KeptInput(e.b, rest);
    }
    FlattenOne([Esc, LeftBracket]);
    KeepsBytesOf(State([Esc, LeftBracket], true), e, rest, StepEvent(State([Esc, LeftBracket], true), e), [Esc, LeftBracket], rest, before);
  }

  lemma StepKeptCsiEsc(rest: seq<Event>)
    ensures KeepsBytes(State([Esc, LeftBracket], true), Input(Esc), rest)
  {
    var held := [Input(Esc)] + rest;
    var before := [Input(Esc)] + ([Input(LeftBracket)] + held);
    LiftCsiThen(held);
    LiftEscThen(rest);
    KeptCsi(Input(Esc), rest);
    FlattenOne([Esc, LeftBracket]);
    KeepsBytesOf(State([Esc, LeftBracket], true), Input(Esc), rest, Step(State([Esc], true), [[Esc, LeftBracket]], []), [Esc, LeftBracket], held, before);
  }

  lemma StepKeptCsiOther(b: Byte, rest: seq<Event>)
    requires b != Esc && b != FocusIn && b != FocusOut && !IsControl(b)
    ensures KeepsBytes(State([Esc, LeftBracket], true), Input(b), rest)
  {
    var before := [Input(Esc)] + ([Input(LeftBracket)] + ([Input(b)] + rest));
    LiftCsiThen([Input(b)] + rest);
    LiftIdleThen(rest);
    KeptCsi(Input(b), rest);
    KeptInput(b, rest);
    ConsThree(Esc, LeftBracket, b, Kept(rest));
    assert [Esc, LeftBracket] + ([b] + Kept(rest)) == [Esc] + ([LeftBracket] + ([b] + Kept(rest)));
    FlattenOne([Esc, LeftBracket, b]);
    KeepsBytesOf(State([Esc, LeftBracket], true), Input(b), rest, Step(Idle, [[Esc, LeftBracket, b]], []), [Esc, LeftBracket, b], rest, before);
  }

  lemma StepKeptCsi(e: Event, rest: seq<Event>)
    ensures KeepsBytes(State([Esc, LeftBracket], true), e, rest)
  {
    if e == TimerFired || IsControl(e.b) {
      StepKeptCsiFlush(e, rest);
    } else if e.b == FocusIn || e.b == FocusOut {
      StepKeptCsiFocus(e.b, rest);
    } else if e.b == Esc {
      StepKeptCsiEsc(rest);
    } else {
      StepKeptCsiOther(e.b, rest);
    }
  }

  /** One event moves exactly the bytes that the reference keeps from the held bytes into the writes. */
  lemma StepKept(s: State, e: Event, rest: seq<Event>)
    requires Valid(s)
    ensures KeepsBytes(s, e, rest)
  {
    if s.pending == [] {
      StepKeptIdle(e, rest);
    } else if s.pending == [Esc] {
      StepKeptEsc(e, rest);
    } else {
      StepKeptCsi(e, rest);
    }
  }

  lemma SplitFirst(es: seq<Event>)
    requires es != []
    ensures es == [es[0]] + es[1..]
  {
  }

  lemma Glue(a: seq<Byte>, b: seq<Byte>, c: seq<Byte>, d: seq<Byte>)
    requires b + c == d
    ensures (a + b) + c == a + d
  {
  }

  /**
   * Byte conservation: whatever mix of input bytes and timer expiries the
   * filter sees, the bytes written to the child followed by the bytes still
   * held are the held bytes and the input, in order and unchanged, minus the
   * focus reports, the control bytes and nothing else.
   */
  lemma {:induction false} Conservation(s: State, es: seq<Event>)
    requires Valid(s)
    ensures Flatten(Run(s, es).writes) + Run(s, es).next.pending == Kept(Lift(s.pending) + es)
    decreases |es|
  {
    if es == [] {
      KeptHeld(s);
      assert Lift(s.pending) + es == Lift(s.pending);
    } else {
      var t := StepEvent(s, es[0]);
      var u := Run(t.next, es[1..]);
      assert Run(s, es) == Then(t, u);
      Conservation(t.next, es[1..]);
      StepKept(s, es[0], es[1..]);
      FlattenAppend(t.writes, u.writes);
      SplitFirst(es);
      Glue(Flatten(t.writes), Flatten(u.writes), u.next.pending, Kept(Lift(t.next.pending) + es[1..]));
    }
  }

  /** The signals sent are one per control byte of the input, in order, whatever the state. */
  lemma {:induction false} SignalsAreControls(s: State, es: seq<Event>)
    ensures Run(s, es).signals == Controls(es)
    decreases |es|
  {
    if es != [] {
      SignalsAreControls(StepEvent(s, es[0]).next, es[1..]);
    }
  }

  lemma {:induction false} KeptHasNoControl(es: seq<Event>)
    ensures forall i :: 0 <= i < |Kept(es)| ==> !IsControl(Kept(es)[i])
    decreases |es|
  {
    if es != [] {
      if IsFocusReport(es) {
        KeptHasNoControl(es[3..]);
      } else {
        KeptHasNoControl(es[1..]);
      }
    }
  }

  /** Neither control byte ever reaches the child. */
  lemma NoControlForwarded(es: seq<Event>)
    ensures var out := Flatten(Run(Idle, es).writes);
      forall i :: 0 <= i < |out| ==> !IsControl(out[i])
  {
    Conservation(Idle, es);
    KeptHasNoControl(es);
    var out := Flatten(Run(Idle, es).writes);
    assert Lift([]) + es == es;
    assert out == Kept(es)[..|out|];
  }

  // ---------------------------------------------------------------------
  // Individual promises

  function Singletons(bytes: seq<Byte>): (ws: seq<seq<Byte>>)
    ensures |ws| == |bytes|
    ensures forall i :: 0 <= i < |bytes| ==> ws[i] == [bytes[i]]
  {
    seq(|bytes|, i requires 0 <= i < |bytes| => [bytes[i]])
  }

  /** With nothing held, a byte other than ESC and the control bytes is written at once, alone, and nothing is held after it. */
  lemma PlainByteWrittenAtOnce(s: State, b: Byte)
    requires Valid(s) && s.pending == []
    requires b != Esc && !IsControl(b)
    ensures StepByte(s, b) == Step(Idle, [[b]], [])
  {
  }

  /** Input without ESC and without control bytes goes out byte by byte, unchanged, with nothing held. */
  lemma {:induction false} PlainInputPassesThrough(bytes: seq<Byte>)
    requires forall i :: 0 <= i < |bytes| ==> bytes[i] != Esc && !IsControl(bytes[i])
    ensures Run(Idle, Lift(bytes)) == Step(Idle, Singletons(bytes), [])
    decreases |bytes|
  {
    if bytes != [] {
      PlainInputPassesThrough(bytes[1..]);
      assert Lift(bytes)[1..] == Lift(bytes[1..]);
      assert Singletons(bytes) == [[bytes[0]]] + Singletons(bytes[1..]);
    }
  }

  /** A focus report is swallowed whole from any state: only bytes already held are flushed, timer disarmed. */
  lemma FocusReportSwallowed(s: State, final: Byte)
    requires Valid(s)
    requires final == FocusIn || final == FocusOut
    ensures Run(s, [Input(Esc), Input(LeftBracket), Input(final)]) == Step(Idle, Flush(s.pending), [])
  {
    var t1 := StepByte(s, Esc);
    var t2 := StepByte(t1.next, LeftBracket);
    var t3 := StepByte(t2.next, final);
    RunCons(t2.next, Input(final), []);
    RunCons(t1.next, Input(LeftBracket), [Input(final)]);
    RunCons(s, Input(Esc), [Input(LeftBracket), Input(final)]);
  }

  /** ESC followed by a byte that continues no known prefix is forwarded as the pair, in one write. */
  lemma EscapePairForwarded(b: Byte)
    requires b != LeftBracket && b != Esc && !IsControl(b)
    ensures Run(Idle, [Input(Esc), Input(b)]) == Step(Idle, [[Esc, b]], [])
  {
    var t1 := StepByte(Idle, Esc);
    RunCons(t1.next, Input(b), []);
    RunCons(Idle, Input(Esc), [Input(b)]);
  }

  /** ESC '[' followed by a byte that is not a focus final byte is forwarded as the triple, in one write. */
  lemma CsiTripleForwarded(b: Byte)
    requires b != FocusIn && b != FocusOut && b != Esc && !IsControl(b)
    ensures Run(Idle, [Input(Esc), Input(LeftBracket), Input(b)]) == Step(Idle, [[Esc, LeftBracket, b]], [])
  {
    var t1 := StepByte(Idle, Esc);
    var t2 := StepByte(t1.next, LeftBracket);
    RunCons(t2.next, Input(b), []);
    RunCons(t1.next, Input(LeftBracket), [Input(b)]);
    RunCons(Idle, Input(Esc), [Input(LeftBracket), Input(b)]);
  }

  /** Two ESCs in a row: the first is forwarded on its own, the second is held with the timer re-armed. */
  lemma EscEscSplits(s: State)
    requires Valid(s) && s.pending != []
    ensures var r := StepByte(s, Esc); r.writes == [s.pending] && r.next == State([Esc], true)
  {
  }

  /** A lone ESC followed by a timer expiry reaches the child as a single ESC. */
  lemma LoneEscFlushedByTimer()
    ensures Run(Idle, [Input(Esc), TimerFired]) == Step(Idle, [[Esc]], [])
  {
    RunCons(State([Esc], true), TimerFired, []);
    RunCons(Idle, Input(Esc), [TimerFired]);
  }
}
