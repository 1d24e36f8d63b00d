# claude-unfocused: the input filter and the argument filter

claude-unfocused runs the `claude` program inside a pseudo-terminal and sits
between the user's terminal and the child. Everything it does that can be
stated as logic is modelled here. There are two pieces.

- **The focus-event input filter** (the input goroutine in `main.go`).
  - Every byte read from the terminal passes through a three-state automaton. The held bytes (`pending`) are always `[]`, `[ESC]` or `[ESC, '[']`.
  - A single timer slot (`timerCh`) is armed exactly when bytes are held.
  - The complete focus reports `ESC [ I` and `ESC [ O` are swallowed.
  - Ctrl-Z (0x1A) and Ctrl-\ (0x1C) flush the held bytes and become the control signals `sigSuspend` and `sigQuit`.
  - Everything else is written to the child unchanged, in order.
  - When the timer fires, the held bytes are written as they are.
- **`passthroughArgs`**, which removes the wrapper's own `--claude PATH` or `--claude=PATH` option from the argument vector before it is passed to the child.

Files:

- `focus_filter.dfy` (module `FocusFilter`) is the pure specification of the input filter:
  - the constants of `main.go`;
  - one step function per kind of event (`StepByte` for an input byte, `StepTimeout` for the timer);
  - `Run` over a list of events;
  - two independent reference definitions: `Kept`, the bytes that should survive, and `Controls`, the signals that should be sent;
  - the lemmas that relate the filter to those definitions.
- `input_filter.dfy` (module `InputFilter`) is the filter as the Go code keeps it.
  - It is a class whose `pending` and `armed` fields are updated in place.
  - Writes to the pseudo-terminal and sends on the control channel are recorded in the ghost fields `written` and `signals`. The events seen are recorded in `history`.
  - `Process` handles one byte and follows the Go branches one for one. `ProcessChunk` is the `for _, b := range data` loop. `OnTimeout` is the timer case of the `select`.
  - Each method is specified by the step functions. Each re-establishes the object invariant and the accounting against `Kept` and `Controls`.
- `passthrough_args.dfy` (module `Args`) holds the index loop of `passthroughArgs` as a method, the pure function that specifies it, and the lemmas about that function.

Time, the channels and the `select` are replaced by the caller's choice of method:
- a byte read from the terminal is a call to `Process` or `ProcessChunk`;
- the expiry of the armed timer is a call to `OnTimeout`.

Writes to `ptmx` and sends on `ctrlCh` are sequences in ghost fields.

## Model

| member | source | states |
|---|---|---|
| FocusFilter.SignalOf | main.go:25-31 | A control byte is never mapped to `sigNone`; it maps to `sigSuspend` exactly when it is Ctrl-Z, otherwise to `sigQuit`. |
| FocusFilter.Flush | main.go:125-128 | Flushing writes nothing when nothing is held; otherwise it writes the held bytes as exactly one write. |
| FocusFilter.StepByte | main.go:134-192 | One byte keeps the held bytes in one of the three shapes, with the timer armed iff bytes are held, and performs at most one write. A control byte sends exactly its signal, flushes what was held as one write and returns to idle. Any other byte sends no signal. |
| FocusFilter.StepTimeout | main.go:124-129 | A timer expiry writes the held bytes unchanged as at most one write, sends no signal, and leaves the filter idle with the timer disarmed. |
| FocusFilter.Run | main.go:120-193 | Any sequence of bytes and timer expiries keeps the three-shape and armed-iff-held invariant, and performs at most one write per event. |
| FocusFilter.Controls | main.go:136-152 | The reference list of signals never contains `sigNone`. |
| FocusFilter.Conservation | main.go:124-192 | For any mix of byte and timer events from any valid state, all writes concatenated and then the bytes still held equal the held bytes plus the input, in order and unchanged, minus the focus reports, the control bytes and nothing else. |
| FocusFilter.SignalsAreControls | main.go:136-152 | The signals sent over any run are exactly one per control byte of the input, in order, with the suspend/quit kind matching the byte. |
| FocusFilter.NoControlForwarded | main.go:136-153 | Neither Ctrl-Z nor Ctrl-\ ever appears in the bytes written to the child. |
| FocusFilter.PlainByteWrittenAtOnce | main.go:156-162 | With nothing held, a byte other than ESC and the control bytes is written at once as a one-byte write, and the filter stays idle. |
| FocusFilter.PlainInputPassesThrough | main.go:156-162 | Input containing no ESC and no control byte reaches the child unchanged, one single-byte write per byte, with nothing held and no signal. |
| FocusFilter.FocusReportSwallowed | main.go:177-182 | `ESC [ I` or `ESC [ O` arriving in any state produces no write of its own. Only bytes already held before it are flushed. The filter ends idle with the timer disarmed. |
| FocusFilter.EscapePairForwarded | main.go:172-176 | ESC followed by a byte that is not `[`, ESC or a control byte is forwarded as the single write `[ESC, b]`, and the filter clears. |
| FocusFilter.CsiTripleForwarded | main.go:187-190 | `ESC [` followed by a byte that is not `I`, `O`, ESC or a control byte is forwarded as the single write `[ESC, '[', b]`, and the filter clears. |
| FocusFilter.EscEscSplits | main.go:168-171 | While bytes are held, an ESC flushes them as one write and restarts with a single ESC held and the timer re-armed (also main.go:183-186). |
| FocusFilter.LoneEscFlushedByTimer | main.go:157-159 | A lone ESC followed by a timer expiry reaches the child as one write of a single ESC (with main.go:124-129). |
| InputFilter.Filter.constructor | main.go:99 | A fresh filter holds nothing, has no timer, and has written and signalled nothing. |
| InputFilter.Filter.Process | main.go:135-192 | One byte moves the state, the writes and the signals exactly as `StepByte` does. It keeps the object invariant. All writes so far followed by `pending` equal `Kept` of the history, and the signals equal `Controls` of the history. |
| InputFilter.Filter.ProcessChunk | main.go:134 | A chunk of bytes has the effect of running the filter over those bytes one at a time. It keeps the invariant and the accounting against `Kept` and `Controls`. |
| InputFilter.Filter.OnTimeout | main.go:124-129 | A timer expiry appends the held bytes (if any) as one write, clears them, disarms the timer and sends no signal. It keeps the invariant and the accounting. |
| Args.PassthroughArgs | main.go:222-236 | The index loop with its skip returns exactly the reference filtering of the arguments. That result is an in-order subsequence of the input and contains no `--claude=` element. |
| Args.PassthroughIsSubsequence | main.go:224-233 | The arguments passed on are some of the input's, in their original order. |
| Args.PassthroughDropsAssign | main.go:229-230 | No argument starting with `--claude=` reaches the child. |
| Args.PassthroughFlagOnlyLast | main.go:227-232 | A `--claude` reaches the child only as the last argument passed on, and only when the input itself ends with `--claude` (it had no value to drop). |
| Args.PassthroughUnchanged | main.go:231-232 | Arguments that never mention the option are passed on unchanged. |
| Args.OptionRemoved | main.go:227-230 | A leading `--claude VALUE` pair or `--claude=VALUE` element is removed without affecting how the remaining arguments are filtered. |

## Left out

- Process spawning and the pseudo-terminal (`pty.Start`, `pty.InheritSize`, closing `ptmx`). These are foreign library calls. A write to `ptmx` is modelled only as an entry appended to the ghost sequence `written`.
- Raw and cooked terminal modes, and what the main loop does with a signal (`term.MakeRaw`, `term.Restore`, sending SIGTSTP to the process group, killing the child). These are operating-system side effects. The model stops at the sequence of control signals the filter sends.
- Forwarding of operating-system signals to the child, and the SIGWINCH window-size watcher. This is concurrency plus system calls.
- Goroutines, channels and `select`.
  - The stdin reader goroutine, the `done` channel and the return paths on it and on end of input are not modelled.
  - The blocking of a full `ctrlCh` is not modelled.
  - The `io.Copy` of the child's output is not modelled.
  - Chunking does not change the outcome, because `ProcessChunk` is specified as running the filter one byte at a time.
- The 50 ms value of `escTimeout` and `time.After`. Wall-clock time is not modelled. An armed timer is the flag `armed`, and its expiry is a call to `OnTimeout`. Re-arming replaces the old timer, as assigning a new `time.After` channel does.
- `OnTimeout` accepts a call while the timer is disarmed and does nothing then. In the Go code a nil `timerCh` is never selected, so that call cannot happen there. Under the object invariant nothing is held whenever the timer is disarmed, so the guarded write is a no-op either way.
- The `pflag` parsing of `--claude` for the target path. It is a library the model does not include; `passthroughArgs` alone decides what reaches the child.
