# Colour-transfer mode/rate controller

This project models the interactive controller of the colour-transfer tool
in `colortransfer.cpp`. The tool shows a reference image, a target image and
the target recoloured to match the reference's channel statistics. The
controller holds the state that the transfer reads:

- the working colour space (`currentMode`: NONE, LAB, RGB, HSV or XYZ);
- the three trackbar labels (`trackbars.componentNames`);
- the three per-channel blend rates in percent (`trackbars.componentVals`).

Keypresses change the mode. `changeMode` maps r/R, l/L, h/H and x/X to a
space and returns 0 for escape and 1 for every other key. A real mode change
installs the space's labels, resets every rate to 100 and recomputes the
transfer once. A slider move writes one rate and recomputes. `main` selects
Lab with `changeMode('l')` and then runs `while(changeMode(waitKey(0)));`.

The project has three modules:

- `Modes` (modes.dfy) holds the pure lookups. These are key decoding,
  including the `int` to `char` narrowing of the key code, the label triple of
  each mode, the mode-to-conversion switch of `colorTransfer` with its Lab
  fallback for NONE, and the percent-to-rate division.
- `ModeMachine` (mode_machine.dfy) is the controller as a pure state machine.
  It has one step per key (`Step`), one step per slider move (`Slide`), one
  step per event that `waitKey` delivers, either a key or a slider move
  (`Apply`), the event loop (`Loop`) and lemmas over event sequences. Each recompute is recorded
  by the parameters it reads: the conversion pair and the three rates. This
  makes "exactly one recompute" and "the output reflects the current
  settings" statable.
- `ModeControl` (mode_control.dfy) is the controller as the source holds it.
  It is a class whose fields are the globals, with fixed three-slot arrays
  for labels and rates. `ChangeMode`, `SetRate`, `Dispatch`, `EventLoop` and `Session`
  update the fields in place and are proved against `ModeMachine`.

## Model

| member | source | states |
|---|---|---|
| `Modes.Narrow` | colortransfer.cpp:258 | passing `waitKey`'s int to the `char` parameter keeps the low eight bits: codes 0..255 are unchanged, and others differ by a multiple of 256 |
| `Modes.Decode` | colortransfer.cpp:133-170 | escape, and only escape, quits; a key selects a mode iff its ASCII lower case is that mode's letter (l, r, h, x); NONE is never selected; every other key is ignored |
| `Modes.Labels` | colortransfer.cpp:138-164 | every mode has a three-label triple; each label of a real mode is non-empty |
| `Modes.Conversions` | colortransfer.cpp:45-66 | the forward conversion leaves the native BGR space for the mode's own space, the backward one is its exact reverse, and NONE falls back to Lab |
| `Modes.Rate` | colortransfer.cpp:94 | a percent value lies in 0..100 iff its rate lies in [0,1]; 100 gives exactly 1 and 0 exactly 0 |
| `Modes.TransferParams` | colortransfer.cpp:45-94 | a recompute reads the mode's conversion pair and one rate per channel; rates from percents in 0..100 lie in [0,1] |
| `ModeMachine.Initial` | colortransfer.cpp:26-38 | the zero-initialised globals (mode NONE, empty labels, zero rates, no recompute yet) satisfy the controller invariant |
| `ModeMachine.Inv` | colortransfer.cpp:26-38 | under the controller invariant every blend rate a recompute reads lies in [0,1], and once a real mode is active at least one recompute has happened |
| `ModeMachine.Recompute` | colortransfer.cpp:124-129 | a recompute leaves mode, labels and rates alone and appends exactly one log entry, the conversion pair and rates of the current settings; from consistent labels and in-range rates it establishes the invariant |
| `ModeMachine.Step` | colortransfer.cpp:132-193 | a keypress keeps the controller invariant; a key that selects a mode always leaves that mode active; if the mode does not change, nothing changes (same-mode key, escape, unknown key: no label change, no rate reset, no recompute); if it changes, the key selected the new mode, the labels are its triple, all rates are 100 and exactly one recompute with the new mode's conversions and full rates is appended |
| `ModeMachine.Reply` | colortransfer.cpp:132-193 | `changeMode` returns 0 exactly for escape and 1 for every other key |
| `ModeMachine.Slide` | colortransfer.cpp:177-185 | a slider move to v in 0..100 keeps the invariant, sets exactly rate i to v, leaves the mode, the labels and the other rates unchanged, and appends exactly one recompute, which reads the new rates |
| `ModeMachine.Apply` | colortransfer.cpp:181-183 | one event keeps the controller invariant and the three rate slots; a slider move to v on channel i sets rate i to v and leaves the mode, the labels and the other two rates alone, appending exactly one recompute that reads the new rates; a key handed to `changeMode` (line 258) that selects a mode leaves that mode active, the mode changes only through a key that selects it (escape and unknown keys change nothing), a key that does not change the mode changes nothing, and a mode change installs the new labels, full rates and one recompute with them |
| `ModeMachine.Loop` | colortransfer.cpp:258 | the event loop keeps the controller invariant (labels match the mode, every rate stays in 0..100, the last recompute read the current settings), reads at most all events and at least one when there is one |
| `ModeMachine.Fold` | colortransfer.cpp:132-193 | any sequence of keys and slider moves, applied in order, preserves the controller invariant |
| `ModeMachine.LoopStopsAtFirstEscape` | colortransfer.cpp:258 | the loop reads events up to and including the first escape key (all of them if there is none), and its final state is that of those events applied in order |
| `ModeMachine.ReadOneMore` | colortransfer.cpp:258 | after an escape-free prefix, the next event either is the first escape, where reading stops, or extends the escape-free prefix |
| `ModeMachine.LoopDeterminedByFirstEscape` | colortransfer.cpp:258 | conversely, a count that stops at the first escape (or at the end) is the loop's count, and the loop's state is that prefix applied in order |
| `ModeMachine.FoldSnoc` | colortransfer.cpp:258 | applying an event sequence and then one more event equals applying the extended sequence |
| `ModeMachine.FoldMode` | colortransfer.cpp:132-165 | after any sequence of keys and slider moves, the mode is the one named by the last mode key pressed, or the starting mode if none was pressed |
| `ModeMachine.FoldIgnoresNonModeKeys` | colortransfer.cpp:166-169 | a sequence of keys with no mode key leaves the whole state, including the recompute log, unchanged |
| `ModeMachine.StartupSelectsLab` | colortransfer.cpp:255 | from the zero-initialised globals, 'l' yields LAB, the labels Luminance/Alpha/Beta, rates (100,100,100) and one recompute with the Lab pair at rate 1.0 per channel |
| `ModeMachine.SessionOutputIsCurrent` | colortransfer.cpp:255-258 | after startup and any sequence of keys and slider moves, the mode is a real one and the last recompute read the final mode and rates |
| `ModeMachine.LastSelectedIsMode` | colortransfer.cpp:132-165 | mode keys only select real modes, so once a real mode is active it stays a real mode |
| `Modes.DecodeIgnoresCase` | colortransfer.cpp:134-159 | a key and its ASCII lower case decode to the same command |
| `Modes.LabelsIdentifyMode` | colortransfer.cpp:138-164 | distinct modes have distinct label triples |
| `ModeControl.Controller.constructor` | colortransfer.cpp:26-38 | the globals start as mode NONE, empty labels, zero rates and no recompute, which satisfies the invariant |
| `ModeControl.Controller.Recompute` | colortransfer.cpp:124-129 | one recompute is appended, reading the current mode's conversion pair and rates |
| `ModeControl.Controller.ChangeMode` | colortransfer.cpp:132-193 | the in-place update (labels assigned slot by slot, rates reset in a loop) produces exactly `Step`'s new state and returns `Reply`; same mode means labels, rates and log untouched; a new mode means its labels, full rates and one recompute |
| `ModeControl.Controller.SetRate` | colortransfer.cpp:181-183 | writing rate i produces exactly `Slide`'s new state: only rate i changes, and one recompute reads the new rates |
| `ModeControl.Controller.Dispatch` | colortransfer.cpp:181-183 | one event handled in place produces exactly `Apply`'s new state, and the loop is told to stop exactly for escape |
| `ModeControl.Controller.EventLoop` | colortransfer.cpp:258 | the while loop over events ends in exactly `Loop`'s final state and event count, keeping the invariant |
| `ModeControl.Session` | colortransfer.cpp:255-258 | a fresh controller, `changeMode('l')` and the event loop end in `Loop` applied to the startup state |

## Left out

- The numeric transfer pipeline in `colorTransfer` (colortransfer.cpp:68-119) is floating-point work on library matrix types. This covers the log transform, `meanStdDev`, the Reinhard matching, the per-channel blend, `exp` and the 8-bit quantisation. A recompute is modelled only by the parameters it reads.
- The body of `cvtColor` is a library call. Conversion codes are symbolic `Convert(source, target)` values, not the library's integer constants.
- Window handling is left out: `namedWindow`, `destroyWindow`, `moveWindow`, `createTrackbar`, `resizeWindow`, `imshow`, `putText` and the instructions window. `waitKey` is left out too; the keys it returns and the slider moves whose callbacks run while it blocks are an input sequence of events.
- The event loop only ends on escape. With a finite event sequence, the model also stops when the events run out.
- Modes.Rate: rates are exact reals, not IEEE doubles; 33 gives exactly 0.33 rather than the nearest double, so rounding of the division is not modelled.
- A slider move is one event with its final value; intermediate positions during a drag, each of which recomputes, are just further events.
- Argument checking, `imread`/`imwrite`, the empty-image and channel-count checks, and the `fatalError` exits (colortransfer.cpp:7-9, 195-217, 261-265) are I/O.
- The key is narrowed to an unsigned 0..255 value. A signed `char` gives the same comparisons, because every key the switch tests is below 128.
- Three properties belong to the numeric pipeline and are not modelled: rate 0 reproducing the target, scale 1 for a zero standard deviation, and clamping on quantisation. The code has no zero-deviation guard at colortransfer.cpp:100, so the model does not invent one.
