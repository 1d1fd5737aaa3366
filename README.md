# Pump control coordinator

A Dafny model of `PumpControl` in `instruments/pump_control.py`. This is the
coordinator behind the operator window that drives a fleet of syringe pumps on
one serial bus. The model covers:

- the fleet mode (`curr_state`: Running or Stopped) and the set of priming
  pumps (`prime_state`);
- the rules for which handler may act in which mode: syringe changes and
  priming only while Stopped, and volume delivery raising while Running;
- the exact, ordered driver calls each handler issues: `stop_all`,
  `run_update`, `update_syringe`, `prime_pumps`, `deliver_volume`,
  `habituate`, the start-up sequence of `initUI`, and `shutdown`;
- the test applied to the operator's rate text before it is sent
  (`strip()[1:].isdigit()`, falling back to `'0'`), and the default volume
  of 50.0 when the volume text does not parse;
- the fixed syringe catalog and the selector's initial entry.

`PumpControl` is a class whose fields are the ones the handlers update:

- `mode`, `primeSet`;
- the rate and volume texts per pump;
- the displayed actual rates (`currflow`);
- the status bar and the last-command bar;
- `trace`, every driver call issued so far, each one a `Cmd` value.

Replaying the trace gives a `DeviceView`: whether the fleet was last started
or stopped, and which pumps were primed. The object invariant `Valid` ties the
recorded mode to that view. While Stopped, it also ties the priming set to the
view. While Running, the priming set need not match. A Run/Update from
Stopped keeps the two equal, but a Run/Update from Running first calls
`stop_all` on the driver (line 180), which stops the priming pumps, while
`prime_state` is never cleared and keeps them.

Files:

- `wrappers.dfy`: `Option`.
- `syringe_catalog.dfy`: the catalog and the order the selector lists it in.
- `validation.dfy`: `strip`, the rate test and its meaning, the resolved rates and reset fields, and the delivered volume.
- `driver.dfy`: the driver calls, the device view and the call sequence of each handler.
- `pump_control.dfy`: the `PumpControl` class.
- `scenarios.dfy`: operator sessions built from the handlers.

Behaviour of the code that a reader of the operator window might not expect:

- `deliver_volume` raises while Running (`vol` is unbound at line 239), so it
  issues no call in that state. It delivers only while Stopped.
- Priming and running are not mutually exclusive: a pump primed while Stopped
  stays in `prime_state` after a Run/Update.
- The catalog key of the 5 ml syringe is `" 5 ml BD"`, with a leading blank.
- A driver failure raises out of the handler. The code has no abort-and-restore
  policy.

## Model

| member | source | states |
|---|---|---|
| SyringeCatalog.Diameter | instruments/pump_control.py:198 | the lookup succeeds exactly for the names the selector lists, and gives that entry's catalog diameter |
| SyringeCatalog.SelectorIsSorted | instruments/pump_control.py:10-15 | the selector lists every catalog key once, in strictly increasing order, starts on `" 1 ml BD"`, and every entry has a diameter |
| SyringeCatalog.SortedIsSelector | instruments/pump_control.py:82 | any list of the catalog keys, each once, with no neighbour out of order (what `sorted(syringes)` returns) is the selector |
| SyringeCatalog.AscendingIncreasing | instruments/pump_control.py:82 | a list without repeats and with no neighbour out of order is strictly increasing |
| SyringeCatalog.IncreasingUnique | instruments/pump_control.py:82 | two strictly increasing lists of the same names are equal, so the sorted order is unique |
| SyringeCatalog.LexLessIrreflexive | instruments/pump_control.py:82 | the string order used by `sorted` is irreflexive |
| SyringeCatalog.LexLessTransitive | instruments/pump_control.py:82 | the string order used by `sorted` is transitive |
| SyringeCatalog.LexLessTotal | instruments/pump_control.py:82 | any two distinct strings are ordered one way or the other |
| SyringeCatalog.DefaultIsFirstSorted | instruments/pump_control.py:82 | `" 1 ml BD"` is a catalog key with diameter 4.699 and sorts before every other key, so it is the entry every selector starts on |
| Validation.TrimLeftSpec | instruments/pump_control.py:165 | lstrip returns a suffix of its input, what it drops is all blank, and the result does not start with a blank |
| Validation.TrimRightSpec | instruments/pump_control.py:165 | rstrip returns a prefix of its input, what it drops is all blank, and the result does not end with a blank |
| Validation.TrimSpec | instruments/pump_control.py:165 | strip removes blanks, and only blanks, at both ends, leaving a text with no blank at either end |
| Validation.TrimUnique | instruments/pump_control.py:165 | any blank-free-ended text obtained by removing blanks at both ends is the result of strip |
| Validation.TrimTight | instruments/pump_control.py:165 | strip leaves a text with no blank at either end unchanged, so strip is idempotent |
| Validation.RateAcceptedMeans | instruments/pump_control.py:165 | the test passes exactly when the stripped text has at least two characters and all after the first are digits |
| Validation.ResolveRateSpec | instruments/pump_control.py:164-169 | an accepted text is sent stripped, a rejected one as "0", and what is sent is "0" or a blank-free text that passes the test; the stripped text is sent unchanged exactly when it passes the test or is "0" itself |
| Validation.ResolvedRates | instruments/pump_control.py:164-168 | a rate is sent for every pump that has a rate field, and for no other |
| Validation.ResetFields | instruments/pump_control.py:164-169 | the normalisation keeps a field for every pump and adds none |
| Validation.EditOneField | instruments/pump_control.py:164-169 | editing one pump's field changes the rate sent to that pump and its reset field alone |
| Validation.ZeroRejected | instruments/pump_control.py:168-169 | the fallback "0" is itself rejected yet sent unchanged |
| Validation.ResolveAfterReset | instruments/pump_control.py:165-169 | after a field is normalised, it resolves to the same rate and normalising it again changes nothing |
| Validation.RerunSendsSameRates | instruments/pump_control.py:158-169 | a second Run/Update with no edits in between sends the same rates and leaves the fields as they were |
| Validation.AcceptedExamples | instruments/pump_control.py:165-166 | "100", "-25" and "a12" are sent unchanged |
| Validation.StrippedExample | instruments/pump_control.py:165-166 | " 100 " is sent as "100" |
| Validation.RejectedExamples | instruments/pump_control.py:165-168 | "5", "12.5" and the empty text are sent as "0" |
| Validation.DeliveredVolume | instruments/pump_control.py:230-235 | the parsed volume when the text parses, 50.0 when it does not |
| Driver.RunCmdsEffect | instruments/pump_control.py:179-194 | the calls of `run_update` leave the fleet running and clear the primed pumps exactly when they begin with `stop_all` |
| Driver.PrimeCmdsEffect | instruments/pump_control.py:207-218 | the calls of a priming toggle flip that pump among the primed pumps and leave the fleet flag alone |
| Driver.InitSyringeCmdsAt | instruments/pump_control.py:131 | the start-up syringe calls are one `set_diameter`/`get_diameter` pair per pump, in discovery order |
| Coordinator.ApplyReply | instruments/pump_control.py:185 | the display keeps one entry per discovered pump after a `get_rates` reply |
| Coordinator.Toggled | instruments/pump_control.py:208-216 | the toggled pump changes membership and no other pump does |
| Coordinator.ToggleTwice | instruments/pump_control.py:206-216 | toggling the same pump twice restores the priming set |
| Coordinator.PumpControl.constructor | instruments/pump_control.py:116-132 | start-up ends Stopped with nothing priming and a blank last-command bar; every rate field reads "0", every volume field is empty and every display shows zero flow; the calls are `find_pumps`, the full Run/Update from Running with all rates "0", `stop_all`, and a syringe pair per pump with diameter 4.699 |
| Coordinator.PumpControl.Initialise | instruments/pump_control.py:129-130 | the start-up Run/Update then `stop_all` leave the fleet Stopped with every field reading "0", every display at zero flow and the stop message in the last-command bar |
| Coordinator.PumpControl.InitSyringes | instruments/pump_control.py:131 | the start-up `update_syringe` of every pump issues exactly the syringe pairs of the catalog's first entry, keeps the invariant, and leaves the last pump's syringe message in the last-command bar (unchanged when there is no pump) |
| Coordinator.PumpControl.RunUpdateInit | instruments/pump_control.py:129 | the start-up Run/Update over empty fields sends "0" to every pump, resets every field to "0", ends Running, shows the reply with its unit and reports an update |
| Coordinator.PumpControl.SetRateText | instruments/pump_control.py:91-92 | an operator edit changes that pump's rate text alone |
| Coordinator.PumpControl.SetVolumeText | instruments/pump_control.py:93-94 | an operator edit changes that pump's volume text alone |
| Coordinator.PumpControl.StopAll | instruments/pump_control.py:146-156 | exactly one `stop_all` call; Stopped, nothing priming, status Stopped, every display at zero flow; the new state does not depend on the old one |
| Coordinator.PumpControl.Shutdown | instruments/pump_control.py:255-256 | shutting down stops the fleet as `stop_all` does: one stop call, Stopped, nothing priming, zero-flow displays and the stop message |
| Coordinator.PumpControl.ShowZeroFlow | instruments/pump_control.py:154 | every pump's display shows "0 ul/hr" |
| Coordinator.PumpControl.ShowRates | instruments/pump_control.py:185 | pumps named in the reply show the reported rate with its unit; the others keep their display |
| Coordinator.PumpControl.NormaliseRate | instruments/pump_control.py:165-169 | one pump's rate is its resolved text, and its field alone is reset when rejected |
| Coordinator.PumpControl.NormaliseRates | instruments/pump_control.py:164-169 | the loop sends the resolved rate of every field and resets exactly the rejected ones |
| Coordinator.PumpControl.RunUpdate | instruments/pump_control.py:158-194 | the calls are `stop_all` (only from Running), `set_rates` of the resolved rates, `run_all`, `get_rates` of all pumps; ends Running with status Running, the displays showing the reply and the priming set untouched |
| Coordinator.PumpControl.Update | instruments/pump_control.py:179-185 | from Running: stop, set rates, run, read rates, report an update |
| Coordinator.PumpControl.Run | instruments/pump_control.py:187-194 | from Stopped: set rates, run, enter Running, read rates, report a run |
| Coordinator.PumpControl.UpdateSyringe | instruments/pump_control.py:196-204 | while Stopped: `set_diameter` with the catalog diameter then `get_diameter`, or a raise with no call for a name outside the catalog, which no name the selector lists causes; while Running: no call and the refusal is reported |
| Coordinator.PumpControl.PrimePumps | instruments/pump_control.py:206-222 | while Stopped: `prime` or `stop_pump` of that pump by its membership, then `get_rates` of all pumps; the pump is toggled and its display shows the reply; while Running: no call, nothing changes but the refusal message |
| Coordinator.PumpControl.TogglePrime | instruments/pump_control.py:207-217 | the toggle issues `prime` or `stop_pump`, and the status bar shows Priming, or Stopped once the last priming pump stops |
| Coordinator.PumpControl.DeliverVolume | instruments/pump_control.py:224-240 | while Stopped: `set_vol` with the parsed volume or 50.0, then `run_pump`; while Running: a raise with no call; mode and priming set untouched |
| Coordinator.PumpControl.Habituate | instruments/pump_control.py:242-251 | exactly `set_direct(p, 1)`, `run_stop(p, 100)`, `set_direct(p, -1)`, `run_stop(p, 100)`, in either mode, mode and priming set untouched |
| Scenarios.StartFleet | instruments/pump_control.py:116-132 | a three-pump fleet after start-up is Stopped with every rate field reading "0" |
| Scenarios.StopAllTwice | instruments/pump_control.py:146-156 | a second `stop_all` adds one more stop call and leaves the operator's view as the first left it |
| Scenarios.ZeroFieldsSendZero | instruments/pump_control.py:164-169 | fields that all read "0" send "0" everywhere and stay as they are |
| Scenarios.FirstSessionRates | instruments/pump_control.py:164-169 | fields "100", "12.5", "0" send "100", "0", "0" and are reset to the same |
| Scenarios.FirstSession | instruments/pump_control.py:187-194 | after start-up, with "100" and "12.5" typed, Run/Update sends `set_rates` {1: "100", 2: "0", 3: "0"}, `run_all`, `get_rates`, resets field 2 to "0" and ends Running |
| Scenarios.SyringeSession | instruments/pump_control.py:196-202 | choosing " 5 ml BD" for pump 2 while Stopped sends diameter "11.99" and reads it back |
| Scenarios.PrimeWhileRunning | instruments/pump_control.py:220-222 | after a Run/Update, priming issues no call, leaves the priming set alone and reports the refusal |
| Scenarios.DefaultVolumeSession | instruments/pump_control.py:230-240 | for any `float` stand-in that rejects "abc", volume text "abc" for pump 3 sends `set_vol(3, 50.0)` then `run_pump(3)` |

## Left out

- Qt presentation: layout, labels, signal mappers, the checked state of buttons and status or command text formatting. The bars are kept as the enumerations `Status` and `Msg`.
- The serial port and the `new_era` driver: opening and closing the port is I/O, and the driver's protocol is not part of this model. Each call is a `Cmd` value in `trace`. The replies of `find_pumps`, `get_rates` and `get_diameter` are parameters.
- Volume parsing: `float` is a parameter `parse` returning `Option<real>`. Floating-point semantics are not modelled.
- `strip` and `isdigit` are modelled over ASCII, and Unicode white space and digits outside ASCII are not covered, because Dafny strings carry no Unicode character classes.
- The order in which `set_rates` receives its dictionary: a `map` has no order.
- The `volumes` dictionary computed in `run_update` and every `print`: they do not affect any state or call.
- The constructor requires at least one discovered pump, because `initUI` raises (`row` is unbound at line 123) when `find_pumps` returns none. It also requires distinct pump ids: the model assumes discovery reports each bus address once.
- `reply` of `run_update` names only discovered pumps, and the `prime_pumps` reply names the primed pump. Otherwise the display update raises a `KeyError`, and that exception is not modelled.
- Which pump a handler acts on: the pump id is a parameter, whatever the button signal passes.
- Concurrency, locking and driver-failure handling: the code is single-threaded and has none.
- Scenarios.StopAllTwice: compares the view after each stop (mode, status bars, priming set, displays) rather than the whole object, because the rate and volume texts are outside the frame of `stop_all` and stay unchanged anyway.
