# Environmental monitor with keypad lock: a Dafny model

This project models the controller of a single-board environmental monitor,
`Documentacion.cpp`. A 4x4 keypad gates access with a four-key PIN
(`0690`). Three wrong submissions raise a lockout and reset the gate. Once
unlocked, a state machine cycles through its states:
- environmental monitoring (temperature and humidity);
- the light-events monitor;
- a light alert;
- a blocking critical alarm;
- two proximity handlers (infrared and Hall).

The controller's state is four globals: `inputPassword`, `attemptCount`,
`currentState` and `stateChangeTime`.

Layout:

- `state.dfy`, module `MonitorState`. It holds:
  - the four globals as one `Snapshot` value;
  - the state codes;
  - the 32-bit `millis()` clock (`Millis`, an integer below 2^32), with
    `Elapsed` computing the wrapping unsigned subtraction;
  - the sensor readings.
- `gate.dfy`, module `AccessGate`. The key handling of `loop()` and
  `reset()`, as functions on `Snapshot`, with lemmas about key sequences.
- `machine.dfy`, module `Monitoring`. The six state handlers and the
  `switch` that dispatches them, as functions on `Snapshot`. `alarma`'s
  polling loop is `Recovery`, which finds the first in-range reading.
- `loop.dfy`, module `MainLoop`. One pass of `loop()` (key handling, then
  dispatch) and whole runs from power-up, with the invariant these runs keep.
- `controller.dfy`, module `Board`:
  - `getAsterisks` as a method with its `for` loop;
  - class `Controller`, whose fields are the four globals. Its methods
    update them in place as the source does. Each is proved to leave the
    fields equal to the matching function above.

Behaviour modelled as the code has it:
- The `switch (currentState)` (lines 208-227) stands after the closing brace
  of `loop()`, so the file as written does not compile. The model runs it
  where it is evidently meant to be: after the key handling, on every pass.
- Keys are handled in every state, not only while locked. A correct
  submission from any state sets state 1.
- Every key other than `#` and `*` is appended, the letters `A`-`D` as well
  as digits.
- A correct submission clears neither the entry nor the attempt counter. A
  second `#` is therefore accepted again and restamps the time
  (`SuccessKeepsSession`). The counter counts wrong submissions modulo 3
  across unlocks (`AttemptsCountFailures`).
- A `#` on an entry shorter than four keys is a failed attempt.
- No handler ever assigns state 0, 5 or 6. From power-up, the infrared and
  Hall states are never entered (`Reachable`).
- `alarma` blocks in its own loop until a reading is in range. When a finite
  list of readings runs out without one, the pass is `Held`: `loop()` has
  not returned, and `Run` processes no later pass.

## Model

| member | source | states |
|---|---|---|
| MonitorState.Elapsed | Documentacion.cpp:267 | the elapsed time is the unique duration that, added to the stored timestamp modulo 2^32, gives the current clock, so the debounce tests are right across a clock roll-over |
| AccessGate.ResetSession | Documentacion.cpp:451-456 | reset empties the entry and zeroes the counter; the state code and timestamp are untouched |
| AccessGate.Submit | Documentacion.cpp:165-191 | the correct entry goes to state 1 and stamps the time, keeping entry and counter; any other entry (wrong or shorter than four) empties the entry, adds one to the counter, resets the session on reaching 3, and leaves state and timestamp; a counter in 0..2 stays in 0..2; the state changes only after a four-key entry |
| AccessGate.ClearEntry | Documentacion.cpp:192-195 | `*` empties the entry and changes nothing else |
| AccessGate.AppendKey | Documentacion.cpp:196-201 | a key is appended only while the entry is shorter than four and is dropped otherwise with nothing changed; the entry never grows past four |
| AccessGate.KeyStep | Documentacion.cpp:161-204 | NO_KEY changes nothing; the entry stays at most four keys; only `#` touches counter, state or timestamp; the state either stays or becomes 1; the counter stays in 0..2 |
| AccessGate.OnlyPasswordUnlocks | Documentacion.cpp:165-174 | a key event changes the state code only when it is `#` on the correct entry, and then to 1 |
| AccessGate.ClearIdempotent | Documentacion.cpp:192-195 | pressing `*` twice equals pressing it once, with counter, state and timestamp kept |
| AccessGate.SuccessKeepsSession | Documentacion.cpp:166-174 | after a correct submission the entry is still the password and the counter is unchanged, so a repeated `#` only restamps the time |
| AccessGate.EntryKeepsFirstKeys | Documentacion.cpp:196-201 | any run of entry keys leaves the entry equal to the first four keys typed (after what was already entered), with counter, state and timestamp unchanged |
| AccessGate.AttemptsCountFailures | Documentacion.cpp:176-190 | over any key sequence the counter equals its start plus the number of wrong submissions, modulo 3 |
| AccessGate.ThreeFailuresReset | Documentacion.cpp:176-190 | from a fresh counter, three wrong submissions take the counter through 1 and 2 and back to the empty session, state unchanged |
| Monitoring.TriggerNegatesRecovery | Documentacion.cpp:422 | the environmental alarm trigger (line 260) is exactly the negation of the alarm loop's recovery test |
| Monitoring.Classify | Documentacion.cpp:382-394 | the alert handler takes the high branch iff lux > 700, the low branch iff lux < 200, and sounds no alarm exactly when the events handler's abnormal-light test fails |
| Monitoring.AmbientStep | Documentacion.cpp:255-279 | an out-of-range reading moves to the alarm and stamps the time whatever the elapsed time; an in-range one moves to the events monitor after 4000 ms and otherwise changes nothing; entry and counter are untouched |
| Monitoring.EventsStep | Documentacion.cpp:304-327 | before 3000 ms nothing changes; afterwards the time is stamped and the state becomes 3 iff the light is abnormal, 1 otherwise |
| Monitoring.AlertStep | Documentacion.cpp:371-398 | before 3000 ms nothing changes; afterwards the state becomes 2 with a new timestamp, whatever the light |
| Monitoring.ProximityStep | Documentacion.cpp:335-364 | a low pin changes nothing; a high pin moves to state 2 and stamps the time |
| Monitoring.Recovery | Documentacion.cpp:417-429 | finds the first reading in range, with every earlier one out of range, or reports none when all are out of range |
| Monitoring.AlarmStep | Documentacion.cpp:405-430 | the alarm stays held, unchanged, exactly when no reading is in range; otherwise it returns with state 1 and the timestamp of the first in-range reading |
| Monitoring.AmbientDebounceAcrossRollover | Documentacion.cpp:267 | 1000 ms before the clock wraps plus 3000 ms after it count as the 4000 ms debounce; one millisecond less does not |
| Monitoring.ThresholdExamples | Documentacion.cpp:255-327 | 45 C raises the alarm at any time; after the debounce 750 lux leads to the alert and 450 lux back to environmental monitoring |
| Monitoring.DispatchStep | Documentacion.cpp:208-227 | each state code moves only to its handler's successors; no pass ever enters 0, 5 or 6 from another code; only the alarm can hold; codes without a case change nothing; the infrared and Hall cases move only on a high pin |
| Monitoring.AlarmExitsOnlyOnRecovery | Documentacion.cpp:417-428 | the alarm state is left only for state 1 and only if some reading was in range |
| MainLoop.LoopStep | Documentacion.cpp:161-227 | one pass enters no state but 1..4 from another code, and only `#` changes the counter |
| MainLoop.InitSatisfiesInv | Documentacion.cpp:72-76 | the initial globals satisfy the invariant: short entry, counter in 0..2, state in 0..4 |
| MainLoop.LoopStepPreservesInv | Documentacion.cpp:161-227 | one pass of the loop keeps the invariant |
| MainLoop.RunPreservesInv | Documentacion.cpp:161-227 | any number of passes keeps the invariant |
| MainLoop.Reachable | Documentacion.cpp:161-227 | from power-up, whatever the keys and readings, the entry is at most four keys, the counter is in 0..2, and only states 0..4 are ever reached |
| Board.GetAsterisks | Documentacion.cpp:438-444 | returns max(length, 0) characters, all of them `*` |
| Board.Controller.constructor | Documentacion.cpp:72-76 | the globals start as an empty entry, no attempts, state 0 and timestamp 0 |
| Board.Controller.Reset | Documentacion.cpp:451-456 | empties the entry and zeroes the counter in place, leaving state and timestamp |
| Board.Controller.OnKey | Documentacion.cpp:161-204 | updates the fields as `KeyStep`; writes the masked line exactly when an entry key is appended, and that line has one `*` per entered key, between 1 and 4 |
| Board.Controller.MonitoreoAmbiental | Documentacion.cpp:255-279 | updates the fields as `AmbientStep` |
| Board.Controller.MonitorEventos | Documentacion.cpp:304-327 | updates the fields as `EventsStep` |
| Board.Controller.Alerta | Documentacion.cpp:371-398 | updates the fields as `AlertStep` and reports the light branch taken once debounced |
| Board.Controller.Alarma | Documentacion.cpp:405-430 | its polling loop leaves the fields as `AlarmStep` and reports whether it broke out |
| Board.Controller.MonitoreoInfrarrojo | Documentacion.cpp:335-346 | updates the fields as `ProximityStep` on the infrared pin |
| Board.Controller.MonitoreoHall | Documentacion.cpp:353-364 | updates the fields as `ProximityStep` on the Hall pin |
| Board.Controller.Dispatch | Documentacion.cpp:208-227 | runs the handler of the current code, leaving the fields as `DispatchStep` |
| Board.Controller.Loop | Documentacion.cpp:161-227 | one pass leaves the fields as `LoopStep` and keeps the invariant |

## Left out

- Drivers. Keypad scanning, LCD output and cursor positions, `digitalWrite`
  of the LEDs, `tone`/`noTone`, `delay` and the pin set-up in `setup()` are
  all left out. A key press, the DHT readings, the computed illuminance, the
  pin levels and the clock values are parameters.
- The display text, including the third-row cursor at line 413. The one
  display output modelled is the masked entry line.
- The lux computation at lines 306-308 and 373-375. It is floating point
  with `pow`, and `RL10`/`GAMMA` are not defined in the file. Illuminance
  is taken as a given `real`.
- DHT failures (NaN) and float rounding. Temperature and humidity are
  `real`.
- `alarmSound` and `welcomeTone`. They are fixed tone and delay sequences
  with no logic.
- Board.Controller.MonitoreoAmbiental: reads the clock once per call. The
  source reads `millis()` again after its LCD writes, and `OnKey`, `Alerta`,
  `MonitoreoInfrarrojo` and `MonitoreoHall` read it after blocking tones and
  delays. The model takes each handler's clock value as one parameter,
  the value stored.
- Board.Controller.Alarma: the `while (true)` loop runs over a finite list
  of readings. When none of them is in range, the model reports the loop
  as still polling; it does not model polling forever.
- `attemptCount` and `currentState` are unbounded integers rather than the
  board's 16-bit `int`. Both stay in 0..6 from power-up, so no overflow
  can occur.
