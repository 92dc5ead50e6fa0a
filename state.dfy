/** Values shared by the access gate and the monitoring state machine of the
    environmental monitor: the four global variables as one value, the state
    codes held in `currentState`, the 32-bit millisecond clock and the sensor
    readings the handlers poll. */
module MonitorState {

  datatype Option<T> = None | Some(value: T)

  /** The codes stored in `currentState`; 0 is the initial, locked state. */
  const LOCKED: int := 0
  const ENVIRONMENTAL: int := 1
  const EVENTS: int := 2
  const ALERT: int := 3
  const ALARM: int := 4
  const INFRARED: int := 5
  const HALL: int := 6

  /** What the keypad reports when no key is pressed; `loop()` skips it. */
  const NO_KEY: char := '\0'

  /** The `unsigned long` counter returned by `millis()`: 32 bits on the
      board, so it rolls over to 0 after 2^32 - 1. */
  const CLOCK_MODULUS: int := 0x1_0000_0000
  type Millis = x: int | 0 <= x < CLOCK_MODULUS

  /** The globals `inputPassword`, `attemptCount`, `currentState` and
      `stateChangeTime`. The timestamp is an `Millis` value. */
  datatype Snapshot = Snapshot(input: string, attempts: int, state: int, changedAt: Millis)

  /** The globals' initial values. */
  const INIT: Snapshot := Snapshot("", 0, LOCKED, 0)

  /** `millis() - stateChangeTime` on unsigned 32-bit values: the subtraction
      wraps, so the result is the one duration that takes `since` to `now`
      modulo 2^32, even when the clock has rolled over in between. */
  function Elapsed(since: Millis, now: Millis): (d: Millis)
    ensures (since + d) % CLOCK_MODULUS == now
  {
    (now - since) % CLOCK_MODULUS
  }

  /** A temperature (degrees Celsius) and a relative humidity (%) reading. */
  datatype Climate = Climate(t: real, h: real)

  /** One reading taken inside the alarm's polling loop, with the clock value
      the loop records if that reading ends the alarm. */
  datatype Sample = Sample(climate: Climate, at: Millis)

  /** Everything the state handlers read from the drivers during one pass of
      the dispatch: the climate reading, the computed illuminance, the two
      digital pins, the clock, and the readings the alarm loop would take. */
  datatype Sensors = Sensors(
    climate: Climate,
    lux: real,
    infrared: bool,
    hall: bool,
    now: Millis,
    alarmSamples: seq<Sample>)
}
