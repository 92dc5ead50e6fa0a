/** The monitoring state machine: one handler per state code and the switch
    that dispatches on `currentState`. Handlers only touch the state code and
    its timestamp, never the access gate's entry or counter. */
module Monitoring {
  import opened MonitorState

  /** The environmental handler's alarm test: temperature outside 10..40 C
      or humidity outside 5..60 %. */
  predicate OutOfRange(c: Climate) {
    c.t < 10.0 || c.t > 40.0 || c.h < 5.0 || c.h > 60.0
  }

  /** The alarm loop's recovery test, written separately in the source. */
  predicate InRange(c: Climate) {
    c.t >= 10.0 && c.t <= 40.0 && c.h >= 5.0 && c.h <= 60.0
  }

  /** The two tests agree: the alarm is entered exactly on the readings that
      the alarm loop does not accept as recovered. */
  lemma TriggerNegatesRecovery(c: Climate)
    ensures OutOfRange(c) <==> !InRange(c)
  {
  }

  /** The light test that sends the events handler to the alert state. */
  predicate AbnormalLight(lux: real) {
    lux > 700.0 || lux < 200.0
  }

  /** The branch the alert handler takes once its debounce has elapsed. */
  datatype LightLevel = High | Low | Normal

  function Classify(lux: real): (level: LightLevel)
    ensures level == High <==> lux > 700.0
    ensures level == Low <==> lux < 200.0
    ensures level != Normal <==> AbnormalLight(lux)
  {
    if lux > 700.0 then High else if lux < 200.0 then Low else Normal
  }

  /** `monitoreoAmbiental`: an out-of-range reading raises the alarm at once;
      otherwise, after 4000 ms in the state, move on to the events monitor. */
  function AmbientStep(s: Snapshot, c: Climate, now: Millis): (r: Snapshot)
    ensures r.input == s.input && r.attempts == s.attempts
    ensures !InRange(c) ==> r.state == ALARM && r.changedAt == now
    ensures InRange(c) && Elapsed(s.changedAt, now) >= 4000 ==> r.state == EVENTS && r.changedAt == now
    ensures InRange(c) && Elapsed(s.changedAt, now) < 4000 ==> r == s
  {
    if OutOfRange(c) then s.(state := ALARM, changedAt := now)
    else if Elapsed(s.changedAt, now) >= 4000 then s.(state := EVENTS, changedAt := now)
    else s
  }

  /** `monitorEventos`: after 3000 ms in the state, go to the alert state on
      abnormal light and back to environmental monitoring otherwise. */
  function EventsStep(s: Snapshot, lux: real, now: Millis): (r: Snapshot)
    ensures r.input == s.input && r.attempts == s.attempts
    ensures Elapsed(s.changedAt, now) < 3000 ==> r == s
    ensures Elapsed(s.changedAt, now) >= 3000 ==>
      && r.changedAt == now
      && (r.state == ALERT <==> Classify(lux) != Normal)
      && (r.state == ALERT || r.state == ENVIRONMENTAL)
  {
    if Elapsed(s.changedAt, now) >= 3000 then
      if AbnormalLight(lux) then s.(state := ALERT, changedAt := now)
      else s.(state := ENVIRONMENTAL, changedAt := now)
    else s
  }

  /** `alerta`: after 3000 ms in the state it returns to the events monitor,
      whatever the light level (which only selects the message and the
      alarm sound). */
  function AlertStep(s: Snapshot, now: Millis): (r: Snapshot)
    ensures r.input == s.input && r.attempts == s.attempts
    ensures Elapsed(s.changedAt, now) < 3000 ==> r == s
    ensures Elapsed(s.changedAt, now) >= 3000 ==> r.state == EVENTS && r.changedAt == now
  {
    if Elapsed(s.changedAt, now) >= 3000 then s.(state := EVENTS, changedAt := now) else s
  }

  /** `monitoreoInfrarrojo` and `monitoreoHall`: a high pin sends the machine
      to the events monitor; a low pin changes nothing. */
  function ProximityStep(s: Snapshot, pin: bool, now: Millis): (r: Snapshot)
    ensures r.input == s.input && r.attempts == s.attempts
    ensures !pin ==> r == s
    ensures pin ==> r.state == EVENTS && r.changedAt == now
  {
    if pin then s.(state := EVENTS, changedAt := now) else s
  }

  /** The position of the first reading that passes the recovery test, if
      any: where the alarm loop breaks out. */
  function Recovery(samples: seq<Sample>): (k: Option<nat>)
    ensures k.Some? ==>
      && k.value < |samples|
      && InRange(samples[k.value].climate)
      && forall j :: 0 <= j < k.value ==> !InRange(samples[j].climate)
    ensures k.None? ==> forall j :: 0 <= j < |samples| ==> !InRange(samples[j].climate)
    decreases |samples|
  {
    if samples == [] then None
    else if InRange(samples[0].climate) then Some(0)
    else match Recovery(samples[1..]) {
      case None => None
      case Some(k) => Some(k + 1)
    }
  }

  /** The outcome of one pass of the dispatch: the handler returned, or the
      alarm loop is still polling after the readings seen so far, so `loop()`
      has not returned. */
  datatype Tick = Returned(next: Snapshot) | Held(next: Snapshot)

  /** `alarma`: poll until a reading is in range, then go back to
      environmental monitoring with the clock value of that reading. */
  function AlarmStep(s: Snapshot, samples: seq<Sample>): (r: Tick)
    ensures r.next.input == s.input && r.next.attempts == s.attempts
    ensures r.Held? <==> forall j :: 0 <= j < |samples| ==> !InRange(samples[j].climate)
    ensures r.Held? ==> r.next == s
    ensures r.Returned? ==>
      && r.next.state == ENVIRONMENTAL
      && exists k :: 0 <= k < |samples| && r.next.changedAt == samples[k].at
                     && InRange(samples[k].climate)
                     && forall j :: 0 <= j < k ==> !InRange(samples[j].climate)
  {
    match Recovery(samples) {
      case None => Held(s)
      case Some(k) => Returned(s.(state := ENVIRONMENTAL, changedAt := samples[k].at))
    }
  }

  /** The debounce survives the clock's roll-over: 1000 ms before the wrap
      plus 3000 ms after it is 4000 ms elapsed, and the environmental
      handler moves on. */
  lemma AmbientDebounceAcrossRollover(s: Snapshot)
    requires s.changedAt == CLOCK_MODULUS - 1000
    ensures Elapsed(s.changedAt, 3000) == 4000
    ensures AmbientStep(s, Climate(25.0, 30.0), 3000).state == EVENTS
    ensures AmbientStep(s, Climate(25.0, 30.0), 2999) == s
  {
  }

  /** A reading of 45 C raises the alarm whatever the time in the state; at
      750 lux the events handler goes to the alert state and at 450 lux back
      to environmental monitoring, once 3000 ms have passed. */
  lemma ThresholdExamples(s: Snapshot, now: Millis)
    ensures AmbientStep(s, Climate(45.0, 30.0), now).state == ALARM
    ensures Elapsed(s.changedAt, now) >= 3000 ==> EventsStep(s, 750.0, now).state == ALERT
    ensures Elapsed(s.changedAt, now) >= 3000 ==> EventsStep(s, 450.0, now).state == ENVIRONMENTAL
  {
  }

  /** The state codes each code can move to in one pass of the dispatch. */
  function Successors(q: int): set<int> {
    if q == ENVIRONMENTAL then {ENVIRONMENTAL, EVENTS, ALARM}
    else if q == EVENTS then {EVENTS, ENVIRONMENTAL, ALERT}
    else if q == ALERT then {ALERT, EVENTS}
    else if q == ALARM then {ALARM, ENVIRONMENTAL}
    else if q == INFRARED || q == HALL then {q, EVENTS}
    else {q}
  }

  /** The `switch (currentState)`: run the handler of the current state; codes
      0 and anything outside 1..6 have no case and change nothing. */
  function DispatchStep(s: Snapshot, sensors: Sensors): (r: Tick)
    ensures r.next.input == s.input && r.next.attempts == s.attempts
    ensures r.next.state in Successors(s.state)
    ensures r.next.state == s.state || r.next.state in {ENVIRONMENTAL, EVENTS, ALERT, ALARM}
    ensures r.Held? ==> s.state == ALARM && r.next == s
    ensures !(ENVIRONMENTAL <= s.state <= HALL) ==> r == Returned(s)
    ensures s.state == INFRARED ==> r == Returned(ProximityStep(s, sensors.infrared, sensors.now))
    ensures s.state == HALL ==> r == Returned(ProximityStep(s, sensors.hall, sensors.now))
  {
    if s.state == ENVIRONMENTAL then Returned(AmbientStep(s, sensors.climate, sensors.now))
    else if s.state == EVENTS then Returned(EventsStep(s, sensors.lux, sensors.now))
    else if s.state == ALERT then Returned(AlertStep(s, sensors.now))
    else if s.state == ALARM then AlarmStep(s, sensors.alarmSamples)
    else if s.state == INFRARED then Returned(ProximityStep(s, sensors.infrared, sensors.now))
    else if s.state == HALL then Returned(ProximityStep(s, sensors.hall, sensors.now))
    else Returned(s)
  }

  /** The alarm is left only for environmental monitoring, and only once a
      reading is in range; a run of bad readings keeps it held. */
  lemma AlarmExitsOnlyOnRecovery(s: Snapshot, sensors: Sensors)
    requires s.state == ALARM
    ensures var r := DispatchStep(s, sensors);
      r.next.state != ALARM ==>
        && r.next.state == ENVIRONMENTAL
        && exists k :: 0 <= k < |sensors.alarmSamples| && InRange(sensors.alarmSamples[k].climate)
  {
  }
}
