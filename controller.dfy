/** The program's four globals as the fields of one controller object, with
    `loop()`, `reset()`, `getAsterisks()` and the six state handlers as its
    operations. Every method that changes the fields is proved to leave them
    as the matching function of AccessGate, Monitoring or MainLoop says. */
module Board {
  import opened MonitorState
  import opened AccessGate
  import opened Monitoring
  import opened MainLoop

  /** `getAsterisks`: `length` stars, none when `length` is not positive. */
  method GetAsterisks(length: int) returns (asterisks: string)
    ensures |asterisks| == if length < 0 then 0 else length
    ensures forall i :: 0 <= i < |asterisks| ==> asterisks[i] == '*'
  {
    asterisks := "";
    var i := 0;
    while i < length
      invariant 0 <= i <= if length < 0 then 0 else length
      invariant |asterisks| == i
      invariant forall j :: 0 <= j < i ==> asterisks[j] == '*'
      decreases length - i
    {
      asterisks := asterisks + "*";
      i := i + 1;
    }
  }

  class Controller {
    var inputPassword: string
    var attemptCount: int
    var currentState: int
    var stateChangeTime: Millis

    /** The globals' initial values. */
    constructor ()
      ensures Snap() == INIT
    {
      inputPassword := "";
      attemptCount := 0;
      currentState := LOCKED;
      stateChangeTime := 0;
    }

    function Snap(): Snapshot
      reads this
    {
      Snapshot(inputPassword, attemptCount, currentState, stateChangeTime)
    }

    /** `reset()`. */
    method Reset()
      modifies this
      ensures Snap() == ResetSession(old(Snap()))
      ensures inputPassword == [] && attemptCount == 0
      ensures currentState == old(currentState) && stateChangeTime == old(stateChangeTime)
    {
      inputPassword := "";
      attemptCount := 0;
    }

    /** The key handling of `loop()`. When a key is appended, `masked` is the
        line of stars written to the display, one per key entered. */
    method OnKey(key: char, now: Millis) returns (masked: Option<string>)
      modifies this
      ensures Snap() == KeyStep(old(Snap()), key, now)
      ensures |old(inputPassword)| <= MAX_LENGTH ==> |inputPassword| <= MAX_LENGTH
      ensures masked.Some? <==>
        key != NO_KEY && key != '#' && key != '*' && |old(inputPassword)| < MAX_LENGTH
      ensures masked.Some? ==>
        && |masked.value| == |inputPassword|
        && 1 <= |masked.value| <= MAX_LENGTH
        && forall i :: 0 <= i < |masked.value| ==> masked.value[i] == '*'
    {
      masked := None;
      if key != NO_KEY {
        if key == '#' {
          if |inputPassword| == 4 && inputPassword == CORRECT_PASSWORD {
            currentState := ENVIRONMENTAL;
            stateChangeTime := now;
          } else {
            attemptCount := attemptCount + 1;
            inputPassword := "";
            if attemptCount >= MAX_ATTEMPTS {
              Reset();
            }
          }
        } else if key == '*' {
          inputPassword := "";
        } else {
          if |inputPassword| < 4 {
            inputPassword := inputPassword + [key];
            var stars := GetAsterisks(|inputPassword|);
            masked := Some(stars);
          }
        }
      }
    }

    /** `monitoreoAmbiental`, given the humidity and temperature it reads. */
    method MonitoreoAmbiental(h: real, t: real, now: Millis)
      modifies this
      ensures Snap() == AmbientStep(old(Snap()), Climate(t, h), now)
    {
      if t < 10.0 || t > 40.0 || h < 5.0 || h > 60.0 {
        currentState := ALARM;
        stateChangeTime := now;
        return;
      }
      if Elapsed(stateChangeTime, now) >= 4000 {
        currentState := EVENTS;
        stateChangeTime := now;
      }
    }

    /** `monitorEventos`, given the illuminance computed from the photoresistor. */
    method MonitorEventos(lux: real, now: Millis)
      modifies this
      ensures Snap() == EventsStep(old(Snap()), lux, now)
    {
      if Elapsed(stateChangeTime, now) >= 3000 {
        if lux > 700.0 || lux < 200.0 {
          currentState := ALERT;
          stateChangeTime := now;
        } else {
          currentState := ENVIRONMENTAL;
          stateChangeTime := now;
        }
      }
    }

    /** `alerta`. Once debounced, `level` is the branch it takes: high or low
        light sound the alarm, normal light does not. */
    method Alerta(lux: real, now: Millis) returns (level: Option<LightLevel>)
      modifies this
      ensures Snap() == AlertStep(old(Snap()), now)
      ensures level == if Elapsed(old(stateChangeTime), now) >= 3000 then Some(Classify(lux)) else None
    {
      level := None;
      if Elapsed(stateChangeTime, now) >= 3000 {
        if lux > 700.0 {
          level := Some(High);
        } else if lux < 200.0 {
          level := Some(Low);
        } else {
          level := Some(Normal);
        }
        currentState := EVENTS;
        stateChangeTime := now;
      }
    }

    /** `alarma`: its `while (true)` loop over the readings it takes. If none
        of `samples` is in range, the loop is still polling when they run out
        and `released` is false. */
    method Alarma(samples: seq<Sample>) returns (released: bool)
      modifies this
      ensures released == AlarmStep(old(Snap()), samples).Returned?
      ensures Snap() == AlarmStep(old(Snap()), samples).next
    {
      released := false;
      var i := 0;
      while i < |samples|
        invariant 0 <= i <= |samples|
        invariant forall j :: 0 <= j < i ==> !InRange(samples[j].climate)
        invariant Snap() == old(Snap())
      {
        var h := samples[i].climate.h;
        var t := samples[i].climate.t;
        if t >= 10.0 && t <= 40.0 && h >= 5.0 && h <= 60.0 {
          currentState := ENVIRONMENTAL;
          stateChangeTime := samples[i].at;
          released := true;
          break;
        }
        i := i + 1;
      }
    }

    /** `monitoreoInfrarrojo`, given the level of the infrared pin. */
    method MonitoreoInfrarrojo(pinHigh: bool, now: Millis)
      modifies this
      ensures Snap() == ProximityStep(old(Snap()), pinHigh, now)
    {
      if pinHigh {
        currentState := EVENTS;
        stateChangeTime := now;
      }
    }

    /** `monitoreoHall`, given the level of the Hall pin. */
    method MonitoreoHall(pinHigh: bool, now: Millis)
      modifies this
      ensures Snap() == ProximityStep(old(Snap()), pinHigh, now)
    {
      if pinHigh {
        currentState := EVENTS;
        stateChangeTime := now;
      }
    }

    /** The `switch (currentState)`. `returned` is false when the alarm loop
        is still polling. */
    method Dispatch(sensors: Sensors) returns (returned: bool)
      modifies this
      ensures returned == DispatchStep(old(Snap()), sensors).Returned?
      ensures Snap() == DispatchStep(old(Snap()), sensors).next
    {
      returned := true;
      match currentState {
        case 1 => MonitoreoAmbiental(sensors.climate.h, sensors.climate.t, sensors.now);
        case 2 => MonitorEventos(sensors.lux, sensors.now);
        case 3 => var _ := Alerta(sensors.lux, sensors.now);
        case 4 => returned := Alarma(sensors.alarmSamples);
        case 5 => MonitoreoInfrarrojo(sensors.infrared, sensors.now);
        case 6 => MonitoreoHall(sensors.hall, sensors.now);
        case _ =>
      }
    }

    /** One pass of `loop()`: the key handling, then the dispatch. */
    method Loop(it: Iteration) returns (returned: bool)
      modifies this
      ensures returned == LoopStep(old(Snap()), it).Returned?
      ensures Snap() == LoopStep(old(Snap()), it).next
      ensures Inv(old(Snap())) ==> Inv(Snap())
    {
      if Inv(Snap()) {
        LoopStepPreservesInv(Snap(), it);
      }
      var _ := OnKey(it.key, it.keyAt);
      returned := Dispatch(it.sensors);
    }
  }
}
