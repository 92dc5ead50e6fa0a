/** One pass of `loop()`: the key handling, then the state dispatch. The
    dispatch sits after the closing brace of `loop()` in the source; it is
    modelled as it is evidently meant, as the second half of every pass. */
module MainLoop {
  import opened MonitorState
  import opened AccessGate
  import opened Monitoring

  /** What one pass reads: the key (possibly NO_KEY), the clock value of the
      key handling, and what the dispatched handler reads. */
  datatype Iteration = Iteration(key: char, keyAt: Millis, sensors: Sensors)

  function LoopStep(s: Snapshot, it: Iteration): (r: Tick)
    ensures r.next.state == s.state || r.next.state in {ENVIRONMENTAL, EVENTS, ALERT, ALARM}
    ensures it.key != '#' ==> r.next.attempts == s.attempts
  {
    DispatchStep(KeyStep(s, it.key, it.keyAt), it.sensors)
  }

  /** The snapshot after the passes in `its`. A pass whose alarm loop is still
      polling never returns, so the passes after it do not happen. */
  function Run(s: Snapshot, its: seq<Iteration>): Snapshot
    decreases |its|
  {
    if its == [] then s
    else match LoopStep(s, its[0]) {
      case Held(next) => next
      case Returned(next) => Run(next, its[1..])
    }
  }

  /** What stays true from power-up on: the entry is at most four keys, the
      counter is 0, 1 or 2, and the state code is one of 0..4. */
  ghost predicate Inv(s: Snapshot) {
    && |s.input| <= MAX_LENGTH
    && 0 <= s.attempts < MAX_ATTEMPTS
    && LOCKED <= s.state <= ALARM
  }

  lemma InitSatisfiesInv()
    ensures Inv(INIT)
  {
  }

  lemma LoopStepPreservesInv(s: Snapshot, it: Iteration)
    requires Inv(s)
    ensures Inv(LoopStep(s, it).next)
  {
    var keyed := KeyStep(s, it.key, it.keyAt);
    assert Inv(keyed);
    var r := DispatchStep(keyed, it.sensors);
    assert r.next.state in Successors(keyed.state);
  }

  lemma {:induction false} RunPreservesInv(s: Snapshot, its: seq<Iteration>)
    requires Inv(s)
    ensures Inv(Run(s, its))
    decreases |its|
  {
    if its != [] {
      LoopStepPreservesInv(s, its[0]);
      match LoopStep(s, its[0]) {
        case Held(next) =>
        case Returned(next) => RunPreservesInv(next, its[1..]);
      }
    }
  }

  /** From power-up, whatever the keys and the readings, the entry never
      exceeds four keys, the counter stays in 0..2, and the infrared and Hall
      states are never entered. */
  lemma Reachable(its: seq<Iteration>)
    ensures |Run(INIT, its).input| <= MAX_LENGTH
    ensures 0 <= Run(INIT, its).attempts < MAX_ATTEMPTS
    ensures Run(INIT, its).state in {LOCKED, ENVIRONMENTAL, EVENTS, ALERT, ALARM}
  {
    RunPreservesInv(INIT, its);
  }
}
