/** The access gate: the key handling at the top of `loop()` and `reset()`.
    `#` submits the entry, `*` clears it, and every other key (digits and
    the letters A-D alike) is appended while the entry is shorter than four.
    Key handling runs in every state, not only while locked. */
module AccessGate {
  import opened MonitorState

  const CORRECT_PASSWORD: string := "0690"
  const MAX_ATTEMPTS: int := 3
  /** The longest entry the keypad handler accepts. */
  const MAX_LENGTH: nat := 4

  /** `reset()`: forget the entry and the failed attempts; the state code and
      the timestamp are left alone, so the gate stays where it was. */
  function ResetSession(s: Snapshot): (r: Snapshot)
    ensures r.input == [] && r.attempts == 0
    ensures r.state == s.state && r.changedAt == s.changedAt
  {
    s.(input := "", attempts := 0)
  }

  /** Key `#`. The correct entry moves to environmental monitoring and stamps
      the time, but keeps both the entry and the attempt counter. Anything
      else, including an entry shorter than four, is a failed attempt: the
      entry is emptied and the counter goes up by one, and the third failure
      resets the session. */
  function Submit(s: Snapshot, now: Millis): (r: Snapshot)
    ensures s.input == CORRECT_PASSWORD ==> r == s.(state := ENVIRONMENTAL, changedAt := now)
    ensures s.input != CORRECT_PASSWORD ==>
      && r.input == []
      && r.state == s.state
      && r.changedAt == s.changedAt
      && r.attempts == (if s.attempts + 1 >= MAX_ATTEMPTS then 0 else s.attempts + 1)
    ensures 0 <= s.attempts < MAX_ATTEMPTS ==> 0 <= r.attempts < MAX_ATTEMPTS
    ensures r.state != s.state ==> |s.input| == MAX_LENGTH && r.state == ENVIRONMENTAL
  {
    if |s.input| == 4 && s.input == CORRECT_PASSWORD then
      s.(state := ENVIRONMENTAL, changedAt := now)
    else
      var failed := s.(attempts := s.attempts + 1, input := "");
      if failed.attempts >= MAX_ATTEMPTS then ResetSession(failed) else failed
  }

  /** Key `*`: empty the entry; nothing else changes. */
  function ClearEntry(s: Snapshot): (r: Snapshot)
    ensures r.input == []
    ensures r.attempts == s.attempts && r.state == s.state && r.changedAt == s.changedAt
  {
    s.(input := "")
  }

  /** Any other key: appended while the entry is shorter than four, dropped
      otherwise. */
  function AppendKey(s: Snapshot, k: char): (r: Snapshot)
    ensures |s.input| < MAX_LENGTH ==> r.input == s.input + [k]
    ensures |s.input| >= MAX_LENGTH ==> r == s
    ensures r.attempts == s.attempts && r.state == s.state && r.changedAt == s.changedAt
    ensures |s.input| <= MAX_LENGTH ==> |r.input| <= MAX_LENGTH
  {
    if |s.input| < 4 then s.(input := s.input + [k]) else s
  }

  /** A key that the handler appends: neither NO_KEY, `#` nor `*`. */
  predicate IsEntryKey(k: char) {
    k != NO_KEY && k != '#' && k != '*'
  }

  /** One key event as `loop()` handles it; `now` is the clock value read
      when a correct entry is accepted. */
  function KeyStep(s: Snapshot, k: char, now: Millis): (r: Snapshot)
    ensures k == NO_KEY ==> r == s
    ensures |s.input| <= MAX_LENGTH ==> |r.input| <= MAX_LENGTH
    ensures k != '#' ==> r.attempts == s.attempts && r.state == s.state && r.changedAt == s.changedAt
    ensures r.state == s.state || r.state == ENVIRONMENTAL
    ensures 0 <= s.attempts < MAX_ATTEMPTS ==> 0 <= r.attempts < MAX_ATTEMPTS
  {
    if k == NO_KEY then s
    else if k == '#' then Submit(s, now)
    else if k == '*' then ClearEntry(s)
    else AppendKey(s, k)
  }

  /** Only a submission of the correct entry changes the state code. */
  lemma OnlyPasswordUnlocks(s: Snapshot, k: char, now: Millis)
    ensures KeyStep(s, k, now).state != s.state ==>
      k == '#' && s.input == CORRECT_PASSWORD && KeyStep(s, k, now).state == ENVIRONMENTAL
  {
  }

  /** Clearing twice is the same as clearing once, and the counter, state and
      timestamp survive both. */
  lemma ClearIdempotent(s: Snapshot, now1: Millis, now2: Millis)
    ensures KeyStep(KeyStep(s, '*', now1), '*', now2) == KeyStep(s, '*', now1)
    ensures KeyStep(s, '*', now1) == s.(input := "")
  {
  }

  /** After a successful submission the entry is still the password, so a
      second `#` is accepted again and only restamps the time. */
  lemma SuccessKeepsSession(s: Snapshot, now1: Millis, now2: Millis)
    requires s.input == CORRECT_PASSWORD
    ensures Submit(s, now1).input == CORRECT_PASSWORD
    ensures Submit(s, now1).attempts == s.attempts
    ensures Submit(Submit(s, now1), now2) == s.(state := ENVIRONMENTAL, changedAt := now2)
  {
  }

  /** A key press with the clock value it is handled at. */
  datatype KeyPress = KeyPress(key: char, at: Millis)

  /** The snapshot after handling `presses` in order. */
  function KeysRun(s: Snapshot, presses: seq<KeyPress>): Snapshot
    decreases |presses|
  {
    if presses == [] then s
    else KeysRun(KeyStep(s, presses[0].key, presses[0].at), presses[1..])
  }

  /** The keys of `presses`, in order. */
  function Keys(presses: seq<KeyPress>): (keys: seq<char>)
    ensures |keys| == |presses|
    ensures forall i :: 0 <= i < |presses| ==> keys[i] == presses[i].key
  {
    seq(|presses|, i requires 0 <= i < |presses| => presses[i].key)
  }

  function Min(a: int, b: int): int {
    if a < b then a else b
  }

  /** Typing entry keys keeps the first four of them and silently drops the
      rest; the counter, state and timestamp do not move. */
  lemma {:induction false} EntryKeepsFirstKeys(s: Snapshot, presses: seq<KeyPress>)
    requires |s.input| <= MAX_LENGTH
    requires forall i :: 0 <= i < |presses| ==> IsEntryKey(presses[i].key)
    ensures var typed := s.input + Keys(presses);
      KeysRun(s, presses).input == typed[..Min(|typed|, MAX_LENGTH)]
    ensures var r := KeysRun(s, presses);
      r.attempts == s.attempts && r.state == s.state && r.changedAt == s.changedAt
    decreases |presses|
  {
    if presses != [] {
      var p := presses[0];
      var next := KeyStep(s, p.key, p.at);
      assert Keys(presses) == [p.key] + Keys(presses[1..]);
      EntryKeepsFirstKeys(next, presses[1..]);
      if |s.input| < MAX_LENGTH {
        assert next.input == s.input + [p.key];
        assert s.input + Keys(presses) == next.input + Keys(presses[1..]);
      } else {
        assert next == s;
        var typed := s.input + Keys(presses);
        var rest := s.input + Keys(presses[1..]);
        assert typed[..MAX_LENGTH] == s.input == rest[..MAX_LENGTH];
      }
    }
  }

  /** How many of `presses` are submissions of a wrong entry. */
  function Failures(s: Snapshot, presses: seq<KeyPress>): nat
    decreases |presses|
  {
    if presses == [] then 0
    else
      (if presses[0].key == '#' && s.input != CORRECT_PASSWORD then 1 else 0)
      + Failures(KeyStep(s, presses[0].key, presses[0].at), presses[1..])
  }

  /** The attempt counter counts wrong submissions modulo MAX_ATTEMPTS: a
      correct entry does not reset it, and every third failure does. */
  lemma {:induction false} AttemptsCountFailures(s: Snapshot, presses: seq<KeyPress>)
    requires 0 <= s.attempts < MAX_ATTEMPTS
    ensures KeysRun(s, presses).attempts == (s.attempts + Failures(s, presses)) % MAX_ATTEMPTS
    decreases |presses|
  {
    if presses != [] {
      var p := presses[0];
      var next := KeyStep(s, p.key, p.at);
      var bump := if p.key == '#' && s.input != CORRECT_PASSWORD then 1 else 0;
      assert next.attempts == (s.attempts + bump) % MAX_ATTEMPTS;
      AttemptsCountFailures(next, presses[1..]);
      var f := Failures(next, presses[1..]);
      assert Failures(s, presses) == bump + f;
      assert (next.attempts + f) % MAX_ATTEMPTS == (s.attempts + bump + f) % MAX_ATTEMPTS by {
        if s.attempts + bump == MAX_ATTEMPTS {
          assert next.attempts == 0;
          assert (MAX_ATTEMPTS + f) % MAX_ATTEMPTS == f % MAX_ATTEMPTS;
        }
      }
    }
  }

  /** Starting from an empty entry and no failures, three wrong submissions
      in a row return the gate to its initial session, with the counter at 1
      and 2 in between. */
  lemma ThreeFailuresReset(s: Snapshot, now1: Millis, now2: Millis, now3: Millis)
    requires s.attempts == 0 && s.input != CORRECT_PASSWORD
    ensures Submit(s, now1).attempts == 1
    ensures Submit(Submit(s, now1), now2).attempts == 2
    ensures Submit(Submit(Submit(s, now1), now2), now3) == s.(input := "", attempts := 0)
  {
  }
}
