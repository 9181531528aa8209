/**
  Runs of one tick source: how many deliveries a phase takes, the full
  focus/break cycle, and the freezing effect of Stop.
 */
module Phases {
  import opened Timer

  /** `n` deliveries of the main tick source. The sound resource is part of
      the app bundle, so it is either present for every delivery or for none. */
  function MainTicks(s: State, n: nat, soundAvailable: bool): State
    decreases n
  {
    if n == 0 then s else MainTicks(MainTick(s, soundAvailable), n - 1, soundAvailable)
  }

  /** `n` deliveries of the short tick source. */
  function ShortTicks(s: State, n: nat): State
    decreases n
  {
    if n == 0 then s else ShortTicks(ShortTick(s), n - 1)
  }

  /** While focus time is left, each main tick takes off exactly one second. */
  lemma {:induction false} MainCountdown(s: State, k: nat, soundAvailable: bool)
    requires s.mainRunning && k <= s.mainRemaining
    ensures MainTicks(s, k, soundAvailable) == s.(mainRemaining := s.mainRemaining - k)
    decreases k
  {
    if k > 0 {
      MainCountdown(MainTick(s, soundAvailable), k - 1, soundAvailable);
    }
  }

  /** While break time is left, each short tick takes off exactly one second. */
  lemma {:induction false} ShortCountdown(s: State, k: nat)
    requires s.shortRunning && k <= s.shortRemaining
    ensures ShortTicks(s, k) == s.(shortRemaining := s.shortRemaining - k)
    decreases k
  {
    if k > 0 {
      ShortCountdown(ShortTick(s), k - 1);
    }
  }

  /** A main tick source whose phase flag is down changes nothing, however
      often it fires. */
  lemma {:induction false} MainTicksWhileOff(s: State, n: nat, soundAvailable: bool)
    requires !s.mainRunning
    ensures MainTicks(s, n, soundAvailable) == s
    decreases n
  {
    if n > 0 {
      MainTicksWhileOff(MainTick(s, soundAvailable), n - 1, soundAvailable);
    }
  }

  lemma {:induction false} ShortTicksWhileOff(s: State, n: nat)
    requires !s.shortRunning
    ensures ShortTicks(s, n) == s
    decreases n
  {
    if n > 0 {
      ShortTicksWhileOff(ShortTick(s), n - 1);
    }
  }

  /** After Stop both flags are down, both counters are where they were, and
      no later delivery of either tick source changes anything. */
  lemma StopFreezes(s: State, n: nat, m: nat, soundAvailable: bool)
    ensures var t := StopTimers(s);
            && Idle(t)
            && t.mainRemaining == s.mainRemaining && t.shortRemaining == s.shortRemaining
            && MainTicks(t, n, soundAvailable) == t
            && ShortTicks(t, m) == t
  {
    MainTicksWhileOff(StopTimers(s), n, soundAvailable);
    ShortTicksWhileOff(StopTimers(s), m);
  }

  /** A focus phase of `mainSetting` minutes: after exactly `MainTotal(s)`
      main ticks the counter is 0 and focus is still on; the next tick enters
      a full break, raising the alert exactly when the sound is available. */
  lemma FocusPhaseLength(s: State, soundAvailable: bool)
    ensures var t := StartMainTimer(s);
            var n := MainTotal(s);
            && MainTicks(t, n, soundAvailable) == t.(mainRemaining := 0)
            && MainTicks(t, n + 1, soundAvailable)
               == t.(mainRunning := false, mainRemaining := 0,
                     shortRunning := true, shortRemaining := s.shortSetting,
                     showAlert := s.showAlert || soundAvailable)
  {
    var t := StartMainTimer(s);
    var n := MainTotal(s);
    MainCountdown(t, n, soundAvailable);
    MainTicksAppend(t, n, soundAvailable);
  }

  /** A break with `k` seconds left: after `k` short ticks the counter is 0
      and the break is still on; the next tick silently restarts a full focus
      phase. */
  lemma BreakPhaseLength(s: State)
    requires s.shortRunning
    ensures var k := s.shortRemaining;
            && ShortTicks(s, k) == s.(shortRemaining := 0)
            && ShortTicks(s, k + 1)
               == s.(shortRunning := false, shortRemaining := 0,
                     mainRunning := true, mainRemaining := MainTotal(s))
  {
    var k := s.shortRemaining;
    ShortCountdown(s, k);
    ShortTicksAppend(s, k);
  }

  /** From idle, Start followed by `MainTotal(s) + 1` main ticks and then
      `shortSetting + 1` short ticks comes back to a freshly started focus
      phase; only the spent break counter and the alert flag differ. */
  lemma FullCycle(s: State, soundAvailable: bool)
    requires Idle(s)
    ensures var t := StartMainTimer(s);
            ShortTicks(MainTicks(t, MainTotal(s) + 1, soundAvailable), s.shortSetting + 1)
            == t.(shortRemaining := 0, showAlert := s.showAlert || soundAvailable)
  {
    FocusPhaseLength(s, soundAvailable);
    var u := MainTicks(StartMainTimer(s), MainTotal(s) + 1, soundAvailable);
    BreakPhaseLength(u);
  }

  lemma {:induction false} MainTicksAppend(s: State, n: nat, soundAvailable: bool)
    ensures MainTicks(s, n + 1, soundAvailable) == MainTick(MainTicks(s, n, soundAvailable), soundAvailable)
    decreases n
  {
    if n > 0 {
      MainTicksAppend(MainTick(s, soundAvailable), n - 1, soundAvailable);
    }
  }

  lemma {:induction false} ShortTicksAppend(s: State, n: nat)
    ensures ShortTicks(s, n + 1) == ShortTick(ShortTicks(s, n))
    decreases n
  {
    if n > 0 {
      ShortTicksAppend(ShortTick(s), n - 1);
    }
  }
}
