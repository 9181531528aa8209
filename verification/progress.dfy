/**
  The progress ring: the fraction of the active phase still left, kept as an
  exact pair of remaining and total seconds instead of a floating-point value.
 */
module Progress {
  import opened Timer
  import opened Phases

  datatype Fraction = Fraction(remaining: nat, total: nat) {
    /** The ring can draw it: a proper fraction between 0 and 1. */
    predicate InUnitInterval() {
      total > 0 && remaining <= total
    }

    predicate IsFull() {
      total > 0 && remaining == total
    }
  }

  /** `a <= b` as rational numbers, for positive totals. */
  predicate AtMost(a: Fraction, b: Fraction) {
    a.remaining * b.total <= b.remaining * a.total
  }

  function MainTimeProgress(s: State): Fraction {
    Fraction(s.mainRemaining, MainTotal(s))
  }

  function ShortTimeProgress(s: State): Fraction {
    Fraction(s.shortRemaining, s.shortSetting)
  }

  /** Every running phase's counter is within that phase's total. */
  predicate Bounded(s: State) {
    && (s.mainRunning ==> s.mainRemaining <= MainTotal(s))
    && (s.shortRunning ==> s.shortRemaining <= s.shortSetting)
  }

  /** With positive settings, the ring of every running phase is a proper
      fraction exactly when its counter is within bounds. */
  lemma BoundedIffInUnitInterval(s: State)
    requires s.mainSetting > 0 && s.shortSetting > 0
    ensures Bounded(s) <==>
              && (s.mainRunning ==> MainTimeProgress(s).InUnitInterval())
              && (s.shortRunning ==> ShortTimeProgress(s).InUnitInterval())
  {
  }

  lemma AtMostSameTotal(a: Fraction, b: Fraction)
    requires a.total == b.total && a.remaining <= b.remaining
    ensures AtMost(a, b)
  {
  }

  /** A main tick that does not switch phases keeps the total and never makes
      the focus ring fuller; the switching tick starts a full break ring. */
  lemma MainTickProgress(s: State, soundAvailable: bool)
    requires s.mainRunning
    ensures var r := MainTick(s, soundAvailable);
            && (r.mainRunning ==>
                  MainTimeProgress(r).total == MainTimeProgress(s).total
                  && AtMost(MainTimeProgress(r), MainTimeProgress(s)))
            && (!r.mainRunning && s.shortSetting > 0 ==> ShortTimeProgress(r).IsFull())
  {
  }

  /** A short tick that does not switch phases keeps the total and never makes
      the break ring fuller; the switching tick starts a full focus ring. */
  lemma ShortTickProgress(s: State)
    requires s.shortRunning
    ensures var r := ShortTick(s);
            && (r.shortRunning ==>
                  ShortTimeProgress(r).total == ShortTimeProgress(s).total
                  && AtMost(ShortTimeProgress(r), ShortTimeProgress(s)))
            && (!r.shortRunning && s.mainSetting > 0 ==> MainTimeProgress(r).IsFull())
  {
  }

  /** Each tick source keeps the counters of running phases within bounds. */
  lemma TicksPreserveBounded(s: State, soundAvailable: bool)
    requires Bounded(s)
    ensures Bounded(MainTick(s, soundAvailable))
    ensures Bounded(ShortTick(s))
  {
  }

  /** Between switches the focus ring only drains: any number of main ticks
      up to the counter keeps the total and never makes the ring fuller. */
  lemma FocusRingDrains(s: State, k: nat, soundAvailable: bool)
    requires s.mainRunning && k <= s.mainRemaining
    ensures var r := MainTicks(s, k, soundAvailable);
            && r.mainRunning
            && MainTimeProgress(r).total == MainTimeProgress(s).total
            && AtMost(MainTimeProgress(r), MainTimeProgress(s))
  {
    MainCountdown(s, k, soundAvailable);
    AtMostSameTotal(MainTimeProgress(MainTicks(s, k, soundAvailable)), MainTimeProgress(s));
  }

  /** Between switches the break ring only drains. */
  lemma BreakRingDrains(s: State, k: nat)
    requires s.shortRunning && k <= s.shortRemaining
    ensures var r := ShortTicks(s, k);
            && r.shortRunning
            && ShortTimeProgress(r).total == ShortTimeProgress(s).total
            && AtMost(ShortTimeProgress(r), ShortTimeProgress(s))
  {
    ShortCountdown(s, k);
    AtMostSameTotal(ShortTimeProgress(ShortTicks(s, k)), ShortTimeProgress(s));
  }
}
