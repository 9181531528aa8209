/**
  The whole view as one event-driven machine: the timer state, the wheel
  selections and the large-mode flag, the events the screen offers, and what
  holds along every run that only uses offered events.
 */
module Machine {
  import opened Timer
  import opened Phases
  import opened Progress
  import opened Pickers

  /** `largeMode` chooses between the wheels (on) and the sliders (off). */
  datatype View = View(timer: State, sel: Selection, largeMode: bool)

  /** A fresh view in large mode, with the corrected initial wheel selections. */
  const Fresh: View := View(Initial, InitialSelection, true)

  /** A fresh view with the initial wheel selections as written. */
  const FreshAsWritten: View := View(Initial, InitialSelectionAsWritten, true)

  /** The two tick sources stay two separate events. */
  datatype Event =
    | MainTickEvent(soundAvailable: bool)
    | ShortTickEvent
    | StartPressed
    | StopPressed
    | AlertDismissed
    | ModeToggled
    | WheelTurned(g: Gesture)
    | MainSliderMoved(minutes: nat)
    | ShortSliderMoved(seconds: nat)

  /** Whether the screen offers the event. Ticks always arrive. The alert is
      modal: while it is presented only its OK can be tapped. Otherwise Start,
      the mode toggle and the setting controls are offered only while both
      phases are off: the wheels in large mode, on the rows they offer, and
      the sliders otherwise, on their whole-number steps (1...60 minutes,
      10...60 seconds). Stop only while a phase runs. */
  predicate Enabled(v: View, e: Event) {
    match e
    case MainTickEvent(_) => true
    case ShortTickEvent => true
    case AlertDismissed => v.timer.showAlert
    case StopPressed => !v.timer.showAlert && !Idle(v.timer)
    case StartPressed => !v.timer.showAlert && Idle(v.timer)
    case ModeToggled => !v.timer.showAlert && Idle(v.timer)
    case WheelTurned(g) => !v.timer.showAlert && Idle(v.timer) && v.largeMode && ValidPick(g)
    case MainSliderMoved(m) => !v.timer.showAlert && Idle(v.timer) && !v.largeMode && 1 <= m <= 60
    case ShortSliderMoved(sec) => !v.timer.showAlert && Idle(v.timer) && !v.largeMode && 10 <= sec <= 60
  }

  function Step(v: View, e: Event): View {
    match e
    case MainTickEvent(snd) => v.(timer := MainTick(v.timer, snd))
    case ShortTickEvent => v.(timer := ShortTick(v.timer))
    case StartPressed => v.(timer := StartMainTimer(v.timer))
    case StopPressed => v.(timer := StopTimers(v.timer))
    case AlertDismissed => v.(timer := AlertOk(v.timer))
    case ModeToggled => v.(largeMode := !v.largeMode)
    case WheelTurned(g) =>
      var r := PickAsWritten(v.timer, v.sel, g);
      v.(timer := r.0, sel := r.1)
    case MainSliderMoved(m) => v.(timer := SlideMainSetting(v.timer, m))
    case ShortSliderMoved(sec) => v.(timer := SlideShortSetting(v.timer, sec))
  }

  function Run(v: View, evs: seq<Event>): View
    decreases |evs|
  {
    if |evs| == 0 then v else Run(Step(v, evs[0]), evs[1..])
  }

  /** Every event of the run is offered when it happens. */
  predicate EnabledRun(v: View, evs: seq<Event>)
    decreases |evs|
  {
    |evs| == 0 || (Enabled(v, evs[0]) && EnabledRun(Step(v, evs[0]), evs[1..]))
  }

  /** What holds in every reachable view: running counters within their
      phase totals, both settings and all wheels in the offered ranges, and
      the alert up only while a phase runs. */
  predicate Inv(v: View) {
    Bounded(v.timer) && SettingsInRange(v.timer) && InPickerRange(v.sel)
    && AlertOnlyWhileRunning(v)
  }

  /** The alert is presented only while a phase runs. Unlike `Inv`, this
      needs nothing of the wheels, so it holds from either initial selection. */
  predicate AlertOnlyWhileRunning(v: View) {
    v.timer.showAlert ==> !Idle(v.timer)
  }

  lemma StepPreservesInv(v: View, e: Event)
    requires Inv(v) && Enabled(v, e)
    ensures Inv(Step(v, e))
  {
  }

  lemma {:induction false} RunPreservesInv(v: View, evs: seq<Event>)
    requires Inv(v) && EnabledRun(v, evs)
    ensures Inv(Run(v, evs))
    decreases |evs|
  {
    if |evs| > 0 {
      StepPreservesInv(v, evs[0]);
      RunPreservesInv(Step(v, evs[0]), evs[1..]);
    }
  }

  /** In every view reachable from a fresh one (with the corrected initial
      wheel selections) the ring of each running phase is a proper fraction
      between 0 and 1. */
  lemma ReachableRingsInUnitInterval(evs: seq<Event>)
    requires EnabledRun(Fresh, evs)
    ensures var t := Run(Fresh, evs).timer;
            && (t.mainRunning ==> MainTimeProgress(t).InUnitInterval())
            && (t.shortRunning ==> ShortTimeProgress(t).InUnitInterval())
  {
    RunPreservesInv(Fresh, evs);
    BoundedIffInUnitInterval(Run(Fresh, evs).timer);
  }

  lemma {:induction false} RunKeepsAlertOnlyWhileRunning(v: View, evs: seq<Event>)
    requires AlertOnlyWhileRunning(v) && EnabledRun(v, evs)
    ensures AlertOnlyWhileRunning(Run(v, evs))
    decreases |evs|
  {
    if |evs| > 0 {
      RunKeepsAlertOnlyWhileRunning(Step(v, evs[0]), evs[1..]);
    }
  }

  /** In every view reachable from a fresh timer state, whatever the wheels
      start on (as written or corrected) and in either mode, the alert is
      never up while both phases are off, so the controls of the idle screen
      are never hidden behind it. */
  lemma ReachableIdleHasNoAlert(v: View, evs: seq<Event>)
    requires v.timer == Initial && EnabledRun(v, evs)
    ensures var t := Run(v, evs).timer;
            Idle(t) ==> !t.showAlert
  {
    RunKeepsAlertOnlyWhileRunning(v, evs);
  }

  /** In particular from the fresh view as written. */
  lemma FreshIdleHasNoAlert(evs: seq<Event>)
    requires EnabledRun(FreshAsWritten, evs)
    ensures var t := Run(FreshAsWritten, evs).timer;
            Idle(t) ==> !t.showAlert
  {
    ReachableIdleHasNoAlert(FreshAsWritten, evs);
  }

  /** While a phase runs the setting controls are hidden: no offered event
      touches either setting, the wheels or the mode, and only Stop leaves
      both phases off. */
  lemma SettingsFrozenWhileRunning(v: View, e: Event)
    requires !Idle(v.timer) && Enabled(v, e)
    ensures var w := Step(v, e);
            && w.timer.mainSetting == v.timer.mainSetting
            && w.timer.shortSetting == v.timer.shortSetting
            && w.sel == v.sel && w.largeMode == v.largeMode
            && (Idle(w.timer) <==> e.StopPressed?)
  {
  }

  /** From a running view, any offered run without Stop keeps a phase
      running and leaves both settings, the wheels and the mode as they were. */
  lemma {:induction false} SettingsFrozenUntilStop(v: View, evs: seq<Event>)
    requires !Idle(v.timer) && EnabledRun(v, evs)
    requires forall i :: 0 <= i < |evs| ==> !evs[i].StopPressed?
    ensures var w := Run(v, evs);
            && !Idle(w.timer)
            && w.timer.mainSetting == v.timer.mainSetting
            && w.timer.shortSetting == v.timer.shortSetting
            && w.sel == v.sel && w.largeMode == v.largeMode
    decreases |evs|
  {
    if |evs| > 0 {
      SettingsFrozenWhileRunning(v, evs[0]);
      SettingsFrozenUntilStop(Step(v, evs[0]), evs[1..]);
    }
  }

  /** Two turns of the break-minute wheel, 1 and then back to 0, then Start
      and a whole focus phase without sound. */
  function ZeroBreakRun(v: View): seq<Event> {
    [WheelTurned(ShortMinutes(1)), WheelTurned(ShortMinutes(0)), StartPressed]
      + Repeat(MainTickEvent(false), MainTotal(v.timer) + 1)
  }

  /** From any idle large-mode view whose break wheels both stand at 0, the
      offered run above enters a break of 0 seconds, whose ring is 0 / 0. */
  lemma ZeroBreakRingFrom(v: View)
    requires Idle(v.timer) && !v.timer.showAlert && v.largeMode
    requires v.sel.shortMinutes == 0 && v.sel.shortSeconds == 0
    ensures EnabledRun(v, ZeroBreakRun(v))
    ensures var t := Run(v, ZeroBreakRun(v)).timer;
            && t.shortRunning && t.shortSetting == 0 && t.shortRemaining == 0
            && ShortTimeProgress(t) == Fraction(0, 0) && !ShortTimeProgress(t).InUnitInterval()
  {
    var e1, e2, e3 := WheelTurned(ShortMinutes(1)), WheelTurned(ShortMinutes(0)), StartPressed;
    var s0 := v.timer.(shortSetting := 0);
    var w1 := Step(v, e1);
    assert w1.timer.shortSetting == 60 && w1.sel.shortMinutes == 1;
    var w2 := Step(w1, e2);
    assert w2.timer == s0;
    var v1 := Step(w2, e3);
    assert v1.timer == StartMainTimer(s0);
    var a := [e1, e2, e3];
    var b := Repeat(MainTickEvent(false), MainTotal(v.timer) + 1);
    assert a[1..] == [e2, e3] && [e2, e3][1..] == [e3] && [e3][1..] == [];
    assert Enabled(v, e1) && Enabled(w1, e2) && Enabled(w2, e3);
    assert Run(w2, [e3]) == v1 && EnabledRun(w2, [e3]);
    assert Run(w1, [e2, e3]) == v1 && EnabledRun(w1, [e2, e3]);
    assert Run(v, a) == v1 && EnabledRun(v, a);
    RunMainTicks(v1, MainTotal(s0) + 1, false);
    FocusPhaseLength(s0, false);
    RunAppend(v, a, b);
    assert ZeroBreakRun(v) == a + b;
  }

  /** As written, the ring guarantee fails from a fresh view. */
  lemma ZeroBreakRingAsWritten()
    ensures EnabledRun(FreshAsWritten, ZeroBreakRun(FreshAsWritten))
    ensures var t := Run(FreshAsWritten, ZeroBreakRun(FreshAsWritten)).timer;
            t.shortRunning && !ShortTimeProgress(t).InUnitInterval()
  {
    ZeroBreakRingFrom(FreshAsWritten);
  }

  /** At most one phase runs. */
  predicate Exclusive(s: State) {
    !(s.mainRunning && s.shortRunning)
  }

  /** Every offered event keeps at most one phase running, except OK on the
      alert while focus runs: that is exactly the event that breaks it. */
  lemma StepExclusion(v: View, e: Event)
    requires Exclusive(v.timer) && Enabled(v, e)
    ensures Exclusive(Step(v, e).timer) <==> !(e.AlertDismissed? && v.timer.mainRunning)
  {
  }

  function Repeat(e: Event, n: nat): (r: seq<Event>)
    ensures |r| == n && forall i :: 0 <= i < n ==> r[i] == e
    decreases n
  {
    if n == 0 then [] else [e] + Repeat(e, n - 1)
  }

  lemma {:induction false} RunAppend(v: View, a: seq<Event>, b: seq<Event>)
    ensures Run(v, a + b) == Run(Run(v, a), b)
    ensures EnabledRun(v, a + b) <==> EnabledRun(v, a) && EnabledRun(Run(v, a), b)
    decreases |a|
  {
    if |a| > 0 {
      assert (a + b)[1..] == a[1..] + b;
      RunAppend(Step(v, a[0]), a[1..], b);
    } else {
      assert a + b == b;
    }
  }

  lemma {:induction false} RunMainTicks(v: View, n: nat, soundAvailable: bool)
    ensures Run(v, Repeat(MainTickEvent(soundAvailable), n)) == v.(timer := MainTicks(v.timer, n, soundAvailable))
    ensures EnabledRun(v, Repeat(MainTickEvent(soundAvailable), n))
    decreases n
  {
    if n > 0 {
      var evs := Repeat(MainTickEvent(soundAvailable), n);
      assert evs[1..] == Repeat(MainTickEvent(soundAvailable), n - 1);
      RunMainTicks(Step(v, evs[0]), n - 1, soundAvailable);
    }
  }

  lemma {:induction false} RunShortTicks(v: View, n: nat)
    ensures Run(v, Repeat(ShortTickEvent, n)) == v.(timer := ShortTicks(v.timer, n))
    ensures EnabledRun(v, Repeat(ShortTickEvent, n))
    decreases n
  {
    if n > 0 {
      var evs := Repeat(ShortTickEvent, n);
      assert evs[1..] == Repeat(ShortTickEvent, n - 1);
      RunShortTicks(Step(v, evs[0]), n - 1);
    }
  }

  /** Start, a whole focus phase with the sound available, and a whole break
      while the alert stays up, then OK. */
  function LateDismissal(v: View): seq<Event> {
    [StartPressed]
      + Repeat(MainTickEvent(true), MainTotal(v.timer) + 1)
      + Repeat(ShortTickEvent, v.timer.shortSetting + 1)
      + [AlertDismissed]
  }

  /** From any idle view without the alert, tapping OK only after the break
      has already expired and focus has restarted leaves BOTH phases running;
      every event of that run is offered by the screen. */
  lemma LateDismissalRunsBoth(v: View)
    requires Idle(v.timer) && !v.timer.showAlert
    ensures EnabledRun(v, LateDismissal(v))
    ensures var t := Run(v, LateDismissal(v)).timer;
            t.mainRunning && t.shortRunning
  {
    var s := v.timer;
    var a := [StartPressed];
    var b := Repeat(MainTickEvent(true), MainTotal(s) + 1);
    var c := Repeat(ShortTickEvent, s.shortSetting + 1);
    var d := [AlertDismissed];
    var v1 := Run(v, a);
    assert v1 == v.(timer := StartMainTimer(s));
    assert EnabledRun(v, a);
    RunMainTicks(v1, MainTotal(s) + 1, true);
    var v2 := Run(v1, b);
    RunShortTicks(v2, s.shortSetting + 1);
    var v3 := Run(v2, c);
    FullCycle(s, true);
    assert v3.timer.mainRunning && v3.timer.showAlert;
    assert EnabledRun(v3, d);
    RunAppend(v2, c, d);
    RunAppend(v1, b, c + d);
    RunAppend(v, a, b + (c + d));
    assert LateDismissal(v) == a + (b + (c + d));
  }

  /** The failure is reachable from the fresh view as written. */
  lemma FreshLateDismissalRunsBoth()
    ensures EnabledRun(FreshAsWritten, LateDismissal(FreshAsWritten))
    ensures var t := Run(FreshAsWritten, LateDismissal(FreshAsWritten)).timer;
            t.mainRunning && t.shortRunning
  {
    LateDismissalRunsBoth(FreshAsWritten);
  }

  predicate IsTick(e: Event) {
    e.MainTickEvent? || e.ShortTickEvent?
  }

  /** Once Stop is pressed, any number of ticks from either source changes
      nothing: both flags stay down and both counters keep their values. */
  lemma {:induction false} TicksAfterStop(v: View, evs: seq<Event>)
    requires forall i :: 0 <= i < |evs| ==> IsTick(evs[i])
    ensures var w := Step(v, StopPressed);
            Run(w, evs) == w && Idle(w.timer)
            && w.timer.mainRemaining == v.timer.mainRemaining
            && w.timer.shortRemaining == v.timer.shortRemaining
    decreases |evs|
  {
    if |evs| > 0 {
      var w := Step(v, StopPressed);
      assert Step(w, evs[0]) == w;
      TicksAfterStop(v, evs[1..]);
    }
  }
}
