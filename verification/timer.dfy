/**
  The timer state machine of SightCare's `ContentView`: a focus ("main")
  countdown and a break ("short") countdown, each driven by its own
  once-per-second tick source, plus the helpers that compose the two
  settings from the wheel pickers.

  Every event is a pure function on an immutable `State` record.
 */
module Timer {

  /** The view's timer state. Remaining counters are in seconds; the main
      setting is in minutes and the short setting in seconds. */
  datatype State = State(
    mainRunning: bool,
    shortRunning: bool,
    mainRemaining: nat,
    shortRemaining: nat,
    mainSetting: nat,
    shortSetting: nat,
    showAlert: bool)

  /** The state a fresh view starts in: 20 minutes of focus, 20 seconds of break. */
  const Initial: State := State(false, false, 1200, 20, 20, 20, false)

  /** Length of a focus phase in seconds. */
  function MainTotal(s: State): nat {
    s.mainSetting * 60
  }

  predicate Idle(s: State) {
    !s.mainRunning && !s.shortRunning
  }

  /** Playing the alert raises the alert flag only when the sound resource
      exists; a failure to play it once found does not prevent the flag. */
  function PlayAlertSound(s: State, soundAvailable: bool): (r: State)
    ensures r.showAlert <==> s.showAlert || soundAvailable
    ensures r.(showAlert := s.showAlert) == s
  {
    if soundAvailable then s.(showAlert := true) else s
  }

  /** One delivery of the main tick source. */
  function MainTick(s: State, soundAvailable: bool): (r: State)
    // the tick is guarded by its own phase flag
    ensures !s.mainRunning ==> r == s
    // while focus time is left, exactly one second elapses and nothing else changes
    ensures s.mainRunning && s.mainRemaining > 0 ==>
              r == s.(mainRemaining := s.mainRemaining - 1)
    // the tick after the counter reached zero switches to a fresh break
    ensures s.mainRunning && s.mainRemaining == 0 ==>
              && !r.mainRunning && r.shortRunning
              && r.shortRemaining == s.shortSetting
              && r.mainRemaining == 0
              && (r.showAlert <==> s.showAlert || soundAvailable)
              && r.mainSetting == s.mainSetting && r.shortSetting == s.shortSetting
  {
    if !s.mainRunning then s
    else if s.mainRemaining > 0 then s.(mainRemaining := s.mainRemaining - 1)
    else
      PlayAlertSound(s, soundAvailable)
        .(shortRunning := true, mainRunning := false, shortRemaining := s.shortSetting)
  }

  /** One delivery of the short tick source. */
  function ShortTick(s: State): (r: State)
    ensures !s.shortRunning ==> r == s
    ensures s.shortRunning && s.shortRemaining > 0 ==>
              r == s.(shortRemaining := s.shortRemaining - 1)
    // break expiry restarts a full focus phase silently: the alert flag is untouched
    ensures s.shortRunning && s.shortRemaining == 0 ==>
              && r.mainRunning && !r.shortRunning
              && r.mainRemaining == MainTotal(s)
              && r.shortRemaining == 0
              && r.showAlert == s.showAlert
              && r.mainSetting == s.mainSetting && r.shortSetting == s.shortSetting
  {
    if !s.shortRunning then s
    else if s.shortRemaining > 0 then s.(shortRemaining := s.shortRemaining - 1)
    else s.(shortRunning := false, mainRunning := true, mainRemaining := MainTotal(s))
  }

  /** The Start button: begins a full focus phase. The break flag and counter
      are left as they were. */
  function StartMainTimer(s: State): (r: State)
    ensures r.mainRunning && r.mainRemaining == MainTotal(s)
    ensures r.(mainRunning := s.mainRunning, mainRemaining := s.mainRemaining) == s
  {
    s.(mainRunning := true, mainRemaining := MainTotal(s))
  }

  /** Restarts a full break phase. The focus flag is deliberately NOT cleared. */
  function StartShortTimer(s: State): (r: State)
    ensures r.shortRunning && r.shortRemaining == s.shortSetting
    ensures r.mainRunning == s.mainRunning
    ensures r.(shortRunning := s.shortRunning, shortRemaining := s.shortRemaining) == s
  {
    s.(shortRunning := true, shortRemaining := s.shortSetting)
  }

  /** The alert's OK button: the presentation binding drops the alert flag
      and the button's action restarts the break. */
  function AlertOk(s: State): (r: State)
    ensures !r.showAlert && r.shortRunning && r.shortRemaining == s.shortSetting
    ensures r.mainRunning == s.mainRunning && r.mainRemaining == s.mainRemaining
    ensures r.mainSetting == s.mainSetting && r.shortSetting == s.shortSetting
  {
    StartShortTimer(s.(showAlert := false))
  }

  /** The Stop button: clears both flags and keeps both counters. */
  function StopTimers(s: State): (r: State)
    ensures Idle(r)
    ensures r.mainRemaining == s.mainRemaining && r.shortRemaining == s.shortRemaining
    ensures r.(mainRunning := s.mainRunning, shortRunning := s.shortRunning) == s
  {
    s.(mainRunning := false, shortRunning := false)
  }

  /** Focus setting in minutes from the hour and minute wheels. Within the
      wheels' ranges it lies in 1..1439, and hours and minutes are recovered
      from it by division by 60. */
  function ComposeMainSetting(hours: nat, minutes: nat): (r: nat)
    ensures minutes < 60 ==> r / 60 == hours && r % 60 == minutes
    ensures hours <= 23 && 1 <= minutes <= 59 ==> 1 <= r <= 1439
  {
    hours * 60 + minutes
  }

  /** Break setting in seconds from the minute and second wheels. Within the
      wheels' ranges it lies in 20..3599, and both wheels are recovered from it. */
  function ComposeShortSetting(minutes: nat, seconds: nat): (r: nat)
    ensures seconds < 60 ==> r / 60 == minutes && r % 60 == seconds
    ensures minutes <= 59 && 20 <= seconds <= 59 ==> 20 <= r <= 3599
  {
    minutes * 60 + seconds
  }

  /** The small-mode focus slider writes a whole number of minutes straight
      into the setting; nothing else changes. */
  function SlideMainSetting(s: State, minutes: nat): (r: State)
    ensures r.mainSetting == minutes
    ensures r.(mainSetting := s.mainSetting) == s
  {
    s.(mainSetting := minutes)
  }

  /** The small-mode break slider writes a whole number of seconds straight
      into the setting; nothing else changes. */
  function SlideShortSetting(s: State, seconds: nat): (r: State)
    ensures r.shortSetting == seconds
    ensures r.(shortSetting := s.shortSetting) == s
  {
    s.(shortSetting := seconds)
  }

  function UpdateMainTimeSetting(s: State, hours: nat, minutes: nat): (r: State)
    ensures r.mainSetting == ComposeMainSetting(hours, minutes)
    ensures r.(mainSetting := s.mainSetting) == s
  {
    s.(mainSetting := ComposeMainSetting(hours, minutes))
  }

  function UpdateShortTimeSetting(s: State, minutes: nat, seconds: nat): (r: State)
    ensures r.shortSetting == ComposeShortSetting(minutes, seconds)
    ensures r.(shortSetting := s.shortSetting) == s
  {
    s.(shortSetting := ComposeShortSetting(minutes, seconds))
  }
}
