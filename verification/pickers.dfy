/**
  The four wheel pickers of large mode and the change handlers that feed the
  two settings. A handler fires only when its wheel's value actually changes.

  Two definitions are given for each defect of the wiring as written: the
  one AS WRITTEN, with a lemma exhibiting the defect, and the corrected one
  with the intended property proved. The machine wires the wheels as
  written and starts its invariant from the corrected selection.
 */
module Pickers {
  import opened Timer

  /** The wheels' current selections. */
  datatype Selection = Selection(hours: nat, minutes: nat, shortMinutes: nat, shortSeconds: nat)

  /** A user gesture on one wheel. */
  datatype Gesture = Hours(h: nat) | Minutes(m: nat) | ShortMinutes(sm: nat) | ShortSeconds(ss: nat)

  /** The selections a fresh view starts with, as written: every wheel at 0,
      although the minute wheel offers 1..59 and the second wheel 20..59. */
  const InitialSelectionAsWritten: Selection := Selection(0, 0, 0, 0)

  /** Corrected: every wheel starts on its first row, the row it displays. */
  const InitialSelection: Selection := Selection(0, 1, 0, 20)

  /** The value is one of the tags its wheel offers. */
  predicate ValidPick(p: Gesture) {
    match p
    case Hours(h) => h <= 23
    case Minutes(m) => 1 <= m <= 59
    case ShortMinutes(sm) => sm <= 59
    case ShortSeconds(ss) => 20 <= ss <= 59
  }

  predicate InPickerRange(sel: Selection) {
    sel.hours <= 23 && 1 <= sel.minutes <= 59 && sel.shortMinutes <= 59 && 20 <= sel.shortSeconds <= 59
  }

  function Select(sel: Selection, p: Gesture): Selection {
    match p
    case Hours(h) => sel.(hours := h)
    case Minutes(m) => sel.(minutes := m)
    case ShortMinutes(sm) => sel.(shortMinutes := sm)
    case ShortSeconds(ss) => sel.(shortSeconds := ss)
  }

  /** The pick moves its wheel to a new value, so a change handler fires. */
  predicate Changes(sel: Selection, p: Gesture) {
    Select(sel, p) != sel
  }

  function UpdateMain(s: State, sel: Selection): State {
    UpdateMainTimeSetting(s, sel.hours, sel.minutes)
  }

  function UpdateShort(s: State, sel: Selection): State {
    UpdateShortTimeSetting(s, sel.shortMinutes, sel.shortSeconds)
  }

  /** The focus setting shows what the hour and minute wheels show. */
  predicate MainInSync(s: State, sel: Selection) {
    s.mainSetting == ComposeMainSetting(sel.hours, sel.minutes)
  }

  predicate ShortInSync(s: State, sel: Selection) {
    s.shortSetting == ComposeShortSetting(sel.shortMinutes, sel.shortSeconds)
  }

  /** As written: the hour wheel's change handler observes the MINUTE
      selection, so turning the hour wheel alone runs no handler. The minute
      wheel carries that handler as well as its own; both compute the same
      value, so running it twice is the same as running it once. */
  function PickAsWritten(s: State, sel: Selection, p: Gesture): (r: (State, Selection))
    ensures r.1 == Select(sel, p)
    ensures p.Hours? ==> r.0 == s
    ensures Changes(sel, p) && p.Minutes? ==> MainInSync(r.0, r.1)
    ensures Changes(sel, p) && (p.ShortMinutes? || p.ShortSeconds?) ==> ShortInSync(r.0, r.1)
    ensures !Changes(sel, p) ==> r.0 == s
    ensures p.Hours? || p.Minutes? ==> r.0.shortSetting == s.shortSetting
    ensures p.ShortMinutes? || p.ShortSeconds? ==> r.0.mainSetting == s.mainSetting
    ensures r.0.(mainSetting := s.mainSetting, shortSetting := s.shortSetting) == s
  {
    var sel' := Select(sel, p);
    if !Changes(sel, p) then (s, sel)
    else match p
      case Hours(_) => (s, sel')
      case Minutes(_) => (UpdateMain(s, sel'), sel')
      case _ => (UpdateShort(s, sel'), sel')
  }

  /** Corrected: the hour wheel recomputes the focus setting like the minute
      wheel does. Only the setting fed by the turned wheel changes. */
  function Pick(s: State, sel: Selection, p: Gesture): (r: (State, Selection))
    ensures r.1 == Select(sel, p)
    ensures Changes(sel, p) && (p.Hours? || p.Minutes?) ==> MainInSync(r.0, r.1)
    ensures Changes(sel, p) && (p.ShortMinutes? || p.ShortSeconds?) ==> ShortInSync(r.0, r.1)
    ensures !Changes(sel, p) ==> r.0 == s
    ensures p.Hours? || p.Minutes? ==> r.0.shortSetting == s.shortSetting
    ensures p.ShortMinutes? || p.ShortSeconds? ==> r.0.mainSetting == s.mainSetting
    ensures r.0.(mainSetting := s.mainSetting, shortSetting := s.shortSetting) == s
  {
    var sel' := Select(sel, p);
    if !Changes(sel, p) then (s, sel)
    else match p
      case Hours(_) => (UpdateMain(s, sel'), sel')
      case Minutes(_) => (UpdateMain(s, sel'), sel')
      case _ => (UpdateShort(s, sel'), sel')
  }

  /** The two wirings agree on every pick but an hour turn, and on an hour
      turn they differ in the focus setting alone. */
  lemma PickAsWrittenDiffersOnlyOnHours(s: State, sel: Selection, p: Gesture)
    ensures !p.Hours? ==> PickAsWritten(s, sel, p) == Pick(s, sel, p)
    ensures p.Hours? ==> PickAsWritten(s, sel, p).1 == Pick(s, sel, p).1
                         && PickAsWritten(s, sel, p).0 == Pick(s, sel, p).0.(mainSetting := s.mainSetting)
  {
  }

  /** The defect: whenever the focus setting matches the wheels, turning the
      hour wheel to another hour leaves the setting behind. For instance with
      1 h 30 m selected after 0 h 30 m, Start still runs a 30-minute focus. */
  lemma HoursPickAsWrittenDesyncs(s: State, sel: Selection, h: nat)
    requires MainInSync(s, sel) && h != sel.hours && sel.minutes < 60
    ensures var r := PickAsWritten(s, sel, Hours(h));
            r.1.hours == h && !MainInSync(r.0, r.1)
  {
  }

  /** Corrected wiring: once a setting matches its wheels, every later pick
      keeps it so. */
  lemma PickKeepsInSync(s: State, sel: Selection, p: Gesture)
    ensures var r := Pick(s, sel, p);
            && (MainInSync(s, sel) ==> MainInSync(r.0, r.1))
            && (ShortInSync(s, sel) ==> ShortInSync(r.0, r.1))
  {
  }

  /** Both settings within the ranges the wheels and the small-mode sliders
      can produce: the wheels give 1..1439 minutes and 20..3599 seconds, the
      sliders 1..60 minutes and 10..60 seconds. */
  predicate SettingsInRange(s: State) {
    1 <= s.mainSetting <= 1439 && 10 <= s.shortSetting <= 3599
  }

  function PickAllAsWritten(s: State, sel: Selection, ps: seq<Gesture>): (State, Selection)
    decreases |ps|
  {
    if |ps| == 0 then (s, sel)
    else
      var r := PickAsWritten(s, sel, ps[0]);
      PickAllAsWritten(r.0, r.1, ps[1..])
  }

  function PickAll(s: State, sel: Selection, ps: seq<Gesture>): (State, Selection)
    decreases |ps|
  {
    if |ps| == 0 then (s, sel)
    else
      var r := Pick(s, sel, ps[0]);
      PickAll(r.0, r.1, ps[1..])
  }

  /** The defect of the initial selections: from a fresh view, turning the
      break-minute wheel to 1 and back to 0 (both offered rows) composes a
      break of 0 seconds, whose progress ring would be 0 / 0. */
  lemma ZeroBreakAsWritten()
    ensures var r := PickAllAsWritten(Initial, InitialSelectionAsWritten, [ShortMinutes(1), ShortMinutes(0)]);
            && ValidPick(ShortMinutes(1)) && ValidPick(ShortMinutes(0))
            && r.0.shortSetting == 0
            && !SettingsInRange(r.0)
  {
  }

  /** Corrected: starting from the first rows, any sequence of offered picks
      keeps every wheel on an offered row and both settings in range. */
  lemma {:induction false} PickAllKeepsRange(s: State, sel: Selection, ps: seq<Gesture>)
    requires SettingsInRange(s) && InPickerRange(sel)
    requires forall i :: 0 <= i < |ps| ==> ValidPick(ps[i])
    ensures var r := PickAll(s, sel, ps);
            SettingsInRange(r.0) && InPickerRange(r.1)
    decreases |ps|
  {
    if |ps| > 0 {
      var r := Pick(s, sel, ps[0]);
      PickKeepsRange(s, sel, ps[0]);
      PickAllKeepsRange(r.0, r.1, ps[1..]);
    }
  }

  lemma PickKeepsRange(s: State, sel: Selection, p: Gesture)
    requires SettingsInRange(s) && InPickerRange(sel) && ValidPick(p)
    ensures var r := Pick(s, sel, p);
            SettingsInRange(r.0) && InPickerRange(r.1)
  {
  }

  lemma InitialInRange()
    ensures SettingsInRange(Initial) && InPickerRange(InitialSelection)
    ensures !InPickerRange(InitialSelectionAsWritten)
  {
  }
}
