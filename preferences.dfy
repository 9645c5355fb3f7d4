/** The on/off switches of the app: the three safety preferences of the
    settings screen (ConfiguracoesScreen) and the escape-plan activation of the
    escape-plan screen (PlanoFugaScreen). Each press runs `setX(!x)`. */
module Preferences {
  import Palette

  /** The three switches of the settings screen. */
  datatype Setting = Notifications | AutoAlert | ShareLocation

  datatype Settings = Settings(notifications: bool, autoAlert: bool, shareLocation: bool)

  /** The values the settings screen starts with. */
  const Defaults: Settings := Settings(true, false, true)

  function Get(s: Settings, k: Setting): bool {
    match k
    case Notifications => s.notifications
    case AutoAlert => s.autoAlert
    case ShareLocation => s.shareLocation
  }

  /** A press on the switch `k`: that setting flips and the others stay. */
  function Toggle(s: Settings, k: Setting): (t: Settings)
    ensures Get(t, k) == !Get(s, k)
    ensures forall j :: j != k ==> Get(t, j) == Get(s, j)
  {
    match k
    case Notifications => s.(notifications := !s.notifications)
    case AutoAlert => s.(autoAlert := !s.autoAlert)
    case ShareLocation => s.(shareLocation := !s.shareLocation)
  }

  /** Pressing the same switch twice restores the settings. */
  lemma ToggleTwice(s: Settings, k: Setting)
    ensures Toggle(Toggle(s, k), k) == s
  {
  }

  /** The settings after a series of presses, in order. */
  function Presses(s: Settings, ks: seq<Setting>): Settings
  {
    if ks == [] then s else Toggle(Presses(s, ks[..|ks| - 1]), ks[|ks| - 1])
  }

  /** How many presses in `ks` went to the switch `k`. */
  function CountPresses(ks: seq<Setting>, k: Setting): nat
  {
    if ks == [] then 0
    else CountPresses(ks[..|ks| - 1], k) + (if ks[|ks| - 1] == k then 1 else 0)
  }

  /** After any series of presses a setting differs from where it started
      exactly when its own switch was pressed an odd number of times. */
  lemma {:induction false} PressesParity(s: Settings, ks: seq<Setting>, k: Setting)
    ensures Get(Presses(s, ks), k) == (Get(s, k) != (CountPresses(ks, k) % 2 == 1))
  {
    if ks != [] {
      PressesParity(s, ks[..|ks| - 1], k);
    }
  }

  /** From the screen's defaults: notifications and location sharing stay on
      after an even number of presses of their switches, and the automatic
      alert is on exactly after an odd number of presses of its switch. */
  lemma PressesFromDefaults(ks: seq<Setting>)
    ensures Get(Presses(Defaults, ks), Notifications) <==> CountPresses(ks, Notifications) % 2 == 0
    ensures Get(Presses(Defaults, ks), AutoAlert) <==> CountPresses(ks, AutoAlert) % 2 == 1
    ensures Get(Presses(Defaults, ks), ShareLocation) <==> CountPresses(ks, ShareLocation) % 2 == 0
  {
    PressesParity(Defaults, ks, Notifications);
    PressesParity(Defaults, ks, AutoAlert);
    PressesParity(Defaults, ks, ShareLocation);
  }

  /** The escape plan starts inactive (`planActive` is false). */
  const PlanInitiallyActive: bool := false

  /** A press on the escape-plan button. */
  function TogglePlan(active: bool): (r: bool)
    ensures r != active
  {
    !active
  }

  /** The escape-plan button's gradient: green once the plan is active, red
      before. */
  function PlanButtonGradient(active: bool): (g: Palette.Gradient)
    ensures active ==> g == Palette.SuccessGradient
    ensures !active ==> g == Palette.EmergencyGradient
  {
    Palette.GetColors(if active then "success" else "emergency")
  }

  /** The plan starts inactive with a red button; whatever its state, a press
      swaps the button between red and green, and a second press restores the
      state. */
  lemma PlanPresses(active: bool)
    ensures PlanButtonGradient(PlanInitiallyActive) == Palette.EmergencyGradient
    ensures PlanButtonGradient(TogglePlan(active)) ==
      (if active then Palette.EmergencyGradient else Palette.SuccessGradient)
    ensures TogglePlan(TogglePlan(active)) == active
  {
  }
}
