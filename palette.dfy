/** The colour table of the app (COLORS) and the two lookups built on it: the
    gradient of the shared button (SeguraButton's getColors) and the colour of
    an alert-history status (HistoricoScreen's getStatusColor). */
module Palette {

  const Secondary: string := "#E91E63"
  const Accent: string := "#FF9800"
  const Success: string := "#4CAF50"
  const Warning: string := "#FFC107"
  const White: string := "#FFFFFF"

  /** The two ends of a button's horizontal gradient. */
  datatype Gradient = Gradient(start: string, end: string)

  const PrimaryGradient: Gradient := Gradient(Accent, "#FF5722")
  const EmergencyGradient: Gradient := Gradient("#FF5252", "#FF1744")
  const SuccessGradient: Gradient := Gradient(Success, "#388E3C")
  const DefaultGradient: Gradient := Gradient(Secondary, "#AD1457")

  /** `getColors()` for a button's `color` prop: the three named colours have
      their own gradient, every other name falls back to the
      secondary pair. */
  function GetColors(color: string): (g: Gradient)
    ensures g == PrimaryGradient <==> color == "primary"
    ensures g == EmergencyGradient <==> color == "emergency"
    ensures g == SuccessGradient <==> color == "success"
    ensures g == DefaultGradient <==> color !in {"primary", "emergency", "success"}
  {
    match color
    case "primary" => PrimaryGradient
    case "emergency" => EmergencyGradient
    case "success" => SuccessGradient
    case _ => DefaultGradient
  }

  /** `getStatusColor(status)` for an entry of the alert history: resolved is
      green, verified amber, monitored pink, and any other status white. */
  function GetStatusColor(status: string): (c: string)
    ensures c == Success <==> status == "Resolvido"
    ensures c == Warning <==> status == "Verificado"
    ensures c == Secondary <==> status == "Monitorado"
    ensures c == White <==> status !in {"Resolvido", "Verificado", "Monitorado"}
  {
    match status
    case "Resolvido" => Success
    case "Verificado" => Warning
    case "Monitorado" => Secondary
    case _ => White
  }
}
