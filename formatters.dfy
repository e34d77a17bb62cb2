/**
  `formatRiskLevel` of src/utils/formatters.js: the badge text and colour
  shown for a risk label.
 */
module Formatters {
  import opened Domain

  datatype Badge = Badge(text: string, color: string)

  /** The labels with a badge of their own. */
  predicate Known(level: string) {
    level in {"Low", "Moderate", "High", "Danger", "Excellent", "Satisfactory", "Risk"}
  }

  /** The labels whose badge text differs from the label. */
  predicate Reworded(level: string) {
    level in {"Low", "Moderate", "High", "Danger", "Risk"}
  }

  function FormatRiskLevel(level: string): (b: Badge)
    ensures b.color in {"success", "warning", "error", "default"}
    ensures b.color == "default" <==> !Known(level)
    ensures !Known(level) ==> b == Badge(level, "default")
  {
    match level
    case "Low" => Badge("Low Risk", "success")
    case "Moderate" => Badge("Moderate Risk", "warning")
    case "High" => Badge("High Risk", "error")
    case "Danger" => Badge("Critical Risk", "error")
    case "Excellent" => Badge("Excellent", "success")
    case "Satisfactory" => Badge("Satisfactory", "warning")
    case "Risk" => Badge("At Risk", "error")
    case _ => Badge(level, "default")
  }

  /** The seven known labels and their badges. */
  lemma KnownBadges()
    ensures FormatRiskLevel("Low") == Badge("Low Risk", "success")
    ensures FormatRiskLevel("Moderate") == Badge("Moderate Risk", "warning")
    ensures FormatRiskLevel("High") == Badge("High Risk", "error")
    ensures FormatRiskLevel("Danger") == Badge("Critical Risk", "error")
    ensures FormatRiskLevel("Excellent") == Badge("Excellent", "success")
    ensures FormatRiskLevel("Satisfactory") == Badge("Satisfactory", "warning")
    ensures FormatRiskLevel("Risk") == Badge("At Risk", "error")
  {
  }

  /** The colours group the labels: High, Danger and Risk are errors; Low and Excellent successes; Moderate and Satisfactory warnings. */
  lemma ColourGroups(level: string)
    ensures FormatRiskLevel(level).color == "error" <==> level in {"High", "Danger", "Risk"}
    ensures FormatRiskLevel(level).color == "success" <==> level in {"Low", "Excellent"}
    ensures FormatRiskLevel(level).color == "warning" <==> level in {"Moderate", "Satisfactory"}
  {
  }

  /** The badge repeats the label exactly for Excellent, Satisfactory and every unknown label. */
  lemma TextKeepsLabel(level: string)
    ensures FormatRiskLevel(level).text == level <==> !Reworded(level)
  {
  }

  /** Every label the classifier emits has a badge of its own. */
  lemma ClassifierLabelsKnown(l: Level)
    ensures Known(LevelName(l))
    ensures FormatRiskLevel(LevelName(l)).color != "default"
  {
  }
}
