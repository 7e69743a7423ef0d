/** The three risk labels; both scoring rules spell them the same way. */
module RiskLabels {

  const LowRisk: string := "Low Risk"
  const MediumRisk: string := "Medium Risk"
  const HighRisk: string := "High Risk"

  /** Rank of a label, 0 for low up to 2 for high; used to state that classification keeps the order of scores. */
  function Severity(level: string): nat
  {
    if level == LowRisk then 0 else if level == MediumRisk then 1 else 2
  }
}
