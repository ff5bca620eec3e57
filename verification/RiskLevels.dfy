/** The three risk levels of rules, events and alarms, in the order of RISK_LEVELS. */
module RiskLevels {
  datatype Risk = Normal | Warning | Danger

  function Rank(risk: Risk): nat {
    match risk case Normal => 0 case Warning => 1 case Danger => 2
  }

  /** A risk as payloads write it. */
  function RiskText(risk: Risk): (text: string)
    ensures text != "resolved" && ':' !in text
  {
    match risk case Normal => "normal" case Warning => "warning" case Danger => "danger"
  }

  lemma RiskTextInjective(r: Risk, q: Risk)
    requires RiskText(r) == RiskText(q)
    ensures r == q
  {
    assert "normal"[0] != "warning"[0] && "normal"[0] != "danger"[0] && "warning"[0] != "danger"[0];
  }
}
