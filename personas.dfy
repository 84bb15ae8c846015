/** The fixed persona table: six assistant modes, three of them restricted
    to a list of caller roles. */
module Personas {
  import opened Types

  /** The persona table in display order. The per-persona instruction text is
      empty here; the session builder supplies it. */
  const Modes: seq<ModeConfig> := [
    ModeConfig(General, "General Assistant", "Everyday tasks and queries", "", "Briefcase", None),
    ModeConfig(EmailDrafter, "Email Drafter", "Professional communication", "", "Mail", None),
    ModeConfig(Strategist, "Business Strategist", "Analysis and planning", "", "TrendingUp",
      Some([Manager, Executive])),
    ModeConfig(Coding, "Tech Architect", "Code and technical specs", "", "Code2",
      Some([Employee, Manager, Executive])),
    ModeConfig(HrAssistant, "HR Specialist", "Policy & Personnel (Restricted)", "", "Users",
      Some([HrAdmin])),
    ModeConfig(Wellness, "Wellness Coach", "Stress relief & Tips", "", "Coffee", None)
  ]

  /** The row of the table that configures `mode`. */
  function ConfigOf(mode: AssistantMode): (c: ModeConfig)
    ensures c in Modes && c.id == mode
  {
    match mode
    case General => Modes[0]
    case EmailDrafter => Modes[1]
    case Strategist => Modes[2]
    case Coding => Modes[3]
    case HrAssistant => Modes[4]
    case Wellness => Modes[5]
  }

  /** The table has six rows with pairwise distinct ids, one per persona. */
  lemma ModesCoverEveryPersona()
    ensures |Modes| == 6
    ensures forall i, j :: 0 <= i < j < |Modes| ==> Modes[i].id != Modes[j].id
    ensures forall m: AssistantMode :: ConfigOf(m) in Modes && ConfigOf(m).id == m
  {
  }

  /** General, Email Drafter and Wellness carry no role restriction. */
  lemma UnrestrictedPersonas()
    ensures ConfigOf(General).allowedRoles == None
    ensures ConfigOf(EmailDrafter).allowedRoles == None
    ensures ConfigOf(Wellness).allowedRoles == None
  {
  }

  /** HR Specialist is for HR Admin only; Business Strategist for Manager and
      Executive; Tech Architect for everyone except HR Admin. */
  lemma RestrictedPersonas()
    ensures ConfigOf(HrAssistant).allowedRoles == Some([HrAdmin])
    ensures ConfigOf(Strategist).allowedRoles == Some([Manager, Executive])
    ensures ConfigOf(Coding).allowedRoles == Some([Employee, Manager, Executive])
  {
  }
}
