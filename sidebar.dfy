/** The navigation sidebar: which personas a caller's role may see, the icon
    shown for each, and the persona a click selects. */
module Sidebar {
  import opened Types
  import opened Personas

  /** A persona without an allow-list is open to all; otherwise the role must be listed. */
  predicate MayUse(c: ModeConfig, role: UserRole)
  {
    c.allowedRoles.None? || role in c.allowedRoles.value
  }

  /** The rows of `rows` that `role` may use, in order. */
  function VisibleIn(rows: seq<ModeConfig>, role: UserRole): seq<ModeConfig>
  {
    if rows == [] then []
    else if MayUse(rows[0], role) then [rows[0]] + VisibleIn(rows[1..], role)
    else VisibleIn(rows[1..], role)
  }

  /** The filter keeps exactly the rows the role may use. */
  lemma {:induction false} VisibleInMembers(rows: seq<ModeConfig>, role: UserRole)
    ensures forall c :: c in VisibleIn(rows, role) <==> c in rows && MayUse(c, role)
  {
    if rows != [] {
      VisibleInMembers(rows[1..], role);
      assert rows == [rows[0]] + rows[1..];
    }
  }

  /** The persona rows shown to `role`, in table order. */
  function VisibleModes(role: UserRole): (r: seq<ModeConfig>)
    ensures forall c :: c in r <==> c in Modes && MayUse(c, role)
  {
    VisibleInMembers(Modes, role);
    VisibleIn(Modes, role)
  }

  /** `a` is `b` with some elements left out and the rest kept in order. */
  predicate IsSubsequence(a: seq<ModeConfig>, b: seq<ModeConfig>)
    decreases |b|
  {
    a == [] || (b != [] && ((a[0] == b[0] && IsSubsequence(a[1..], b[1..])) || IsSubsequence(a, b[1..])))
  }

  /** The filter only drops rows: its result keeps the table's order. */
  lemma {:induction false} VisibleInSubsequence(rows: seq<ModeConfig>, role: UserRole)
    ensures IsSubsequence(VisibleIn(rows, role), rows)
  {
    if rows != [] {
      VisibleInSubsequence(rows[1..], role);
      if MayUse(rows[0], role) {
        assert ([rows[0]] + VisibleIn(rows[1..], role))[1..] == VisibleIn(rows[1..], role);
      }
    }
  }

  /** The visible personas are a subsequence of the table. */
  lemma VisibleModesOrdered(role: UserRole)
    ensures IsSubsequence(VisibleModes(role), Modes)
  {
    VisibleInSubsequence(Modes, role);
  }

  /** Which personas each role may use, read off the table. */
  lemma MayUseByRole(m: AssistantMode, role: UserRole)
    ensures MayUse(ConfigOf(m), role) <==>
      match m
      case Strategist => role in {Manager, Executive}
      case Coding => role != HrAdmin
      case HrAssistant => role == HrAdmin
      case _ => true
  {
  }

  /** Which personas each role sees. */
  lemma VisibleModesByRole(m: AssistantMode, role: UserRole)
    ensures role == Employee ==> (ConfigOf(m) in VisibleModes(role) <==> m in {General, EmailDrafter, Coding, Wellness})
    ensures role in {Manager, Executive} ==> (ConfigOf(m) in VisibleModes(role) <==> m != HrAssistant)
    ensures role == HrAdmin ==> (ConfigOf(m) in VisibleModes(role) <==> m in {General, EmailDrafter, HrAssistant, Wellness})
  {
    MayUseByRole(m, role);
    assert ConfigOf(m) in VisibleModes(role) <==> MayUse(ConfigOf(m), role);
  }

  /** An HR Admin sees neither the Business Strategist nor the Tech Architect,
      and is the only role that sees the HR Specialist. */
  lemma HrAdminVisibility(role: UserRole)
    ensures ConfigOf(Strategist) !in VisibleModes(HrAdmin)
    ensures ConfigOf(Coding) !in VisibleModes(HrAdmin)
    ensures ConfigOf(HrAssistant) in VisibleModes(role) <==> role == HrAdmin
  {
    VisibleModesByRole(Strategist, HrAdmin);
    VisibleModesByRole(Coding, HrAdmin);
    VisibleModesByRole(HrAssistant, role);
  }

  /** A persona with no allow-list is visible to every role. */
  lemma UnrestrictedAlwaysVisible(c: ModeConfig, role: UserRole)
    requires c in Modes && c.allowedRoles.None?
    ensures c in VisibleModes(role)
  {
  }

  /** The icons the sidebar can draw. */
  datatype Icon = Briefcase | Mail | TrendingUp | Code2 | Users | Coffee

  /** The icon for a table's icon name; unknown names fall back to the briefcase. */
  function IconFor(name: string): (icon: Icon)
    ensures name == "Mail" <==> icon == Mail
    ensures name == "TrendingUp" <==> icon == TrendingUp
    ensures name == "Code2" <==> icon == Code2
    ensures name == "Users" <==> icon == Users
    ensures name == "Coffee" <==> icon == Coffee
    ensures icon == Briefcase <==> name !in {"Mail", "TrendingUp", "Code2", "Users", "Coffee"}
  {
    match name
    case "Briefcase" => Briefcase
    case "Mail" => Mail
    case "TrendingUp" => TrendingUp
    case "Code2" => Code2
    case "Users" => Users
    case "Coffee" => Coffee
    case _ => Briefcase
  }

  /** Every persona in the table is drawn with its own icon. */
  lemma TableIconsDistinct()
    ensures forall i, j :: 0 <= i < j < |Modes| ==> IconFor(Modes[i].icon) != IconFor(Modes[j].icon)
  {
  }

  /** Clicking the `i`-th visible entry selects that entry's persona, which the role may use. */
  function SelectVisible(role: UserRole, i: nat): (mode: AssistantMode)
    requires i < |VisibleModes(role)|
    ensures MayUse(ConfigOf(mode), role)
    ensures ConfigOf(mode) == VisibleModes(role)[i]
  {
    var c := VisibleModes(role)[i];
    assert c in Modes;
    c.id
  }
}
