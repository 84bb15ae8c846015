/** The shared records of the assistant front end: transcript entries,
    attachments, personas, caller roles and persona configurations. */
module Types {

  datatype Option<+T> = None | Some(value: T)

  /** Who wrote a transcript entry. */
  datatype Role = FromUser | FromModel

  /** The wire name of a role, as it appears in the suggestion context. */
  function RoleValue(r: Role): string
  {
    match r
    case FromUser => "user"
    case FromModel => "model"
  }

  /** A file attached to an outgoing message; `data` is the base64 payload. */
  datatype Attachment = Attachment(name: string, mimeType: string, data: string)

  /** A transcript entry; `timestamp` is in milliseconds. */
  datatype Message = Message(id: string, role: Role, content: string, timestamp: int, attachment: Option<Attachment>)

  /** The six personas the assistant can take. */
  datatype AssistantMode = General | EmailDrafter | Strategist | Coding | HrAssistant | Wellness

  /** The display value of a persona (the enum's string value). */
  function ModeValue(m: AssistantMode): string
  {
    match m
    case General => "General Assistant"
    case EmailDrafter => "Email Specialist"
    case Strategist => "Strategy Advisor"
    case Coding => "Technical Architect"
    case HrAssistant => "HR Specialist"
    case Wellness => "Wellness Coach"
  }

  /** The corporate roles a caller can log in with. */
  datatype UserRole = Employee | Manager | HrAdmin | Executive

  /** The display value of a caller role (the enum's string value). */
  function UserRoleValue(r: UserRole): string
  {
    match r
    case Employee => "Employee"
    case Manager => "Manager"
    case HrAdmin => "HR Admin"
    case Executive => "Executive"
  }

  datatype User = User(name: string, role: UserRole)

  /** One row of the persona table; `allowedRoles == None` means every role may use it. */
  datatype ModeConfig = ModeConfig(
    id: AssistantMode,
    name: string,
    description: string,
    systemInstruction: string,
    icon: string,
    allowedRoles: Option<seq<UserRole>>)

  /** The priority a reminder or a meeting carries. */
  datatype Priority = Low | Medium | High
}
