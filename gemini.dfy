/** The session builder and request shaping of the language-model service:
    the persona's system instruction with a caller-role suffix, the tool
    declarations offered to two personas, the parts of an outgoing message,
    and the follow-up suggestion request and its parsing. The remote client
    itself is not modelled; its replies are inputs. */
module Gemini {
  import opened Types
  import Text
  import Seqs

  /** One string parameter of a declared tool. */
  datatype ParamDecl = ParamDecl(name: string, description: string)

  /** A tool the model may call: its parameters and which of them it must supply. */
  datatype FunctionDeclaration = FunctionDeclaration(
    name: string,
    description: string,
    parameters: seq<ParamDecl>,
    required: seq<string>)

  const SetReminderTool := FunctionDeclaration(
    "setReminder",
    "Set a reminder for the user for a specific task and time.",
    [ ParamDecl("task", "The task to be reminded about."),
      ParamDecl("time", "The time for the reminder (e.g. \"2pm\", \"in 10 minutes\").") ],
    ["task", "time"])

  const ScheduleMeetingTool := FunctionDeclaration(
    "scheduleMeeting",
    "Schedule a meeting with colleagues.",
    [ ParamDecl("topic", "The subject or topic of the meeting."),
      ParamDecl("participants", "Comma separated list of participants."),
      ParamDecl("time", "Date and time of the meeting.") ],
    ["topic", "participants", "time"])

  /** The names of a declaration's parameters. */
  function ParamNames(ps: seq<ParamDecl>): (names: seq<string>)
    ensures |names| == |ps|
    ensures forall i :: 0 <= i < |ps| ==> names[i] == ps[i].name
  {
    if ps == [] then [] else [ps[0].name] + ParamNames(ps[1..])
  }

  /** Every required argument of both tools is a declared parameter; the
      reminder needs a task and a time, the meeting a topic, participants and a time. */
  lemma ToolRequirements()
    ensures forall r :: r in SetReminderTool.required ==> r in ParamNames(SetReminderTool.parameters)
    ensures forall r :: r in ScheduleMeetingTool.required ==> r in ParamNames(ScheduleMeetingTool.parameters)
    ensures SetReminderTool.required == ["task", "time"]
    ensures ScheduleMeetingTool.required == ["topic", "participants", "time"]
  {
    assert ParamNames(SetReminderTool.parameters)[0] == "task";
    assert ParamNames(SetReminderTool.parameters)[1] == "time";
    assert ParamNames(ScheduleMeetingTool.parameters)[0] == "topic";
    assert ParamNames(ScheduleMeetingTool.parameters)[1] == "participants";
    assert ParamNames(ScheduleMeetingTool.parameters)[2] == "time";
  }

  /** The fixed instruction text of each persona. */
  function PersonaInstruction(mode: AssistantMode): string
  {
    match mode
    case EmailDrafter =>
      "You are an expert corporate communications specialist. Your goal is to draft clear, concise, and professional emails. You adjust tone based on the recipient (e.g., executive, peer, client). Always prioritize brevity and clarity."
    case Strategist =>
      "You are a senior business strategist. You analyze problems using frameworks like SWOT, PESTLE, or OKRs. Your advice is strategic, long-term oriented, and risk-aware. Focus on ROI and business impact."
    case Coding =>
      "You are a principal software architect. You provide high-quality, secure, and scalable code solutions. You explain technical concepts clearly to business stakeholders when necessary."
    case HrAssistant =>
      "You are a Human Resources confidant and policy expert. You assist HR Administrators with sensitive employee data, policy drafting, and conflict resolution. Maintain strict confidentiality, professional empathy, and adherence to labor laws."
    case Wellness =>
      "You are a corporate wellness coach. Your goal is to help reduce employee burnout and stress. Provide calming advice, breathing exercises, productivity tips that emphasize work-life balance, and empathetic listening. Keep a soothing and supportive tone."
    case General =>
      "You are a helpful, professional, and efficient corporate AI assistant. You help with a wide range of business tasks. Keep your answers structured, using bullet points and bold text for readability. You can analyze PDFs and data provided by the user."
  }

  const RoleContextHead := "\n\n[User Context]\nYou are conversing with a user who has the corporate role of \""
  const RoleContextTail := "\"" + ". Adjust your level of detail, tone, and strategic depth to match this role."

  /** The suffix that tells the model the caller's role, which it names in double quotes. */
  function RoleContext(role: UserRole): (s: string)
    ensures Text.OccursAt(s, "\"" + UserRoleValue(role) + "\"", |RoleContextHead| - 1)
  {
    assert RoleContextHead[|RoleContextHead| - 1] == '"' && RoleContextTail[0] == '"';
    Tagged(RoleContextHead, UserRoleValue(role), RoleContextTail)
  }

  /** `head + value + tail`, where `head` ends and `tail` starts with a double quote. */
  function Tagged(head: string, value: string, tail: string): (s: string)
    requires |head| > 0 && head[|head| - 1] == '"' && |tail| > 0 && tail[0] == '"'
    ensures Text.OccursAt(s, "\"" + value + "\"", |head| - 1)
  {
    var s := head + value + tail;
    assert s[|head| - 1..|head| + |value| + 1] == "\"" + value + "\"";
    s
  }

  /** The system instruction: the persona text followed by the role context. */
  function SystemInstruction(mode: AssistantMode, role: UserRole): (s: string)
    ensures Text.StartsWith(s, PersonaInstruction(mode))
    ensures s[|PersonaInstruction(mode)|..] == RoleContext(role)
  {
    Append(PersonaInstruction(mode), RoleContext(role))
  }

  /** Concatenation, with its two halves recoverable by slicing. */
  function Append(a: string, b: string): (s: string)
    ensures Text.StartsWith(s, a) && s[|a|..] == b
  {
    assert (a + b)[..|a|] == a;
    a + b
  }

  /** The tools offered to a persona: both tools for General and Email Drafter, none otherwise. */
  function ToolsFor(mode: AssistantMode): (tools: Option<seq<FunctionDeclaration>>)
    ensures tools.Some? <==> mode == General || mode == EmailDrafter
    ensures tools.Some? ==> tools.value == [SetReminderTool, ScheduleMeetingTool]
  {
    if mode == General || mode == EmailDrafter then Some([SetReminderTool, ScheduleMeetingTool]) else None
  }

  /** What a new chat session is configured with. */
  datatype ChatConfig = ChatConfig(systemInstruction: string, tools: Option<seq<FunctionDeclaration>>)

  function CreateChatSession(mode: AssistantMode, role: UserRole): (c: ChatConfig)
    ensures c.systemInstruction == SystemInstruction(mode, role)
    ensures c.tools == ToolsFor(mode)
  {
    ChatConfig(SystemInstruction(mode, role), ToolsFor(mode))
  }

  /** One part of a multi-part outgoing message. */
  datatype Part =
    | InlineData(mimeType: string, data: string)
    | TextPart(text: string)
    | FunctionResponsePart(name: string, result: string, id: string)

  /** An outgoing message: plain text, or a list of parts. */
  datatype Outgoing = PlainMessage(text: string) | PartsMessage(parts: seq<Part>)

  const DefaultDocumentPrompt := "Please analyze this document."

  /** Shapes a user message: with an attachment, the inline data and then the
      text (an empty text becomes the default prompt); otherwise the plain text. */
  function MessageFor(message: string, attachment: Option<Attachment>): (out: Outgoing)
    ensures attachment.None? ==> out == PlainMessage(message)
    ensures attachment.Some? ==>
      && out.PartsMessage? && |out.parts| == 2
      && out.parts[0] == InlineData(attachment.value.mimeType, attachment.value.data)
      && out.parts[1].TextPart?
      && out.parts[1].text == (if message == "" then DefaultDocumentPrompt else message)
    ensures attachment.Some? ==> out.parts[1].text != ""
  {
    match attachment
    case None => PlainMessage(message)
    case Some(a) =>
      var text := if message == "" then DefaultDocumentPrompt else message;
      PartsMessage([InlineData(a.mimeType, a.data), TextPart(text)])
  }

  /** `role: content` for one transcript entry. */
  function ContextLine(m: Message): string
  {
    RoleValue(m.role) + ": " + m.content
  }

  function ContextLines(ms: seq<Message>): (lines: seq<string>)
    ensures |lines| == |ms|
    ensures forall i :: 0 <= i < |ms| ==> lines[i] == ContextLine(ms[i])
  {
    if ms == [] then [] else [ContextLine(ms[0])] + ContextLines(ms[1..])
  }

  /** The last three entries, or all of them when there are fewer (slice(-3)). */
  function LastThree(history: seq<Message>): (r: seq<Message>)
    ensures |r| == if |history| < 3 then |history| else 3
    ensures r == history[|history| - |r|..]
  {
    if |history| <= 3 then history else history[|history| - 3..]
  }

  /** The conversation excerpt sent with a suggestion request. */
  function RecentContext(history: seq<Message>): string
  {
    Text.Join(ContextLines(LastThree(history)), "\n")
  }

  /** Only the last three entries reach the suggestion request. */
  lemma ContextUsesLastThree(earlier: seq<Message>, recent: seq<Message>)
    requires |recent| >= 3
    ensures RecentContext(earlier + recent) == RecentContext(recent)
    ensures RecentContext(recent) == Text.Join(ContextLines(recent[|recent| - 3..]), "\n")
  {
    assert (earlier + recent)[|earlier + recent| - 3..] == recent[|recent| - 3..];
  }

  /** A three-entry history becomes three `role: content` lines joined by newlines. */
  lemma ContextOfThree(a: Message, b: Message, c: Message)
    ensures RecentContext([a, b, c]) == ContextLine(a) + "\n" + ContextLine(b) + "\n" + ContextLine(c)
  {
    assert LastThree([a, b, c]) == [a, b, c];
    var lines := ContextLines([a, b, c]);
    assert lines == [ContextLine(a), ContextLine(b), ContextLine(c)];
    assert lines[1..] == [ContextLine(b), ContextLine(c)];
    assert lines[1..][1..] == [ContextLine(c)];
    assert Text.Join(lines[1..][1..], "\n") == ContextLine(c);
    assert Text.Join(lines[1..], "\n") == ContextLine(b) + "\n" + ContextLine(c);
  }

  const SuggestionInstructions := "Based on the conversation below, suggest 3 short, professional follow-up responses (max 5-6 words each) that the user might want to send next. Return ONLY the phrases separated by pipes (|). Do not number them.\n  \n  Conversation:\n  "

  /** The prompt of a suggestion request: fixed instructions, then the recent context. */
  function SuggestionPrompt(history: seq<Message>): string
  {
    SuggestionInstructions + RecentContext(history)
  }

  /** The reply split on pipes, each piece trimmed, empty pieces dropped, at most three kept. */
  function ParseSuggestions(reply: string): (r: seq<string>)
    ensures |r| <= 3
    ensures forall x :: x in r ==> x != "" && Text.IsTrimmed(x) && '|' !in x
    ensures |r| == if |Text.Pieces(reply, '|')| < 3 then |Text.Pieces(reply, '|')| else 3
    ensures r == Text.Pieces(reply, '|')[..|r|]
  {
    var kept := Text.Pieces(reply, '|');
    var r := Seqs.Take(kept, 3);
    assert forall i :: 0 <= i < |r| ==> r[i] in kept;
    r
  }

  const FallbackSuggestions := ["Tell me more", "Thank you", "Next steps?"]

  /** The suggestions a request yields: parsed from the reply text (a missing
      text reads as empty), or the fixed fallback list when the request fails. */
  function SmartSuggestions(reply: Option<string>): (r: seq<string>)
    ensures reply.None? ==> r == FallbackSuggestions
    ensures |r| <= 3
    ensures forall x :: x in r ==> x != ""
  {
    match reply
    case None => FallbackSuggestions
    case Some(text) => ParseSuggestions(text)
  }

  /** Pipe-separated phrases that are already trimmed come back in their order. */
  lemma {:induction false} ParseSuggestionsRoundTrip(phrases: seq<string>)
    requires 1 <= |phrases| <= 3
    requires forall i :: 0 <= i < |phrases| ==>
      phrases[i] != "" && '|' !in phrases[i] && Text.IsTrimmed(phrases[i])
    ensures ParseSuggestions(Text.Join(phrases, "|")) == phrases
  {
    SplitJoinPipes(phrases);
    var trimmed := Text.TrimAll(phrases);
    forall i | 0 <= i < |phrases|
      ensures trimmed[i] == phrases[i]
    {
      Text.TrimTrimmed(phrases[i]);
    }
    assert trimmed == phrases;
    Seqs.FilterKeepsAll(phrases, Text.NonEmpty);
  }

  lemma {:induction false} SplitJoinPipes(phrases: seq<string>)
    requires |phrases| >= 1
    requires forall i :: 0 <= i < |phrases| ==> '|' !in phrases[i]
    ensures Text.Split(Text.Join(phrases, "|"), '|') == phrases
  {
    if |phrases| == 1 {
      Text.SplitNoSeparator(phrases[0], '|');
    } else {
      SplitJoinPipes(phrases[1..]);
      Text.SplitAfterPiece(phrases[0], '|', Text.Join(phrases[1..], "|"));
      assert Text.Join(phrases, "|") == phrases[0] + ['|'] + Text.Join(phrases[1..], "|");
      assert phrases == [phrases[0]] + phrases[1..];
    }
  }
}
