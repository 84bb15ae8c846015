/** The application shell and its assistant screen: who is signed in, which
    section is shown, the chat transcript, the draft and the attached file,
    the active persona with its chat session, and the follow-up suggestions.
    Clocks, the file reader and the remote model are inputs of the methods. */
module Chat {
  import opened Types
  import Text
  import Seqs
  import Gemini
  import opened Turn

  /** The sections of the application. */
  datatype View = Dashboard | AiChat | Descheduler | TaskReminder | FuturePrediction

  /** A chat session: the persona and caller role it was created for, and
      every message the screen has handed to it. */
  datatype Session = Session(persona: AssistantMode, role: UserRole, sent: seq<Gemini.Outgoing>)

  /** What a session is configured with: the persona's instruction for the
      caller's role, and the tools of that persona. */
  function SessionConfig(s: Session): (c: Gemini.ChatConfig)
    ensures c.tools.Some? <==> s.persona == General || s.persona == EmailDrafter
    ensures Text.StartsWith(c.systemInstruction, Gemini.PersonaInstruction(s.persona))
  {
    Gemini.CreateChatSession(s.persona, s.role)
  }

  /** Clock readings taken during one send, in milliseconds: when the
      user's entry is made, when the reply placeholder is made, and when a
      failure notice is made. */
  datatype Clock = Clock(sent: nat, reply: nat, failure: nat)

  /** Every field of the screen at once. */
  datatype AppState = AppState(
    user: Option<User>,
    view: View,
    messages: seq<Message>,
    input: string,
    isStreaming: bool,
    currentMode: AssistantMode,
    sidebarOpen: bool,
    suggestions: seq<string>,
    selectedFile: Option<Attachment>,
    session: Option<Session>)

  function Digit(d: nat): (c: char)
    requires d < 10
    ensures '0' <= c <= '9'
  {
    ('0' as int + d) as char
  }

  /** A clock reading written in decimal, as ids are made from it. */
  function DecimalString(n: nat): (s: string)
    ensures |s| >= 1
    ensures forall i :: 0 <= i < |s| ==> '0' <= s[i] <= '9'
  {
    if n < 10 then [Digit(n)] else DecimalString(n / 10) + [Digit(n % 10)]
  }

  /** Different readings give different ids. */
  lemma {:induction false} DecimalStringInjective(n: nat, m: nat)
    requires DecimalString(n) == DecimalString(m)
    ensures n == m
  {
    if n >= 10 && m >= 10 {
      var a, b := DecimalString(n), DecimalString(m);
      assert a[..|a| - 1] == DecimalString(n / 10);
      assert b[..|b| - 1] == DecimalString(m / 10);
      DecimalStringInjective(n / 10, m / 10);
      assert Digit(n % 10) == a[|a| - 1] == b[|b| - 1] == Digit(m % 10);
    }
  }

  /** The opening line of a fresh conversation. */
  function Greeting(name: string, mode: AssistantMode): string
  {
    "Hello " + name + ". I am your " + ModeValue(mode) + ". How can I assist you today?"
  }

  const NoticeText := "**System Notification:** Connection interruption detected. Please retry your request."

  /** Replaces the content of every entry whose id is `id`, leaving all else as it was. */
  function SetContent(msgs: seq<Message>, id: string, content: string): (r: seq<Message>)
    ensures |r| == |msgs|
    ensures forall i :: 0 <= i < |msgs| ==>
      r[i] == (if msgs[i].id == id then msgs[i].(content := content) else msgs[i])
  {
    seq(|msgs|, i requires 0 <= i < |msgs| =>
      if msgs[i].id == id then msgs[i].(content := content) else msgs[i])
  }

  /** Only the latest content written to an id survives. */
  lemma SetContentTwice(msgs: seq<Message>, id: string, c1: string, c2: string)
    ensures SetContent(SetContent(msgs, id, c1), id, c2) == SetContent(msgs, id, c2)
  {
  }

  /** The transcript once `text` has streamed into the reply entry `id`:
      nothing is written while the text is still empty. */
  function Published(base: seq<Message>, id: string, text: string): seq<Message>
  {
    if text == "" then base else SetContent(base, id, text)
  }

  /** Appending a non-empty piece and writing the whole text again is publishing the longer text. */
  lemma PublishMore(base: seq<Message>, id: string, text: string, piece: string)
    requires piece != ""
    ensures SetContent(Published(base, id, text), id, text + piece) == Published(base, id, text + piece)
  {
    if text != "" {
      SetContentTwice(base, id, text, text + piece);
    }
  }

  /** Entries before the reply that do not share its id stay as they were,
      and the reply entry holds the streamed text once there is any. */
  lemma PublishedKeepsEarlier(earlier: seq<Message>, reply: Message, text: string)
    requires forall i :: 0 <= i < |earlier| ==> earlier[i].id != reply.id
    ensures Published(earlier + [reply], reply.id, text)[..|earlier|] == earlier
    ensures Published(earlier + [reply], reply.id, text)[|earlier|].content
      == (if text == "" then reply.content else text)
  {
  }

  /** The text a send uses: a non-empty override (a clicked suggestion), else the draft. */
  function TextToSend(override: Option<string>, input: string): (t: string)
    ensures override.Some? && override.value != "" ==> t == override.value
    ensures override.None? || override.value == "" ==> t == input
  {
    if override.Some? && override.value != "" then override.value else input
  }

  /** A send goes ahead unless there is nothing to send (blank text and no
      file), there is no session, or a reply is still streaming. */
  predicate Accepts(text: string, file: Option<Attachment>, session: Option<Session>, streaming: bool)
  {
    !((Text.IsBlank(text) && file.None?) || session.None? || streaming)
  }

  /** The user's entry in the transcript: the text as typed, untrimmed, with the attached file. */
  function UserEntry(text: string, clock: Clock, file: Option<Attachment>): Message
  {
    Message(DecimalString(clock.sent), FromUser, text, clock.sent, file)
  }

  function ReplyId(clock: Clock): string
  {
    DecimalString(clock.reply + 1)
  }

  function Placeholder(clock: Clock): Message
  {
    Message(ReplyId(clock), FromModel, "", clock.reply, None)
  }

  function Notice(clock: Clock): Message
  {
    Message(DecimalString(clock.failure), FromModel, NoticeText, clock.failure, None)
  }

  /** The conversation handed to the suggestion request: the transcript as
      it was before the send, the user's entry and the reply text (the
      reply entry carries no id or time). */
  function SuggestionHistory(before: seq<Message>, entry: Message, reply: string): seq<Message>
  {
    before + [entry, Message("", FromModel, reply, 0, None)]
  }

  /** The pieces of one tool call's confirmation stream are added to the
      reply text one by one; each non-empty piece rewrites the reply entry. */
  method ConsumeToolReply(msgs0: seq<Message>, base: seq<Message>, id: string, text0: string, reply: seq<string>)
    returns (msgs: seq<Message>, text: string)
    requires msgs0 == Published(base, id, text0)
    ensures text == text0 + Concat(reply)
    ensures msgs == Published(base, id, text)
  {
    msgs, text := msgs0, text0;
    var k := 0;
    while k < |reply|
      invariant 0 <= k <= |reply|
      invariant text == text0 + Concat(reply[..k])
      invariant msgs == Published(base, id, text)
    {
      var piece := reply[k];
      ConcatSnoc(reply[..k], piece);
      assert reply[..k + 1] == reply[..k] + [piece];
      if piece != "" {
        PublishMore(base, id, text, piece);
        text := text + piece;
        msgs := SetContent(msgs, id, text);
      } else {
        assert text + piece == text;
      }
      k := k + 1;
    }
    assert reply[..k] == reply;
  }

  /** One requested tool call: run it, hand its response to the session,
      then stream the confirmation; a call that throws fails the turn
      before anything is sent. */
  method Invoke(msgs0: seq<Message>, base: seq<Message>, id: string, text0: string,
                log0: seq<Gemini.Outgoing>, inv: Invocation)
    returns (msgs: seq<Message>, log: seq<Gemini.Outgoing>, text: string, failed: bool)
    requires msgs0 == Published(base, id, text0)
    ensures TurnState(text, log, failed) == Run(TurnState(text0, log0, false), InvocationEvents(inv))
    ensures msgs == Published(base, id, text)
  {
    InvokeSpec(TurnState(text0, log0, false), inv);
    if Throws(inv.call) {
      msgs, log, text, failed := msgs0, log0, text0, true;
    } else {
      var responses := ExecuteFunction(inv.call);
      var outgoing := ResponseMessage(responses);
      log := log0 + [outgoing];
      msgs, text := ConsumeToolReply(msgs0, base, id, text0, inv.reply);
      failed := inv.replyFails;
    }
  }

  /** A call that throws only marks the turn failed; any other adds its
      confirmation text and response, and fails when its confirmation
      stream breaks off. */
  lemma InvokeSpec(st: TurnState, inv: Invocation)
    requires !st.failed
    ensures Throws(inv.call) ==> Run(st, InvocationEvents(inv)) == st.(failed := true)
    ensures !Throws(inv.call) ==> Run(st, InvocationEvents(inv)) == TurnState(
      st.text + Concat(inv.reply),
      st.sent + [ResponseMessage(ExecuteFunction(inv.call))],
      inv.replyFails)
  {
    if Throws(inv.call) {
      RunSingle(st, Fail);
    } else {
      var m := ResponseMessage(ExecuteFunction(inv.call));
      var mid := st.(sent := st.sent + [m]);
      RunConcat(st, [Sent(m)], ReplyEvents(inv.reply));
      RunSingle(st, Sent(m));
      ReplyRun(mid, inv.reply);
      if inv.replyFails {
        RunConcat(st, [Sent(m)] + ReplyEvents(inv.reply), [Fail]);
        RunSingle(Run(st, [Sent(m)] + ReplyEvents(inv.reply)), Fail);
      } else {
        assert InvocationEvents(inv) == [Sent(m)] + ReplyEvents(inv.reply);
      }
    }
  }

  /** Once a prefix of the calls has failed, the remaining calls change nothing. */
  lemma {:induction false} CallsFailedPrefix(st: TurnState, invs: seq<Invocation>, j: nat)
    requires j <= |invs| && Run(st, CallsEvents(invs[..j])).failed
    ensures Run(st, CallsEvents(invs)) == Run(st, CallsEvents(invs[..j]))
    decreases |invs| - j
  {
    if j < |invs| {
      CallsEventsSnoc(invs, j);
      RunConcat(st, CallsEvents(invs[..j]), InvocationEvents(invs[j]));
      RunAfterFailure(Run(st, CallsEvents(invs[..j])), InvocationEvents(invs[j]));
      CallsFailedPrefix(st, invs, j + 1);
    } else {
      assert invs[..j] == invs;
    }
  }

  /** Once a prefix of the chunks has failed, the remaining chunks change nothing. */
  lemma {:induction false} StreamFailedPrefix(st: TurnState, chunks: seq<Chunk>, i: nat)
    requires i <= |chunks| && Run(st, StreamEvents(chunks[..i])).failed
    ensures Run(st, StreamEvents(chunks)) == Run(st, StreamEvents(chunks[..i]))
    decreases |chunks| - i
  {
    if i < |chunks| {
      StreamEventsSnoc(chunks, i);
      RunConcat(st, StreamEvents(chunks[..i]), ChunkEvents(chunks[i]));
      RunAfterFailure(Run(st, StreamEvents(chunks[..i])), ChunkEvents(chunks[i]));
      StreamFailedPrefix(st, chunks, i + 1);
    } else {
      assert chunks[..i] == chunks;
    }
  }

  /** The tool calls a chunk asks for, one after the other, until one fails. */
  method InvokeAll(msgs0: seq<Message>, base: seq<Message>, id: string, st: TurnState, calls: seq<Invocation>)
    returns (msgs: seq<Message>, log: seq<Gemini.Outgoing>, text: string, failed: bool)
    requires !st.failed
    requires msgs0 == Published(base, id, st.text)
    ensures TurnState(text, log, failed) == Run(st, CallsEvents(calls))
    ensures msgs == Published(base, id, text)
  {
    msgs, log, text, failed := msgs0, st.sent, st.text, false;
    var j := 0;
    while j < |calls| && !failed
      invariant 0 <= j <= |calls|
      invariant TurnState(text, log, failed) == Run(st, CallsEvents(calls[..j]))
      invariant msgs == Published(base, id, text)
    {
      CallsEventsSnoc(calls, j);
      RunConcat(st, CallsEvents(calls[..j]), InvocationEvents(calls[j]));
      msgs, log, text, failed := Invoke(msgs, base, id, text, log, calls[j]);
      j := j + 1;
    }
    if failed {
      CallsFailedPrefix(st, calls, j);
    } else {
      assert calls[..j] == calls;
    }
  }

  /** One chunk: its tool calls, then its own text. */
  method ConsumeChunk(msgs0: seq<Message>, base: seq<Message>, id: string, st: TurnState, c: Chunk)
    returns (msgs: seq<Message>, log: seq<Gemini.Outgoing>, text: string, failed: bool)
    requires !st.failed
    requires msgs0 == Published(base, id, st.text)
    ensures TurnState(text, log, failed) == Run(st, ChunkEvents(c))
    ensures msgs == Published(base, id, text)
  {
    msgs, log, text, failed := InvokeAll(msgs0, base, id, st, c.calls);
    RunConcat(st, CallsEvents(c.calls), [Delta(c.text)]);
    RunSingle(TurnState(text, log, failed), Delta(c.text));
    if !failed {
      if c.text != "" {
        PublishMore(base, id, text, c.text);
        text := text + c.text;
        msgs := SetContent(msgs, id, text);
      } else {
        assert text + c.text == text;
      }
    }
  }

  /** The reply stream of a send, chunk by chunk, until the connection
      fails; the reply entry `id` of `base` receives the text. */
  method StreamReply(base: seq<Message>, id: string, log0: seq<Gemini.Outgoing>, chunks: seq<Chunk>, streamFails: bool)
    returns (msgs: seq<Message>, log: seq<Gemini.Outgoing>, text: string, failed: bool)
    ensures TurnState(text, log, failed) == Run(TurnState("", log0, false), TurnEvents(chunks, streamFails))
    ensures msgs == Published(base, id, text)
  {
    var st0 := TurnState("", log0, false);
    msgs, log, text, failed := base, log0, "", false;
    var i := 0;
    while i < |chunks| && !failed
      invariant 0 <= i <= |chunks|
      invariant TurnState(text, log, failed) == Run(st0, StreamEvents(chunks[..i]))
      invariant msgs == Published(base, id, text)
    {
      StreamEventsSnoc(chunks, i);
      RunConcat(st0, StreamEvents(chunks[..i]), ChunkEvents(chunks[i]));
      msgs, log, text, failed := ConsumeChunk(msgs, base, id, TurnState(text, log, failed), chunks[i]);
      i := i + 1;
    }
    if failed {
      StreamFailedPrefix(st0, chunks, i);
    } else {
      assert chunks[..i] == chunks;
    }
    RunConcat(st0, StreamEvents(chunks), if streamFails then [Fail] else []);
    if streamFails {
      RunSingle(TurnState(text, log, failed), Fail);
      failed := true;
    }
  }

  /** What an accepted send leaves behind, apart from the screen flags: the
      transcript, the chat log, the conversation handed to the suggestion
      request (none after a failure) and the new suggestions. */
  datatype Exchanged = Exchanged(messages: seq<Message>, sent: seq<Gemini.Outgoing>,
                                 followUp: Option<seq<Message>>, suggestions: seq<string>)

  /** How a finished reply `r` settles the transcript `history` after the
      user's `entry`: the reply entry receives the text, a failure appends a
      notice and leaves no follow-up, and otherwise the finished history goes
      to the suggestion request, whose reply gives the suggestions. */
  function Settle(history: seq<Message>, entry: Message, clock: Clock, r: TurnState,
                  suggestionReply: Option<string>): Exchanged
  {
    Exchanged(Published(history + [entry, Placeholder(clock)], ReplyId(clock), r.text)
                + (if r.failed then [Notice(clock)] else []),
              r.sent,
              if r.failed then None else Some(SuggestionHistory(history, entry, r.text)),
              if r.failed then [] else Gemini.SmartSuggestions(suggestionReply))
  }

  /** The outcome of sending `text` (with `file`) on a transcript `history`
      and a chat log `sent`: the user's entry and an empty reply entry are
      appended, the request joins the log, and the reply streams in. */
  function AfterSend(history: seq<Message>, sent: seq<Gemini.Outgoing>, text: string, file: Option<Attachment>,
                     clock: Clock, chunks: seq<Chunk>, streamFails: bool, suggestionReply: Option<string>): Exchanged
  {
    Settle(history, UserEntry(text, clock, file), clock,
           Run(TurnState("", sent + [Gemini.MessageFor(text, file)], false), TurnEvents(chunks, streamFails)),
           suggestionReply)
  }

  /** Streaming `text` into a fresh reply entry changes that entry alone
      when no earlier entry shares its id. */
  lemma PublishReply(history: seq<Message>, entry: Message, clock: Clock, text: string)
    requires forall i :: 0 <= i < |history| ==> history[i].id != ReplyId(clock)
    requires entry.id != ReplyId(clock)
    ensures Published(history + [entry, Placeholder(clock)], ReplyId(clock), text)
      == history + [entry, Placeholder(clock).(content := text)]
  {
    PublishedKeepsEarlier(history + [entry], Placeholder(clock), text);
    assert (history + [entry]) + [Placeholder(clock)] == history + [entry, Placeholder(clock)];
    var m := Published(history + [entry, Placeholder(clock)], ReplyId(clock), text);
    assert m == m[..|history| + 1] + [m[|history| + 1]];
  }

  /** A reply that did not fail leaves the earlier transcript, the user's
      entry and the reply entry holding the whole text, and hands that
      history to the suggestion request. */
  lemma SettleWithoutFailure(history: seq<Message>, entry: Message, clock: Clock, r: TurnState,
                             suggestionReply: Option<string>)
    requires !r.failed
    requires forall i :: 0 <= i < |history| ==> history[i].id != ReplyId(clock)
    requires entry.id != ReplyId(clock)
    ensures Settle(history, entry, clock, r, suggestionReply) == Exchanged(
      history + [entry, Placeholder(clock).(content := r.text)], r.sent,
      Some(SuggestionHistory(history, entry, r.text)), Gemini.SmartSuggestions(suggestionReply))
  {
    PublishReply(history, entry, clock, r.text);
  }

  /** A failed reply leaves the earlier transcript, the user's entry, the
      reply entry holding what arrived before the failure and the notice,
      with no follow-up request and no suggestions. */
  lemma SettleFailure(history: seq<Message>, entry: Message, clock: Clock, r: TurnState,
                      suggestionReply: Option<string>)
    requires r.failed
    requires forall i :: 0 <= i < |history| ==> history[i].id != ReplyId(clock)
    requires entry.id != ReplyId(clock)
    ensures Settle(history, entry, clock, r, suggestionReply) == Exchanged(
      history + [entry, Placeholder(clock).(content := r.text), Notice(clock)], r.sent, None, [])
  {
    PublishReply(history, entry, clock, r.text);
  }

  /** The part of a send that does not touch the screen state. */
  method Exchange(history: seq<Message>, sent: seq<Gemini.Outgoing>, text: string, file: Option<Attachment>,
                  clock: Clock, chunks: seq<Chunk>, streamFails: bool, suggestionReply: Option<string>)
    returns (o: Exchanged)
    ensures o == AfterSend(history, sent, text, file, clock, chunks, streamFails, suggestionReply)
  {
    var entry := UserEntry(text, clock, file);
    var msgs, log, reply, failed := StreamReply(history + [entry, Placeholder(clock)], ReplyId(clock),
                                                sent + [Gemini.MessageFor(text, file)], chunks, streamFails);
    o := Exchanged(msgs + (if failed then [Notice(clock)] else []), log,
                   if failed then None else Some(SuggestionHistory(history, entry, reply)),
                   if failed then [] else Gemini.SmartSuggestions(suggestionReply));
  }

  /** The user's entry and the reply placeholder get different ids unless
      the reply's clock reading is exactly one less than the entry's. */
  lemma EntryIsNotReply(text: string, clock: Clock, file: Option<Attachment>)
    requires clock.sent != clock.reply + 1
    ensures UserEntry(text, clock, file).id != ReplyId(clock)
  {
    if DecimalString(clock.sent) == DecimalString(clock.reply + 1) {
      DecimalStringInjective(clock.sent, clock.reply + 1);
    }
  }

  /** A send on which neither a tool reply nor the stream fails: the user's
      entry and the reply entry holding the whole streamed text follow the
      earlier transcript, the log gains the request and every tool response
      in order, and the finished conversation goes to the suggestion request. */
  lemma SendWithoutFailure(history: seq<Message>, sent: seq<Gemini.Outgoing>, text: string, file: Option<Attachment>,
                           clock: Clock, chunks: seq<Chunk>, suggestionReply: Option<string>)
    requires forall i :: 0 <= i < |chunks| ==> NoToolFailure(chunks[i])
    requires forall i :: 0 <= i < |history| ==> history[i].id != ReplyId(clock)
    requires clock.sent != clock.reply + 1
    ensures var entry := UserEntry(text, clock, file);
            AfterSend(history, sent, text, file, clock, chunks, false, suggestionReply) == Exchanged(
              history + [entry, Placeholder(clock).(content := StreamText(chunks))],
              sent + [Gemini.MessageFor(text, file)] + StreamToolMessages(chunks),
              Some(SuggestionHistory(history, entry, StreamText(chunks))),
              Gemini.SmartSuggestions(suggestionReply))
  {
    var log := sent + [Gemini.MessageFor(text, file)];
    FreshTurnWithoutFailure(log, chunks);
    EntryIsNotReply(text, clock, file);
    var r := TurnState(StreamText(chunks), log + StreamToolMessages(chunks), false);
    SettleWithoutFailure(history, UserEntry(text, clock, file), clock, r, suggestionReply);
  }

  /** A tool call that throws or loses its confirmation stream leaves the turn failed. */
  lemma InvocationFails(st: TurnState, inv: Invocation)
    requires !Completes(inv)
    ensures Run(st, InvocationEvents(inv)).failed
  {
    if st.failed {
      RunAfterFailure(st, InvocationEvents(inv));
    } else {
      InvokeSpec(st, inv);
    }
  }

  /** A failing tool call anywhere in the stream fails the whole turn,
      whatever comes after it. */
  lemma ToolFailureEndsTurn(st: TurnState, chunks: seq<Chunk>, streamFails: bool, i: nat, j: nat)
    requires i < |chunks| && j < |chunks[i].calls| && !Completes(chunks[i].calls[j])
    ensures Run(st, TurnEvents(chunks, streamFails)).failed
  {
    var c := chunks[i];
    var before := Run(st, StreamEvents(chunks[..i]));
    CallsEventsSnoc(c.calls, j);
    RunConcat(before, CallsEvents(c.calls[..j]), InvocationEvents(c.calls[j]));
    InvocationFails(Run(before, CallsEvents(c.calls[..j])), c.calls[j]);
    CallsFailedPrefix(before, c.calls, j + 1);
    RunConcat(before, CallsEvents(c.calls), [Delta(c.text)]);
    RunAfterFailure(Run(before, CallsEvents(c.calls)), [Delta(c.text)]);
    StreamEventsSnoc(chunks, i);
    RunConcat(st, StreamEvents(chunks[..i]), ChunkEvents(c));
    StreamFailedPrefix(st, chunks, i + 1);
    var tail: seq<Event> := if streamFails then [Fail] else [];
    RunConcat(st, StreamEvents(chunks), tail);
    RunAfterFailure(Run(st, StreamEvents(chunks)), tail);
  }

  /** A send that fails, whether the stream breaks off or a tool call fails:
      the earlier transcript stays, followed by the user's entry, the reply
      entry holding the text that arrived before the failure, and the
      connection notice; no follow-up request is made and the suggestions
      are cleared. A broken-off stream always fails the turn. */
  lemma SendFailure(history: seq<Message>, sent: seq<Gemini.Outgoing>, text: string, file: Option<Attachment>,
                    clock: Clock, chunks: seq<Chunk>, streamFails: bool, suggestionReply: Option<string>)
    requires forall i :: 0 <= i < |history| ==> history[i].id != ReplyId(clock)
    requires clock.sent != clock.reply + 1
    ensures streamFails ==>
              Run(TurnState("", sent + [Gemini.MessageFor(text, file)], false), TurnEvents(chunks, streamFails)).failed
    ensures var r := Run(TurnState("", sent + [Gemini.MessageFor(text, file)], false), TurnEvents(chunks, streamFails));
            r.failed ==>
              AfterSend(history, sent, text, file, clock, chunks, streamFails, suggestionReply) == Exchanged(
                history + [UserEntry(text, clock, file), Placeholder(clock).(content := r.text), Notice(clock)],
                r.sent, None, [])
  {
    var st := TurnState("", sent + [Gemini.MessageFor(text, file)], false);
    var r := Run(st, TurnEvents(chunks, streamFails));
    if streamFails {
      RunConcat(st, StreamEvents(chunks), [Fail]);
      RunSingle(Run(st, StreamEvents(chunks)), Fail);
    }
    if r.failed {
      EntryIsNotReply(text, clock, file);
      SettleFailure(history, UserEntry(text, clock, file), clock, r, suggestionReply);
    }
  }

  /** The application component. */
  class ChatApp {
    var user: Option<User>
    var view: View
    var messages: seq<Message>
    var input: string
    var isStreaming: bool
    var currentMode: AssistantMode
    var sidebarOpen: bool
    var suggestions: seq<string>
    var selectedFile: Option<Attachment>
    var session: Option<Session>

    function State(): AppState
      reads this
    {
      AppState(user, view, messages, input, isStreaming, currentMode, sidebarOpen,
        suggestions, selectedFile, session)
    }

    /** Nobody signed out holds a session, and a session was made for the
        signed-in user's role. */
    ghost predicate Valid()
      reads this
    {
      (user.None? ==> session.None?)
      && (session.Some? ==> user.Some? && session.value.role == user.value.role)
    }

    /** The session talks as the persona the sidebar shows as active. */
    ghost predicate InSync()
      reads this
    {
      session.Some? ==> session.value.persona == currentMode
    }

    constructor()
      ensures State() == AppState(None, Dashboard, [], "", false, General, false, [], None, None)
      ensures Valid() && InSync()
    {
      user := None;
      view := Dashboard;
      messages := [];
      input := "";
      isStreaming := false;
      currentMode := General;
      sidebarOpen := false;
      suggestions := [];
      selectedFile := None;
      session := None;
    }

    /** Signing in shows the dashboard. The sign-in screen is only shown to nobody signed in. */
    method Login(u: User)
      requires user.None? && Valid()
      modifies this
      ensures State() == old(State()).(user := Some(u), view := Dashboard)
      ensures Valid() && (old(InSync()) ==> InSync())
    {
      user := Some(u);
      view := Dashboard;
    }

    /** Signing out drops the user, the transcript, the persona, the session and the file. */
    method Logout()
      modifies this
      ensures State() == old(State()).(user := None, messages := [], currentMode := General,
        view := Dashboard, session := None, selectedFile := None)
      ensures Valid() && InSync()
    {
      user := None;
      messages := [];
      currentMode := General;
      view := Dashboard;
      session := None;
      selectedFile := None;
    }

    /** A fresh session for `mode` and the user's role, a transcript holding
        only the greeting, and no suggestions. */
    method InitSession(mode: AssistantMode, u: User, now: int)
      modifies this
      ensures State() == old(State()).(
        session := Some(Session(mode, u.role, [])),
        messages := [Message("init", FromModel, Greeting(u.name, mode), now, None)],
        suggestions := [])
    {
      session := Some(Session(mode, u.role, []));
      messages := [Message("init", FromModel, Greeting(u.name, mode), now, None)];
      suggestions := [];
    }

    /** Opening a section. The assistant screen always restarts with a
        General Assistant session, but the active persona is left as it was. */
    method Navigate(section: View, now: int)
      requires Valid()
      modifies this
      ensures section == AiChat && old(user).Some? ==> State() == old(State()).(
        view := AiChat,
        session := Some(Session(General, old(user).value.role, [])),
        messages := [Message("init", FromModel, Greeting(old(user).value.name, General), now, None)],
        suggestions := [])
      ensures section != AiChat || old(user).None? ==> State() == old(State()).(view := section)
      ensures Valid()
      ensures section == AiChat && old(user).Some? ==> (InSync() <==> old(currentMode) == General)
    {
      if section == AiChat {
        view := AiChat;
        if user.Some? {
          InitSession(General, user.value, now);
        }
      } else {
        view := section;
      }
    }

    /** Opening a section, with the active persona reset to the General
        Assistant that the restarted session speaks as. */
    method NavigateCorrected(section: View, now: int)
      requires Valid()
      modifies this
      ensures section == AiChat && old(user).Some? ==> State() == old(State()).(
        view := AiChat,
        currentMode := General,
        session := Some(Session(General, old(user).value.role, [])),
        messages := [Message("init", FromModel, Greeting(old(user).value.name, General), now, None)],
        suggestions := [])
      ensures section != AiChat || old(user).None? ==> State() == old(State()).(view := section)
      ensures Valid() && (old(InSync()) ==> InSync())
      ensures section == AiChat && old(user).Some? ==> InSync()
    {
      if section == AiChat {
        view := AiChat;
        if user.Some? {
          currentMode := General;
          InitSession(General, user.value, now);
        }
      } else {
        view := section;
      }
    }

    method BackToDashboard()
      modifies this
      ensures State() == old(State()).(view := Dashboard)
      ensures Valid() == old(Valid()) && InSync() == old(InSync())
    {
      view := Dashboard;
    }

    /** Picking another persona while signed in restarts the conversation
        with it and closes the sidebar; picking the active one does nothing. */
    method ModeSelect(mode: AssistantMode, now: int)
      requires Valid()
      modifies this
      ensures mode != old(currentMode) && old(user).Some? ==> State() == old(State()).(
        currentMode := mode,
        session := Some(Session(mode, old(user).value.role, [])),
        messages := [Message("init", FromModel, Greeting(old(user).value.name, mode), now, None)],
        suggestions := [],
        sidebarOpen := false)
      ensures mode == old(currentMode) || old(user).None? ==> State() == old(State())
      ensures Valid() && (old(InSync()) ==> InSync())
      ensures mode != old(currentMode) && old(user).Some? ==> InSync()
    {
      if mode != currentMode && user.Some? {
        currentMode := mode;
        InitSession(mode, user.value, now);
        sidebarOpen := false;
      }
    }

    /** Clearing the chat restarts the conversation with the active persona. */
    method ClearChat(now: int)
      requires Valid()
      modifies this
      ensures old(user).Some? ==> State() == old(State()).(
        session := Some(Session(old(currentMode), old(user).value.role, [])),
        messages := [Message("init", FromModel, Greeting(old(user).value.name, old(currentMode)), now, None)],
        suggestions := [])
      ensures old(user).None? ==> State() == old(State())
      ensures Valid() && (old(InSync()) ==> InSync())
      ensures old(user).Some? ==> InSync()
    {
      if user.Some? {
        InitSession(currentMode, user.value, now);
      }
    }

    method SetSidebarOpen(open: bool)
      modifies this
      ensures State() == old(State()).(sidebarOpen := open)
      ensures Valid() == old(Valid()) && InSync() == old(InSync())
    {
      sidebarOpen := open;
    }

    method SetInput(text: string)
      modifies this
      ensures State() == old(State()).(input := text)
      ensures Valid() == old(Valid()) && InSync() == old(InSync())
    {
      input := text;
    }

    /** A chosen file is attached only if it is a PDF or an image; its
        content is the part of the data URL after the first comma. */
    method SelectFile(name: string, mimeType: string, dataUrl: string) returns (accepted: bool)
      modifies this
      ensures accepted <==> mimeType == "application/pdf" || Text.StartsWith(mimeType, "image/")
      ensures accepted ==> State() == old(State()).(selectedFile := Some(Attachment(name, mimeType, Payload(dataUrl))))
      ensures !accepted ==> State() == old(State())
      ensures Valid() == old(Valid()) && InSync() == old(InSync())
    {
      accepted := mimeType == "application/pdf" || Text.StartsWith(mimeType, "image/");
      if accepted {
        selectedFile := Some(Attachment(name, mimeType, Payload(dataUrl)));
      }
    }

    method ClearFile()
      modifies this
      ensures State() == old(State()).(selectedFile := None)
      ensures Valid() == old(Valid()) && InSync() == old(InSync())
    {
      selectedFile := None;
    }

    /** Sends the draft, or a clicked suggestion, and streams the reply.
        The user's entry and an empty reply entry are appended, the draft,
        the file and the suggestions are cleared, and the streamed text
        fills the reply entry. A failure appends a notice; otherwise the
        suggestions become those of the follow-up request, whose
        conversation is returned (the request's prompt is
        `Gemini.SuggestionPrompt` of it). */
    method SendMessage(override: Option<string>, clock: Clock, chunks: seq<Chunk>, streamFails: bool,
                       suggestionReply: Option<string>)
      returns (accepted: bool, followUp: Option<seq<Message>>)
      requires Valid()
      modifies this
      ensures accepted == Accepts(TextToSend(override, old(input)), old(selectedFile), old(session), old(isStreaming))
      ensures !accepted ==> State() == old(State()) && followUp.None?
      ensures accepted ==>
        var o := AfterSend(old(messages), old(session).value.sent, TextToSend(override, old(input)),
                           old(selectedFile), clock, chunks, streamFails, suggestionReply);
        && State() == old(State()).(messages := o.messages, session := Some(old(session).value.(sent := o.sent)),
                                    input := "", selectedFile := None, suggestions := o.suggestions)
        && followUp == o.followUp
      ensures Valid() && (old(InSync()) ==> InSync())
    {
      var text := TextToSend(override, input);
      accepted := Accepts(text, selectedFile, session, isStreaming);
      if !accepted {
        return accepted, None;
      }
      isStreaming := true;
      var o := Exchange(messages, session.value.sent, text, selectedFile, clock, chunks, streamFails, suggestionReply);
      messages, session, input, selectedFile, suggestions, isStreaming :=
        o.messages, Some(session.value.(sent := o.sent)), "", None, o.suggestions, false;
      followUp := o.followUp;
    }
  }

  /** The content of an uploaded file: what follows the first comma of its
      data URL, up to any further comma; empty when there is no comma. */
  function Payload(dataUrl: string): string
  {
    var pieces := Text.Split(dataUrl, ',');
    if |pieces| > 1 then pieces[1] else ""
  }

  /** A data URL whose header holds no comma yields its base64 body. */
  lemma PayloadOfDataUrl(header: string, body: string)
    requires ',' !in header && ',' !in body
    ensures Payload(header + "," + body) == body
  {
    Text.SplitAfterPiece(header, ',', body);
    Text.SplitNoSeparator(body, ',');
  }

  /** The sequence that shows the active persona and the session drifting
      apart: a manager picks the Business Strategist, goes back to the
      dashboard and reopens the assistant; the session now speaks as the
      General Assistant while the Strategist is still shown as active, and
      picking the Strategist again does nothing. */
  method NavigateDesync(now: int) returns (app: ChatApp)
    ensures !app.InSync()
    ensures app.currentMode == Strategist
    ensures app.session.Some? && app.session.value.persona == General
  {
    app := new ChatApp();
    app.Login(User("Dana", Manager));
    app.Navigate(AiChat, now);
    app.ModeSelect(Strategist, now);
    app.BackToDashboard();
    app.Navigate(AiChat, now);
    app.ModeSelect(Strategist, now);
  }

  /** The same sequence with the corrected navigation keeps the session and
      the active persona together. */
  method NavigateInSync(now: int) returns (app: ChatApp)
    ensures app.InSync()
    ensures app.currentMode == General
    ensures app.session.Some? && app.session.value.persona == General
  {
    app := new ChatApp();
    app.Login(User("Dana", Manager));
    app.NavigateCorrected(AiChat, now);
    app.ModeSelect(Strategist, now);
    app.BackToDashboard();
    app.NavigateCorrected(AiChat, now);
  }
}
