/** One chat turn of the assistant screen, as a specification. The reply
    arrives as a stream of chunks; a chunk may ask for tool calls, each of
    which is executed locally, answered to the session, and followed by a
    stream of confirmation text. The turn is described here as a flat list
    of events and a fold over them, so that the streaming loops of the chat
    screen can be proved against it. */
module Turn {
  import opened Types
  import Gemini
  import Text
  import Seqs

  /** A tool call requested by the model: its id, the tool's name and its
      string arguments, or no arguments object at all. */
  datatype FunctionCall = FunctionCall(id: string, name: string, args: Option<map<string, string>>)

  /** The answer to one tool call, echoing the call's id and name. */
  datatype FunctionResponse = FunctionResponse(id: string, name: string, result: string)

  /** An argument as it reads when interpolated: a missing one reads "undefined". */
  function Arg(call: FunctionCall, key: string): (v: string)
    ensures call.args.Some? && key in call.args.value ==> v == call.args.value[key]
    ensures call.args.None? || key !in call.args.value ==> v == "undefined"
  {
    if call.args.Some? && key in call.args.value then call.args.value[key] else "undefined"
  }

  /** Running a known tool reads fields of its arguments object, which
      throws when the call has none; an unknown tool reads no argument. */
  predicate Throws(call: FunctionCall)
  {
    call.args.None? && (call.name == "setReminder" || call.name == "scheduleMeeting")
  }

  const NotImplemented := "Error: Function not implemented."

  function ReminderResult(task: string, time: string): (s: string)
    ensures Text.OccursAt(s, "\"" + task + "\"", |"Success. I have set a reminder for "|)
  {
    var head := "Success. I have set a reminder for " + "\"";
    assert |head| == |"Success. I have set a reminder for "| + 1;
    Gemini.Tagged(head, task, "\"" + " at " + time + ".")
  }

  function MeetingResult(topic: string, participants: string, time: string): (s: string)
    ensures Text.OccursAt(s, "\"" + topic + "\"", |"Success. Meeting scheduled regarding "|)
  {
    var head := "Success. Meeting scheduled regarding " + "\"";
    assert |head| == |"Success. Meeting scheduled regarding "| + 1;
    Gemini.Tagged(head, topic, "\"" + " with " + participants + " at " + time + ".")
  }

  /** Runs a requested tool locally (when it does not throw): exactly one
      response carrying the call's id and name, whose result quotes the
      reminder's task or the meeting's topic, or reports an unknown tool. */
  function ExecuteFunction(call: FunctionCall): (responses: seq<FunctionResponse>)
    ensures |responses| == 1
    ensures responses[0].id == call.id && responses[0].name == call.name
    ensures call.name == "setReminder" ==>
      responses[0].result == ReminderResult(Arg(call, "task"), Arg(call, "time"))
    ensures call.name == "scheduleMeeting" ==>
      responses[0].result == MeetingResult(Arg(call, "topic"), Arg(call, "participants"), Arg(call, "time"))
    ensures call.name != "setReminder" && call.name != "scheduleMeeting" ==>
      responses[0].result == NotImplemented
  {
    var result :=
      if call.name == "setReminder" then ReminderResult(Arg(call, "task"), Arg(call, "time"))
      else if call.name == "scheduleMeeting" then
        MeetingResult(Arg(call, "topic"), Arg(call, "participants"), Arg(call, "time"))
      else NotImplemented;
    [FunctionResponse(call.id, call.name, result)]
  }

  /** The message that returns tool responses to the session: one response part per response. */
  function ResponseMessage(responses: seq<FunctionResponse>): (m: Gemini.Outgoing)
    ensures m.PartsMessage? && |m.parts| == |responses|
    ensures forall i :: 0 <= i < |responses| ==>
      m.parts[i] == Gemini.FunctionResponsePart(responses[i].name, responses[i].result, responses[i].id)
  {
    Gemini.PartsMessage(seq(|responses|, i requires 0 <= i < |responses| =>
      Gemini.FunctionResponsePart(responses[i].name, responses[i].result, responses[i].id)))
  }

  /** A tool call with the confirmation stream the model sends after its
      response: the text pieces, then whether the stream breaks off. */
  datatype Invocation = Invocation(call: FunctionCall, reply: seq<string>, replyFails: bool)

  /** A chunk of the reply stream: the tool calls it asks for and its own
      text ("" when it carries none). */
  datatype Chunk = Chunk(calls: seq<Invocation>, text: string)

  /** What happens during a turn, in order: a message handed to the session,
      a piece of reply text, or a failure of the connection. */
  datatype Event = Sent(msg: Gemini.Outgoing) | Delta(text: string) | Fail

  function ReplyEvents(reply: seq<string>): (ev: seq<Event>)
    ensures |ev| == |reply|
    ensures forall k :: 0 <= k < |reply| ==> ev[k] == Delta(reply[k])
  {
    seq(|reply|, k requires 0 <= k < |reply| => Delta(reply[k]))
  }

  /** A tool call: its response goes to the session, then its confirmation
      text arrives; a call that throws fails at once and sends nothing. */
  function InvocationEvents(inv: Invocation): seq<Event>
  {
    if Throws(inv.call) then [Fail]
    else
      [Sent(ResponseMessage(ExecuteFunction(inv.call)))] + ReplyEvents(inv.reply)
        + (if inv.replyFails then [Fail] else [])
  }

  /** A tool call that neither throws nor loses its confirmation stream. */
  predicate Completes(inv: Invocation)
  {
    !Throws(inv.call) && !inv.replyFails
  }

  function CallsEvents(invs: seq<Invocation>): seq<Event>
  {
    if invs == [] then [] else CallsEvents(invs[..|invs| - 1]) + InvocationEvents(invs[|invs| - 1])
  }

  /** A chunk: its tool calls first, then its own text. */
  function ChunkEvents(c: Chunk): seq<Event>
  {
    CallsEvents(c.calls) + [Delta(c.text)]
  }

  function StreamEvents(chunks: seq<Chunk>): seq<Event>
  {
    if chunks == [] then [] else StreamEvents(chunks[..|chunks| - 1]) + ChunkEvents(chunks[|chunks| - 1])
  }

  /** The whole turn: every chunk, then the failure that may end the stream. */
  function TurnEvents(chunks: seq<Chunk>, streamFails: bool): seq<Event>
  {
    StreamEvents(chunks) + (if streamFails then [Fail] else [])
  }

  /** What a turn has produced so far: the reply text, the session's log of
      sent messages, and whether the connection failed. */
  datatype TurnState = TurnState(text: string, sent: seq<Gemini.Outgoing>, failed: bool)

  /** One event; after a failure nothing more happens. */
  function Step(st: TurnState, e: Event): TurnState
  {
    if st.failed then st
    else match e
      case Sent(m) => st.(sent := st.sent + [m])
      case Delta(t) => st.(text := st.text + t)
      case Fail => st.(failed := true)
  }

  function Run(st: TurnState, ev: seq<Event>): TurnState
  {
    if ev == [] then st else Step(Run(st, ev[..|ev| - 1]), ev[|ev| - 1])
  }

  /** Running two event lists in a row is running their concatenation. */
  lemma {:induction false} RunConcat(st: TurnState, a: seq<Event>, b: seq<Event>)
    ensures Run(st, a + b) == Run(Run(st, a), b)
    decreases |b|
  {
    if b == [] {
      assert a + b == a;
    } else {
      assert (a + b)[..|a + b| - 1] == a + b[..|b| - 1];
      RunConcat(st, a, b[..|b| - 1]);
    }
  }

  lemma RunSingle(st: TurnState, e: Event)
    ensures Run(st, [e]) == Step(st, e)
  {
    assert [e][..0] == [];
  }

  /** After a failure the remaining events change nothing. */
  lemma {:induction false} RunAfterFailure(st: TurnState, ev: seq<Event>)
    requires st.failed
    ensures Run(st, ev) == st
    decreases |ev|
  {
    if ev != [] {
      RunAfterFailure(st, ev[..|ev| - 1]);
    }
  }

  /** A failure ends the turn: what arrived before it is all that counts. */
  lemma FailureStopsTurn(st: TurnState, a: seq<Event>, b: seq<Event>)
    ensures Run(st, a + [Fail] + b) == Run(st, a).(failed := true)
  {
    RunConcat(st, a + [Fail], b);
    RunConcat(st, a, [Fail]);
    RunAfterFailure(Run(st, a + [Fail]), b);
  }

  /** The reply text only grows and the session log only gets appended to. */
  lemma {:induction false} RunExtends(st: TurnState, ev: seq<Event>)
    ensures Text.StartsWith(Run(st, ev).text, st.text)
    ensures |st.sent| <= |Run(st, ev).sent| && Run(st, ev).sent[..|st.sent|] == st.sent
    decreases |ev|
  {
    if ev != [] {
      RunExtends(st, ev[..|ev| - 1]);
      var mid := Run(st, ev[..|ev| - 1]);
      assert Run(st, ev).sent[..|mid.sent|] == mid.sent;
      assert Run(st, ev).sent[..|mid.sent|][..|st.sent|] == Run(st, ev).sent[..|st.sent|];
      assert Run(st, ev).text[..|mid.text|][..|st.text|] == Run(st, ev).text[..|st.text|];
    }
  }

  /** The events of a prefix of the tool calls followed by the next call's events. */
  lemma CallsEventsSnoc(invs: seq<Invocation>, j: nat)
    requires j < |invs|
    ensures CallsEvents(invs[..j + 1]) == CallsEvents(invs[..j]) + InvocationEvents(invs[j])
  {
    assert invs[..j + 1][..j] == invs[..j];
  }

  lemma StreamEventsSnoc(chunks: seq<Chunk>, i: nat)
    requires i < |chunks|
    ensures StreamEvents(chunks[..i + 1]) == StreamEvents(chunks[..i]) + ChunkEvents(chunks[i])
  {
    assert chunks[..i + 1][..i] == chunks[..i];
  }

  /** The pieces of text run together. */
  function Concat(pieces: seq<string>): string
  {
    if pieces == [] then "" else pieces[0] + Concat(pieces[1..])
  }

  lemma {:induction false} ConcatSnoc(pieces: seq<string>, x: string)
    ensures Concat(pieces + [x]) == Concat(pieces) + x
  {
    if pieces != [] {
      assert (pieces + [x])[1..] == pieces[1..] + [x];
      ConcatSnoc(pieces[1..], x);
    }
  }

  /** The confirmation texts of a list of tool calls, in order. */
  function CallsText(invs: seq<Invocation>): string
  {
    if invs == [] then "" else Concat(invs[0].reply) + CallsText(invs[1..])
  }

  /** The response messages of a list of tool calls, in order. */
  function ToolMessages(invs: seq<Invocation>): seq<Gemini.Outgoing>
  {
    if invs == [] then [] else [ResponseMessage(ExecuteFunction(invs[0].call))] + ToolMessages(invs[1..])
  }

  lemma {:induction false} CallsSnoc(invs: seq<Invocation>, x: Invocation)
    ensures CallsText(invs + [x]) == CallsText(invs) + Concat(x.reply)
    ensures ToolMessages(invs + [x]) == ToolMessages(invs) + [ResponseMessage(ExecuteFunction(x.call))]
  {
    if invs != [] {
      assert (invs + [x])[1..] == invs[1..] + [x];
      CallsSnoc(invs[1..], x);
    }
  }

  /** The text a chunk contributes when nothing fails: its tool calls'
      confirmation texts in order, then its own text. */
  function ChunkText(c: Chunk): string
  {
    CallsText(c.calls) + c.text
  }

  /** The whole reply text of a turn in which nothing fails, chunk by chunk. */
  function StreamText(chunks: seq<Chunk>): string
  {
    if chunks == [] then "" else ChunkText(chunks[0]) + StreamText(chunks[1..])
  }

  /** Every tool response message of a turn, chunk by chunk. */
  function StreamToolMessages(chunks: seq<Chunk>): seq<Gemini.Outgoing>
  {
    if chunks == [] then [] else ToolMessages(chunks[0].calls) + StreamToolMessages(chunks[1..])
  }

  lemma {:induction false} StreamSnoc(chunks: seq<Chunk>, c: Chunk)
    ensures StreamText(chunks + [c]) == StreamText(chunks) + ChunkText(c)
    ensures StreamToolMessages(chunks + [c]) == StreamToolMessages(chunks) + ToolMessages(c.calls)
  {
    if chunks != [] {
      assert (chunks + [c])[1..] == chunks[1..] + [c];
      StreamSnoc(chunks[1..], c);
    }
  }

  predicate NoToolFailure(c: Chunk)
  {
    forall j :: 0 <= j < |c.calls| ==> Completes(c.calls[j])
  }

  lemma {:induction false} ReplyRun(st: TurnState, reply: seq<string>)
    requires !st.failed
    ensures Run(st, ReplyEvents(reply)) == st.(text := st.text + Concat(reply))
    decreases |reply|
  {
    if reply != [] {
      var n := |reply| - 1;
      assert ReplyEvents(reply)[..n] == ReplyEvents(reply[..n]);
      ReplyRun(st, reply[..n]);
      ConcatSnoc(reply[..n], reply[n]);
      Seqs.FrontLast(reply);
    }
  }

  lemma InvocationRun(st: TurnState, inv: Invocation)
    requires !st.failed && Completes(inv)
    ensures Run(st, InvocationEvents(inv)) == st.(
      text := st.text + Concat(inv.reply),
      sent := st.sent + [ResponseMessage(ExecuteFunction(inv.call))])
  {
    var m := ResponseMessage(ExecuteFunction(inv.call));
    assert InvocationEvents(inv) == [Sent(m)] + ReplyEvents(inv.reply);
    RunConcat(st, [Sent(m)], ReplyEvents(inv.reply));
    assert Run(st, [Sent(m)]) == st.(sent := st.sent + [m]);
    ReplyRun(st.(sent := st.sent + [m]), inv.reply);
  }

  /** The events of a non-empty list of calls: those of its front, then those of its last call. */
  lemma CallsUnfold(st: TurnState, invs: seq<Invocation>)
    requires invs != []
    ensures Run(st, CallsEvents(invs))
      == Run(Run(st, CallsEvents(invs[..|invs| - 1])), InvocationEvents(invs[|invs| - 1]))
    ensures CallsText(invs) == CallsText(invs[..|invs| - 1]) + Concat(invs[|invs| - 1].reply)
    ensures ToolMessages(invs)
      == ToolMessages(invs[..|invs| - 1]) + [ResponseMessage(ExecuteFunction(invs[|invs| - 1].call))]
  {
    var n := |invs| - 1;
    RunConcat(st, CallsEvents(invs[..n]), InvocationEvents(invs[n]));
    Seqs.FrontLast(invs);
    CallsSnoc(invs[..n], invs[n]);
  }

  /** Appending to both fields in two rounds is appending the joined pieces once. */
  lemma AppendTwice(st: TurnState, a: string, la: seq<Gemini.Outgoing>, b: string, lb: seq<Gemini.Outgoing>)
    ensures st.(text := st.text + a, sent := st.sent + la).(
      text := st.text + a + b, sent := st.sent + la + lb)
      == st.(text := st.text + (a + b), sent := st.sent + (la + lb))
  {
    assert st.text + a + b == st.text + (a + b);
    assert st.sent + la + lb == st.sent + (la + lb);
  }

  lemma {:induction false} CallsRun(st: TurnState, invs: seq<Invocation>)
    requires !st.failed
    requires forall j :: 0 <= j < |invs| ==> Completes(invs[j])
    ensures Run(st, CallsEvents(invs)) == st.(
      text := st.text + CallsText(invs),
      sent := st.sent + ToolMessages(invs))
    decreases |invs|
  {
    if invs != [] {
      var n := |invs| - 1;
      CallsUnfold(st, invs);
      CallsRun(st, invs[..n]);
      InvocationRun(Run(st, CallsEvents(invs[..n])), invs[n]);
      AppendTwice(st, CallsText(invs[..n]), ToolMessages(invs[..n]),
        Concat(invs[n].reply), [ResponseMessage(ExecuteFunction(invs[n].call))]);
    }
  }

  lemma ChunkRun(st: TurnState, c: Chunk)
    requires !st.failed && NoToolFailure(c)
    ensures Run(st, ChunkEvents(c)) == st.(
      text := st.text + ChunkText(c),
      sent := st.sent + ToolMessages(c.calls))
  {
    RunConcat(st, CallsEvents(c.calls), [Delta(c.text)]);
    CallsRun(st, c.calls);
    RunSingle(Run(st, CallsEvents(c.calls)), Delta(c.text));
    AppendTwice(st, CallsText(c.calls), ToolMessages(c.calls), c.text, []);
    assert ToolMessages(c.calls) + [] == ToolMessages(c.calls);
  }

  lemma StreamUnfold(st: TurnState, chunks: seq<Chunk>)
    requires chunks != []
    ensures Run(st, StreamEvents(chunks))
      == Run(Run(st, StreamEvents(chunks[..|chunks| - 1])), ChunkEvents(chunks[|chunks| - 1]))
    ensures StreamText(chunks) == StreamText(chunks[..|chunks| - 1]) + ChunkText(chunks[|chunks| - 1])
    ensures StreamToolMessages(chunks)
      == StreamToolMessages(chunks[..|chunks| - 1]) + ToolMessages(chunks[|chunks| - 1].calls)
  {
    var n := |chunks| - 1;
    RunConcat(st, StreamEvents(chunks[..n]), ChunkEvents(chunks[n]));
    Seqs.FrontLast(chunks);
    StreamSnoc(chunks[..n], chunks[n]);
  }

  lemma {:induction false} StreamRun(st: TurnState, chunks: seq<Chunk>)
    requires !st.failed
    requires forall i :: 0 <= i < |chunks| ==> NoToolFailure(chunks[i])
    ensures Run(st, StreamEvents(chunks)) == st.(
      text := st.text + StreamText(chunks),
      sent := st.sent + StreamToolMessages(chunks))
    decreases |chunks|
  {
    if chunks != [] {
      var n := |chunks| - 1;
      StreamUnfold(st, chunks);
      StreamRun(st, chunks[..n]);
      ChunkRun(Run(st, StreamEvents(chunks[..n])), chunks[n]);
      AppendTwice(st, StreamText(chunks[..n]), StreamToolMessages(chunks[..n]),
        ChunkText(chunks[n]), ToolMessages(chunks[n].calls));
    }
  }

  /** When no stream fails, the turn's text is every chunk's tool
      confirmations followed by its own text, chunk by chunk, and the
      session receives every tool response in the order the calls came. */
  lemma TurnWithoutFailure(st: TurnState, chunks: seq<Chunk>)
    requires !st.failed
    requires forall i :: 0 <= i < |chunks| ==> NoToolFailure(chunks[i])
    ensures Run(st, TurnEvents(chunks, false)) == st.(
      text := st.text + StreamText(chunks),
      sent := st.sent + StreamToolMessages(chunks))
  {
    assert TurnEvents(chunks, false) == StreamEvents(chunks);
    StreamRun(st, chunks);
  }

  /** A fresh turn that meets no failure ends with the streamed text and
      the tool responses appended to the session's history. */
  lemma FreshTurnWithoutFailure(log: seq<Gemini.Outgoing>, chunks: seq<Chunk>)
    requires forall i :: 0 <= i < |chunks| ==> NoToolFailure(chunks[i])
    ensures Run(TurnState("", log, false), TurnEvents(chunks, false))
      == TurnState(StreamText(chunks), log + StreamToolMessages(chunks), false)
  {
    var st := TurnState("", log, false);
    TurnWithoutFailure(st, chunks);
    assert st.text + StreamText(chunks) == StreamText(chunks);
    assert st.(text := st.text + StreamText(chunks), sent := st.sent + StreamToolMessages(chunks))
      == TurnState(StreamText(chunks), log + StreamToolMessages(chunks), false);
  }
}
