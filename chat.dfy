/**
 * The chat-completion session: the prompt window it sends, the line-by-line
 * reader of the streamed (server-sent events) response, the callbacks it fires
 * and the history it commits.
 *
 * The HTTP exchange is an input (`HttpOutcome` and the body's lines), JSON
 * deserialisation is a function-valued input (`deserialize`), and the three
 * callbacks are recorded as a trace of `Callback` events.
 */
module Chat {
  import opened Wrappers
  import opened Strings

  /** A chat message. `content` is None only for an assistant reply to which no chunk was appended. */
  datatype Message = Message(role: string, content: Option<string>)

  function Text(role: string, s: string): Message {
    Message(role, Some(s))
  }

  /** The `message` or `delta` object of a streamed choice; the JSON may leave either field null. */
  datatype Delta = Delta(role: Option<string>, content: Option<string>)

  /** One element of `choices` (its `index` and `finish_reason` are never consulted). */
  datatype Choice = Choice(message: Option<Delta>, delta: Option<Delta>)

  /** What deserialising one data payload gives: an exception (with its text), null, or a response. */
  datatype Parsed = Malformed(error: string) | NullResponse | Response(choices: Option<seq<Choice>>)

  /**
   * How far the HTTP request got: the request could not be built, sending threw,
   * no response object came back, or a response with its success flag and reason phrase.
   */
  datatype HttpOutcome =
    | ConstructionFailed(error: string)
    | TransportFailed(error: string)
    | NoResult
    | Status(success: bool, reason: Option<string>)

  /** Which of the three callbacks the caller passed as non-null. */
  datatype Hooks = Hooks(onRoleChanged: bool, onToken: bool, onError: bool)

  /** One invocation of a callback. */
  datatype Callback = RoleChanged(role: string) | Token(text: string) | Error(detail: string)

  const DataPrefix: string := "data: "
  const DoneSentinel: string := "[DONE]"

  const SystemRole: string := "system"
  const UserRole: string := "user"
  const AssistantRole: string := "assistant"

  /** Sentinel roles of the failure replies. */
  const ExceptionRole: string := "Exception"
  const FailedRole: string := "Failed"
  const StreamExceptionRole: string := "exception"

  // ---------------------------------------------------------------------------
  // Prompt window
  // ---------------------------------------------------------------------------

  /** How many history entries are resent: `min(PromptHistory, Count)`, and none when that is negative. */
  function WindowSize(promptHistory: int, count: nat): (k: nat)
    ensures k <= count
    ensures promptHistory <= 0 ==> k == 0
    ensures 0 <= promptHistory <= count ==> k == promptHistory
    ensures count <= promptHistory ==> k == count
  {
    var reuse := if promptHistory < count then promptHistory else count;
    if reuse > 0 then reuse else 0
  }

  /** The messages of one request: the instructions, the last `WindowSize` history entries in order, the prompt. */
  function PromptWindow(instructions: string, history: seq<Message>, promptHistory: int, prompt: string): seq<Message> {
    [Text(SystemRole, instructions)]
    + history[|history| - WindowSize(promptHistory, |history|)..]
    + [Text(UserRole, prompt)]
  }

  // ---------------------------------------------------------------------------
  // Reading the event stream
  // ---------------------------------------------------------------------------

  /** What one body line contributes. */
  datatype LineEffect = Skip | Deliver(delta: Delta) | Abort(error: string)

  /**
   * One body line: only lines starting with "data: " are read; the trimmed payload
   * "[DONE]" is passed over; a null response, a missing or empty `choices`, and a
   * first choice with neither `message` nor `delta` contribute nothing.
   */
  function Classify(line: string, deserialize: string -> Parsed): LineEffect {
    if !StartsWith(line, DataPrefix) then Skip
    else
      var data := Trim(line[|DataPrefix|..]);
      if data == DoneSentinel then Skip
      else
        match deserialize(data)
        case Malformed(e) => Abort(e)
        case NullResponse => Skip
        case Response(choices) =>
          if choices.None? || |choices.value| == 0 then Skip
          else
            var choice := choices.value[0];
            var msg := if choice.message.Some? then choice.message else choice.delta;
            if msg.None? then Skip else Deliver(msg.value)
  }

  /** C# `acc += piece` on strings: a null operand counts as "" and the result is never null. */
  function Append(acc: Option<string>, piece: Option<string>): Option<string> {
    Some(acc.GetOr("") + piece.GetOr(""))
  }

  /** The callbacks fired for one delivered delta: role first, then token. */
  function Announce(d: Delta, hooks: Hooks): seq<Callback> {
    (if d.role.Some? && hooks.onRoleChanged then [RoleChanged(d.role.value)] else [])
    + (if d.content.Some? && hooks.onToken then [Token(d.content.value)] else [])
  }

  /** `onError(detail)` when that callback is present. */
  function ErrorReport(hooks: Hooks, detail: string): seq<Callback> {
    if hooks.onError then [Error(detail)] else []
  }

  datatype StreamResult = Completed(content: Option<string>) | StreamFailed(error: string)

  /** The end of a read and the callbacks fired during it. */
  datatype Reading = Reading(result: StreamResult, trace: seq<Callback>)

  /** Reading `lines` with `acc` accumulated so far; the first malformed payload ends the read. */
  function ReadStream(lines: seq<string>, deserialize: string -> Parsed, hooks: Hooks, acc: Option<string>): Reading
    decreases |lines|
  {
    if lines == [] then Reading(Completed(acc), [])
    else
      match Classify(lines[0], deserialize)
      case Skip => ReadStream(lines[1..], deserialize, hooks, acc)
      case Deliver(d) =>
        var rest := ReadStream(lines[1..], deserialize, hooks, Append(acc, d.content));
        Reading(rest.result, Announce(d, hooks) + rest.trace)
      case Abort(e) => Reading(StreamFailed(e), ErrorReport(hooks, e))
  }

  /** `ReadStream` unfolded once: what the first line does to the rest of the read. */
  lemma ReadStreamStep(lines: seq<string>, deserialize: string -> Parsed, hooks: Hooks, acc: Option<string>)
    requires lines != []
    ensures var next := ReadStream(lines[1..], deserialize, hooks, acc);
      && (Classify(lines[0], deserialize).Skip? ==> ReadStream(lines, deserialize, hooks, acc) == next)
      && (Classify(lines[0], deserialize).Abort? ==>
            var e := Classify(lines[0], deserialize).error;
            ReadStream(lines, deserialize, hooks, acc) == Reading(StreamFailed(e), ErrorReport(hooks, e)))
    ensures Classify(lines[0], deserialize).Deliver? ==>
      var d := Classify(lines[0], deserialize).delta;
      var rest := ReadStream(lines[1..], deserialize, hooks, Append(acc, d.content));
      ReadStream(lines, deserialize, hooks, acc) == Reading(rest.result, Announce(d, hooks) + rest.trace)
  {
  }

  /** The callbacks fired for one delivered delta, appended to `trace`. */
  method FireDelta(trace: seq<Callback>, msg: Delta, hooks: Hooks) returns (next: seq<Callback>)
    ensures next == trace + Announce(msg, hooks)
  {
    next := trace;
    if msg.role.Some? && hooks.onRoleChanged {
      next := next + [RoleChanged(msg.role.value)];
    }
    assert next == trace + (if msg.role.Some? && hooks.onRoleChanged then [RoleChanged(msg.role.value)] else []);
    if msg.content.Some? && hooks.onToken {
      next := next + [Token(msg.content.value)];
    }
    AppendAssociates(trace,
      if msg.role.Some? && hooks.onRoleChanged then [RoleChanged(msg.role.value)] else [],
      if msg.content.Some? && hooks.onToken then [Token(msg.content.value)] else []);
  }

  /** The body loop of `EnterPrompt`, proved to read the stream as `ReadStream` does. */
  method ReadEvents(body: seq<string>, deserialize: string -> Parsed, hooks: Hooks)
    returns (result: StreamResult, trace: seq<Callback>)
    ensures Reading(result, trace) == ReadStream(body, deserialize, hooks, None)
  {
    var content: Option<string> := None;
    trace := [];
    var i := 0;
    while i < |body|
      invariant 0 <= i <= |body|
      invariant var rest := ReadStream(body[i..], deserialize, hooks, content);
        ReadStream(body, deserialize, hooks, None) == Reading(rest.result, trace + rest.trace)
    {
      var effect := Classify(body[i], deserialize);
      ReadStreamStep(body[i..], deserialize, hooks, content);
      assert body[i..][1..] == body[i + 1..];
      i := i + 1;
      match effect {
        case Skip =>
        case Abort(e) =>
          if hooks.onError {
            trace := trace + [Error(e)];
          }
          return StreamFailed(e), trace;
        case Deliver(msg) =>
          ghost var before := trace;
          trace := FireDelta(trace, msg, hooks);
          AppendAssociates(before, Announce(msg, hooks), ReadStream(body[i..], deserialize, hooks, Append(content, msg.content)).trace);
          content := Some(content.GetOr("") + msg.content.GetOr(""));
      }
    }
    result := Completed(content);
  }

  // ---------------------------------------------------------------------------
  // One exchange
  // ---------------------------------------------------------------------------

  /** The reply of one `EnterPrompt` call, whether it is committed to History, and the callbacks fired. */
  datatype Outcome = Outcome(reply: Message, committed: bool, trace: seq<Callback>)

  /**
   * The exchange as a function of what the HTTP layer and the stream deliver: every
   * failure returns a reply with a sentinel role and is not committed; a complete
   * read returns the assistant reply and is committed.
   */
  function Exchange(http: HttpOutcome, body: seq<string>, deserialize: string -> Parsed, hooks: Hooks): Outcome {
    match http
    case ConstructionFailed(e) => Outcome(Text(ExceptionRole, e), false, ErrorReport(hooks, e))
    case TransportFailed(e) => Outcome(Text(FailedRole, e), false, ErrorReport(hooks, e))
    case NoResult => Outcome(Text(FailedRole, ""), false, [])
    case Status(success, reason) =>
      if !success then
        Outcome(Text(FailedRole, reason.GetOr("")), false, if reason.Some? then ErrorReport(hooks, reason.value) else [])
      else
        var r := ReadStream(body, deserialize, hooks, None);
        match r.result
        case Completed(content) => Outcome(Message(AssistantRole, content), true, r.trace)
        case StreamFailed(e) => Outcome(Text(StreamExceptionRole, e), false, r.trace)
  }

  class Session {
    var Name: string
    var History: seq<Message>
    var APIKey: string
    var Instructions: string
    var Temperature: real
    var MaxTokens: int
    var Model: string
    var PromptHistory: int

    constructor (apiKey: string)
      ensures Name == "default" && History == [] && APIKey == apiKey
      ensures Instructions == "You are a helpful AI assistant. Answer as concisely as possible."
      ensures Temperature == 0.5 && MaxTokens == 1024 && Model == "gpt-3.5-turbo" && PromptHistory == 5
    {
      Name := "default";
      History := [];
      APIKey := apiKey;
      Instructions := "You are a helpful AI assistant. Answer as concisely as possible.";
      Temperature := 0.5;
      MaxTokens := 1024;
      Model := "gpt-3.5-turbo";
      PromptHistory := 5;
    }

    /** The request's messages: system instructions, the newest history entries oldest first, the prompt. */
    method AssemblePrompt(prompt: string) returns (messages: seq<Message>)
      ensures messages == PromptWindow(Instructions, History, PromptHistory, prompt)
    {
      messages := [Text(SystemRole, Instructions)];
      var n := |History|;
      var reuse := if PromptHistory < n then PromptHistory else n;
      var i := reuse;
      while i > 0
        invariant reuse <= 0 ==> i == reuse && messages == [Text(SystemRole, Instructions)]
        invariant reuse > 0 ==> 0 <= i <= reuse && messages == [Text(SystemRole, Instructions)] + History[n - reuse..n - i]
      {
        assert History[n - reuse..n - i + 1] == History[n - reuse..n - i] + [History[n - i]];
        messages := messages + [History[n - i]];
        i := i - 1;
      }
      assert reuse > 0 ==> History[n - reuse..n - i] == History[n - WindowSize(PromptHistory, n)..];
      messages := messages + [Text(UserRole, prompt)];
    }

    /**
     * Sends `prompt` with the windowed history and reads the streamed reply. History
     * changes only when the whole stream was read: it then gains the user message and
     * the reply, in that order.
     */
    method EnterPrompt(prompt: string, hooks: Hooks, http: HttpOutcome, body: seq<string>, deserialize: string -> Parsed)
      returns (request: seq<Message>, reply: Message, trace: seq<Callback>)
      modifies this`History
      ensures request == PromptWindow(Instructions, old(History), PromptHistory, prompt)
      ensures var o := Exchange(http, body, deserialize, hooks);
        && reply == o.reply
        && trace == o.trace
        && History == if o.committed then old(History) + [Text(UserRole, prompt), reply] else old(History)
    {
      var userMessage := Text(UserRole, prompt);
      request := AssemblePrompt(prompt);
      match http {
        case ConstructionFailed(e) =>
          trace := if hooks.onError then [Error(e)] else [];
          return request, Text(ExceptionRole, e), trace;
        case TransportFailed(e) =>
          trace := if hooks.onError then [Error(e)] else [];
          return request, Text(FailedRole, e), trace;
        case NoResult =>
          return request, Text(FailedRole, ""), [];
        case Status(success, reason) =>
          if !success {
            trace := if hooks.onError && reason.Some? then [Error(reason.value)] else [];
            return request, Text(FailedRole, if reason.Some? then reason.value else ""), trace;
          }
      }
      var result;
      result, trace := ReadEvents(body, deserialize, hooks);
      if result.StreamFailed? {
        return request, Text(StreamExceptionRole, result.error), trace;
      }
      reply := Message(AssistantRole, result.content);
      History := History + [userMessage, reply];
    }
  }
}
