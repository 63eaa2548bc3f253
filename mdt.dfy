/**
 * The Markdown translator: the input text is split at '\n', blank lines are copied
 * as they are, and every non-blank line is sent as a prompt (retried until the reply is
 * not a failure) and written back with the line's own leading and trailing blanks.
 *
 * The output file is the string `output`; each `EnterPrompt` call takes its HTTP
 * outcome and response lines from the next element of `attempts`.
 */
module MarkdownTranslate {
  import opened Wrappers
  import opened Strings
  import opened Chat

  const TranslatorName: string := "markdown translator"
  const TranslatorTemperature: real := 0.5
  const TranslatorMaxTokens: int := 3500

  const InstructionsHead: string :=
    "You are a Markdown translation tool. You will be given text formatted for Markdown documents and will translate it directly to "
  const InstructionsTail: string :=
    ". Do not add anything else beside the translated text, and preserve all Markdown formatting characters. Here is the text: "

  /** The system message, naming the target language. */
  function TranslatorInstructions(language: string): string {
    InstructionsHead + language + InstructionsTail
  }

  /** The translator's session: no earlier exchange is ever resent. */
  method NewTranslatorSession(apiKey: string, language: string) returns (session: Session)
    ensures fresh(session)
    ensures session.Name == TranslatorName && session.History == [] && session.APIKey == apiKey
    ensures session.Instructions == TranslatorInstructions(language)
    ensures session.Temperature == TranslatorTemperature && session.MaxTokens == TranslatorMaxTokens
    ensures session.PromptHistory == 0
  {
    session := new Session(apiKey);
    session.Name := TranslatorName;
    session.APIKey := apiKey;
    session.Instructions := TranslatorInstructions(language);
    session.Temperature := TranslatorTemperature;
    session.MaxTokens := TranslatorMaxTokens;
    session.PromptHistory := 0;
  }

  // ---------------------------------------------------------------------------
  // Splitting the document
  // ---------------------------------------------------------------------------

  /** `text.Split('\n')`: the pieces between the '\n' characters, empty ones included. */
  function SplitLines(text: string): (lines: seq<string>)
    ensures |lines| == multiset(text)['\n'] + 1
    ensures forall k :: 0 <= k < |lines| ==> '\n' !in lines[k]
  {
    if text == [] then [""]
    else
      assert text == [text[0]] + text[1..];
      var rest := SplitLines(text[1..]);
      if text[0] == '\n' then [""] + rest else [[text[0]] + rest[0]] + rest[1..]
  }

  /** The pieces put back together with '\n' between them. */
  function JoinLines(lines: seq<string>): string
    requires |lines| >= 1
  {
    if |lines| == 1 then lines[0] else lines[0] + "\n" + JoinLines(lines[1..])
  }

  // ---------------------------------------------------------------------------
  // Line helpers
  // ---------------------------------------------------------------------------

  /** Only spaces, tabs and line-ending characters. */
  predicate EmptyLine(line: string) {
    line == [] || ((IsBlank(line[0]) || IsLineEnding(line[0])) && EmptyLine(line[1..]))
  }

  /** A line is empty exactly when each of its characters is a space, a tab or a line ending. */
  lemma {:induction false} EmptyLineEveryChar(line: string)
    ensures EmptyLine(line) <==> forall i :: 0 <= i < |line| ==> IsBlank(line[i]) || IsLineEnding(line[i])
  {
    if line != [] {
      EmptyLineEveryChar(line[1..]);
      assert forall i :: 1 <= i < |line| ==> line[i] == line[1..][i - 1];
    }
  }

  /** `isLineEmpty`: a shortcut for the bare line endings, then a scan of the line without them. */
  method IsLineEmpty(line: string) returns (empty: bool)
    ensures empty <==> EmptyLine(line)
  {
    EmptyLineEveryChar(line);
    if line == "\n" || line == "\r" || line == "\r\n" || line == "" {
      return true;
    }
    var stripped := RemoveLineEndings(line);
    RemoveLineEndingsKeepsTheRest(line);
    var i := 0;
    while i < |stripped|
      invariant 0 <= i <= |stripped|
      invariant forall j :: 0 <= j < i ==> IsBlank(stripped[j])
    {
      if stripped[i] != ' ' && stripped[i] != '\t' {
        assert stripped[i] in line;
        return false;
      }
      i := i + 1;
    }
    assert forall c :: c in stripped ==> IsBlank(c);
    return true;
  }

  /** The longest prefix of spaces and tabs. */
  function Indent(line: string): (r: string)
    ensures |r| <= |line| && r == line[..|r|]
    ensures forall i :: 0 <= i < |r| ==> IsBlank(r[i])
    ensures |r| < |line| ==> !IsBlank(line[|r|])
  {
    if line == [] || !IsBlank(line[0]) then "" else [line[0]] + Indent(line[1..])
  }

  /** A blank prefix followed by the end of the line or a character that is not blank is the indent. */
  lemma {:induction false} IndentIsUnique(line: string, n: nat)
    requires n <= |line|
    requires forall j :: 0 <= j < n ==> IsBlank(line[j])
    requires n < |line| ==> !IsBlank(line[n])
    ensures Indent(line) == line[..n]
  {
    if n > 0 {
      IndentIsUnique(line[1..], n - 1);
      assert [line[0]] + line[1..][..n - 1] == line[..n];
    }
  }

  /** `getSpacesAndTabsAtBeginningOfLine`: collects characters until the first that is not a space or a tab. */
  method LeadingBlanks(line: string) returns (result: string)
    ensures result == Indent(line)
  {
    result := "";
    var i := 0;
    while i < |line|
      invariant 0 <= i <= |line| && result == line[..i]
      invariant forall j :: 0 <= j < i ==> IsBlank(line[j])
    {
      var c := line[i];
      if c == ' ' || c == '\t' {
        result := result + [c];
      } else {
        break;
      }
      i := i + 1;
    }
    IndentIsUnique(line, i);
  }

  /** The longest suffix of spaces and tabs. */
  function TrailingRun(line: string): (r: string)
    ensures |r| <= |line| && r == line[|line| - |r|..]
    ensures forall i :: 0 <= i < |r| ==> IsBlank(r[i])
    ensures |r| < |line| ==> !IsBlank(line[|line| - |r| - 1])
  {
    if line == [] || !IsBlank(line[|line| - 1]) then ""
    else TrailingRun(line[..|line| - 1]) + [line[|line| - 1]]
  }

  /** A blank suffix preceded by the start of the line or a character that is not blank is the trailing run. */
  lemma {:induction false} TrailingRunIsUnique(line: string, n: nat)
    requires n <= |line|
    requires forall j :: |line| - n <= j < |line| ==> IsBlank(line[j])
    requires n < |line| ==> !IsBlank(line[|line| - n - 1])
    ensures TrailingRun(line) == line[|line| - n..]
  {
    if n > 0 {
      var front, last := line[..|line| - 1], line[|line| - 1];
      assert IsBlank(last);
      assert TrailingRun(line) == TrailingRun(front) + [last];
      TrailingRunIsUnique(front, n - 1);
      assert line[|line| - n..] == front[|front| - (n - 1)..] + [last];
    }
  }

  predicate HasNonBlank(line: string) {
    exists i :: 0 <= i < |line| && !IsBlank(line[i])
  }

  /** A line the blank test lets through holds a character the trailing scan stops at. */
  lemma NonEmptyLineStopsTrailingScan(line: string)
    requires !EmptyLine(line)
    ensures HasNonBlank(line)
  {
    EmptyLineEveryChar(line);
    var i :| 0 <= i < |line| && !(IsBlank(line[i]) || IsLineEnding(line[i]));
    assert !IsBlank(line[i]);
  }

  /**
   * `getSpacesAndTabsAtEndOfLine`, with its loop condition as written: the test for
   * a tab is outside the bounds check, so the line must hold some character other
   * than a space or a tab for the scan to stop inside it.
   */
  method TrailingBlanks(line: string) returns (result: string)
    requires HasNonBlank(line)
    ensures result == TrailingRun(line)
  {
    var best := -1;
    var position := |line| - 1;
    while (position >= 0 && line[position] == ' ') || line[position] == '\t'
      invariant -1 <= position < |line|
      invariant exists k :: 0 <= k <= position && !IsBlank(line[k])
      invariant best == if position == |line| - 1 then -1 else position + 1
      invariant forall j :: position < j < |line| ==> IsBlank(line[j])
      decreases position
    {
      best := position;
      position := position - 1;
    }
    if best != -1 {
      result := line[best..];
    } else {
      result := "";
    }
    TrailingRunIsUnique(line, |line| - 1 - position);
  }

  // ---------------------------------------------------------------------------
  // One line of output
  // ---------------------------------------------------------------------------

  /** The reply roles after which the same prompt is sent again. */
  predicate Retries(m: Message) {
    m.role == ExceptionRole || m.role == FailedRole
  }

  /**
   * What is appended for a translated line, a null reply content taken as empty:
   * nothing when the content without its line endings is empty, otherwise the
   * line's leading blanks, the content, the line's trailing blanks and '\n'.
   */
  function LineText(line: string, content: Option<string>): (r: string)
    ensures r == [] || r[|r| - 1] == '\n'
  {
    var text := RemoveLineEndings(content.GetOr(""));
    if text == "" then "" else Indent(line) + text + TrailingRun(line) + "\n"
  }

  /**
   * The same with the null content dereferenced as written: None stands for the
   * exception thrown when the reply has no content.
   */
  function LineTextAsWritten(line: string, content: Option<string>): (r: Option<string>)
    ensures r.None? <==> content.None?
  {
    match content
    case None => None
    case Some(c) => Some(LineText(line, content))
  }

  // ---------------------------------------------------------------------------
  // The whole document
  // ---------------------------------------------------------------------------

  /** What the HTTP layer and the response stream yield for one `EnterPrompt` call. */
  datatype Attempt = Attempt(http: HttpOutcome, body: seq<string>)

  /** The translator passes all three callbacks. */
  const TranslatorHooks: Hooks := Hooks(true, true, true)

  function ReplyTo(a: Attempt, deserialize: string -> Parsed): Message {
    Exchange(a.http, a.body, deserialize, TranslatorHooks).reply
  }

  /** The replies the attempts yield, one `EnterPrompt` call each. */
  function Replies(attempts: seq<Attempt>, deserialize: string -> Parsed): (r: seq<Message>)
    ensures |r| == |attempts|
  {
    if attempts == [] then [] else [ReplyTo(attempts[0], deserialize)] + Replies(attempts[1..], deserialize)
  }

  /** The k-th reply is the reply to the k-th attempt. */
  lemma {:induction false} RepliesIndex(attempts: seq<Attempt>, k: nat, deserialize: string -> Parsed)
    requires k < |attempts|
    ensures Replies(attempts, deserialize)[k] == ReplyTo(attempts[k], deserialize)
  {
    if k > 0 {
      RepliesIndex(attempts[1..], k - 1, deserialize);
    }
  }

  /** The text written and whether every line was dealt with before the replies ran out. */
  datatype Translation = Translation(output: string, finished: bool)

  function Emit(s: string, t: Translation): Translation {
    Translation(s + t.output, t.finished)
  }

  /** The translation of the remaining lines with the remaining replies, one step at a time. */
  function TranslateFrom(lines: seq<string>, replies: seq<Message>): Translation
    decreases |lines|, |replies|
  {
    if lines == [] then Translation("", true)
    else if EmptyLine(lines[0]) then Emit("\n", TranslateFrom(lines[1..], replies))
    else if replies == [] then Translation("", false)
    else if Retries(replies[0]) then TranslateFrom(lines, replies[1..])
    else Emit(LineText(lines[0], replies[0].content), TranslateFrom(lines[1..], replies[1..]))
  }

  lemma EmitTwice(a: string, b: string, t: Translation)
    ensures Emit(a, Emit(b, t)) == Emit(a + b, t)
  {
    assert a + (b + t.output) == (a + b) + t.output;
  }

  // ---------------------------------------------------------------------------
  // The requests
  // ---------------------------------------------------------------------------

  /** The prompt sent for a line: the line without its line endings, trimmed. */
  function PromptFor(line: string): string {
    Trim(RemoveLineEndings(line))
  }

  /** A request made of the system instructions and the user prompt alone. */
  function TranslatorRequest(instructions: string, prompt: string): seq<Message> {
    [Text(SystemRole, instructions), Text(UserRole, prompt)]
  }

  /** With no history entry resent, every request is the instructions and the prompt, whatever the history holds. */
  lemma TranslatorSendsOnlyThePrompt(instructions: string, history: seq<Message>, prompt: string)
    ensures PromptWindow(instructions, history, 0, prompt) == TranslatorRequest(instructions, prompt)
  {
    assert history[|history|..] == [];
  }

  /**
   * The request of every `EnterPrompt` call, in order, while translating the lines from
   * `i` on with the replies from `next` on: a non-blank line is sent once per reply it
   * consumes, a blank one never.
   */
  function RequestsFrom(instructions: string, lines: seq<string>, i: nat, replies: seq<Message>, next: nat): seq<seq<Message>>
    requires i <= |lines| && next <= |replies|
    decreases |lines| - i, |replies| - next
  {
    if i == |lines| then []
    else if EmptyLine(lines[i]) then RequestsFrom(instructions, lines, i + 1, replies, next)
    else if next == |replies| then []
    else
      [TranslatorRequest(instructions, PromptFor(lines[i]))]
      + (if Retries(replies[next]) then RequestsFrom(instructions, lines, i, replies, next + 1)
         else RequestsFrom(instructions, lines, i + 1, replies, next + 1))
  }

  /** `n` copies of one request. */
  function Copies(request: seq<Message>, n: nat): (r: seq<seq<Message>>)
    ensures |r| == n
  {
    if n == 0 then [] else Copies(request, n - 1) + [request]
  }

  // ---------------------------------------------------------------------------
  // The main loop
  // ---------------------------------------------------------------------------

  /**
   * The main loop: line by line, blank lines copied as "\n", every non-blank line
   * prompted until a reply is not a failure. Stops unfinished when the attempts run
   * out during a retry. The session is the translator's, which resends no history.
   */
  method Translate(session: Session, lines: seq<string>, attempts: seq<Attempt>, deserialize: string -> Parsed)
    returns (output: string, finished: bool, requests: seq<seq<Message>>)
    requires session.PromptHistory == 0
    modifies session`History
    ensures Translation(output, finished) == TranslateFrom(lines, Replies(attempts, deserialize))
    ensures requests == RequestsFrom(session.Instructions, lines, 0, Replies(attempts, deserialize), 0)
  {
    ghost var replies := Replies(attempts, deserialize);
    output, requests := "", [];
    var next := 0;
    var i := 0;
    while i < |lines|
      invariant 0 <= i <= |lines| && 0 <= next <= |attempts|
      invariant TranslateFrom(lines, replies) == Emit(output, TranslateFrom(lines[i..], replies[next..]))
      invariant RequestsFrom(session.Instructions, lines, 0, replies, 0)
        == requests + RequestsFrom(session.Instructions, lines, i, replies, next)
    {
      var currentLine := lines[i];
      var empty := IsLineEmpty(currentLine);
      if empty {
        BlankLineStep(session.Instructions, lines, i, replies, next);
        EmitTwice(output, "\n", TranslateFrom(lines[i + 1..], replies[next..]));
        output := output + "\n";
        i := i + 1;
        continue;
      }
      var prePrompt := LeadingBlanks(currentLine);
      var prompt := Trim(RemoveLineEndings(currentLine));
      NonEmptyLineStopsTrailingScan(currentLine);
      var postPrompt := TrailingBlanks(currentLine);

      var m, lineRequests;
      ghost var from := next;
      m, next, lineRequests := AwaitReply(session, prompt, attempts, next, deserialize);
      AwaitedLine(lines, i, replies, from, next, m);
      AwaitedRequests(session.Instructions, lines, i, replies, from, next, m, lineRequests);
      if m.None? {
        return output, false, requests + lineRequests;
      }
      AppendAssociates(requests, lineRequests, RequestsFrom(session.Instructions, lines, i + 1, replies, next));
      requests := requests + lineRequests;

      var content := RemoveLineEndings(m.value.content.GetOr(""));
      ghost var rest := TranslateFrom(lines[i + 1..], replies[next..]);
      if content != "" {
        assert LineText(currentLine, m.value.content) == prePrompt + content + postPrompt + "\n";
        EmitTwice(output, prePrompt + content + postPrompt + "\n", rest);
        output := output + (prePrompt + content + postPrompt + "\n");
      } else {
        assert LineText(currentLine, m.value.content) == "";
        EmitTwice(output, "", rest);
        assert output + "" == output;
      }
      i := i + 1;
    }
    assert requests + [] == requests;
    finished := true;
  }

  /** A blank line is written as "\n" and sends nothing. */
  lemma BlankLineStep(instructions: string, lines: seq<string>, i: nat, replies: seq<Message>, next: nat)
    requires i < |lines| && EmptyLine(lines[i]) && next <= |replies|
    ensures TranslateFrom(lines[i..], replies[next..]) == Emit("\n", TranslateFrom(lines[i + 1..], replies[next..]))
    ensures RequestsFrom(instructions, lines, i, replies, next) == RequestsFrom(instructions, lines, i + 1, replies, next)
  {
    assert lines[i..][0] == lines[i] && lines[i..][1..] == lines[i + 1..];
  }

  /** One reply to a non-blank line: retry with the next reply, or emit and move on. */
  lemma PromptStep(lines: seq<string>, i: nat, replies: seq<Message>, next: nat)
    requires i < |lines| && !EmptyLine(lines[i]) && next < |replies|
    ensures TranslateFrom(lines[i..], replies[next..])
      == if Retries(replies[next]) then TranslateFrom(lines[i..], replies[next + 1..])
         else Emit(LineText(lines[i], replies[next].content), TranslateFrom(lines[i + 1..], replies[next + 1..]))
  {
    assert lines[i..][0] == lines[i] && lines[i..][1..] == lines[i + 1..];
    assert replies[next..][0] == replies[next] && replies[next..][1..] == replies[next + 1..];
  }

  /** Replies that are retried leave no trace in the translation of a non-blank line. */
  lemma {:induction false} RetriesSkipped(lines: seq<string>, replies: seq<Message>, from: nat, to: nat)
    requires lines != [] && !EmptyLine(lines[0]) && from <= to <= |replies|
    requires forall k | from <= k < to :: Retries(replies[k])
    ensures TranslateFrom(lines, replies[from..]) == TranslateFrom(lines, replies[to..])
  {
    if from < to {
      RetriesSkipped(lines, replies, from, to - 1);
      assert replies[to - 1..][0] == replies[to - 1] && replies[to - 1..][1..] == replies[to..];
    }
  }

  /** Every reply that is retried sends the line's request once more. */
  lemma {:induction false} RetriesResend(instructions: string, lines: seq<string>, i: nat, replies: seq<Message>, from: nat, to: nat)
    requires i < |lines| && !EmptyLine(lines[i]) && from <= to <= |replies|
    requires forall k | from <= k < to :: Retries(replies[k])
    ensures RequestsFrom(instructions, lines, i, replies, from)
      == Copies(TranslatorRequest(instructions, PromptFor(lines[i])), to - from) + RequestsFrom(instructions, lines, i, replies, to)
  {
    var req, tail := TranslatorRequest(instructions, PromptFor(lines[i])), RequestsFrom(instructions, lines, i, replies, to);
    if from == to {
      assert Copies(req, 0) + tail == tail;
    } else {
      RetriesResend(instructions, lines, i, replies, from, to - 1);
      AppendAssociates(Copies(req, to - 1 - from), [req], tail);
    }
  }

  /**
   * What the retry loop's outcome does to the translation of a non-blank line: nothing
   * written and unfinished when every remaining reply is retried, otherwise the line
   * written from the first reply that is not.
   */
  lemma AwaitedLine(lines: seq<string>, i: nat, replies: seq<Message>, from: nat, next: nat, m: Option<Message>)
    requires i < |lines| && !EmptyLine(lines[i]) && from <= next <= |replies|
    requires forall k | from <= k < next - 1 :: Retries(replies[k])
    requires m.None? ==> next == |replies| && (next > from ==> Retries(replies[next - 1]))
    requires m.Some? ==> from < next && m.value == replies[next - 1] && !Retries(m.value)
    ensures TranslateFrom(lines[i..], replies[from..])
      == if m.None? then Translation("", false)
         else Emit(LineText(lines[i], m.value.content), TranslateFrom(lines[i + 1..], replies[next..]))
  {
    if m.None? {
      RetriesSkipped(lines[i..], replies, from, next);
      assert lines[i..][0] == lines[i];
    } else {
      RetriesSkipped(lines[i..], replies, from, next - 1);
      PromptStep(lines, i, replies, next - 1);
    }
  }

  /** The requests the retry loop sent for a non-blank line, in terms of the requests for the whole document. */
  lemma AwaitedRequests(instructions: string, lines: seq<string>, i: nat, replies: seq<Message>, from: nat, next: nat,
                        m: Option<Message>, lineRequests: seq<seq<Message>>)
    requires i < |lines| && !EmptyLine(lines[i]) && from <= next <= |replies|
    requires forall k | from <= k < next - 1 :: Retries(replies[k])
    requires m.None? ==> next == |replies| && (next > from ==> Retries(replies[next - 1]))
    requires m.Some? ==> from < next && m.value == replies[next - 1] && !Retries(m.value)
    requires lineRequests == Copies(TranslatorRequest(instructions, PromptFor(lines[i])), next - from)
    ensures m.None? ==> RequestsFrom(instructions, lines, i, replies, from) == lineRequests
    ensures m.Some? ==>
      RequestsFrom(instructions, lines, i, replies, from)
      == lineRequests + RequestsFrom(instructions, lines, i + 1, replies, next)
  {
    if m.None? {
      ExhaustedRequests(instructions, lines, i, replies, from);
    } else {
      AnsweredRequests(instructions, lines, i, replies, from, next);
    }
  }

  /** When every remaining reply is retried, the line's requests are the last ones sent. */
  lemma ExhaustedRequests(instructions: string, lines: seq<string>, i: nat, replies: seq<Message>, from: nat)
    requires i < |lines| && !EmptyLine(lines[i]) && from <= |replies|
    requires forall k | from <= k < |replies| :: Retries(replies[k])
    ensures RequestsFrom(instructions, lines, i, replies, from)
      == Copies(TranslatorRequest(instructions, PromptFor(lines[i])), |replies| - from)
  {
    var sent := Copies(TranslatorRequest(instructions, PromptFor(lines[i])), |replies| - from);
    RetriesResend(instructions, lines, i, replies, from, |replies|);
    assert sent + [] == sent;
  }

  /** When the reply before `next` is the first one not retried, the line's requests are followed by the next line's. */
  lemma AnsweredRequests(instructions: string, lines: seq<string>, i: nat, replies: seq<Message>, from: nat, next: nat)
    requires i < |lines| && !EmptyLine(lines[i]) && from < next <= |replies|
    requires forall k | from <= k < next - 1 :: Retries(replies[k])
    requires !Retries(replies[next - 1])
    ensures RequestsFrom(instructions, lines, i, replies, from)
      == Copies(TranslatorRequest(instructions, PromptFor(lines[i])), next - from) + RequestsFrom(instructions, lines, i + 1, replies, next)
  {
    var req, tail := TranslatorRequest(instructions, PromptFor(lines[i])), RequestsFrom(instructions, lines, i + 1, replies, next);
    RetriesResend(instructions, lines, i, replies, from, next - 1);
    AnsweredStep(instructions, lines, i, replies, next - 1);
    AppendAssociates(Copies(req, next - 1 - from), [req], tail);
  }

  /** A reply that is not retried sends the line's request and moves on to the next line. */
  lemma AnsweredStep(instructions: string, lines: seq<string>, i: nat, replies: seq<Message>, k: nat)
    requires i < |lines| && !EmptyLine(lines[i]) && k < |replies| && !Retries(replies[k])
    ensures RequestsFrom(instructions, lines, i, replies, k)
      == [TranslatorRequest(instructions, PromptFor(lines[i]))] + RequestsFrom(instructions, lines, i + 1, replies, k + 1)
  {
  }

  /** One `EnterPrompt` call with the attempt at `next`, with the translator's callbacks. */
  method Ask(session: Session, prompt: string, attempts: seq<Attempt>, next: nat, deserialize: string -> Parsed)
    returns (request: seq<Message>, reply: Message)
    requires next < |attempts|
    modifies session`History
    ensures request == PromptWindow(session.Instructions, old(session.History), session.PromptHistory, prompt)
    ensures reply == Replies(attempts, deserialize)[next]
  {
    var trace;
    request, reply, trace := session.EnterPrompt(prompt, TranslatorHooks, attempts[next].http, attempts[next].body, deserialize);
    RepliesIndex(attempts, next, deserialize);
  }

  /**
   * The retry loop for one line: `EnterPrompt` is called with the next attempt until
   * the reply is not a failure. None when the attempts run out first; otherwise the
   * first reply from `from` on that is not retried, `next` being the attempt after it.
   * Every call sends the instructions and `prompt`.
   */
  method AwaitReply(session: Session, prompt: string, attempts: seq<Attempt>, from: nat, deserialize: string -> Parsed)
    returns (m: Option<Message>, next: nat, requests: seq<seq<Message>>)
    requires from <= |attempts|
    requires session.PromptHistory == 0
    modifies session`History
    ensures from <= next <= |attempts|
    ensures var replies := Replies(attempts, deserialize);
      && (forall k | from <= k < next - 1 :: Retries(replies[k]))
      && (m.None? ==> next == |attempts| && (next > from ==> Retries(replies[next - 1])))
      && (m.Some? ==> from < next && m.value == replies[next - 1] && !Retries(m.value))
    ensures requests == Copies(TranslatorRequest(session.Instructions, prompt), next - from)
  {
    ghost var replies := Replies(attempts, deserialize);
    next := from;
    m := None;
    requests := [];
    while m.None? || Retries(m.value)
      invariant from <= next <= |attempts|
      invariant m.None? ==> next == from
      invariant m.Some? ==> from < next && m.value == replies[next - 1]
      invariant forall k | from <= k < next - 1 :: Retries(replies[k])
      invariant requests == Copies(TranslatorRequest(session.Instructions, prompt), next - from)
      decreases |attempts| - next
    {
      if next == |attempts| {
        return None, next, requests;
      }
      ghost var history := session.History;
      var request, reply := Ask(session, prompt, attempts, next, deserialize);
      TranslatorSendsOnlyThePrompt(session.Instructions, history, prompt);
      m := Some(reply);
      requests := requests + [request];
      next := next + 1;
    }
  }
}
