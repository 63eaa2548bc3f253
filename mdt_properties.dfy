/** What the translator's helpers and main loop promise, proved about `MarkdownTranslate`. */
module TranslateProperties {
  import opened Wrappers
  import opened Strings
  import opened Chat
  import opened ChatProperties
  import opened MarkdownTranslate

  // ---------------------------------------------------------------------------
  // Splitting at '\n'
  // ---------------------------------------------------------------------------

  lemma JoinLinesUnfold(lines: seq<string>)
    requires |lines| >= 2
    ensures JoinLines(lines) == lines[0] + "\n" + JoinLines(lines[1..])
  {
  }

  /** A character in front of the first piece is a character in front of the joined text. */
  lemma JoinCons(c: char, lines: seq<string>)
    requires |lines| >= 1
    ensures JoinLines([[c] + lines[0]] + lines[1..]) == [c] + JoinLines(lines)
  {
    var joined := [[c] + lines[0]] + lines[1..];
    if |lines| > 1 {
      var tail := JoinLines(lines[1..]);
      assert joined[1..] == lines[1..];
      JoinLinesUnfold(joined);
      JoinLinesUnfold(lines);
      AppendAssociates([c], lines[0], "\n");
      AppendAssociates([c], lines[0] + "\n", tail);
    }
  }

  /** An empty first piece joins as a leading '\n'. */
  lemma JoinEmptyFirst(lines: seq<string>)
    requires |lines| >= 1
    ensures JoinLines([""] + lines) == "\n" + JoinLines(lines)
  {
    assert ([""] + lines)[1..] == lines;
  }

  /** Joining the pieces with '\n' gives back the document. */
  lemma {:induction false} JoinSplit(text: string)
    ensures JoinLines(SplitLines(text)) == text
  {
    if text != [] {
      var rest := SplitLines(text[1..]);
      JoinSplit(text[1..]);
      if text[0] == '\n' {
        assert SplitLines(text) == [""] + rest;
        JoinEmptyFirst(rest);
      } else {
        assert SplitLines(text) == [[text[0]] + rest[0]] + rest[1..];
        JoinCons(text[0], rest);
      }
      assert [text[0]] + text[1..] == text;
    }
  }

  lemma {:induction false} SplitWithoutNewline(piece: string)
    requires '\n' !in piece
    ensures SplitLines(piece) == [piece]
  {
    if piece != [] {
      assert '\n' !in piece[1..];
      SplitWithoutNewline(piece[1..]);
      assert [piece[0]] + piece[1..] == piece;
    }
  }

  /** A character other than '\n' joins the first piece of the rest. */
  lemma SplitLinesCons(text: string)
    requires text != [] && text[0] != '\n'
    ensures var rest := SplitLines(text[1..]);
      SplitLines(text) == [[text[0]] + rest[0]] + rest[1..]
  {
  }

  lemma {:induction false} SplitAfterPiece(piece: string, tail: string)
    requires '\n' !in piece
    ensures SplitLines(piece + "\n" + tail) == [piece] + SplitLines(tail)
  {
    var text := piece + "\n" + tail;
    if piece == [] {
      assert text == "\n" + tail;
      assert text[1..] == tail;
    } else {
      assert text[0] == piece[0] && text[0] != '\n';
      assert text[1..] == piece[1..] + "\n" + tail;
      assert '\n' !in piece[1..];
      SplitAfterPiece(piece[1..], tail);
      SplitLinesCons(text);
      var rest := SplitLines(text[1..]);
      assert rest[0] == piece[1..] && rest[1..] == SplitLines(tail);
      assert [piece[0]] + piece[1..] == piece;
    }
  }

  /** Pieces without '\n', joined and split again, come back unchanged. */
  lemma {:induction false} SplitJoin(lines: seq<string>)
    requires |lines| >= 1
    requires forall k :: 0 <= k < |lines| ==> '\n' !in lines[k]
    ensures SplitLines(JoinLines(lines)) == lines
  {
    if |lines| == 1 {
      SplitWithoutNewline(lines[0]);
    } else {
      SplitJoin(lines[1..]);
      SplitAfterPiece(lines[0], JoinLines(lines[1..]));
      assert [lines[0]] + lines[1..] == lines;
    }
  }

  // ---------------------------------------------------------------------------
  // Retrying
  // ---------------------------------------------------------------------------

  /**
   * A prompt is sent again exactly when the request could not be built or sent, no
   * result came back, or the status was not a success. A payload that fails to parse
   * is not retried: its error text is the reply.
   */
  lemma RetriedExactlyWithoutSuccessStatus(a: Attempt, deserialize: string -> Parsed)
    ensures Retries(ReplyTo(a, deserialize)) <==> !(a.http.Status? && a.http.success)
    ensures a.http.Status? && a.http.success && FirstFailure(a.body, deserialize).Some? ==>
      ReplyTo(a, deserialize) == Text(StreamExceptionRole, FirstFailure(a.body, deserialize).value)
  {
    ReplyRoleTagsOutcome(a.http, a.body, deserialize, TranslatorHooks);
    ReadStreamDecomposes(a.body, deserialize, TranslatorHooks, None);
    assert StreamExceptionRole[0] != ExceptionRole[0];
  }

  // ---------------------------------------------------------------------------
  // The output
  // ---------------------------------------------------------------------------

  lemma NoNewlineNoCount(s: string)
    requires '\n' !in s
    ensures multiset(s)['\n'] == 0
  {
  }

  /** A translated line adds at most one line to the output. */
  lemma LineTextIsOneLine(line: string, content: Option<string>)
    ensures multiset(LineText(line, content))['\n'] <= 1
  {
    var text := RemoveLineEndings(content.GetOr(""));
    RemoveLineEndingsKeepsTheRest(content.GetOr(""));
    if text != "" {
      var lead := Indent(line);
      var trail := TrailingRun(line);
      assert '\n' !in lead;
      assert '\n' !in trail;
      assert '\n' !in text;
      NoNewlineNoCount(lead);
      NoNewlineNoCount(text);
      NoNewlineNoCount(trail);
      assert LineText(line, content) == lead + text + trail + "\n";
    }
  }

  /** The output never has more lines than the document. */
  lemma {:induction false} OutputLinesAtMostInput(lines: seq<string>, replies: seq<Message>)
    ensures multiset(TranslateFrom(lines, replies).output)['\n'] <= |lines|
    decreases |lines|, |replies|
  {
    if lines == [] {
    } else if EmptyLine(lines[0]) {
      OutputLinesAtMostInput(lines[1..], replies);
    } else if replies == [] {
    } else if Retries(replies[0]) {
      OutputLinesAtMostInput(lines, replies[1..]);
    } else {
      OutputLinesAtMostInput(lines[1..], replies[1..]);
      LineTextIsOneLine(lines[0], replies[0].content);
    }
  }

  /** A document of blank lines comes out as one "\n" per line, with no request sent. */
  lemma {:induction false} BlankLinesCopied(lines: seq<string>, replies: seq<Message>)
    requires forall k :: 0 <= k < |lines| ==> EmptyLine(lines[k])
    ensures TranslateFrom(lines, replies) == Translation(seq(|lines|, _ => '\n'), true)
  {
    if lines != [] {
      BlankLinesCopied(lines[1..], replies);
      assert "\n" + seq(|lines| - 1, _ => '\n') == seq(|lines|, _ => '\n');
    }
  }

  /** Split at '\n', a text comes out with at most one line more than it has line feeds. */
  lemma OutputLinesAtMostDocument(text: string, replies: seq<Message>)
    ensures multiset(TranslateFrom(SplitLines(text), replies).output)['\n'] <= multiset(text)['\n'] + 1
  {
    OutputLinesAtMostInput(SplitLines(text), replies);
  }

  // ---------------------------------------------------------------------------
  // The requests
  // ---------------------------------------------------------------------------

  /** Every request answers one reply: there are never more requests than replies left. */
  lemma {:induction false} RequestsAtMostReplies(instructions: string, lines: seq<string>, i: nat, replies: seq<Message>, next: nat)
    requires i <= |lines| && next <= |replies|
    ensures |RequestsFrom(instructions, lines, i, replies, next)| <= |replies| - next
    decreases |lines| - i, |replies| - next
  {
    if i == |lines| {
    } else if EmptyLine(lines[i]) {
      RequestsAtMostReplies(instructions, lines, i + 1, replies, next);
    } else if next == |replies| {
    } else if Retries(replies[next]) {
      RequestsAtMostReplies(instructions, lines, i, replies, next + 1);
    } else {
      RequestsAtMostReplies(instructions, lines, i + 1, replies, next + 1);
    }
  }

  /** Blank lines are never sent. */
  lemma {:induction false} BlankLinesSendNothing(instructions: string, lines: seq<string>, i: nat, replies: seq<Message>, next: nat)
    requires i <= |lines| && next <= |replies|
    requires forall k | i <= k < |lines| :: EmptyLine(lines[k])
    ensures RequestsFrom(instructions, lines, i, replies, next) == []
    decreases |lines| - i
  {
    if i < |lines| {
      BlankLinesSendNothing(instructions, lines, i + 1, replies, next);
    }
  }

  /** Every request is the instructions and the prompt of one of the non-blank lines, in the two roles. */
  lemma {:induction false} RequestsArePrompts(instructions: string, lines: seq<string>, i: nat, replies: seq<Message>, next: nat)
    requires i <= |lines| && next <= |replies|
    ensures forall r | r in RequestsFrom(instructions, lines, i, replies, next) ::
      exists k | i <= k < |lines| :: !EmptyLine(lines[k])
        && r == [Text(SystemRole, instructions), Text(UserRole, Trim(RemoveLineEndings(lines[k])))]
    decreases |lines| - i, |replies| - next
  {
    if i == |lines| {
    } else if EmptyLine(lines[i]) {
      RequestsArePrompts(instructions, lines, i + 1, replies, next);
    } else if next == |replies| {
    } else if Retries(replies[next]) {
      RequestsArePrompts(instructions, lines, i, replies, next + 1);
    } else {
      RequestsArePrompts(instructions, lines, i + 1, replies, next + 1);
    }
  }

  /** A translation that stops unfinished has sent one request per reply. */
  lemma {:induction false} UnfinishedUsesEveryReply(instructions: string, lines: seq<string>, i: nat, replies: seq<Message>, next: nat)
    requires i <= |lines| && next <= |replies|
    requires !TranslateFrom(lines[i..], replies[next..]).finished
    ensures |RequestsFrom(instructions, lines, i, replies, next)| == |replies| - next
    decreases |lines| - i, |replies| - next
  {
    if i == |lines| {
    } else if EmptyLine(lines[i]) {
      BlankLineStep(instructions, lines, i, replies, next);
      UnfinishedUsesEveryReply(instructions, lines, i + 1, replies, next);
    } else if next == |replies| {
    } else {
      PromptStep(lines, i, replies, next);
      if Retries(replies[next]) {
        UnfinishedUsesEveryReply(instructions, lines, i, replies, next + 1);
      } else {
        UnfinishedUsesEveryReply(instructions, lines, i + 1, replies, next + 1);
      }
    }
  }

  // ---------------------------------------------------------------------------
  // A reply without content
  // ---------------------------------------------------------------------------

  /**
   * A successful stream that delivers no chunk and does not fail yields an assistant
   * reply whose content is null. It is not retried, and dereferencing its content
   * fails as written.
   */
  lemma ChunklessReplyFailsAsWritten(line: string, a: Attempt, deserialize: string -> Parsed)
    requires a.http.Status? && a.http.success
    requires FirstFailure(a.body, deserialize).None? && Delivered(a.body, deserialize) == []
    ensures ReplyTo(a, deserialize) == Message(AssistantRole, None)
    ensures !Retries(ReplyTo(a, deserialize))
    ensures LineTextAsWritten(line, ReplyTo(a, deserialize).content).None?
  {
    ReadStreamDecomposes(a.body, deserialize, TranslatorHooks, None);
  }

  /** The stream that carries only the end sentinel is such a reply. */
  lemma DoneOnlyStreamFailsAsWritten(line: string, deserialize: string -> Parsed)
    ensures var a := Attempt(Status(true, None), ["data: [DONE]"]);
      && ReplyTo(a, deserialize) == Message(AssistantRole, None)
      && LineTextAsWritten(line, ReplyTo(a, deserialize).content).None?
  {
    var body := ["data: [DONE]"];
    DoneLineIsSkipped(deserialize);
    assert body[0] == "data: [DONE]" && body[1..] == [];
    ChunklessReplyFailsAsWritten(line, Attempt(Status(true, None), body), deserialize);
  }

  /**
   * Read as intended, a reply without content writes nothing for its line and the
   * translation goes on with the next line and the next attempt.
   */
  lemma ChunklessReplySkipsLine(line: string, rest: seq<string>, a: Attempt, replies: seq<Message>, deserialize: string -> Parsed)
    requires !EmptyLine(line)
    requires a.http.Status? && a.http.success
    requires FirstFailure(a.body, deserialize).None? && Delivered(a.body, deserialize) == []
    ensures LineText(line, ReplyTo(a, deserialize).content) == ""
    ensures TranslateFrom([line] + rest, [ReplyTo(a, deserialize)] + replies) == TranslateFrom(rest, replies)
  {
    ChunklessReplyFailsAsWritten(line, a, deserialize);
    assert ([line] + rest)[1..] == rest;
    assert ([ReplyTo(a, deserialize)] + replies)[1..] == replies;
    assert "" + TranslateFrom(rest, replies).output == TranslateFrom(rest, replies).output;
  }
}
