/**
 * What a session exchange promises, stated over the specification functions of
 * module Chat: the shape of the prompt window, what the stream reader does with
 * each kind of line, how the reply content relates to the tokens delivered,
 * the error tags, and that `onError` fires at most once.
 */
module ChatProperties {
  import opened Wrappers
  import opened Strings
  import opened Chat

  // ---------------------------------------------------------------------------
  // Views of a callback trace
  // ---------------------------------------------------------------------------

  /** The texts passed to `onToken`, in order. */
  function TokensOf(trace: seq<Callback>): seq<string> {
    if trace == [] then [] else (if trace[0].Token? then [trace[0].text] else []) + TokensOf(trace[1..])
  }

  /** The roles passed to `onRoleChanged`, in order. */
  function RolesOf(trace: seq<Callback>): seq<string> {
    if trace == [] then [] else (if trace[0].RoleChanged? then [trace[0].role] else []) + RolesOf(trace[1..])
  }

  /** The details passed to `onError`, in order. */
  function ErrorsOf(trace: seq<Callback>): seq<string> {
    if trace == [] then [] else (if trace[0].Error? then [trace[0].detail] else []) + ErrorsOf(trace[1..])
  }

  function Concat(pieces: seq<string>): string {
    if pieces == [] then "" else pieces[0] + Concat(pieces[1..])
  }

  lemma {:induction false} TokensOfAppend(a: seq<Callback>, b: seq<Callback>)
    ensures TokensOf(a + b) == TokensOf(a) + TokensOf(b)
  {
    if a == [] {
      assert a + b == b;
    } else {
      assert (a + b)[0] == a[0];
      assert (a + b)[1..] == a[1..] + b;
      TokensOfAppend(a[1..], b);
      AppendAssociates(if a[0].Token? then [a[0].text] else [], TokensOf(a[1..]), TokensOf(b));
    }
  }

  lemma {:induction false} RolesOfAppend(a: seq<Callback>, b: seq<Callback>)
    ensures RolesOf(a + b) == RolesOf(a) + RolesOf(b)
  {
    if a == [] {
      assert a + b == b;
    } else {
      assert (a + b)[0] == a[0];
      assert (a + b)[1..] == a[1..] + b;
      RolesOfAppend(a[1..], b);
      AppendAssociates(if a[0].RoleChanged? then [a[0].role] else [], RolesOf(a[1..]), RolesOf(b));
    }
  }

  lemma {:induction false} ErrorsOfAppend(a: seq<Callback>, b: seq<Callback>)
    ensures ErrorsOf(a + b) == ErrorsOf(a) + ErrorsOf(b)
  {
    if a == [] {
      assert a + b == b;
    } else {
      assert (a + b)[0] == a[0];
      assert (a + b)[1..] == a[1..] + b;
      ErrorsOfAppend(a[1..], b);
      AppendAssociates(if a[0].Error? then [a[0].detail] else [], ErrorsOf(a[1..]), ErrorsOf(b));
    }
  }

  /** Each view of a trace distributes over concatenation. */
  lemma ViewsOfAppend(a: seq<Callback>, b: seq<Callback>)
    ensures TokensOf(a + b) == TokensOf(a) + TokensOf(b)
    ensures RolesOf(a + b) == RolesOf(a) + RolesOf(b)
    ensures ErrorsOf(a + b) == ErrorsOf(a) + ErrorsOf(b)
  {
    TokensOfAppend(a, b);
    RolesOfAppend(a, b);
    ErrorsOfAppend(a, b);
  }

  lemma {:induction false} ConcatAppend(a: seq<string>, b: seq<string>)
    ensures Concat(a + b) == Concat(a) + Concat(b)
  {
    if a == [] {
      assert a + b == b;
    } else {
      assert (a + b)[1..] == a[1..] + b;
      ConcatAppend(a[1..], b);
    }
  }

  // ---------------------------------------------------------------------------
  // A read, decomposed
  // ---------------------------------------------------------------------------

  /** The deltas of the lines that deliver something, up to the first payload that fails to parse. */
  function Delivered(lines: seq<string>, deserialize: string -> Parsed): seq<Delta> {
    if lines == [] then []
    else
      match Classify(lines[0], deserialize)
      case Skip => Delivered(lines[1..], deserialize)
      case Deliver(d) => [d] + Delivered(lines[1..], deserialize)
      case Abort(_) => []
  }

  /** The error text of the first payload that fails to parse, if any. */
  function FirstFailure(lines: seq<string>, deserialize: string -> Parsed): Option<string> {
    if lines == [] then None
    else
      match Classify(lines[0], deserialize)
      case Abort(e) => Some(e)
      case _ => FirstFailure(lines[1..], deserialize)
  }

  /** The content pieces of the deltas, a null piece counting as "". */
  function Contents(ds: seq<Delta>): string {
    if ds == [] then "" else ds[0].content.GetOr("") + Contents(ds[1..])
  }

  /** The callbacks fired for the deltas, delta by delta. */
  function Announcements(ds: seq<Delta>, hooks: Hooks): seq<Callback> {
    if ds == [] then [] else Announce(ds[0], hooks) + Announcements(ds[1..], hooks)
  }

  /** The roles carried by the deltas, every one of them, repeated or not. */
  function RolesCarried(ds: seq<Delta>): seq<string> {
    if ds == [] then [] else (if ds[0].role.Some? then [ds[0].role.value] else []) + RolesCarried(ds[1..])
  }

  /** The non-null content pieces of the deltas. */
  function TokensCarried(ds: seq<Delta>): seq<string> {
    if ds == [] then [] else (if ds[0].content.Some? then [ds[0].content.value] else []) + TokensCarried(ds[1..])
  }

  /**
   * A read is the deltas before the first parse failure: it fires their callbacks in
   * order, then `onError` if a payload failed; it fails with that payload's error, or
   * completes with the accumulated content followed by every piece (null when there
   * was nothing to append to and no delta at all).
   */
  lemma {:induction false} ReadStreamDecomposes(lines: seq<string>, deserialize: string -> Parsed, hooks: Hooks, acc: Option<string>)
    ensures var r := ReadStream(lines, deserialize, hooks, acc);
      var ds := Delivered(lines, deserialize);
      var failure := FirstFailure(lines, deserialize);
      && r.trace == Announcements(ds, hooks) + (if failure.Some? then ErrorReport(hooks, failure.value) else [])
      && (failure.Some? ==> r.result == StreamFailed(failure.value))
      && (failure.None? ==> r.result == Completed(if ds == [] then acc else Some(acc.GetOr("") + Contents(ds))))
  {
    if lines != [] {
      match Classify(lines[0], deserialize)
      case Skip =>
        ReadStreamDecomposes(lines[1..], deserialize, hooks, acc);
      case Abort(e) =>
      case Deliver(d) =>
        var acc' := Append(acc, d.content);
        ReadStreamDecomposes(lines[1..], deserialize, hooks, acc');
        var ds' := Delivered(lines[1..], deserialize);
        var failure := FirstFailure(lines[1..], deserialize);
        var tail := if failure.Some? then ErrorReport(hooks, failure.value) else [];
        AppendAssociates(Announce(d, hooks), Announcements(ds', hooks), tail);
        assert ([d] + ds')[1..] == ds';
        assert Contents([d] + ds') == d.content.GetOr("") + Contents(ds');
        assert Contents([d]) == d.content.GetOr("") + "";
        assert d.content.GetOr("") + "" == d.content.GetOr("");
        AppendAssociates(acc.GetOr(""), d.content.GetOr(""), Contents(ds'));
    }
  }

  lemma {:induction false} RolesAnnounced(ds: seq<Delta>, hooks: Hooks)
    requires hooks.onRoleChanged
    ensures RolesOf(Announcements(ds, hooks)) == RolesCarried(ds)
  {
    if ds != [] {
      RolesAnnounced(ds[1..], hooks);
      var d := ds[0];
      var roles: seq<Callback> := if d.role.Some? then [RoleChanged(d.role.value)] else [];
      var tokens: seq<Callback> := if d.content.Some? && hooks.onToken then [Token(d.content.value)] else [];
      RolesOfAppend(roles, tokens);
      RolesOfAppend(Announce(d, hooks), Announcements(ds[1..], hooks));
    }
  }

  lemma {:induction false} TokensAnnounced(ds: seq<Delta>, hooks: Hooks)
    requires hooks.onToken
    ensures TokensOf(Announcements(ds, hooks)) == TokensCarried(ds)
  {
    if ds != [] {
      TokensAnnounced(ds[1..], hooks);
      var d := ds[0];
      var roles: seq<Callback> := if d.role.Some? && hooks.onRoleChanged then [RoleChanged(d.role.value)] else [];
      var tokens: seq<Callback> := if d.content.Some? then [Token(d.content.value)] else [];
      TokensOfAppend(roles, tokens);
      TokensOfAppend(Announce(d, hooks), Announcements(ds[1..], hooks));
    }
  }

  lemma {:induction false} NoErrorAnnounced(ds: seq<Delta>, hooks: Hooks)
    ensures ErrorsOf(Announcements(ds, hooks)) == []
  {
    if ds != [] {
      NoErrorAnnounced(ds[1..], hooks);
      var d := ds[0];
      var roles: seq<Callback> := if d.role.Some? && hooks.onRoleChanged then [RoleChanged(d.role.value)] else [];
      var tokens: seq<Callback> := if d.content.Some? && hooks.onToken then [Token(d.content.value)] else [];
      ErrorsOfAppend(roles, tokens);
      ErrorsOfAppend(Announce(d, hooks), Announcements(ds[1..], hooks));
    }
  }

  lemma {:induction false} TokensMakeContents(ds: seq<Delta>)
    ensures Concat(TokensCarried(ds)) == Contents(ds)
  {
    if ds != [] {
      TokensMakeContents(ds[1..]);
      var own := if ds[0].content.Some? then [ds[0].content.value] else [];
      ConcatAppend(own, TokensCarried(ds[1..]));
    }
  }

  /** The callbacks of the delivered deltas: every carried role, every non-null token, never an error. */
  lemma AnnouncementsCarry(ds: seq<Delta>, hooks: Hooks)
    ensures hooks.onRoleChanged ==> RolesOf(Announcements(ds, hooks)) == RolesCarried(ds)
    ensures hooks.onToken ==> TokensOf(Announcements(ds, hooks)) == TokensCarried(ds)
    ensures ErrorsOf(Announcements(ds, hooks)) == []
    ensures Concat(TokensCarried(ds)) == Contents(ds)
  {
    if hooks.onRoleChanged {
      RolesAnnounced(ds, hooks);
    }
    if hooks.onToken {
      TokensAnnounced(ds, hooks);
    }
    NoErrorAnnounced(ds, hooks);
    TokensMakeContents(ds);
  }

  // ---------------------------------------------------------------------------
  // The stream reader
  // ---------------------------------------------------------------------------

  /** A line that contributes nothing can be removed from anywhere in the stream without any effect. */
  lemma {:induction false} SkippedLineIsInvisible(
    before: seq<string>, line: string, after: seq<string>,
    deserialize: string -> Parsed, hooks: Hooks, acc: Option<string>)
    requires Classify(line, deserialize) == Skip
    ensures ReadStream(before + [line] + after, deserialize, hooks, acc) == ReadStream(before + after, deserialize, hooks, acc)
  {
    if before == [] {
      assert (before + [line] + after)[1..] == before + after;
    } else {
      assert (before + [line] + after)[0] == (before + after)[0] == before[0];
      assert (before + [line] + after)[1..] == before[1..] + [line] + after;
      assert (before + after)[1..] == before[1..] + after;
      match Classify(before[0], deserialize)
      case Skip =>
        SkippedLineIsInvisible(before[1..], line, after, deserialize, hooks, acc);
      case Abort(e) =>
      case Deliver(d) =>
        SkippedLineIsInvisible(before[1..], line, after, deserialize, hooks, Append(acc, d.content));
    }
  }

  /** Lines without the literal "data: " prefix are skipped; blank keep-alive lines among them. */
  lemma NonDataLinesAreSkipped(line: string, deserialize: string -> Parsed)
    requires !StartsWith(line, DataPrefix)
    ensures Classify(line, deserialize) == Skip
    ensures forall before, after, hooks, acc ::
      ReadStream(before + [line] + after, deserialize, hooks, acc) == ReadStream(before + after, deserialize, hooks, acc)
  {
    forall before, after, hooks, acc
      ensures ReadStream(before + [line] + after, deserialize, hooks, acc) == ReadStream(before + after, deserialize, hooks, acc)
    {
      SkippedLineIsInvisible(before, line, after, deserialize, hooks, acc);
    }
  }

  /** The line "data: [DONE]" is passed over whatever the deserialiser would make of it. */
  lemma DoneLineIsSkipped(deserialize: string -> Parsed)
    ensures Classify("data: [DONE]", deserialize) == Skip
  {
    var line := "data: [DONE]";
    assert line[..|DataPrefix|] == DataPrefix;
    assert line[|DataPrefix|..] == DoneSentinel;
    assert TrimStart(DoneSentinel) == DoneSentinel by {
      assert !IsWhite(DoneSentinel[0]);
    }
    assert TrimEnd(DoneSentinel) == DoneSentinel by {
      assert !IsWhite(DoneSentinel[|DoneSentinel| - 1]);
    }
  }

  /** "[DONE]" does not end the read: the lines after it are still read, exactly as if it were absent. */
  lemma DoneDoesNotStopReading(before: seq<string>, after: seq<string>, deserialize: string -> Parsed, hooks: Hooks)
    ensures ReadStream(before + ["data: [DONE]"] + after, deserialize, hooks, None)
         == ReadStream(before + after, deserialize, hooks, None)
  {
    DoneLineIsSkipped(deserialize);
    SkippedLineIsInvisible(before, "data: [DONE]", after, deserialize, hooks, None);
  }

  /**
   * A payload that fails to deserialise ends the read with its error: the callbacks
   * already fired stay fired, `onError` follows, and no later line is read.
   */
  lemma {:induction false} ParseFailureAbortsAfterEarlierTokens(
    before: seq<string>, line: string, after: seq<string>,
    deserialize: string -> Parsed, hooks: Hooks, acc: Option<string>)
    requires Classify(line, deserialize).Abort?
    requires FirstFailure(before, deserialize).None?
    ensures var e := Classify(line, deserialize).error;
      ReadStream(before + [line] + after, deserialize, hooks, acc)
        == Reading(StreamFailed(e), ReadStream(before, deserialize, hooks, acc).trace + ErrorReport(hooks, e))
  {
    var e := Classify(line, deserialize).error;
    if before == [] {
    } else {
      assert (before + [line] + after)[0] == before[0];
      assert (before + [line] + after)[1..] == before[1..] + [line] + after;
      match Classify(before[0], deserialize)
      case Skip =>
        ParseFailureAbortsAfterEarlierTokens(before[1..], line, after, deserialize, hooks, acc);
      case Deliver(d) =>
        var acc' := Append(acc, d.content);
        ParseFailureAbortsAfterEarlierTokens(before[1..], line, after, deserialize, hooks, acc');
        AppendAssociates(Announce(d, hooks), ReadStream(before[1..], deserialize, hooks, acc').trace, ErrorReport(hooks, e));
    }
  }

  // ---------------------------------------------------------------------------
  // One exchange
  // ---------------------------------------------------------------------------

  /**
   * The reply's role tells the outcome apart: "assistant" exactly when the exchange is
   * committed to History; "Exception" exactly when the request could not be built;
   * "Failed" exactly for a transport error, a missing result or an unsuccessful status;
   * "exception" exactly when a payload in a successful response failed to deserialise.
   */
  lemma ReplyRoleTagsOutcome(http: HttpOutcome, body: seq<string>, deserialize: string -> Parsed, hooks: Hooks)
    ensures var o := Exchange(http, body, deserialize, hooks);
      && (o.committed <==> o.reply.role == AssistantRole)
      && (o.reply.role == ExceptionRole <==> http.ConstructionFailed?)
      && (o.reply.role == FailedRole <==> http.TransportFailed? || http.NoResult? || (http.Status? && !http.success))
      && (o.reply.role == StreamExceptionRole <==>
            http.Status? && http.success && FirstFailure(body, deserialize).Some?)
      && (o.committed <==> http.Status? && http.success && FirstFailure(body, deserialize).None?)
  {
    ReadStreamDecomposes(body, deserialize, hooks, None);
  }

  /**
   * On success the reply is the assistant's, and its content is every token passed to
   * `onToken`, concatenated in order; it is null exactly when no chunk was delivered.
   */
  lemma SuccessfulReplyIsItsTokens(http: HttpOutcome, body: seq<string>, deserialize: string -> Parsed, hooks: Hooks)
    requires hooks.onToken
    ensures var o := Exchange(http, body, deserialize, hooks);
      o.committed ==>
        && o.reply.role == AssistantRole
        && o.reply.content.GetOr("") == Concat(TokensOf(o.trace))
        && (o.reply.content.None? <==> Delivered(body, deserialize) == [])
  {
    ReadStreamDecomposes(body, deserialize, hooks, None);
    var ds := Delivered(body, deserialize);
    AnnouncementsCarry(ds, hooks);
    assert Announcements(ds, hooks) + [] == Announcements(ds, hooks);
    assert "" + Contents(ds) == Contents(ds);
  }

  /** `onRoleChanged` fires for every delivered chunk that carries a role, not only when the role changes. */
  lemma RoleChangedForEveryChunk(http: HttpOutcome, body: seq<string>, deserialize: string -> Parsed, hooks: Hooks)
    requires hooks.onRoleChanged
    requires http.Status? && http.success
    ensures RolesOf(Exchange(http, body, deserialize, hooks).trace) == RolesCarried(Delivered(body, deserialize))
  {
    ReadStreamDecomposes(body, deserialize, hooks, None);
    var ds := Delivered(body, deserialize);
    var failure := FirstFailure(body, deserialize);
    AnnouncementsCarry(ds, hooks);
    ViewsOfAppend(Announcements(ds, hooks), if failure.Some? then ErrorReport(hooks, failure.value) else []);
  }

  /**
   * `onError` fires at most once per exchange, last, with the same text the failure
   * reply carries; never for a missing result, never on success, and for an
   * unsuccessful status only when the reason phrase is non-null.
   */
  lemma ErrorsOfReport(hooks: Hooks, detail: string)
    ensures ErrorsOf(ErrorReport(hooks, detail)) == if hooks.onError then [detail] else []
  {
    if hooks.onError {
      assert ErrorReport(hooks, detail)[1..] == [];
    }
  }

  lemma ErrorReportedAtMostOnce(http: HttpOutcome, body: seq<string>, deserialize: string -> Parsed, hooks: Hooks)
    ensures var o := Exchange(http, body, deserialize, hooks);
      && |ErrorsOf(o.trace)| <= 1
      && (|ErrorsOf(o.trace)| == 1 ==> !o.committed && o.trace[|o.trace| - 1] == Error(o.reply.content.value))
      && (|ErrorsOf(o.trace)| == 1 <==> hooks.onError && !o.committed && !http.NoResult? && !(http.Status? && !http.success && http.reason.None?))
  {
    var o := Exchange(http, body, deserialize, hooks);
    match http
    case ConstructionFailed(e) =>
      ErrorsOfReport(hooks, e);
    case TransportFailed(e) =>
      ErrorsOfReport(hooks, e);
    case NoResult =>
    case Status(success, reason) =>
      if !success {
        if reason.Some? {
          ErrorsOfReport(hooks, reason.value);
        }
      } else {
        ReadStreamDecomposes(body, deserialize, hooks, None);
        var ds := Delivered(body, deserialize);
        var failure := FirstFailure(body, deserialize);
        AnnouncementsCarry(ds, hooks);
        var tail := if failure.Some? then ErrorReport(hooks, failure.value) else [];
        ViewsOfAppend(Announcements(ds, hooks), tail);
        assert o.trace == Announcements(ds, hooks) + tail;
        assert ErrorsOf(o.trace) == ErrorsOf(tail);
        if failure.Some? {
          ErrorsOfReport(hooks, failure.value);
          assert o.reply.content == Some(failure.value);
        }
      }
  }

  // ---------------------------------------------------------------------------
  // The prompt window
  // ---------------------------------------------------------------------------

  /**
   * The request is the system instructions, then the last `min(PromptHistory, |History|)`
   * entries of History in their original order (none for a negative PromptHistory),
   * then the user prompt.
   */
  lemma WindowIsSystemSuffixUser(instructions: string, history: seq<Message>, promptHistory: int, prompt: string)
    ensures var w := PromptWindow(instructions, history, promptHistory, prompt);
      var k := if promptHistory <= 0 then 0 else if promptHistory < |history| then promptHistory else |history|;
      && |w| == 2 + k
      && w[0] == Text(SystemRole, instructions)
      && w[|w| - 1] == Text(UserRole, prompt)
      && (forall j :: 1 <= j <= k ==> w[j] == history[|history| - k + j - 1])
  {
  }

  /** The window counts messages, not pairs, so an odd window starts in the middle of a user/assistant pair. */
  lemma OddWindowStartsMidPair(u1: Message, a1: Message, u2: Message, a2: Message, u3: Message, a3: Message)
    ensures PromptWindow("i", [u1, a1, u2, a2, u3, a3], 3, "p") == [Text(SystemRole, "i"), a2, u3, a3, Text(UserRole, "p")]
  {
  }

  // ---------------------------------------------------------------------------
  // A worked stream
  // ---------------------------------------------------------------------------

  const RoleChunk: string := "{\"choices\":[{\"delta\":{\"role\":\"assistant\"}}]}"
  const HelChunk: string := "{\"choices\":[{\"delta\":{\"content\":\"Hel\"}}]}"
  const LoChunk: string := "{\"choices\":[{\"delta\":{\"content\":\"lo\"}}]}"

  /** A deserialiser that knows the three payloads of the worked stream. */
  function SampleDeserializer(data: string): Parsed {
    if data == RoleChunk then Response(Some([Choice(None, Some(Delta(Some("assistant"), None)))]))
    else if data == HelChunk then Response(Some([Choice(None, Some(Delta(None, Some("Hel"))))]))
    else if data == LoChunk then Response(Some([Choice(None, Some(Delta(None, Some("lo"))))]))
    else Malformed("invalid JSON")
  }

  /** A data line whose payload has no surrounding white space is read as that payload. */
  lemma DataLineClassified(line: string, payload: string, delta: Delta)
    requires line == DataPrefix + payload
    requires payload != [] && !IsWhite(payload[0]) && !IsWhite(payload[|payload| - 1])
    requires payload != DoneSentinel
    requires SampleDeserializer(payload) == Response(Some([Choice(None, Some(delta))]))
    ensures Classify(line, SampleDeserializer) == Deliver(delta)
  {
    assert line[..|DataPrefix|] == DataPrefix;
    assert line[|DataPrefix|..] == payload;
    assert TrimStart(payload) == payload;
    assert TrimEnd(payload) == payload;
  }

  /** The deltas of the worked stream, in order. */
  const SampleDeltas: seq<Delta> := [Delta(Some("assistant"), None), Delta(None, Some("Hel")), Delta(None, Some("lo"))]

  /** Every line delivers a delta, the k-th line the k-th of `ds`. */
  predicate AllDeliver(lines: seq<string>, ds: seq<Delta>, deserialize: string -> Parsed) {
    |lines| == |ds| &&
    (lines != [] ==> Classify(lines[0], deserialize) == Deliver(ds[0]) && AllDeliver(lines[1..], ds[1..], deserialize))
  }

  /** A delivering line in front of delivering lines. */
  lemma AllDeliverCons(line: string, lines: seq<string>, d: Delta, ds: seq<Delta>, deserialize: string -> Parsed)
    requires Classify(line, deserialize) == Deliver(d) && AllDeliver(lines, ds, deserialize)
    ensures AllDeliver([line] + lines, [d] + ds, deserialize)
  {
    assert ([line] + lines)[1..] == lines && ([d] + ds)[1..] == ds;
  }

  lemma RoleChunkDelivers(line: string)
    requires line == DataPrefix + RoleChunk
    ensures Classify(line, SampleDeserializer) == Deliver(SampleDeltas[0])
  {
    assert |RoleChunk| == 44;
    DataLineClassified(line, RoleChunk, SampleDeltas[0]);
  }

  lemma HelChunkDelivers(line: string)
    requires line == DataPrefix + HelChunk
    ensures Classify(line, SampleDeserializer) == Deliver(SampleDeltas[1])
  {
    assert |HelChunk| == 41;
    DataLineClassified(line, HelChunk, SampleDeltas[1]);
  }

  lemma LoChunkDelivers(line: string)
    requires line == DataPrefix + LoChunk
    ensures Classify(line, SampleDeserializer) == Deliver(SampleDeltas[2])
  {
    assert |LoChunk| == 40;
    DataLineClassified(line, LoChunk, SampleDeltas[2]);
  }

  /** Three delivering lines. */
  lemma ThreeDeliver(c1: string, c2: string, c3: string, d1: Delta, d2: Delta, d3: Delta, deserialize: string -> Parsed)
    requires Classify(c1, deserialize) == Deliver(d1)
    requires Classify(c2, deserialize) == Deliver(d2)
    requires Classify(c3, deserialize) == Deliver(d3)
    ensures AllDeliver([c1, c2, c3], [d1, d2, d3], deserialize)
  {
    AllDeliverCons(c3, [], d3, [], deserialize);
    AllDeliverCons(c2, [c3], d2, [d3], deserialize);
    AllDeliverCons(c1, [c2, c3], d1, [d2, d3], deserialize);
    assert [c1] + [c2, c3] == [c1, c2, c3] && [d1] + [d2, d3] == [d1, d2, d3];
  }

  /** The chunk lines of the worked stream deliver the sample deltas, line by line. */
  lemma SampleChunksAllDeliver(chunks: seq<string>)
    requires chunks == [DataPrefix + RoleChunk, DataPrefix + HelChunk, DataPrefix + LoChunk]
    ensures AllDeliver(chunks, SampleDeltas, SampleDeserializer)
  {
    RoleChunkDelivers(chunks[0]);
    HelChunkDelivers(chunks[1]);
    LoChunkDelivers(chunks[2]);
    ThreeDeliver(chunks[0], chunks[1], chunks[2], SampleDeltas[0], SampleDeltas[1], SampleDeltas[2], SampleDeserializer);
  }

  /** Lines that each deliver a delta deliver those deltas... */
  lemma {:induction false} DeliveringLines(lines: seq<string>, ds: seq<Delta>, deserialize: string -> Parsed)
    requires AllDeliver(lines, ds, deserialize)
    ensures Delivered(lines, deserialize) == ds
  {
    if lines != [] {
      assert Delivered(lines, deserialize) == [ds[0]] + Delivered(lines[1..], deserialize);
      DeliveringLines(lines[1..], ds[1..], deserialize);
      assert [ds[0]] + ds[1..] == ds;
    }
  }

  /** ...and never fail. */
  lemma {:induction false} DeliveringLinesNeverFail(lines: seq<string>, ds: seq<Delta>, deserialize: string -> Parsed)
    requires AllDeliver(lines, ds, deserialize)
    ensures FirstFailure(lines, deserialize) == None
  {
    if lines != [] {
      DeliveringLinesNeverFail(lines[1..], ds[1..], deserialize);
    }
  }

  /** What the sample deltas add up to. */
  lemma SampleDeltasAddUp(hooks: Hooks)
    requires hooks == Hooks(true, true, true)
    ensures Contents(SampleDeltas) == "Hello"
    ensures Announcements(SampleDeltas, hooks) == [RoleChanged("assistant"), Token("Hel"), Token("lo")]
  {
    assert "Hel" + ("lo" + "") == "Hello";
    assert [RoleChanged("assistant")] + ([Token("Hel")] + ([Token("lo")] + [])) == [RoleChanged("assistant"), Token("Hel"), Token("lo")];
  }

  /** The three chunk lines of the worked stream read as "Hello" with the role and both tokens announced. */
  lemma SampleChunksRead(chunks: seq<string>)
    requires chunks == [DataPrefix + RoleChunk, DataPrefix + HelChunk, DataPrefix + LoChunk]
    ensures ReadStream(chunks, SampleDeserializer, Hooks(true, true, true), None)
         == Reading(Completed(Some("Hello")), [RoleChanged("assistant"), Token("Hel"), Token("lo")])
  {
    var hooks := Hooks(true, true, true);
    SampleChunksAllDeliver(chunks);
    DeliveringLines(chunks, SampleDeltas, SampleDeserializer);
    DeliveringLinesNeverFail(chunks, SampleDeltas, SampleDeserializer);
    ReadStreamDecomposes(chunks, SampleDeserializer, hooks, None);
    SampleDeltasAddUp(hooks);
    assert "" + "Hello" == "Hello";
    assert Announcements(SampleDeltas, hooks) + [] == Announcements(SampleDeltas, hooks);
  }

  /** A successful status whose stream reads to completion commits the assistant reply. */
  lemma CompletedReadCommits(
    reason: Option<string>, body: seq<string>, deserialize: string -> Parsed, hooks: Hooks,
    content: Option<string>, trace: seq<Callback>)
    requires ReadStream(body, deserialize, hooks, None) == Reading(Completed(content), trace)
    ensures Exchange(Status(true, reason), body, deserialize, hooks) == Outcome(Message(AssistantRole, content), true, trace)
  {
  }

  /**
   * A role chunk, two content chunks and "[DONE]" complete with "Hello", announce the
   * role once and deliver "Hel" then "lo"; the exchange is committed.
   */
  lemma HelloStream(body: seq<string>)
    requires body == [DataPrefix + RoleChunk, DataPrefix + HelChunk, DataPrefix + LoChunk, "data: [DONE]"]
    ensures Exchange(Status(true, Some("OK")), body, SampleDeserializer, Hooks(true, true, true))
         == Outcome(Message(AssistantRole, Some("Hello")), true, [RoleChanged("assistant"), Token("Hel"), Token("lo")])
  {
    var hooks := Hooks(true, true, true);
    var chunks := body[..3];
    assert body == chunks + ["data: [DONE]"] + [];
    DoneDoesNotStopReading(chunks, [], SampleDeserializer, hooks);
    assert chunks + [] == chunks;
    SampleChunksRead(chunks);
    CompletedReadCommits(Some("OK"), body, SampleDeserializer, hooks, Some("Hello"),
      [RoleChanged("assistant"), Token("Hel"), Token("lo")]);
  }
}
