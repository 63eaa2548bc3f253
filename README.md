# dotgpt core, modelled in Dafny

dotgpt is a set of console front ends for a streaming chat-completion API. This
project models the parts that hold its logic.

- **Chat** (`Session.EnterPrompt` in `dotgpt/OpenAI/Chat/Chat.cs`)
  - Assembles the request: the system instructions, a window of the most recent
    history entries, and the user prompt.
  - Reads the server-sent event stream line by line. It skips lines that are not
    data lines and the `[DONE]` sentinel, and stops at the first payload that fails
    to deserialise.
  - Fires the role, token and error callbacks.
  - Returns a reply whose role tags the outcome: `assistant`, `Exception`, `Failed`
    or `exception`.
  - Appends the user message and the reply to `History` only when the whole stream
    was read.
- **Settings** (the `Settings(string[])` constructor in `dotgpt/Assistant/Settings.cs`)
  - Parses the command line by prefix, first match wins.
  - Stops at `-help` and at a numeric value that does not parse.
  - A later option overwrites an earlier one.
- **Assistant profile** (`Assistant.UpdateSettings` and `Assistant.Create` in
  `dotgpt/Assistant/Assistant.cs`)
  - Merges usable settings into the profile under range guards.
  - Saves the profile when any setting was taken.
  - Creates a default profile when none can be read.
- **Markdown translator** (`cl-mdt/Program.cs`)
  - Splits the document at `'\n'` and copies blank lines.
  - Prompts every non-blank line, retrying while the reply is `Exception` or `Failed`.
  - Writes the reply back between the line's own leading and trailing spaces and
    tabs.

## How the model is built

| module | file | what it models |
|---|---|---|
| `Chat` | `chat.dfy` | Chat.cs. `Session` is a class whose `History` field `EnterPrompt` reassigns. |
| `ChatProperties` | `chat_properties.dfy` | What Chat.cs promises about that model. |
| `AssistantSettings` | `settings.dfy` | Settings.cs. The class `Settings` has the source's public fields. |
| `SettingsProperties` | `settings_properties.dfy` | What the parse promises. |
| `AssistantProfile` | `assistant.dfy` | Assistant.cs. The class `Assistant` has the profile's properties. |
| `AssistantProperties` | `assistant_properties.dfy` | What the merge promises. |
| `MarkdownTranslate` | `mdt.dfy` | cl-mdt/Program.cs. |
| `TranslateProperties` | `mdt_properties.dfy` | What the translator promises. |
| `Wrappers`, `Strings` | `wrappers.dfy`, `strings.dfy` | `Option`, and the .NET string operations the core calls. |

### How the I/O is represented

Each imperative method is proved against a specification function:
- `EnterPrompt` against `Exchange`;
- the event loop `ReadEvents` against `ReadStream`;
- the `Settings` constructor against `Parse`;
- `UpdateSettings` against `Merge`;
- the translator's main loop `Translate` against `TranslateFrom` and `RequestsFrom`, applied to `Replies`, the replies the attempts yield one after another.

The lemmas are about those functions.

Everything the core gets from the outside is a parameter:
- **HTTP exchange:** `HttpOutcome`, which is a request that could not be built, a
  transport error, no result, or a status with its reason phrase. With it comes
  the response body, as a sequence of lines.
- **JSON deserialisation of a chunk:** `deserialize`. A payload whose first `choices`
  element is null makes dotgpt/OpenAI/Chat/Chat.cs:258 throw inside the `try`, so it
  ends the read with role `exception`. In the model such a payload is one for which
  `deserialize` returns `Malformed`.
- **`double.TryParse`:** `parseDouble`.
- **Profile file:** `Create`'s `stored`. Writing it appends the profile to `Saved`.
- **Callbacks:** a `Callback` trace returned by `EnterPrompt`. `Hooks` records
  which of the three callbacks are non-null.

### Where the code departs from what a streaming-chat client usually does

In each of these cases the model follows the code, although a streaming-chat client is
usually expected to behave otherwise:
- **`[DONE]` does not end the read.** The line is skipped and reading goes on
  (`ChatProperties.DoneDoesNotStopReading`).
- **The reply content is not trimmed** once the stream is read.
- **An unsuccessful status reports to `onError` only when the reason phrase is non-null.**
- **A missing result reports nothing.**
- **The reply content is null when no chunk was delivered.** `responseMessage.content`
  starts null, and C# string concatenation turns it into a string only at the first
  delivered chunk (`ChatProperties.SuccessfulReplyIsItsTokens`).

### The trailing-blank scan in cl-mdt

The loop condition at cl-mdt/Program.cs:144 tests for a tab outside the bounds
check. On a line made only of spaces and tabs, it would read index -1.
- `MarkdownTranslate.TrailingBlanks` keeps the condition as written. It requires a
  character that is neither a space nor a tab.
- `MarkdownTranslate.NonEmptyLineStopsTrailingScan` shows that the caller's blank
  test guarantees that character.

## Model

| member | source | states |
|---|---|---|
| `Strings.TrimStartDropsWhitePrefix` | dotgpt/OpenAI/Chat/Chat.cs:239 | Trimming the front keeps a suffix of the input. Every character it drops is white space, and the result does not start with white space. |
| `Strings.TrimEndDropsWhiteSuffix` | dotgpt/OpenAI/Chat/Chat.cs:239 | Trimming the back keeps a prefix of the input. Every character it drops is white space, and the result does not end with white space. |
| `Strings.RemoveLineEndingsKeepsTheRest` | cl-mdt/Program.cs:102 | A character is in the result iff it is in the input and is not CR or LF. A line without line endings is unchanged. |
| `Chat.WindowSize` | dotgpt/OpenAI/Chat/Chat.cs:143 | The number of history entries resent is `min(PromptHistory, History.Count)`. It is 0 when `PromptHistory` ≤ 0 and never more than the history holds. |
| `Chat.Session.constructor` | dotgpt/OpenAI/Chat/Chat.cs:44-66 | A new session has an empty history, the given key and the property initialisers: name, instructions, temperature 0.5, 1024 tokens, model `gpt-3.5-turbo`, 5 history entries. |
| `Chat.Session.AssemblePrompt` | dotgpt/OpenAI/Chat/Chat.cs:137-151 | The countdown loop builds exactly the window: the system message, the newest entries oldest first, then the user prompt. |
| `Chat.Classify` | dotgpt/OpenAI/Chat/Chat.cs:234-263 | Definition: a line without the `data: ` prefix, the trimmed payload `[DONE]`, a null response, a missing or empty `choices` and a first choice with neither `message` nor `delta` are skipped. A payload that fails to deserialise aborts with its error. Otherwise the line delivers the first choice's `message`, or its `delta` when `message` is null. |
| `Chat.ReadStream` | dotgpt/OpenAI/Chat/Chat.cs:226-292 | Definition: the lines are read in order. Each delivered chunk fires `onRoleChanged` when it has a role and `onToken` when it has content, and its content is appended to the reply. The first aborting line fires `onError` and ends the read with its error. |
| `Chat.ReadEvents` | dotgpt/OpenAI/Chat/Chat.cs:226-292 | The read loop yields exactly `ReadStream`'s outcome and callback trace. |
| `Chat.Exchange` | dotgpt/OpenAI/Chat/Chat.cs:176-298 | Definition: a request that could not be built gives role `Exception`. A transport error, no result or a bad status gives role `Failed`, with `onError` fired as the code does. A successful status reads the stream: a failed read gives role `exception`, and a complete read gives the committed `assistant` reply. |
| `Chat.Session.EnterPrompt` | dotgpt/OpenAI/Chat/Chat.cs:125-299 | The request is the window. The reply and the callbacks are those of the exchange. `History` gains the user prompt and the reply, in that order, exactly when the read completed; otherwise it is unchanged. |
| `ChatProperties.ReadStreamDecomposes` | dotgpt/OpenAI/Chat/Chat.cs:230-292 | A read fires the callbacks of the chunks delivered before the first bad payload, in order, then `onError` for that payload. It fails with that payload's error, or completes with the concatenated contents (null if no chunk was delivered). |
| `ChatProperties.SkippedLineIsInvisible` | dotgpt/OpenAI/Chat/Chat.cs:234-263 | A line that contributes nothing can be removed from anywhere in the stream without changing the read. |
| `ChatProperties.NonDataLinesAreSkipped` | dotgpt/OpenAI/Chat/Chat.cs:234-237 | A line without the `data: ` prefix is skipped. |
| `ChatProperties.DoneLineIsSkipped` | dotgpt/OpenAI/Chat/Chat.cs:239-245 | `data: [DONE]` is skipped, whatever the deserialiser would make of it. |
| `ChatProperties.DoneDoesNotStopReading` | dotgpt/OpenAI/Chat/Chat.cs:241-245 | Lines after `[DONE]` are read exactly as if it were absent. |
| `ChatProperties.ParseFailureAbortsAfterEarlierTokens` | dotgpt/OpenAI/Chat/Chat.cs:247-289 | A payload that fails to deserialise ends the read with its error. The callbacks already fired stay fired, `onError` follows, and later lines are ignored. |
| `ChatProperties.ReplyRoleTagsOutcome` | dotgpt/OpenAI/Chat/Chat.cs:176-298 | Each role identifies its outcome (iff in every case): `assistant` when committed, `Exception` when the request could not be built, `Failed` for transport/no result/bad status, `exception` for a bad payload in a successful response. |
| `ChatProperties.SuccessfulReplyIsItsTokens` | dotgpt/OpenAI/Chat/Chat.cs:265-298 | A committed reply's content is every token passed to `onToken`, concatenated in order. It is null exactly when no chunk was delivered. |
| `ChatProperties.RoleChangedForEveryChunk` | dotgpt/OpenAI/Chat/Chat.cs:265-269 | `onRoleChanged` fires for every delivered chunk that carries a role, repeated or not. |
| `ChatProperties.ErrorReportedAtMostOnce` | dotgpt/OpenAI/Chat/Chat.cs:176-289 | `onError` fires at most once, last, with the failure reply's text. It fires exactly when onError is set, the exchange is not committed, there was a result, and a bad status has a reason phrase. |
| `ChatProperties.WindowIsSystemSuffixUser` | dotgpt/OpenAI/Chat/Chat.cs:137-151 | Position by position, the request is the system message, then the last k history entries in their original order, then the prompt. |
| `ChatProperties.OddWindowStartsMidPair` | dotgpt/OpenAI/Chat/Chat.cs:143-147 | The window counts messages, not exchanges: with 3 of 6 entries it begins with an assistant reply. |
| `ChatProperties.HelloStream` | dotgpt/OpenAI/Chat/Chat.cs:226-298 | A worked stream (a role chunk, "Hel", "lo", `[DONE]`) gives the assistant reply "Hello", is committed, and fires role, "Hel", "lo" in order. |
| `AssistantSettings.TryParseInt32` | dotgpt/Assistant/Settings.cs:90 | `int.TryParse` yields only values in the 32-bit range. |
| `AssistantSettings.ParseFormatRoundTrip` | dotgpt/Assistant/Settings.cs:90 | Every 32-bit integer written in decimal parses back to itself. |
| `AssistantSettings.Select` | dotgpt/Assistant/Settings.cs:53-112 | Definition: the first option, in the code's test order, whose prefix the argument starts with, or none. |
| `AssistantSettings.ApplySelected` | dotgpt/Assistant/Settings.cs:53-112 | Definition: the branch of the selected option. `-help` sets `Help` and stops. A flag is set. A text option takes the rest of the argument. A number takes its parsed value, or 0 with its error message and a stop. An unrecognised argument changes nothing. |
| `AssistantSettings.ParseFrom` | dotgpt/Assistant/Settings.cs:49-113 | Definition: the arguments applied in order until one stops the parse. |
| `AssistantSettings.Parse` | dotgpt/Assistant/Settings.cs:10-113 | Definition: `ParseFrom` started from the field initialisers. |
| `AssistantSettings.Settings.constructor` | dotgpt/Assistant/Settings.cs:30-114 | After construction the public fields are exactly the parse of the arguments. |
| `AssistantSettings.Settings.ApplyArgument` | dotgpt/Assistant/Settings.cs:51-112 | One pass of the loop body, given the option the argument's prefix selects, sets the fields as that option's branch does and reports whether the constructor returns. |
| `AssistantSettings.Settings.ApplyText` | dotgpt/Assistant/Settings.cs:62-108 | A text option stores the rest of the argument in its own field and does not stop the parse. |
| `AssistantSettings.Settings.ApplyNumber` | dotgpt/Assistant/Settings.cs:78-104 | A numeric option stores the parsed value, or 0 with that option's error message and a stop when the value does not parse. |
| `SettingsProperties.ParseFromComposes` | dotgpt/Assistant/Settings.cs:49-113 | Parsing `a + b` is parsing `b` from the state `a` left. |
| `SettingsProperties.ParseAppend` | dotgpt/Assistant/Settings.cs:49-113 | One more argument is applied on top of the earlier ones, so a later option overwrites an earlier one. Nothing is applied after a stop. |
| `SettingsProperties.StoppedIgnoresRest` | dotgpt/Assistant/Settings.cs:53-103 | After a stop no further argument has any effect. |
| `SettingsProperties.UnrecognisedIgnored` | dotgpt/Assistant/Settings.cs:49-113 | An argument matching no prefix can be removed without changing the result. |
| `SettingsProperties.PrefixSelects` | dotgpt/Assistant/Settings.cs:53-112 | Each option's prefix selects that option whatever follows it: no earlier prefix shadows a later one. |
| `SettingsProperties.HelpStops` | dotgpt/Assistant/Settings.cs:53-57 | An argument beginning `-help` sets `Help` and stops. Earlier fields remain and later arguments are never applied. |
| `SettingsProperties.TextOptionsTakeTheirValue` | dotgpt/Assistant/Settings.cs:62-108 | `-assistant:`, `-key:`, `-instructions:`, `-model:` and `-session:` store the rest of the argument verbatim, possibly empty, and change nothing else. |
| `SettingsProperties.FlagsMatchByPrefix` | dotgpt/Assistant/Settings.cs:58-112 | Any argument beginning `-lists` or `-reset` sets that flag. |
| `SettingsProperties.NumbersTakeTheirValue` | dotgpt/Assistant/Settings.cs:87-104 | A 32-bit number after `-tokens:` or `-history:` lands in its field unchanged. |
| `SettingsProperties.InvalidNumberStops` | dotgpt/Assistant/Settings.cs:78-104 | A value that does not parse zeroes its field, sets that option's error message and stops. |
| `SettingsProperties.ProfileAndMessagesIgnored` | cl-gpta/Program.cs:173 | `-profile:` and `-messages:`, advertised by the help text, are ignored by the parser. |
| `SettingsProperties.StopReason` | dotgpt/Assistant/Settings.cs:25-104 | The parse stops iff `Help` is set or `ErrorMsg` is non-empty, never both. `ErrorMsg` is empty or one of the three messages. |
| `AssistantProfile.Assistant.constructor` | dotgpt/Assistant/Assistant.cs:10-22 | A new profile has the given name and the defaults: model, instructions, temperature 0.5, 4096 tokens, 5 history entries. |
| `AssistantProfile.Assistant.Loaded` | dotgpt/Assistant/Assistant.cs:40-46 | The deserialised profile is taken as stored. |
| `AssistantProfile.Assistant.Create` | dotgpt/Assistant/Assistant.cs:32-57 | A stored profile is returned unsaved. Otherwise a new default profile with the requested name is returned, saved once. |
| `AssistantProfile.Assistant.Save` | dotgpt/Assistant/Assistant.cs:132-156 | Records the current profile as written. |
| `AssistantProfile.Merge` | dotgpt/Assistant/Assistant.cs:79-126 | Definition: key, model and instructions are taken when non-empty, temperature when in [0, 1], tokens when in [1, 32536), history when ≥ 0. The merge is dirty when any was taken. |
| `AssistantProfile.Assistant.UpdateSettings` | dotgpt/Assistant/Assistant.cs:77-127 | The new properties are the merge of the old ones with the settings. `Save` runs once exactly when the merge was dirty, and never otherwise. |
| `AssistantProperties.MergeTakesUsableSettings` | dotgpt/Assistant/Assistant.cs:82-121 | Key, model and instructions are overwritten iff non-empty. Temperature iff in [0, 1]. Tokens iff in [1, 32536). History iff ≥ 0. The name is never touched. |
| `AssistantProperties.MergeKeepsRanges` | dotgpt/Assistant/Assistant.cs:103-121 | A profile with in-range numbers stays in range. |
| `AssistantProperties.DirtyIgnoresCurrentValues` | dotgpt/Assistant/Assistant.cs:79-126 | Whether `Save` runs depends only on the settings, not on whether a value changes. A clean merge changes nothing. |
| `AssistantProperties.MergeIdempotent` | dotgpt/Assistant/Assistant.cs:77-127 | Merging the same settings twice is merging them once. |
| `AssistantProperties.MergeIgnoresOtherSettings` | dotgpt/Assistant/Assistant.cs:77-127 | The settings' help, lists, assistant, session, reset and error fields are not consulted. |
| `AssistantProperties.EmptyCommandLineChangesNothing` | dotgpt/Assistant/Assistant.cs:79-126 | Settings from no arguments hold only sentinels: nothing changes and nothing is saved. |
| `AssistantProperties.HistoryOptionReachesProfile` | dotgpt/Assistant/Assistant.cs:117-121 | `-history:N` reaches the profile for every N ≥ 0, including 0. A negative N leaves the profile's own value. |
| `AssistantProperties.TokensOptionReachesProfile` | dotgpt/Assistant/Assistant.cs:110-114 | `-tokens:N` reaches the profile iff 1 ≤ N < 32536. Otherwise the profile keeps its value. |
| `AssistantProperties.CompletedParseMergesSafely` | cl-gpta/Program.cs:20-94 | When the front end goes on to merge (no error, no help), the parse ran to the end, in-range numbers stay in range and the name is kept. |
| `MarkdownTranslate.NewTranslatorSession` | cl-mdt/Program.cs:83-91 | The translator's session: its name, the instructions naming the language, temperature 0.5, 3500 tokens, no history resent. |
| `MarkdownTranslate.SplitLines` | cl-mdt/Program.cs:54 | Splitting at `'\n'` gives one more piece than there are `'\n'`, and no piece contains one. |
| `TranslateProperties.JoinSplit` | cl-mdt/Program.cs:54 | Joining the pieces with `'\n'` gives back the document. |
| `TranslateProperties.SplitJoin` | cl-mdt/Program.cs:54 | Pieces without `'\n'`, joined then split, come back unchanged. |
| `MarkdownTranslate.EmptyLineEveryChar` | cl-mdt/Program.cs:93-117 | The recursive blank test holds iff every character of the line is a space, a tab or a line ending. |
| `MarkdownTranslate.IsLineEmpty` | cl-mdt/Program.cs:93-117 | True iff the line holds only spaces, tabs and line-ending characters, so `""`, `"\r"` and `" \t\r"` are empty. |
| `MarkdownTranslate.Indent` | cl-mdt/Program.cs:119-138 | The longest prefix of the line made only of spaces and tabs. |
| `MarkdownTranslate.IndentIsUnique` | cl-mdt/Program.cs:119-138 | A prefix of spaces and tabs that is followed by the end of the line or by another character is the indent. |
| `MarkdownTranslate.LeadingBlanks` | cl-mdt/Program.cs:119-138 | The collecting loop returns exactly that prefix. |
| `MarkdownTranslate.TrailingRun` | cl-mdt/Program.cs:140-157 | The longest suffix of the line made only of spaces and tabs. |
| `MarkdownTranslate.TrailingRunIsUnique` | cl-mdt/Program.cs:140-157 | A suffix of spaces and tabs that is preceded by the start of the line or by another character is the trailing run. |
| `MarkdownTranslate.TrailingBlanks` | cl-mdt/Program.cs:140-157 | The backward scan, with its condition as written, returns exactly that suffix when the line has a character other than a space or a tab. |
| `MarkdownTranslate.NonEmptyLineStopsTrailingScan` | cl-mdt/Program.cs:160-173 | A line the blank test lets through has a character that stops the trailing scan inside the line. |
| `MarkdownTranslate.Retries` | cl-mdt/Program.cs:192 | Definition: a reply is retried when its role is `Exception` or `Failed`. |
| `MarkdownTranslate.PromptFor` | cl-mdt/Program.cs:172-175 | Definition: the prompt is the line without its line endings, trimmed. |
| `MarkdownTranslate.Ask` | cl-mdt/Program.cs:194 | One `EnterPrompt` call with the translator's callbacks sends the window over the session's history and yields the reply the attempt at that position produces. |
| `MarkdownTranslate.AwaitReply` | cl-mdt/Program.cs:190-195 | The retry loop returns the first reply that is not `Exception` or `Failed`, and every reply before it was one of those. It returns nothing only when the attempts run out with every remaining reply retried. It sends one request per reply it consumes, each the instructions and the prompt alone. |
| `MarkdownTranslate.RetriesSkipped` | cl-mdt/Program.cs:191-195 | Replies that are retried leave no trace in the translation of the line being prompted. |
| `MarkdownTranslate.RetriesResend` | cl-mdt/Program.cs:191-195 | Every retried reply sends the line's request once more. |
| `MarkdownTranslate.AwaitedLine` | cl-mdt/Program.cs:190-204 | When the retry loop returns nothing the translation stops there unfinished. Otherwise the line is written from the reply it returns and translation goes on with the next line and the next attempt. |
| `MarkdownTranslate.ExhaustedRequests` | cl-mdt/Program.cs:190-195 | When every remaining reply is retried, the line's request is the last thing sent, once per reply. |
| `MarkdownTranslate.AnsweredRequests` | cl-mdt/Program.cs:190-204 | When a reply is not retried, the line's request is sent once per reply up to it, and then the next line's requests follow. |
| `MarkdownTranslate.AwaitedRequests` | cl-mdt/Program.cs:190-204 | The requests the retry loop sent for a line are exactly the ones `RequestsFrom` assigns to that line. |
| `TranslateProperties.RetriedExactlyWithoutSuccessStatus` | cl-mdt/Program.cs:191-195 | A prompt is resent iff the response had no success status. A bad payload is not retried, and its error text becomes the reply. |
| `MarkdownTranslate.TranslatorSendsOnlyThePrompt` | cl-mdt/Program.cs:90 | With `PromptHistory` 0 every request is the instructions and the prompt alone. |
| `MarkdownTranslate.LineText` | cl-mdt/Program.cs:197-204 | Definition: the reply's content without line endings, a null content taken as empty. When that is not empty, it is written between the line's indent and trailing run, followed by `'\n'`. Otherwise nothing is written. |
| `MarkdownTranslate.LineTextAsWritten` | cl-mdt/Program.cs:198-200 | As written, a null reply content fails at the dereference. |
| `TranslateProperties.LineTextIsOneLine` | cl-mdt/Program.cs:197-204 | A translated line adds at most one `'\n'` to the output. |
| `MarkdownTranslate.TranslateFrom` | cl-mdt/Program.cs:160-208 | Definition: a blank line writes `"\n"`. A non-blank line skips the retried replies and is written from the first other one. The translation stops unfinished when the replies run out first. |
| `MarkdownTranslate.RequestsFrom` | cl-mdt/Program.cs:160-195 | Definition: a blank line sends nothing. A non-blank line sends the instructions and its prompt once per reply it consumes, up to and including the first reply that is not retried. |
| `MarkdownTranslate.Translate` | cl-mdt/Program.cs:160-208 | The main loop writes exactly `TranslateFrom`'s output over the replies the attempts yield: `"\n"` for a blank line, otherwise the reply's text between the line's own leading and trailing blanks, a null content taken as empty. It stops unfinished only when the attempts run out while a line is still being retried. Its requests are exactly `RequestsFrom`'s: in order, one per reply consumed, each the system instructions and the trimmed line without line endings, for the line being retried. |
| `TranslateProperties.OutputLinesAtMostInput` | cl-mdt/Program.cs:160-208 | The output never has more lines than the document. |
| `TranslateProperties.OutputLinesAtMostDocument` | cl-mdt/Program.cs:54 | A document split at `'\n'` comes out with at most one more `'\n'` than it has. |
| `TranslateProperties.BlankLinesCopied` | cl-mdt/Program.cs:162-168 | A document of blank lines comes out as one `"\n"` per line. |
| `TranslateProperties.BlankLinesSendNothing` | cl-mdt/Program.cs:162-168 | Blank lines send no request. |
| `TranslateProperties.RequestsAtMostReplies` | cl-mdt/Program.cs:190-195 | There are never more requests than replies. |
| `TranslateProperties.RequestsArePrompts` | cl-mdt/Program.cs:174-195 | Every request is the system instructions and the trimmed prompt of a non-blank line of the document. |
| `TranslateProperties.UnfinishedUsesEveryReply` | cl-mdt/Program.cs:190-195 | A translation that stops unfinished has sent one request per reply. |
| `TranslateProperties.ChunklessReplyFailsAsWritten` | cl-mdt/Program.cs:198-200 | A successful stream that delivers no chunk gives an `assistant` reply with null content. It is not retried, and the dereference at line 198 fails. |
| `TranslateProperties.DoneOnlyStreamFailsAsWritten` | cl-mdt/Program.cs:198 | The stream `data: [DONE]` alone is such a reply. |
| `TranslateProperties.ChunklessReplySkipsLine` | cl-mdt/Program.cs:197-204 | Read as intended, a reply without content writes nothing and the translation goes on with the next line. |

## Left out

- File system and console:
  - reading and deleting files, and appending to the output file (the output is a string);
  - `Session.Load`/`Save`, `GlobalSettings`, the application-data path;
  - console colours and echoing of tokens.
  The API key prompt and the argument-count check of the front ends are left out as well.
- JSON serialisation and deserialisation are a function parameter.
- The form in which `Save` writes a profile is not modelled. `Saved` records the whole profile,
  including `APIKey`. Its getter is protected (dotgpt/Assistant/Assistant.cs:22), so the
  serialiser at dotgpt/Assistant/Assistant.cs:136 does not write it with its default options.
- Building the HTTP request (URI, headers, body, timeout) and sending it are not
  modelled. Their outcome is an input.
- `async`/`await` is not modelled; the model is sequential.
- Exceptions are not modelled in two places:
  - an exception thrown by a callback;
  - an exception thrown while reading the stream outside the deserialiser's `try`.
- `double.TryParse` is a parameter.
- `int.TryParse` accepts ASCII digits, an optional sign and the white space U+0009–U+000D and U+0020. Trailing NUL characters and culture-specific signs are not modelled.
- `StartsWith` is modelled as an ordinal comparison, not the culture-sensitive one the
  code calls.
- `Trim` and `ReplaceLineEndings` use ASCII character sets:
  - `Trim` removes U+0009–U+000D and U+0020, not every Unicode white-space character;
  - `ReplaceLineEndings` removes CR and LF, not NEL, LS, PS or FF.
- A null argument array is not modelled separately. It behaves like the empty array, which is modelled.
- The translator's retry loop is unbounded in the code. The model draws replies from a finite sequence of attempts and reports `finished == false` when they run out.
- Object identity is not modelled.
  - At cl-mdt/Program.cs:198 the reply object that `EnterPrompt` stored in `History`
    is updated in place.
  - The model's messages are values, so that update does not reach the session's
    history.
- `MarkdownTranslate.Ask`: does not state the session's `History` afterwards. With `PromptHistory` 0 the history never reaches a request (`TranslatorSendsOnlyThePrompt`), and the requests are stated instead.
- `MarkdownTranslate.AwaitReply`: does not state the session's `History` afterwards, for the same reason.
- `MarkdownTranslate.Translate`: does not state the session's `History` afterwards, for the same reason.
- `MarkdownTranslate.Translate`: takes a null reply content as empty, as the finding below corrects it. At cl-mdt/Program.cs:198 the code throws instead (`LineTextAsWritten`, `DoneOnlyStreamFailsAsWritten`).
- `MarkdownTranslate.LineText`: its own contract states only that the text ends in
  `'\n'` when not empty. Its content is stated through `Translate`,
  `LineTextIsOneLine` and `ChunklessReplySkipsLine`.

## Findings

| source | as written | input that shows it | evidently intended | confidence | as-written member | corrected member |
|---|---|---|---|---|---|---|
| cl-mdt/Program.cs:198 | The reply content has its line endings removed before the null test at line 200. | A success response whose stream is only `data: [DONE]`: `EnterPrompt` returns role `assistant` with null content, and the dereference fails. | A null content is treated like an empty one: nothing is written for the line and translation goes on. | not executed | `TranslateProperties.DoneOnlyStreamFailsAsWritten` | `TranslateProperties.ChunklessReplySkipsLine` |
