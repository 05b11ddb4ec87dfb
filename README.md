# Self-healing code generator: a verified model

This project models, in Dafny, the two pieces of the self-healing code generator that carry its logic.

The streaming completion client (`ModelSwitch.js`) is modelled in `model_switch.dfy`. It covers:

- the request bodies of the two backends;
- the fallback from the primary to the secondary backend when the primary request throws;
- the `isUsingSecondary` flag, which decides which backend a stream error is blamed on;
- the decoder that turns each chunk of a `data:`-framed response body into text fragments.

The driver (`selfHealing.js`) is modelled in `self_healing.dfy`. It covers:

- `runCode`, with its module-level code and error histories;
- the comment prefix that `runCode` writes in front of the program;
- the extraction of a missing module's name, and the install-and-retry;
- the accumulation of a completion stream into one answer;
- the top-level loop: run, regenerate, generate a test harness once, then test until the output has no `Fail`.

The source mutates state in place, so the model does too:

- `ModelSwitch.Client` holds the closure flag and the requests sent, and `ModelSwitch.PassThrough` holds what was written to the consumer's stream.
- `SelfHealing.Session` holds the two histories, every text written to `temp.js`, and the oracles' scripts.
- The loops of the source are `while` loops with invariants.

Each method is proved equal to a pure specification function of the old state:

- `RunCodeSpec` and `ExitSpec` for `runCode`;
- `Ask` for the generate functions;
- `Program`, `MainLoop`, `TestPhase`, `TestLoop` and `Recover` for the top-level loop;
- `DecodeChunk` and `DecodeStream` for the decoder;
- `Fallback` and `Posts` for the backend choice.

What the source promises is then proved about those functions as lemmas.

The environment is modelled by oracles:

- `JSON.parse` is an uninterpreted function held by the client.
- The HTTP request is a `Network` value: for each backend, the body it would stream or the error it would throw.
- The executor (`node temp.js`), the installer (`npm install`, then the dynamic `import`) and the model calls are finite scripts of answers, consumed one answer per call.
- A script that runs out ends the run. This is the fuel bound that makes the unbounded loops and the retry recursion terminate.

Supporting modules:

- `js_text.dfy` states the JavaScript string built-ins the code relies on: `trim`, `includes`, `split`, `join`, `+=` and the rendering of a counter.
- `history_comments.dfy` describes the comment prefix both as text and line by line.
- `wrappers.dfy` holds `Option`/`Result` and an order-preserving flat-map.

## Where the code behaves unexpectedly

The model follows the code in each of these cases.

- **Where the history goes.** One would expect the earlier (code, error) pairs to go into the regeneration request. Instead they are written as comments in front of the program in `temp.js` (selfHealing.js:202-213). `regenerateCode` receives only the instructions, the current code and the error (selfHealing.js:105-111).
- **Install-and-retry grows the histories.** One would expect the retry to add no history entry. Instead, the failed attempt's error message is pushed first (selfHealing.js:217-220). The retried `runCode` then pushes the same code again (selfHealing.js:199, 229). `RunCodeHistories` states this: the code history grows only by copies of the code.
- **An unmatched name is not treated as a generic failure.** One would expect a failed extraction to lead to regeneration. In `runCode` the installer is called with `undefined` instead (selfHealing.js:225-227).
- **Only `\n` is escaped.** The comment loop puts `// ` after each `\n` of an entry (selfHealing.js:206-207). A JavaScript line comment also ends at a lone carriage return, U+2028 or U+2029. The rest of an entry's line after one of those is therefore outside the comment in `temp.js`. The model splits lines on `\n` only, as the code does, so `CommentLinesAreComments` speaks of `\n`-separated lines.
- **A failed install never settles.** An installer failure, or a rejection of the retried run, is thrown inside the `exec` callback. The `runCode` promise then never settles (`Escaped` in the model) rather than failing the run in an orderly way.
- **The `ERR_MODULE_NOT_FOUND` branch is dead.** Its `continue` (selfHealing.js:274-280) is never reached. Any error that mentions a missing package has already been retried inside `runCode`. So the `match(...)[1]` in that branch always reads index 1 of `null`, and the run crashes. `ModuleNotFoundCrashes` proves this.

## Model

| member | source | states |
|---|---|---|
| JsText.Trim | ModelSwitch.js:114 | `trim` yields the slice left after the leading and the trailing whitespace; it is empty exactly when the text is all whitespace, and otherwise starts and ends with a non-space |
| JsText.BlankIffTrimEmpty | ModelSwitch.js:115 | a record is dropped as blank exactly when its trim is empty |
| JsText.TrimPadded | ModelSwitch.js:114 | trimming removes exactly the whitespace padding around a text that starts and ends with a non-space |
| JsText.Includes | selfHealing.js:223 | a text includes only texts no longer than itself |
| JsText.IncludesLeft | selfHealing.js:223 | text appended after an occurrence keeps it |
| JsText.IncludesIffOccurs | selfHealing.js:223 | `includes` holds exactly when the searched text occurs at some position |
| JsText.IncludesEmbedded | selfHealing.js:223 | a text that embeds the searched text verbatim includes it |
| JsText.Split | selfHealing.js:206 | splitting on a character yields at least one piece, and no piece contains the separator |
| JsText.JoinSplit | selfHealing.js:206 | joining the pieces of a split with the separator gives the text back |
| JsText.SplitJoin | selfHealing.js:206 | splitting a join of separator-free pieces gives the pieces back |
| JsText.SplitAround | selfHealing.js:206 | splitting distributes over a separator placed between two texts |
| JsText.ConcatAppend | selfHealing.js:87-89 | accumulating two runs of chunks is accumulating the first, then the second |
| JsText.ConcatHasChunk | selfHealing.js:84-89 | every chunk occurs in the accumulated text, at the offset where the chunks before it end |
| JsText.NatToString | selfHealing.js:206 | the rendered counter is a non-empty string of decimal digits, in canonical form: it starts with `0` only for zero |
| JsText.NatToStringRoundTrip | selfHealing.js:206-207 | the rendered counter reads back as the counter, so distinct pairs get distinct labels |
| HistoryComments.Comments | selfHealing.js:205-208 | the prefix is empty exactly when no pair is rendered |
| HistoryComments.CommentsStartWithFirstCode | selfHealing.js:205-208 | when pairs are rendered, the prefix starts with the block of the oldest code |
| HistoryComments.Commented | selfHealing.js:206-207 | each line gets a `// ` marker in front, and nothing else changes |
| HistoryComments.MarkerJoin | selfHealing.js:206-207 | a marker in front, plus `\n// ` at every newline, is the same as marking every line |
| HistoryComments.EscapedLines | selfHealing.js:206-207 | the lines of an escaped entry are the entry's own lines, each behind a marker |
| HistoryComments.BlockLines | selfHealing.js:206-207 | a block splits into its header line, the entry's marked lines and one empty line, followed by the lines of whatever comes after |
| HistoryComments.HeadersOneLine | selfHealing.js:206-207 | the `Previous Code n:` and `Previous Error n:` headers contain no newline |
| HistoryComments.CommentsThenProgram | selfHealing.js:205-211 | the file splits into the comment lines of pairs 1..n (code before error, in history order) followed by the program's own lines, unchanged |
| HistoryComments.CommentLinesAreComments | selfHealing.js:205-208 | every `\n`-separated line of the comment prefix is empty or starts with `//` |
| HistoryComments.EntryLinesAreComments | selfHealing.js:206-207 | every line of one block is empty or starts with `//` |
| HistoryComments.UncommentedCommented | selfHealing.js:206-207 | removing the markers gives back the lines that were marked |
| HistoryComments.EntryRecoverable | selfHealing.js:206-207 | no history entry is lost: unmarking its lines and joining them gives back the entry |
| ModelSwitch.Options | ModelSwitch.js:32-55 | only the primary backend has a timeout |
| ModelSwitch.ModelParams | ModelSwitch.js:35-53 | the primary gets a chat body and the secondary a completion body; both carry the query verbatim as the single `user` message or as `prompt`, and both carry 1000 tokens, temperature 0.8, stop `{STOP}` and `stream` true |
| ModelSwitch.Posts | ModelSwitch.js:62-74 | one or two requests, the first the primary's; two exactly when the primary request threw |
| ModelSwitch.PostsSent | ModelSwitch.js:62-74 | the primary is always asked first; a second request goes to the secondary exactly when the primary threw; both carry the query and their backend's URL |
| ModelSwitch.Fallback | ModelSwitch.js:62-74 | the primary's body when its request succeeded; else the secondary's body; else the secondary's error, rethrown |
| ModelSwitch.ServedByLastPost | ModelSwitch.js:67-73 | a successful call is served by the backend asked last, and a failed call asked both |
| ModelSwitch.SplitRecords | ModelSwitch.js:115 | the pieces of a split on `\n` or `data:` are separator-free, and the first piece is a prefix of the text |
| ModelSwitch.SplitRecordsAround | ModelSwitch.js:115 | a separator-free piece followed by a separator splits off as one record |
| ModelSwitch.SplitRecordsSeparatorFree | ModelSwitch.js:115 | a separator-free text is a single record |
| ModelSwitch.SplitRecordsJoin | ModelSwitch.js:115 | splitting a text built from separator-free pieces and separators gives back the pieces, in order |
| ModelSwitch.NonBlank | ModelSwitch.js:115 | the filter keeps no blank record, keeps every non-blank one, and adds none |
| ModelSwitch.NonBlankSingle | ModelSwitch.js:115 | one record is kept exactly when it is not blank |
| ModelSwitch.NonBlankKeepsAll | ModelSwitch.js:115 | records that are all non-blank are all kept, in order |
| ModelSwitch.NonBlankAppend | ModelSwitch.js:115 | the filter works record by record and keeps the order |
| ModelSwitch.Records | ModelSwitch.js:114-115 | a chunk's records are non-blank and contain no separator |
| ModelSwitch.ChunkRecords | ModelSwitch.js:114-115 | a chunk whose trimmed text joins separator-free pieces with separators has as records exactly the non-blank pieces, in order, so the empty pieces of `data:` framing are dropped |
| ModelSwitch.ExtractCompletionText | ModelSwitch.js:127-133 | `[DONE]` yields nothing and is never parsed; the extraction fails exactly when the trimmed record does not parse to an object, and it is a syntax error exactly when it does not parse |
| ModelSwitch.Written | ModelSwitch.js:120 | at most one fragment is written per record, it is never empty, and it is written exactly when the extraction produced a truthy text |
| ModelSwitch.Fragment | ModelSwitch.js:117-124 | a record writes at most one non-empty fragment, and only when it is not `[DONE]` and parses to an object |
| ModelSwitch.DecodeChunk | ModelSwitch.js:113-125 | a chunk writes at most one fragment per record, and no fragment is empty |
| ModelSwitch.DecodedFragments | ModelSwitch.js:117-124 | records yield at most one fragment each, and no fragment is empty |
| ModelSwitch.MalformedRecordSkipped | ModelSwitch.js:117-124 | a record that fails to parse is skipped; the records before and after it decode as if it were absent |
| ModelSwitch.MalformedRecordSkippedInChunk | ModelSwitch.js:113-125 | within one chunk, framed or not, a non-blank record that fails to parse is skipped, and the records before and after it all reach the stream, in order |
| ModelSwitch.DoneNeverParsed | ModelSwitch.js:128 | the result for `[DONE]` is the same whatever the parser would do with it, and it writes nothing |
| ModelSwitch.FragmentPrefersDelta | ModelSwitch.js:131-132 | the fragment is the first choice's `delta.content` when truthy, else its `text` when truthy, else nothing |
| ModelSwitch.FragmentOfTrim | ModelSwitch.js:128-129 | records that trim to the same text yield the same fragment |
| ModelSwitch.DecodeStreamAppend | ModelSwitch.js:107 | chunks are decoded independently: a body's fragments are those of its parts, in order |
| ModelSwitch.FramedRecords | ModelSwitch.js:114-115 | `data: <json>` followed by whitespace is the single record ` <json>` |
| ModelSwitch.FramedChunk | ModelSwitch.js:113-125 | a chunk `data: <json>` yields that record's fragment, and nothing for `[DONE]` |
| ModelSwitch.UnparsedFragment | ModelSwitch.js:121-123 | a record that does not parse writes nothing |
| ModelSwitch.CutRecordHalvesDropped | ModelSwitch.js:113-115 | a record cut in two by a chunk boundary decodes to nothing when neither half parses |
| ModelSwitch.RecordSplitAcrossChunksLost | ModelSwitch.js:113-115 | no carry-over between chunks: the cut record is lost, although the same text in one chunk yields its fragment |
| ModelSwitch.PassThrough.constructor | ModelSwitch.js:106 | a new stream has nothing written, has not ended and has no error |
| ModelSwitch.PassThrough.Write | ModelSwitch.js:120 | the fragment is appended to what was written |
| ModelSwitch.PassThrough.End | ModelSwitch.js:137 | the stream has ended |
| ModelSwitch.PassThrough.EmitError | ModelSwitch.js:145 | the stream carries the error |
| ModelSwitch.Client.constructor | ModelSwitch.js:57-58 | the flag starts false and no request has been sent |
| ModelSwitch.Client.GetStreamDataWithFallback | ModelSwitch.js:62-74 | the call yields `Fallback`; it sends exactly `Posts`; the flag ends set exactly when the primary threw |
| ModelSwitch.Client.GetStreamData | ModelSwitch.js:76-94 | one request to the backend's URL with the given body; the backend's body on success, its error rethrown on failure |
| ModelSwitch.Client.HandleStreamData | ModelSwitch.js:113-125 | the chunk's fragments are appended to the stream, in record order |
| ModelSwitch.Client.WriteFragment | ModelSwitch.js:118-123 | one record's fragment is written, or nothing when its extraction failed or produced no truthy text |
| ModelSwitch.Client.HandleStreamEnd | ModelSwitch.js:135-139 | the stream has ended and the flag is cleared |
| ModelSwitch.Client.HandleStreamError | ModelSwitch.js:141-146 | the error is blamed on the secondary exactly when the flag is set, and it is re-emitted on the stream |
| ModelSwitch.Client.ProcessStreamResponse | ModelSwitch.js:105-111 | the stream receives every chunk's fragments in arrival order, then ends or carries the body's error; the flag is cleared at the end and unchanged on an error, which is blamed on the backend the flag named |
| ModelSwitch.Deliver | ModelSwitch.js:62-111 | the consumer gets a stream exactly when the fallback found a body, and that stream terminates as the body does |
| SelfHealing.QuotedName | selfHealing.js:225 | the lazy group stops at the first quote: the name has no quote and no line terminator, and it is followed by a quote |
| SelfHealing.ModuleName | selfHealing.js:225 | an extracted name is a valid name, shorter than the message |
| SelfHealing.ModuleNameSound | selfHealing.js:225 | an extracted name has no quote and occurs in the message between `Cannot find package '` and a quote, and the message contains the text the retry rule tests for |
| SelfHealing.ModuleNameOf | selfHealing.js:225 | a message starting with `Cannot find package '<name>'` yields exactly `<name>`, e.g. `left-pad` |
| SelfHealing.ModuleNameLeftmost | selfHealing.js:225 | the leftmost match wins: any text in front of `Cannot find package '<name>'` in which no match starts, such as the `Command failed` line of an `exec` error, is skipped and `<name>` is extracted |
| SelfHealing.Install | selfHealing.js:166-190 | the installer records the name it was given and answers with the first answer of its script, which it consumes; with the script spent it has no answer; nothing else changes |
| SelfHealing.RunCodeSpec | selfHealing.js:195-213 | `runCode` never adds executor answers; a call that resolves or rejects consumes at least one; it makes no model call |
| SelfHealing.ExitSpec | selfHealing.js:214-237 | the `exec` callback never adds executor answers, consumes one when it settles, and makes no model call |
| SelfHealing.ExitOnPackageError | selfHealing.js:223-233 | on an error that mentions a missing package, the installer is handed the extracted name; with no installer answer the script ends, a failed install never settles, and otherwise the run is retried, so the callback never rejects; everything the retry writes ends with the same program |
| SelfHealing.RunCodeHistories | selfHealing.js:195-239 | the comment loop never reads past the error history; the run keeps the error history at most one behind the code history; with skip set, both histories are unchanged; otherwise only copies of the code are appended, the errors are extended, a resolved run ends one code ahead, and a rejected run ends even with the error's message last; a first `exec` failure puts its message right after the old errors, whatever follows (install, retry, or a spent script), and a first clean exit adds exactly the code and no error |
| SelfHealing.ExitHistories | selfHealing.js:214-237 | the same history facts for the `exec` callback, from the state right after the write: a failure's message is the next error recorded, and a clean exit changes neither history |
| SelfHealing.RunWrites | selfHealing.js:195-237 | with or without the history, every `temp.js` a run writes (retries included) ends with `codeToRun`, or `code` when it is empty; the installer record only grows; a run past the comment loop writes at least once |
| SelfHealing.ExitWrites | selfHealing.js:214-237 | the `exec` callback writes only through its retry, with the same files fact |
| SelfHealing.SkipRunWrites | selfHealing.js:202-229 | with skip set, every attempt (retries included) writes the same file: the comments of the unchanged history in front of `codeToRun`, or of `code` when `codeToRun` is empty |
| SelfHealing.SkipExitWrites | selfHealing.js:223-230 | the retries made by the `exec` callback write only that same file |
| SelfHealing.RejectionIsFirstError | selfHealing.js:214-237 | `runCode` rejects only with its first executor error, only when it lacks the missing-package text, and without installing |
| SelfHealing.OtherErrorRejects | selfHealing.js:214-237 | conversely, a first executor error without the missing-package text makes `runCode` reject with exactly that error, consuming one answer and installing nothing, unless the comment loop throws first |
| SelfHealing.Prompt | selfHealing.js:78-141 | each prompt embeds the instructions verbatim; the regeneration and test prompts embed the code; the regeneration prompt embeds the error |
| SelfHealing.AnswerOf | selfHealing.js:92-101 | a generate function resolves exactly when its stream ends, and rejects on the request's or the stream's error |
| SelfHealing.Ask | selfHealing.js:35-103 | each model call is recorded; it gets no answer exactly when the script is spent |
| SelfHealing.Accumulate | selfHealing.js:84-89 | the accumulated text is the concatenation of the chunks, in arrival order |
| SelfHealing.AnswerHoldsFragments | selfHealing.js:84-95 | the answer holds every fragment, each one right after those before it |
| SelfHealing.Program | selfHealing.js:241-317 | the whole run never adds executor answers |
| SelfHealing.MainLoop | selfHealing.js:265-285 | the main loop never adds executor answers |
| SelfHealing.TestPhase | selfHealing.js:287-290 | the test phase never adds executor answers |
| SelfHealing.TestLoop | selfHealing.js:294-314 | the test loop never adds executor answers |
| SelfHealing.Recover | selfHealing.js:307-313 | the test loop's `catch` never adds executor answers |
| SelfHealing.EndsWithProgram | selfHealing.js:296 | the test file ends with the code, a newline and the harness |
| SelfHealing.AskToRegenerate | selfHealing.js:301 | a regeneration leaves the histories and files alone and asks for no harness |
| SelfHealing.TestRunWrites | selfHealing.js:296 | a test run writes at least one file, every file it writes ends with the harness, and the last ends with the code and the harness |
| SelfHealing.TestRunFacts | selfHealing.js:296 | a test run never reads past the error history, keeps the histories, and last ran the code with the harness |
| SelfHealing.TestLoopFacts | selfHealing.js:294-314 | the test loop leaves both histories untouched, asks only for regenerations with the same instructions, reuses the same harness in every file it writes, and finishes only on an output without `Fail`, right after running that code with that harness |
| SelfHealing.RecoverFacts | selfHealing.js:307-313 | the `catch` path keeps the same promises |
| SelfHealing.TestPhaseFacts | selfHealing.js:287-315 | entering the test phase asks for exactly one harness, then keeps the test loop's promises |
| SelfHealing.MainLoopFacts | selfHealing.js:265-316 | the loop never reads past the error history; it only appends model calls, at most one of them for a harness and exactly one if it finishes; it finishes only on an output without `Fail`, after running that code with the harness last |
| SelfHealing.FinishesWithTail | selfHealing.js:301-312 | a regeneration answered from the front of the script, followed by a run that finishes with its last answer or with that regeneration, finishes with its last answer |
| SelfHealing.TestLoopRepairs | selfHealing.js:294-314 | a finished test loop returns the code it was given when it made no model call, and otherwise exactly the text its last model call answered: each regeneration replaces the code and is what runs next |
| SelfHealing.RecoverRepairs | selfHealing.js:307-313 | the `catch` path always regenerates first, so when it finishes it returns the text its last model call answered |
| SelfHealing.TestPhaseRepairs | selfHealing.js:287-315 | a finished test phase used the answer of its first model call as the harness, and its test loop started from the code the phase was given, with the histories unchanged |
| SelfHealing.TestedFromTail | selfHealing.js:283 | a regeneration answered from the front of the script makes the answer the code of the next pass and shifts the harness call by one |
| SelfHealing.MainLoopRepairs | selfHealing.js:265-316 | a finished run answered the harness with some model call; the code it tested is the one last pushed onto the code history, which is the start code when the harness was the first call and otherwise the answer of the regeneration just before it; the test loop then finished with that code or its own last regeneration |
| SelfHealing.ModuleNotFoundCrashes | selfHealing.js:274-280 | a rejection whose code is `ERR_MODULE_NOT_FOUND` never matches the pattern, so the run crashes there and never continues |
| SelfHealing.ProgramFacts | selfHealing.js:241-317 | a whole run from empty histories first asks to generate from the instructions, then keeps the main loop's promises |
| SelfHealing.ProgramRepairs | selfHealing.js:241-317 | a finished run generated its first code from the first model call, and tested that code or its regenerations as `MainLoopRepairs` states |
| SelfHealing.Session.constructor | selfHealing.js:192-193 | both histories start empty and nothing has been written or asked |
| SelfHealing.Session.InstallMissingModule | selfHealing.js:166-190 | the installer call is exactly `Install` on the session's state |
| SelfHealing.Session.RunCode | selfHealing.js:195-239 | `runCode` on the session is exactly `RunCodeSpec` of the old state |
| SelfHealing.Session.WriteProgram | selfHealing.js:202-213 | the comment loop fails exactly when the error history is too short; otherwise `temp.js` gets the comments of pairs 1..n in front of `codeToRun`, or of `code` when `codeToRun` is empty |
| SelfHealing.Session.OnExit | selfHealing.js:214-237 | the `exec` callback on the session is exactly `ExitSpec` of the old state |
| SelfHealing.Session.Complete | selfHealing.js:35-103 | a generate function on the session is exactly `Ask`: the fallback call, the decoded stream and the accumulated answer; the requests sent to the backends are exactly `Posts` of the prompt for that request, and none are sent when the model script is spent |
| SelfHealing.Session.Run | selfHealing.js:241-317 | the top-level function on the session is exactly `Program` of the old state |
| SelfHealing.Session.TestCode | selfHealing.js:287-315 | the `if (codeFixed)` block on the session is exactly `TestPhase` of the old state |
| SelfHealing.Session.TestRound | selfHealing.js:295-313 | one pass of the test loop either ends the loop with its result or consumes an executor answer and leaves the loop to test the regenerated code |

## Left out

- The HTTP layer is not modelled. `axios.post`, its headers, the bearer key and the timeout value are outside the model. A request is an oracle that either yields a body or throws (ModelSwitch.js:79-86).
- `handleError` and every `console` call are left out; they only log.
- `PassThrough` is reduced to what was written, whether it ended, and its error. The event wiring (`on`, `removeAllListeners`) is left out. A response's events are played in order: every chunk, then the end or the error.
- `JSON.parse` is an uninterpreted function. A parsed record shows only what the decoder reads: `null`, or an object whose `choices` may be missing. `delta.content` and `text` are strings or absent. A non-string truthy value passed to `stream.write` is not modelled.
- Chunks are strings. The UTF-8 decoding done by `chunk.toString()` is not modelled.
- `exec('node temp.js')`, `writeFileSync`, `npm install` and the dynamic `import` are left out. The executor and the installer are scripts of answers, and every `temp.js` write is recorded in order. One installer answer covers both the install and the import.
- The local `installMissingModule` in the top-level function (selfHealing.js:248-263) uses the same installer oracle. Its only difference is that it skips the import.
- Prompt: only the variable part of each prompt is modelled, with the instructions, code and error embedded verbatim under their headings. The fixed preamble and the example program in `generateCode` (selfHealing.js:37-80) are not part of this model.
- ErrorText: `${error}` on an exception renders `String(error)`. The model embeds the error's message instead.
- The oracle scripts are finite. A run that exhausts one ends with `ScriptEnded` or `OutOfScript`. Runs longer than their scripts are not modelled.
- `Unsettled` does not say what happens next. It stands for a `runCode` promise that never settles because an exception escaped its executor or its callback. Whether the process then hangs or exits on the unhandled rejection is left out.
- `temperature: 0.8` is carried as an opaque decimal, with no arithmetic on it.
- How the model behaves, and whether the generated code or tests are correct, are outside the model.
