/**
 * The streaming completion client (`ModelSwitch.js`): the two backends' request
 * bodies, the one-level fallback from the primary to the secondary backend, the
 * decoder that turns each chunk of a `data:`-framed response body into text
 * fragments, and the `isUsingSecondary` flag that attributes stream errors.
 *
 * The HTTP request is an oracle (`Network`): for each backend, either the response
 * body it would stream or the error the request would throw. `JSON.parse` is the
 * client's `parse` function, left uninterpreted.
 */
module ModelSwitch {
  import opened Wrappers
  import opened JsText
  import opened Sequences

  datatype Backend = Primary | Secondary

  /** A decimal constant carried without arithmetic: `digits` times ten to the `exponent`. */
  datatype Decimal = Decimal(digits: int, exponent: int)

  datatype Message = Message(role: string, content: string)

  /** The JSON body of a completion request (`modelParams(userQuery)`). */
  datatype Payload =
    | ChatPayload(model: string, messages: seq<Message>, maxTokens: nat,
                  temperature: Decimal, stop: string, stream: bool)
    | CompletionPayload(prompt: string, maxTokens: nat,
                        temperature: Decimal, stop: string, stream: bool)

  /** The entry of `MODEL_OPTIONS` for one backend, without its payload builder. */
  datatype BackendOptions = BackendOptions(url: string, timeout: Option<nat>)

  const MaxTokens: nat := 1000
  const Temperature: Decimal := Decimal(8, -1)
  const StopSequence: string := "{STOP}"
  const ChatModel: string := "gpt-3.5-turbo"
  const PrimaryUrl: string := "https://api.openai.com/v1/chat/completions"
  const SecondaryUrl: string := "https://api.openai.com/v1/engines/text-davinci-003/completions"

  function Options(backend: Backend): (o: BackendOptions)
    ensures o.timeout.Some? <==> backend == Primary
  {
    match backend
    case Primary => BackendOptions(PrimaryUrl, Some(300))
    case Secondary => BackendOptions(SecondaryUrl, None)
  }

  /** The user query a payload carries: the content of its single `user` message, or its prompt. */
  function QueryOf(p: Payload): Option<string> {
    match p
    case ChatPayload(_, messages, _, _, _, _) =>
      if |messages| == 1 && messages[0].role == "user" then Some(messages[0].content) else None
    case CompletionPayload(prompt, _, _, _, _) => Some(prompt)
  }

  /**
   * `getModelData(userQuery, backend)`: a chat-style body for the primary and a
   * completion-style body for the secondary, both carrying the query verbatim and
   * the same token cap, stop sequence and stream flag.
   */
  function ModelParams(backend: Backend, query: string): (p: Payload)
    ensures p.ChatPayload? <==> backend == Primary
    ensures QueryOf(p) == Some(query)
    ensures p.maxTokens == MaxTokens && p.temperature == Temperature
    ensures p.stop == StopSequence && p.stream
  {
    match backend
    case Primary =>
      ChatPayload(ChatModel, [Message("user", query)], MaxTokens, Temperature, StopSequence, true)
    case Secondary =>
      CompletionPayload(query, MaxTokens, Temperature, StopSequence, true)
  }

  // ---------------------------------------------------------------------------
  // The network oracle and the fallback rule
  // ---------------------------------------------------------------------------

  /** An error object: only its message is observable to the callers. */
  datatype Fault = Fault(message: string)

  /** How a response body finishes: its `end` event, or an `error` event. */
  datatype Termination = Ended | Broke(fault: Fault)

  /** A streamed response body: its chunks in arrival order, then its termination. */
  datatype Upstream = Upstream(chunks: seq<string>, termination: Termination)

  /** What `axios.post` does with one request: resolves with a body, or throws. */
  datatype HttpOutcome = Accepted(body: Upstream) | Refused(fault: Fault)

  /** The oracle for one call of the client: what each backend would do with its request. */
  datatype Network = Network(primary: HttpOutcome, secondary: HttpOutcome)

  /** One request sent: to which backend, at which URL, with which body. */
  datatype Post = Post(backend: Backend, url: string, payload: Payload)

  /** The response that `getStreamDataWithFallback` goes on to stream, and who served it. */
  datatype Served = Served(backend: Backend, body: Upstream)

  function OutcomeOf(net: Network, backend: Backend): HttpOutcome {
    if backend == Primary then net.primary else net.secondary
  }

  function PostTo(backend: Backend, query: string): Post {
    Post(backend, Options(backend).url, ModelParams(backend, query))
  }

  /**
   * The requests one call sends: the primary always first, the secondary once,
   * and only when the primary request threw.
   */
  function Posts(query: string, net: Network): (ps: seq<Post>)
    ensures 1 <= |ps| <= 2 && ps[0] == PostTo(Primary, query)
    ensures |ps| == 2 <==> net.primary.Refused?
  {
    if net.primary.Accepted? then [PostTo(Primary, query)]
    else [PostTo(Primary, query), PostTo(Secondary, query)]
  }

  /** Both requests carry the user's query verbatim; the secondary is asked only after the primary threw. */
  lemma PostsSent(query: string, net: Network)
    ensures var ps := Posts(query, net);
            && 1 <= |ps| <= 2
            && ps[0].backend == Primary && ps[0].url == Options(Primary).url
            && (|ps| == 2 <==> net.primary.Refused?)
            && (|ps| == 2 ==> ps[1].backend == Secondary && ps[1].url == Options(Secondary).url)
            && forall k :: 0 <= k < |ps| ==> QueryOf(ps[k].payload) == Some(query)
  {
  }

  /**
   * The result of one call: the primary's body when its request succeeded, else
   * the secondary's body, else the secondary's error rethrown.
   */
  function Fallback(net: Network): (r: Result<Served, Fault>)
    ensures r.Ok? ==> OutcomeOf(net, r.value.backend) == Accepted(r.value.body)
    ensures r.Ok? && r.value.backend == Primary <==> net.primary.Accepted?
    ensures r.Ok? && r.value.backend == Secondary <==> net.primary.Refused? && net.secondary.Accepted?
    ensures r.Err? <==> net.primary.Refused? && net.secondary.Refused?
    ensures r.Err? ==> r.error == net.secondary.fault
  {
    match net.primary
    case Accepted(body) => Ok(Served(Primary, body))
    case Refused(_) =>
      match net.secondary
      case Accepted(body) => Ok(Served(Secondary, body))
      case Refused(fault) => Err(fault)
  }

  /** A successful call is served by the backend it asked last; a failed one asked both. */
  lemma ServedByLastPost(query: string, net: Network)
    ensures var ps := Posts(query, net);
            match Fallback(net)
            case Ok(served) => served.backend == ps[|ps| - 1].backend
            case Err(_) => |ps| == 2
  {
  }

  // ---------------------------------------------------------------------------
  // The chunk decoder
  // ---------------------------------------------------------------------------

  /** The fields of a parsed choice that the decoder reads: `delta.content` and `text`. */
  datatype Choice = Choice(deltaContent: Option<string>, text: Option<string>)

  /**
   * The part of a parsed JSON record that the decoder reads. `JsonNull` is the
   * literal `null`, on which reading `.choices` throws; every other value is an
   * object whose `choices` array may be missing.
   */
  datatype JsonRecord = JsonNull | JsonObject(choices: Option<seq<Choice>>)

  /** Why `extractCompletionText` threw: `JSON.parse` failed, or the record was `null`. */
  datatype DecodeError = SyntaxError | NullRecord

  const DataMarker: string := "data:"
  const DoneSentinel: string := "[DONE]"

  /** The length of the record separator that `s` starts with: a newline or `data:`, else 0. */
  function SeparatorAt(s: string): nat {
    if s != [] && s[0] == '\n' then 1 else if StartsWith(s, DataMarker) then |DataMarker| else 0
  }

  predicate SeparatorFree(s: string) {
    '\n' !in s && !Includes(s, DataMarker)
  }

  /** `s.split(/(?:\n|data:)/)`: the pieces between separators, each separator-free. */
  function SplitRecords(s: string): (parts: seq<string>)
    ensures |parts| >= 1
    ensures StartsWith(s, parts[0])
    ensures forall k :: 0 <= k < |parts| ==> SeparatorFree(parts[k])
    decreases |s|
  {
    if s == [] then [[]]
    else if SeparatorAt(s) > 0 then [[]] + SplitRecords(s[SeparatorAt(s)..])
    else
      var rest := SplitRecords(s[1..]);
      var first := [s[0]] + rest[0];
      assert StartsWith(s, first) by { assert s == [s[0]] + s[1..]; }
      assert !StartsWith(first, DataMarker) by {
        if |first| >= |DataMarker| { assert first[..5] == s[..5]; }
      }
      [first] + rest[1..]
  }

  datatype Separator = Newline | Marker

  function SeparatorText(sep: Separator): string {
    match sep
    case Newline => "\n"
    case Marker => DataMarker
  }

  /** The text that splits into `parts`, with `seps[k]` between `parts[k]` and `parts[k + 1]`. */
  function JoinRecords(parts: seq<string>, seps: seq<Separator>): string
    requires |seps| + 1 == |parts|
  {
    if |parts| == 1 then parts[0]
    else parts[0] + SeparatorText(seps[0]) + JoinRecords(parts[1..], seps[1..])
  }

  /** A text that starts with a separator text has a separator of that length at its front. */
  lemma SeparatorLeads(sep: Separator, b: string)
    ensures SeparatorAt(SeparatorText(sep) + b) == |SeparatorText(sep)|
  {
    var s := SeparatorText(sep) + b;
    assert s[..|SeparatorText(sep)|] == SeparatorText(sep);
  }

  /** A non-empty separator-free text followed by a separator has no separator at its front. */
  lemma NoSeparatorLeads(a: string, sep: Separator, b: string)
    requires SeparatorFree(a) && a != []
    ensures SeparatorAt(a + SeparatorText(sep) + b) == 0
  {
    var t := SeparatorText(sep);
    var s := a + t + b;
    assert s[0] == a[0];
    assert !StartsWith(a, DataMarker);
    if |a| >= 5 {
      assert s[..5] == a[..5];
    } else {
      assert s[|a|] == t[0];
    }
  }

  lemma {:induction false} SplitRecordsAround(a: string, sep: Separator, b: string)
    requires SeparatorFree(a)
    ensures SplitRecords(a + SeparatorText(sep) + b) == [a] + SplitRecords(b)
    decreases |a|
  {
    var t := SeparatorText(sep);
    var s := a + t + b;
    if a == [] {
      SeparatorLeads(sep, b);
      assert s == t + b;
      assert s[|t|..] == b;
    } else {
      NoSeparatorLeads(a, sep, b);
      assert s[1..] == a[1..] + t + b;
      SplitRecordsAround(a[1..], sep, b);
      assert [a[0]] + a[1..] == a;
    }
  }

  lemma {:induction false} SplitRecordsSeparatorFree(a: string)
    requires SeparatorFree(a)
    ensures SplitRecords(a) == [a]
    decreases |a|
  {
    if a != [] {
      assert !StartsWith(a, DataMarker);
      SplitRecordsSeparatorFree(a[1..]);
      assert [a[0]] + a[1..] == a;
    }
  }

  /** Splitting a joined text gives back its separator-free pieces. */
  lemma {:induction false} SplitRecordsJoin(parts: seq<string>, seps: seq<Separator>)
    requires |seps| + 1 == |parts|
    requires forall k :: 0 <= k < |parts| ==> SeparatorFree(parts[k])
    ensures SplitRecords(JoinRecords(parts, seps)) == parts
    decreases |parts|
  {
    if |parts| == 1 {
      SplitRecordsSeparatorFree(parts[0]);
    } else {
      SplitRecordsJoin(parts[1..], seps[1..]);
      SplitRecordsAround(parts[0], seps[0], JoinRecords(parts[1..], seps[1..]));
      assert parts == [parts[0]] + parts[1..];
    }
  }

  /** `.filter((str) => str.trim().length > 0)`. */
  function NonBlank(parts: seq<string>): (r: seq<string>)
    ensures |r| <= |parts|
    ensures forall k :: 0 <= k < |r| ==> !Blank(r[k]) && r[k] in parts
    ensures forall k :: 0 <= k < |parts| && !Blank(parts[k]) ==> parts[k] in r
  {
    if parts == [] then []
    else
      var rest := NonBlank(parts[1..]);
      assert forall k :: 1 <= k < |parts| ==> parts[k] == parts[1..][k - 1];
      (if Blank(parts[0]) then [] else [parts[0]]) + rest
  }

  /** One piece is kept exactly when it is not blank. */
  lemma NonBlankSingle(x: string)
    ensures NonBlank([x]) == if Blank(x) then [] else [x]
  {
    assert [x][1..] == [];
  }

  /** Pieces that are all non-blank are kept, all of them and in order. */
  lemma {:induction false} NonBlankKeepsAll(parts: seq<string>)
    requires forall k :: 0 <= k < |parts| ==> !Blank(parts[k])
    ensures NonBlank(parts) == parts
    decreases |parts|
  {
    if parts != [] {
      NonBlankKeepsAll(parts[1..]);
      assert !Blank(parts[0]);
      assert NonBlank(parts) == [parts[0]] + NonBlank(parts[1..]);
      assert parts == [parts[0]] + parts[1..];
    }
  }

  lemma {:induction false} NonBlankAppend(a: seq<string>, b: seq<string>)
    ensures NonBlank(a + b) == NonBlank(a) + NonBlank(b)
    decreases |a|
  {
    if a != [] {
      assert (a + b)[0] == a[0];
      assert (a + b)[1..] == a[1..] + b;
      NonBlankAppend(a[1..], b);
    } else {
      assert a + b == b;
    }
  }

  /** The records of one chunk: its trimmed text split on separators, blank pieces dropped. */
  function Records(chunk: string): (r: seq<string>)
    ensures forall k :: 0 <= k < |r| ==> !Blank(r[k]) && SeparatorFree(r[k])
  {
    NonBlank(SplitRecords(Trim(chunk)))
  }

  predicate IsObject(parsed: Option<JsonRecord>) {
    parsed.Some? && parsed.value.JsonObject?
  }

  /** `textJson.choices?.[0] || {}`. */
  function FirstChoice(choices: Option<seq<Choice>>): Choice {
    if choices.Some? && |choices.value| > 0 then choices.value[0] else Choice(None, None)
  }

  predicate Truthy(v: Option<string>) {
    v.Some? && v.value != []
  }

  /**
   * `extractCompletionText(record)`: nothing for the `[DONE]` sentinel (which is
   * never parsed); for a parsed record, the first choice's `delta.content` when
   * it is non-empty, else its `text`; an error when parsing fails or the record
   * is `null`.
   */
  function ExtractCompletionText(parse: string -> Option<JsonRecord>, record: string)
    : (r: Result<Option<string>, DecodeError>)
    ensures Trim(record) == DoneSentinel ==> r == Ok(None)
    ensures r.Err? <==> Trim(record) != DoneSentinel && !IsObject(parse(Trim(record)))
    ensures r == Err(SyntaxError) <==> Trim(record) != DoneSentinel && parse(Trim(record)).None?
  {
    var t := Trim(record);
    if t == DoneSentinel then Ok(None)
    else
      match parse(t)
      case None => Err(SyntaxError)
      case Some(JsonNull) => Err(NullRecord)
      case Some(JsonObject(choices)) =>
        var choice := FirstChoice(choices);
        Ok(if Truthy(choice.deltaContent) then choice.deltaContent else choice.text)
  }

  /** What `if (completionText) stream.write(completionText)` writes for one extraction result. */
  function Written(extracted: Result<Option<string>, DecodeError>): (f: seq<string>)
    ensures |f| <= 1
    ensures forall k :: 0 <= k < |f| ==> f[k] != []
    ensures f != [] <==> extracted.Ok? && Truthy(extracted.value)
  {
    match extracted
    case Ok(text) => if Truthy(text) then [text.value] else []
    case Err(_) => []
  }

  /** What `handleStreamData` writes for one record. */
  function Fragment(parse: string -> Option<JsonRecord>, record: string): (f: seq<string>)
    ensures |f| <= 1 && forall k :: 0 <= k < |f| ==> f[k] != []
    ensures f != [] ==> Trim(record) != DoneSentinel && IsObject(parse(Trim(record)))
  {
    Written(ExtractCompletionText(parse, record))
  }

  /** The fragments of a sequence of records, in record order. */
  function DecodeRecords(parse: string -> Option<JsonRecord>, records: seq<string>): seq<string> {
    FlatMap((record: string) => Fragment(parse, record), records)
  }

  /** `handleStreamData(chunk)`: the fragments one chunk produces, from that chunk alone. */
  function DecodeChunk(parse: string -> Option<JsonRecord>, chunk: string): (r: seq<string>)
    ensures |r| <= |Records(chunk)|
    ensures forall k :: 0 <= k < |r| ==> r[k] != []
  {
    DecodedFragments(parse, Records(chunk));
    DecodeRecords(parse, Records(chunk))
  }

  /** The fragments a body's chunks produce, each chunk decoded on its own, in arrival order. */
  function DecodeStream(parse: string -> Option<JsonRecord>, chunks: seq<string>): seq<string> {
    FlatMap((chunk: string) => DecodeChunk(parse, chunk), chunks)
  }

  /** Only truthy text is written: no fragment is empty, and no record yields more than one. */
  lemma {:induction false} DecodedFragments(parse: string -> Option<JsonRecord>, records: seq<string>)
    ensures |DecodeRecords(parse, records)| <= |records|
    ensures forall k :: 0 <= k < |DecodeRecords(parse, records)| ==> DecodeRecords(parse, records)[k] != []
    decreases |records|
  {
    if records != [] {
      DecodedFragments(parse, records[..|records| - 1]);
    }
  }

  /**
   * A record that fails to parse is skipped without stopping the chunk: the
   * records before and after it are decoded as if it were absent.
   */
  lemma MalformedRecordSkipped(parse: string -> Option<JsonRecord>, before: seq<string>, bad: string, after: seq<string>)
    requires parse(Trim(bad)).None?
    ensures DecodeRecords(parse, before + [bad] + after)
         == DecodeRecords(parse, before) + DecodeRecords(parse, after)
  {
    var f := (record: string) => Fragment(parse, record);
    assert f(bad) == [];
    FlatMapSkip(f, before, bad, after);
  }

  /**
   * A chunk whose trimmed text joins separator-free pieces has those pieces
   * as records, blank ones dropped, in order: the empty piece in front of a
   * leading `data:` and those between `\n\n` go, the rest stay.
   */
  lemma ChunkRecords(chunk: string, parts: seq<string>, seps: seq<Separator>)
    requires |seps| + 1 == |parts| && Trim(chunk) == JoinRecords(parts, seps)
    requires forall k :: 0 <= k < |parts| ==> SeparatorFree(parts[k])
    ensures Records(chunk) == NonBlank(parts)
  {
    SplitRecordsJoin(parts, seps);
  }

  /**
   * Within one chunk, such as `data: {A}\n\ndata: {bad}\n\ndata: {B}`, a
   * record that fails to parse costs only its own fragment: the records
   * before and after it still reach the stream, in order.
   */
  lemma MalformedRecordSkippedInChunk(parse: string -> Option<JsonRecord>, chunk: string,
                                      before: seq<string>, bad: string, after: seq<string>, seps: seq<Separator>)
    requires |seps| == |before| + |after| && Trim(chunk) == JoinRecords(before + [bad] + after, seps)
    requires forall k :: 0 <= k < |before + [bad] + after| ==> SeparatorFree((before + [bad] + after)[k])
    requires !Blank(bad) && parse(Trim(bad)).None?
    ensures DecodeChunk(parse, chunk) == DecodeRecords(parse, NonBlank(before)) + DecodeRecords(parse, NonBlank(after))
  {
    ChunkRecords(chunk, before + [bad] + after, seps);
    NonBlankAppend(before + [bad], after);
    NonBlankAppend(before, [bad]);
    NonBlankSingle(bad);
    MalformedRecordSkipped(parse, NonBlank(before), bad, NonBlank(after));
  }

  /** The `[DONE]` sentinel yields nothing whatever the parser would make of it. */
  lemma DoneNeverParsed(p1: string -> Option<JsonRecord>, p2: string -> Option<JsonRecord>, record: string)
    requires Trim(record) == DoneSentinel
    ensures ExtractCompletionText(p1, record) == ExtractCompletionText(p2, record) == Ok(None)
    ensures Fragment(p1, record) == []
  {
  }

  /** The fragment of a parsed record: the first choice's `delta.content` when non-empty, else its `text`. */
  lemma FragmentPrefersDelta(parse: string -> Option<JsonRecord>, record: string, choices: Option<seq<Choice>>)
    requires Trim(record) != DoneSentinel
    requires parse(Trim(record)) == Some(JsonObject(choices))
    ensures var c := FirstChoice(choices);
            Fragment(parse, record)
              == if Truthy(c.deltaContent) then [c.deltaContent.value]
                 else if Truthy(c.text) then [c.text.value] else []
  {
  }

  /** Chunks are decoded independently: the fragments of a body are those of its parts. */
  lemma DecodeStreamAppend(parse: string -> Option<JsonRecord>, a: seq<string>, b: seq<string>)
    ensures DecodeStream(parse, a + b) == DecodeStream(parse, a) + DecodeStream(parse, b)
  {
    FlatMapAppend((chunk: string) => DecodeChunk(parse, chunk), a, b);
  }

  /** Trimming `data: <json><spaces>` drops only the trailing spaces. */
  lemma TrimFramed(json: string, tail: string)
    requires Trim(json) == json && json != []
    requires AllSpace(tail)
    ensures Trim(DataMarker + " " + json + tail) == DataMarker + " " + json
  {
    var framed := DataMarker + " " + json;
    assert framed[|framed| - 1] == json[|json| - 1];
    TrimPadded([], framed, tail);
    assert [] + framed + tail == framed + tail;
  }

  /** A text that starts with a separator splits into the empty text and the pieces of the rest. */
  lemma SplitRecordsAfterSeparator(sep: Separator, b: string)
    ensures SplitRecords(SeparatorText(sep) + b) == [[]] + SplitRecords(b)
  {
    SeparatorLeads(sep, b);
    assert (SeparatorText(sep) + b)[|SeparatorText(sep)|..] == b;
  }

  /** A space in front of a separator-free text keeps it separator-free. */
  lemma SpacedSeparatorFree(json: string)
    requires SeparatorFree(json)
    ensures SeparatorFree(" " + json)
  {
    assert (" " + json)[1..] == json;
    assert !StartsWith(" " + json, DataMarker) by {
      assert (" " + json)[0] == ' ' && DataMarker[0] == 'd';
    }
  }

  /** `data: <json>` splits into the empty text before the marker and ` <json>`. */
  lemma SplitFramed(json: string)
    requires SeparatorFree(json)
    ensures SplitRecords(DataMarker + " " + json) == [[], " " + json]
  {
    SpacedSeparatorFree(json);
    SplitRecordsAfterSeparator(Marker, " " + json);
    SplitRecordsSeparatorFree(" " + json);
    assert DataMarker + (" " + json) == DataMarker + " " + json;
  }

  /** The empty text before the marker is dropped as blank; ` <json>` is kept. */
  lemma NonBlankFramed(json: string)
    requires json != [] && !IsSpace(json[0])
    ensures NonBlank([[], " " + json]) == [" " + json]
  {
    assert !Blank(" " + json) by { assert (" " + json)[1] == json[0]; }
    assert [[], " " + json][1..] == [" " + json];
    assert [" " + json][1..] == [];
  }

  /** A trimmed, separator-free JSON text framed as `data: <json>` is one record: ` <json>`. */
  lemma FramedRecords(json: string, tail: string)
    requires SeparatorFree(json) && Trim(json) == json && json != []
    requires AllSpace(tail)
    ensures Records(DataMarker + " " + json + tail) == [" " + json]
  {
    TrimFramed(json, tail);
    SplitFramed(json);
    NonBlankFramed(json);
  }

  /** A record's fragment depends only on its trimmed text. */
  lemma FragmentOfPadded(parse: string -> Option<JsonRecord>, json: string)
    requires Trim(json) == json && json != []
    ensures Fragment(parse, " " + json) == Fragment(parse, json)
  {
    TrimPadded(" ", json, []);
    assert " " + json + [] == " " + json;
    FragmentOfTrim(parse, " " + json, json);
  }

  /** Records that trim to the same text yield the same fragment. */
  lemma FragmentOfTrim(parse: string -> Option<JsonRecord>, a: string, b: string)
    requires Trim(a) == Trim(b)
    ensures Fragment(parse, a) == Fragment(parse, b)
  {
    var t := Trim(a);
    if t != DoneSentinel {
      match parse(t)
      case None =>
      case Some(JsonNull) =>
      case Some(JsonObject(choices)) =>
    }
    assert ExtractCompletionText(parse, a) == ExtractCompletionText(parse, b);
  }

  /** A chunk holding a single record decodes to that record's fragment. */
  lemma SingleRecordChunk(parse: string -> Option<JsonRecord>, chunk: string, record: string)
    requires Records(chunk) == [record]
    ensures DecodeChunk(parse, chunk) == Fragment(parse, record)
  {
    var f := (r: string) => Fragment(parse, r);
    FlatMapSingleton(f, record);
    assert f(record) == Fragment(parse, record);
  }

  /**
   * Decoding `data: <json>` followed by spaces yields that record's fragment:
   * for a chat record whose first choice carries `delta.content` "Hi", the
   * fragment "Hi"; for `data: [DONE]`, nothing.
   */
  lemma FramedChunk(parse: string -> Option<JsonRecord>, json: string, tail: string)
    requires SeparatorFree(json) && Trim(json) == json && json != []
    requires AllSpace(tail)
    ensures DecodeChunk(parse, DataMarker + " " + json + tail) == Fragment(parse, json)
    ensures json == DoneSentinel ==> DecodeChunk(parse, DataMarker + " " + json + tail) == []
  {
    FramedRecords(json, tail);
    SingleRecordChunk(parse, DataMarker + " " + json + tail, " " + json);
    FragmentOfPadded(parse, json);
  }

  /** The unframed tail of a cut record, followed by a newline, is one record. */
  lemma UnframedRecords(rest: string)
    requires SeparatorFree(rest) && Trim(rest) == rest && rest != []
    ensures Records(rest + "\n") == [rest]
  {
    TrimPadded([], rest, "\n");
    assert [] + rest + "\n" == rest + "\n";
    SplitRecordsSeparatorFree(rest);
    assert [rest][1..] == [];
  }

  /** A trimmed record that fails to parse yields nothing. */
  lemma UnparsedFragment(parse: string -> Option<JsonRecord>, record: string)
    requires Trim(record) == record && parse(record).None? && record != DoneSentinel
    ensures Fragment(parse, record) == []
  {
  }

  /** Two trimmed texts joined without a gap make a trimmed text. */
  lemma TrimmedJoin(head: string, rest: string)
    requires Trim(head) == head && head != []
    requires Trim(rest) == rest && rest != []
    ensures Trim(head + rest) == head + rest
  {
    var whole := head + rest;
    assert whole[|whole| - 1] == rest[|rest| - 1] && whole[0] == head[0];
    TrimPadded([], whole, []);
    assert [] + whole + [] == whole;
  }

  /** A cut record's two halves, each framed as its own chunk, decode to nothing when neither half parses. */
  lemma CutRecordHalvesDropped(parse: string -> Option<JsonRecord>, head: string, rest: string)
    requires SeparatorFree(head) && Trim(head) == head && head != []
    requires SeparatorFree(rest) && Trim(rest) == rest && rest != []
    requires parse(head).None? && parse(rest).None? && head != DoneSentinel && rest != DoneSentinel
    ensures DecodeStream(parse, [DataMarker + " " + head, rest + "\n"]) == []
  {
    var first := DataMarker + " " + head;
    FramedChunk(parse, head, []);
    assert first + [] == first;
    UnparsedFragment(parse, head);
    UnframedRecords(rest);
    SingleRecordChunk(parse, rest + "\n", rest);
    UnparsedFragment(parse, rest);
    FlatMapPair((chunk: string) => DecodeChunk(parse, chunk), first, rest + "\n");
  }

  /**
   * No carry-over between chunks: a record cut in two by a chunk boundary is
   * lost when neither half parses, although the same bytes in one chunk would
   * have produced the whole record's fragment.
   */
  lemma RecordSplitAcrossChunksLost(parse: string -> Option<JsonRecord>, head: string, rest: string)
    requires SeparatorFree(head) && Trim(head) == head && head != []
    requires SeparatorFree(rest) && Trim(rest) == rest && rest != []
    requires SeparatorFree(head + rest)
    requires parse(head).None? && parse(rest).None? && head != DoneSentinel && rest != DoneSentinel
    ensures DecodeStream(parse, [DataMarker + " " + head, rest + "\n"]) == []
    ensures DecodeChunk(parse, DataMarker + " " + (head + rest) + "\n") == Fragment(parse, head + rest)
  {
    CutRecordHalvesDropped(parse, head, rest);
    TrimmedJoin(head, rest);
    FramedChunk(parse, head + rest, "\n");
  }

  // ---------------------------------------------------------------------------
  // The downstream stream and the client object
  // ---------------------------------------------------------------------------

  /** The `PassThrough` stream handed to the consumer: what was written, and how it finished. */
  class PassThrough {
    var written: seq<string>
    var ended: bool
    var failure: Option<Fault>

    constructor ()
      ensures written == [] && !ended && failure == None
    {
      written, ended, failure := [], false, None;
    }

    method Write(fragment: string)
      modifies this`written
      ensures written == old(written) + [fragment]
    {
      written := written + [fragment];
    }

    method End()
      modifies this`ended
      ensures ended
    {
      ended := true;
    }

    /** `stream.emit('error', error)`. */
    method EmitError(fault: Fault)
      modifies this`failure
      ensures failure == Some(fault)
    {
      failure := Some(fault);
    }
  }

  /** The closure returned by `ModelSwitch(apiKey)`. */
  class Client {
    /** `JSON.parse`, uninterpreted. */
    const parse: string -> Option<JsonRecord>
    /** The closure flag that attributes a stream error to a backend. */
    var isUsingSecondary: bool
    /** Every request `axios.post` was given, in order. */
    var posts: seq<Post>

    constructor (parse: string -> Option<JsonRecord>)
      ensures this.parse == parse && !isUsingSecondary && posts == []
    {
      this.parse := parse;
      isUsingSecondary := false;
      posts := [];
    }

    /**
     * `getStreamDataWithFallback(userQuery)`: the primary first; the secondary
     * exactly once when the primary request throws; the secondary's error rethrown.
     */
    method GetStreamDataWithFallback(query: string, net: Network) returns (r: Result<Served, Fault>)
      modifies this`isUsingSecondary, this`posts
      ensures r == Fallback(net)
      ensures posts == old(posts) + Posts(query, net)
      ensures isUsingSecondary <==> net.primary.Refused?
    {
      isUsingSecondary := false;
      var primaryData := ModelParams(Primary, query);
      var secondaryData := ModelParams(Secondary, query);
      r := GetStreamData(primaryData, Primary, net.primary);
      if r.Err? {
        isUsingSecondary := true;
        r := GetStreamData(secondaryData, Secondary, net.secondary);
      }
    }

    method GetStreamData(data: Payload, backend: Backend, outcome: HttpOutcome) returns (r: Result<Served, Fault>)
      modifies this`posts
      ensures posts == old(posts) + [Post(backend, Options(backend).url, data)]
      ensures r.Ok? <==> outcome.Accepted?
      ensures r.Ok? ==> r.value == Served(backend, outcome.body)
      ensures r.Err? ==> r.error == outcome.fault
    {
      posts := posts + [Post(backend, Options(backend).url, data)];
      match outcome
      case Accepted(body) => r := Ok(Served(backend, body));
      case Refused(fault) => r := Err(fault);
    }

    /** `handleStreamData(chunk, stream)`: writes the chunk's truthy fragments in record order. */
    method HandleStreamData(chunk: string, stream: PassThrough)
      modifies stream`written
      ensures stream.written == old(stream.written) + DecodeChunk(parse, chunk)
    {
      var records := Records(chunk);
      ghost var decode := (record: string) => Fragment(parse, record);
      var i := 0;
      while i < |records|
        invariant 0 <= i <= |records|
        invariant stream.written == old(stream.written) + FlatMap(decode, records[..i])
      {
        ghost var done := FlatMap(decode, records[..i]);
        WriteFragment(records[i], stream);
        assert decode(records[i]) == Fragment(parse, records[i]);
        AppendAssoc(old(stream.written), done, decode(records[i]));
        FlatMapPrefix(decode, records, i);
        i := i + 1;
      }
      assert records[..i] == records;
    }

    /** The body of `handleStreamData`'s loop: one record's extracted text, written when truthy. */
    method WriteFragment(record: string, stream: PassThrough)
      modifies stream`written
      ensures stream.written == old(stream.written) + Fragment(parse, record)
    {
      var extracted := ExtractCompletionText(parse, record);
      match extracted {
        case Ok(text) =>
          if Truthy(text) {
            stream.Write(text.value);
          }
        case Err(_) =>
          // the parse error is logged and the record skipped
      }
    }

    /** `handleStreamEnd`: ends the stream and clears the flag. */
    method HandleStreamEnd(stream: PassThrough)
      modifies this`isUsingSecondary, stream`ended
      ensures stream.ended && !isUsingSecondary
    {
      stream.End();
      isUsingSecondary := false;
    }

    /** `handleStreamError`: blames the backend the flag names and re-emits the error. */
    method HandleStreamError(fault: Fault, stream: PassThrough) returns (blamed: Backend)
      modifies stream`failure
      ensures blamed == Secondary <==> isUsingSecondary
      ensures stream.failure == Some(fault)
    {
      blamed := if isUsingSecondary then Secondary else Primary;
      stream.EmitError(fault);
    }

    /**
     * `processStreamResponse(response)` with the response's events played in
     * order: every chunk decoded on its own, then the end or the error.
     */
    method ProcessStreamResponse(body: Upstream) returns (stream: PassThrough, blamed: Option<Backend>)
      modifies this`isUsingSecondary
      ensures fresh(stream)
      ensures stream.written == DecodeStream(parse, body.chunks)
      ensures stream.ended <==> body.termination.Ended?
      ensures stream.failure == (if body.termination.Broke? then Some(body.termination.fault) else None)
      ensures body.termination.Ended? ==> !isUsingSecondary && blamed == None
      ensures body.termination.Broke? ==>
                isUsingSecondary == old(isUsingSecondary)
                && blamed == Some(if old(isUsingSecondary) then Secondary else Primary)
    {
      stream := new PassThrough();
      var chunks := body.chunks;
      ghost var decode := (chunk: string) => DecodeChunk(parse, chunk);
      var i := 0;
      while i < |chunks|
        invariant 0 <= i <= |chunks|
        invariant stream.written == FlatMap(decode, chunks[..i])
        invariant !stream.ended && stream.failure == None
        invariant isUsingSecondary == old(isUsingSecondary)
      {
        HandleStreamData(chunks[i], stream);
        FlatMapPrefix(decode, chunks, i);
        i := i + 1;
      }
      assert chunks[..i] == chunks;
      match body.termination
      case Ended =>
        HandleStreamEnd(stream);
        blamed := None;
      case Broke(fault) =>
        var who := HandleStreamError(fault, stream);
        blamed := Some(who);
    }
  }

  /** What the consumer of one call's stream receives: its fragments, then its end or error. */
  datatype Delivery = Delivery(fragments: seq<string>, termination: Termination)

  /** One call of the client as its consumer sees it: a delivered stream, or the thrown error. */
  function Deliver(parse: string -> Option<JsonRecord>, net: Network): (r: Result<Delivery, Fault>)
    ensures r.Err? <==> Fallback(net).Err?
    ensures r.Ok? ==> r.value.termination == Fallback(net).value.body.termination
  {
    match Fallback(net)
    case Ok(served) => Ok(Delivery(DecodeStream(parse, served.body.chunks), served.body.termination))
    case Err(fault) => Err(fault)
  }
}
