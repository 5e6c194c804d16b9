/**
 * Stage two of the pipeline: annotating each call record with the analysis
 * returned by a text-generation service (vapi_analyze.py). The service and
 * the JSON decoder are parameters; the batch runs as a sequential loop.
 */
module Analyze {
  import opened Wrappers
  import opened Json
  import opened Text
  import Dict

  /** The service: given the model name and the full prompt, the reply text or the message of the exception it raised. */
  type Client = (string, string) -> Result<string, string>

  /** `json.loads`: the decoded document, or None when it raises `JSONDecodeError`. */
  type Decoder = string -> Option<Json>

  const AnalysisKey := "llm_analysis"
  const JsonFence := "```json"
  const Fence := "```"
  const InvalidJsonMessage := "Invalid JSON response"
  /** Length of the raw excerpt kept after a decode failure. */
  const RawExcerptLength := 500

  /**
   * A truthy transcript that is not a string makes `transcript.strip()` raise
   * outside the `try`, aborting the whole batch; callers never pass one.
   */
  predicate TranscriptOk(call: Object) {
    var t := Field(call, "transcript");
    !Truthy(t) || t.JStr?
  }

  predicate AllTranscriptsOk(calls: seq<Object>) {
    forall j :: 0 <= j < |calls| ==> TranscriptOk(calls[j])
  }

  /** `not transcript or not transcript.strip()` */
  predicate Skips(call: Object)
    requires TranscriptOk(call)
  {
    var t := Field(call, "transcript");
    !Truthy(t) || Strip(t.s) == []
  }

  /** A record is skipped exactly when its transcript is missing, falsy, empty or whitespace only. */
  lemma SkipsIff(call: Object)
    requires TranscriptOk(call)
    ensures !HasKey(call, "transcript") ==> Skips(call)
    ensures Skips(call) <==> var t := Field(call, "transcript"); !t.JStr? || IsBlank(t.s)
  {
    var t := Field(call, "transcript");
    Dict.GetSome(call, "transcript");
    if t.JStr? {
      StripEmptyIffBlank(t.s);
    }
  }

  /** `prompt + transcript`, the text handed to the service. */
  function FullPrompt(call: Object, prompt: string): string
    requires TranscriptOk(call) && !Skips(call)
  {
    prompt + Field(call, "transcript").s
  }

  /** `text.replace("```json", "", 1)` when the text starts with the tagged fence. */
  function DropOpeningFence(a: string): string {
    if StartsWith(a, JsonFence) then RemoveFirst(a, JsonFence) else a
  }

  /** `text.rsplit("```", 1)[0]` when the text ends with a fence. */
  function DropClosingFence(b: string): string {
    if EndsWith(b, Fence) then BeforeLast(b, Fence) else b
  }

  /** The markdown cleanup of lines 89-96. */
  function CleanReply(text: string): string {
    Strip(DropClosingFence(DropOpeningFence(Strip(text))))
  }

  lemma DropOpeningFenceOf(rest: string)
    ensures DropOpeningFence(JsonFence + rest) == rest
  {
    var a := JsonFence + rest;
    assert a[..|JsonFence|] == JsonFence;
    RemoveFirstPrefix(a, JsonFence);
    assert a[|JsonFence|..] == rest;
  }

  lemma DropClosingFenceOf(rest: string)
    ensures DropClosingFence(rest + Fence) == rest
  {
    var b := rest + Fence;
    assert b[|b| - |Fence|..] == Fence;
    BeforeLastSuffix(b, Fence);
    assert b[..|b| - |Fence|] == rest;
  }

  /** The three ways annotating a record can end, with the two kinds of error told apart. */
  datatype Outcome =
    | Skipped
    | Parsed(doc: Json)
    | InvalidJson(raw: string)
    | Failed(message: string)

  /** What each outcome writes into `llm_analysis`. */
  function OutcomeJson(o: Outcome): Json {
    match o
    case Skipped => JNull
    case Parsed(doc) => doc
    case InvalidJson(raw) => JObj([("error", JStr(InvalidJsonMessage)), ("raw", JStr(raw))])
    case Failed(message) => JObj([("error", JStr(message))])
  }

  /** What a reply, or the service's failure, becomes. */
  function ReplyOutcome(reply: Result<string, string>, decode: Decoder): Outcome {
    match reply
    case Failure(message) => Failed(message)
    case Success(text) =>
      var cleaned := CleanReply(text);
      match decode(cleaned)
      case Some(doc) => Parsed(doc)
      case None => InvalidJson(Take(cleaned, RawExcerptLength))
  }

  function RecordOutcome(call: Object, prompt: string, model: string, client: Client, decode: Decoder): Outcome
    requires TranscriptOk(call)
  {
    if Skips(call) then Skipped else ReplyOutcome(client(model, FullPrompt(call, prompt)), decode)
  }

  /** The record after `call_data['llm_analysis'] = ...`. */
  function Annotated(call: Object, prompt: string, model: string, client: Client, decode: Decoder): Object
    requires TranscriptOk(call)
  {
    Dict.Set(call, AnalysisKey, OutcomeJson(RecordOutcome(call, prompt, model, client, decode)))
  }

  /** The prompts one record sends: none when it is skipped, else its full prompt. */
  function PromptsOf(call: Object, prompt: string): seq<string>
    requires TranscriptOk(call)
  {
    if Skips(call) then [] else [FullPrompt(call, prompt)]
  }

  /** The prompts a batch sends, in record order. */
  function Prompts(calls: seq<Object>, prompt: string): seq<string>
    requires AllTranscriptsOk(calls)
  {
    if calls == [] then []
    else Prompts(calls[..|calls| - 1], prompt) + PromptsOf(calls[|calls| - 1], prompt)
  }

  // ----- the cleanup -----

  /** On trimmed text the first `strip` does nothing. */
  lemma CleanTrimmed(t: string)
    requires IsTrimmed(t)
    ensures CleanReply(t) == Strip(DropClosingFence(DropOpeningFence(t)))
  {
    StripTrimmed(t);
  }

  lemma FencedIsTrimmed(opening: string, s: string, t: string)
    requires opening != [] && opening[0] == '`' && t == opening + "\n" + s + "\n" + Fence
    ensures IsTrimmed(t)
  {
    assert t[0] == '`' && t[|t| - 1] == '`';
  }

  /** A fenced reply around trimmed text cleans to that text. */
  lemma CleanFenced(s: string)
    requires IsTrimmed(s)
    ensures CleanReply(JsonFence + "\n" + s + "\n" + Fence) == s
  {
    var t := JsonFence + "\n" + s + "\n" + Fence;
    FencedIsTrimmed(JsonFence, s, t);
    CleanTrimmed(t);
    UnwrapJsonFence(s, t);
    StripPadded("\n", s, "\n");
  }

  lemma UnwrapJsonFence(s: string, t: string)
    requires t == JsonFence + "\n" + s + "\n" + Fence
    ensures DropClosingFence(DropOpeningFence(t)) == "\n" + s + "\n"
  {
    var inner := "\n" + s + "\n";
    assert t == JsonFence + (inner + Fence);
    DropOpeningFenceOf(inner + Fence);
    DropClosingFenceOf(inner);
  }

  /** Trimmed text with neither fence marker passes through unchanged. */
  lemma CleanUnfenced(s: string)
    requires IsTrimmed(s) && !StartsWith(s, JsonFence) && !EndsWith(s, Fence)
    ensures CleanReply(s) == s
  {
    StripTrimmed(s);
  }

  /** An opening fence without the `json` tag is kept; only the closing fence goes. */
  lemma CleanKeepsBareFence(s: string)
    requires IsTrimmed(s) && s != []
    ensures CleanReply(Fence + "\n" + s + "\n" + Fence) == Fence + "\n" + s
  {
    var t := Fence + "\n" + s + "\n" + Fence;
    FencedIsTrimmed(Fence, s, t);
    CleanTrimmed(t);
    var k := Fence + "\n" + s;
    UnwrapBareFence(s, k, t);
    assert IsTrimmed(k) by {
      assert k[0] == '`' && k[|k| - 1] == s[|s| - 1];
    }
    StripPadded([], k, "\n");
    assert [] + k + "\n" == k + "\n";
  }

  lemma UnwrapBareFence(s: string, k: string, t: string)
    requires k == Fence + "\n" + s && t == k + "\n" + Fence
    ensures DropClosingFence(DropOpeningFence(t)) == k + "\n"
  {
    assert !StartsWith(t, JsonFence) by {
      assert t[3] == '\n' != JsonFence[3];
    }
    DropClosingFenceOf(k + "\n");
  }

  /** The cleaned text never starts or ends with whitespace. */
  lemma CleanIsTrimmed(text: string)
    ensures IsTrimmed(CleanReply(text))
  {
    StripIsTrimmedInfix(DropClosingFence(DropOpeningFence(Strip(text))));
  }

  /** Decoding a fenced reply gives what decoding the bare text gives. */
  lemma FenceIsTransparent(s: string, decode: Decoder)
    requires IsTrimmed(s) && !StartsWith(s, JsonFence) && !EndsWith(s, Fence)
    ensures ReplyOutcome(Success(JsonFence + "\n" + s + "\n" + Fence), decode) == ReplyOutcome(Success(s), decode)
  {
    var t := JsonFence + "\n" + s + "\n" + Fence;
    CleanFenced(s);
    CleanUnfenced(s);
    assert CleanReply(t) == CleanReply(s);
    ReplyDependsOnCleanedText(t, s, decode);
  }

  lemma ReplyDependsOnCleanedText(t: string, s: string, decode: Decoder)
    requires CleanReply(t) == CleanReply(s)
    ensures ReplyOutcome(Success(t), decode) == ReplyOutcome(Success(s), decode)
  {
  }

  // ----- the outcome written into the record -----

  /** Only `llm_analysis` changes; every other field reads as before. */
  lemma AnnotatedChangesOnlyAnalysis(call: Object, prompt: string, model: string, client: Client, decode: Decoder, k: string)
    requires TranscriptOk(call) && k != AnalysisKey
    ensures Field(Annotated(call, prompt, model, client, decode), k) == Field(call, k)
    ensures Dict.Keys(Annotated(call, prompt, model, client, decode)) ==
      if HasKey(call, AnalysisKey) then Dict.Keys(call) else Dict.Keys(call) + [AnalysisKey]
  {
    Dict.SetGet(call, AnalysisKey, OutcomeJson(RecordOutcome(call, prompt, model, client, decode)), k);
  }

  /** The value stored in `llm_analysis` is the rendering of the record's outcome. */
  lemma AnalysisIsOutcome(call: Object, prompt: string, model: string, client: Client, decode: Decoder)
    requires TranscriptOk(call)
    ensures Field(Annotated(call, prompt, model, client, decode), AnalysisKey) ==
      OutcomeJson(RecordOutcome(call, prompt, model, client, decode))
  {
    Dict.SetGet(call, AnalysisKey, OutcomeJson(RecordOutcome(call, prompt, model, client, decode)), AnalysisKey);
  }

  lemma ReplyOutcomeOfText(text: string, decode: Decoder)
    ensures var cleaned := CleanReply(text);
      ReplyOutcome(Success(text), decode) ==
        if decode(cleaned).Some? then Parsed(decode(cleaned).value) else InvalidJson(Take(cleaned, RawExcerptLength))
  {
  }

  /** A skipped record gets None. */
  lemma AnnotatedSkipped(call: Object, prompt: string, model: string, client: Client, decode: Decoder)
    requires TranscriptOk(call) && Skips(call)
    ensures Field(Annotated(call, prompt, model, client, decode), AnalysisKey) == JNull
  {
    AnalysisIsOutcome(call, prompt, model, client, decode);
  }

  /** A reply that decodes is stored as the decoded document. */
  lemma AnnotatedDecoded(call: Object, prompt: string, model: string, client: Client, decode: Decoder, text: string)
    requires TranscriptOk(call) && !Skips(call)
    requires client(model, FullPrompt(call, prompt)) == Success(text) && decode(CleanReply(text)).Some?
    ensures Field(Annotated(call, prompt, model, client, decode), AnalysisKey) == decode(CleanReply(text)).value
  {
    AnalysisIsOutcome(call, prompt, model, client, decode);
    ReplyOutcomeOfText(text, decode);
  }

  /** A reply that does not decode is stored as an error object with at most 500 characters of the cleaned text. */
  lemma AnnotatedInvalid(call: Object, prompt: string, model: string, client: Client, decode: Decoder, text: string)
    requires TranscriptOk(call) && !Skips(call)
    requires client(model, FullPrompt(call, prompt)) == Success(text) && decode(CleanReply(text)).None?
    ensures var a := Field(Annotated(call, prompt, model, client, decode), AnalysisKey);
      && IsErrorObject(a)
      && Field(a.fields, "error") == JStr(InvalidJsonMessage)
      && Field(a.fields, "raw") == JStr(Take(CleanReply(text), RawExcerptLength))
  {
    AnalysisIsOutcome(call, prompt, model, client, decode);
    ReplyOutcomeOfText(text, decode);
    InvalidJsonFields(Take(CleanReply(text), RawExcerptLength));
  }

  lemma InvalidJsonFields(raw: string)
    ensures var a := OutcomeJson(InvalidJson(raw));
      && IsErrorObject(a)
      && Field(a.fields, "error") == JStr(InvalidJsonMessage)
      && Field(a.fields, "raw") == JStr(raw)
  {
    var a := OutcomeJson(InvalidJson(raw));
    assert Dict.Keys(a.fields) == ["error", "raw"];
    assert a.fields[1..] == [("raw", JStr(raw))];
    assert a.fields[0].0 != "raw";
    assert Dict.Get(a.fields, "raw") == Dict.Get(a.fields[1..], "raw") == Some(JStr(raw));
  }

  /** A failed call is stored as an error object holding only the failure's message. */
  lemma AnnotatedFailure(call: Object, prompt: string, model: string, client: Client, decode: Decoder, message: string)
    requires TranscriptOk(call) && !Skips(call)
    requires client(model, FullPrompt(call, prompt)) == Failure(message)
    ensures var a := Field(Annotated(call, prompt, model, client, decode), AnalysisKey);
      && IsErrorObject(a)
      && Field(a.fields, "error") == JStr(message)
      && Dict.Keys(a.fields) == ["error"]
  {
    AnalysisIsOutcome(call, prompt, model, client, decode);
    var a := OutcomeJson(Failed(message));
    assert Dict.Keys(a.fields) == ["error"];
  }

  /** A skipped record never reaches the service: its outcome is the same whatever the service does. */
  lemma SkippedIgnoresClient(call: Object, prompt: string, model: string, c1: Client, c2: Client, d1: Decoder, d2: Decoder)
    requires TranscriptOk(call) && Skips(call)
    ensures RecordOutcome(call, prompt, model, c1, d1) == RecordOutcome(call, prompt, model, c2, d2) == Skipped
    ensures PromptsOf(call, prompt) == []
  {
  }

  /** The service is called once per record that is not skipped. */
  lemma {:induction false} PromptsCount(calls: seq<Object>, prompt: string)
    requires AllTranscriptsOk(calls)
    ensures |Prompts(calls, prompt)| == |calls| - SkippedCount(calls)
  {
    if calls != [] {
      PromptsCount(calls[..|calls| - 1], prompt);
    }
  }

  function SkippedCount(calls: seq<Object>): (n: nat)
    requires AllTranscriptsOk(calls)
    ensures n <= |calls|
  {
    if calls == [] then 0
    else SkippedCount(calls[..|calls| - 1]) + (if Skips(calls[|calls| - 1]) then 1 else 0)
  }

  // ----- the batch -----

  /** `analyze_single_transcript` for the record at index `i`: it rewrites `calls[i]` in place. */
  method AnalyzeSingleTranscript(calls: array<Object>, i: nat, prompt: string, model: string, client: Client, decode: Decoder)
    returns (sent: seq<string>)
    requires i < calls.Length && TranscriptOk(calls[i])
    modifies calls
    ensures calls[i] == Annotated(old(calls[i]), prompt, model, client, decode)
    ensures forall j :: 0 <= j < calls.Length && j != i ==> calls[j] == old(calls[j])
    ensures sent == PromptsOf(old(calls[i]), prompt)
  {
    var callData := calls[i];
    var analysis;
    analysis, sent := AnalysisFor(callData, prompt, model, client, decode);
    calls[i] := Dict.Set(callData, AnalysisKey, analysis);
  }

  /** The value `analyze_single_transcript` stores under `llm_analysis`, and the prompts it sends. */
  method AnalysisFor(callData: Object, prompt: string, model: string, client: Client, decode: Decoder)
    returns (analysis: Json, sent: seq<string>)
    requires TranscriptOk(callData)
    ensures analysis == OutcomeJson(RecordOutcome(callData, prompt, model, client, decode))
    ensures sent == PromptsOf(callData, prompt)
  {
    ghost var outcome := RecordOutcome(callData, prompt, model, client, decode);
    var transcript := Field(callData, "transcript");
    if !Truthy(transcript) || Strip(transcript.s) == [] {
      return JNull, [];
    }
    var fullPrompt := prompt + transcript.s;
    sent := [fullPrompt];
    var response := client(model, fullPrompt);
    assert outcome == ReplyOutcome(response, decode);
    match response {
      case Failure(message) =>
        analysis := JObj([("error", JStr(message))]);
      case Success(text) =>
        var analysisJson := Strip(text);
        if StartsWith(analysisJson, JsonFence) {
          analysisJson := RemoveFirst(analysisJson, JsonFence);
        }
        if EndsWith(analysisJson, Fence) {
          analysisJson := BeforeLast(analysisJson, Fence);
        }
        analysisJson := Strip(analysisJson);
        assert analysisJson == CleanReply(text);
        match decode(analysisJson) {
          case Some(llmResult) =>
            analysis := llmResult;
          case None =>
            var raw := Take(analysisJson, RawExcerptLength);
            assert outcome == InvalidJson(raw);
            analysis := JObj([("error", JStr(InvalidJsonMessage)), ("raw", JStr(raw))]);
        }
    }
  }

  /**
   * `analyze_all_calls`, one record after another. Without the client
   * library the list comes back untouched; otherwise every record is
   * annotated in place and the result is the same list, in the same order.
   */
  method AnalyzeAllCalls(calls: array<Object>, prompt: string, model: string, client: Client, decode: Decoder, clientAvailable: bool)
    returns (results: seq<Object>, sent: seq<string>)
    requires AllTranscriptsOk(calls[..])
    modifies calls
    ensures !clientAvailable ==> calls[..] == old(calls[..]) && results == old(calls[..]) && sent == []
    ensures clientAvailable ==>
      && results == calls[..]
      && |results| == calls.Length
      && (forall j :: 0 <= j < |results| ==> results[j] == Annotated(old(calls[j]), prompt, model, client, decode))
      && sent == Prompts(old(calls[..]), prompt)
  {
    if !clientAvailable {
      return calls[..], [];
    }
    ghost var input := calls[..];
    sent := [];
    var i := 0;
    while i < calls.Length
      invariant 0 <= i <= calls.Length
      invariant forall j :: 0 <= j < i ==> calls[j] == Annotated(input[j], prompt, model, client, decode)
      invariant forall j :: i <= j < calls.Length ==> calls[j] == input[j]
      invariant sent == Prompts(input[..i], prompt)
    {
      assert input[..i + 1][..i] == input[..i];
      var s := AnalyzeSingleTranscript(calls, i, prompt, model, client, decode);
      sent := sent + s;
      i := i + 1;
    }
    assert input[..i] == input;
    results := calls[..];
  }

  // ----- the summary printed by `main` -----

  function Analysis(c: Object): Json {
    Field(c, AnalysisKey)
  }

  /** `c.get('llm_analysis') is None` */
  predicate CountedSkipped(c: Object) {
    Analysis(c).JNull?
  }

  /** `isinstance(a, dict) and 'error' in a` */
  predicate CountedError(c: Object) {
    IsErrorObject(Analysis(c))
  }

  /** `a and not isinstance(a, dict) or (isinstance(a, dict) and 'error' not in a)` */
  predicate CountedSuccess(c: Object) {
    var a := Analysis(c);
    (Truthy(a) && !a.JObj?) || (a.JObj? && !HasKey(a.fields, "error"))
  }

  /** A value none of the three counts sees: falsy, not None, and not a dict (`[]`, `0`, `false`, `""`). */
  predicate Uncounted(c: Object) {
    var a := Analysis(c);
    !Truthy(a) && !a.JNull? && !a.JObj?
  }

  function CountWhere(cs: seq<Object>, p: Object -> bool): (n: nat)
    ensures n <= |cs|
  {
    if cs == [] then 0 else CountWhere(cs[..|cs| - 1], p) + (if p(cs[|cs| - 1]) then 1 else 0)
  }

  datatype Summary = Summary(total: nat, success: nat, skipped: nat, errors: nat)

  /** The counts of lines 201-203, as written. */
  function Tally(cs: seq<Object>): Summary {
    Summary(|cs|, CountWhere(cs, CountedSuccess), CountWhere(cs, CountedSkipped), CountWhere(cs, CountedError))
  }

  /** A record is counted at most once, and exactly once unless it is `Uncounted`. */
  lemma ClassesPartition(c: Object)
    ensures !(CountedSuccess(c) && CountedSkipped(c))
    ensures !(CountedSuccess(c) && CountedError(c))
    ensures !(CountedSkipped(c) && CountedError(c))
    ensures CountedSuccess(c) || CountedSkipped(c) || CountedError(c) || Uncounted(c)
    ensures Uncounted(c) ==> !CountedSuccess(c) && !CountedSkipped(c) && !CountedError(c)
  {
  }

  /** The three counts and the uncounted records add up to the total. */
  lemma {:induction false} TallyPartition(cs: seq<Object>)
    ensures Tally(cs).success + Tally(cs).skipped + Tally(cs).errors + CountWhere(cs, Uncounted) == |cs|
  {
    if cs != [] {
      TallyPartition(cs[..|cs| - 1]);
      ClassesPartition(cs[|cs| - 1]);
    }
  }

  lemma {:induction false} CountWhereNone(cs: seq<Object>, p: Object -> bool)
    requires forall j :: 0 <= j < |cs| ==> !p(cs[j])
    ensures CountWhere(cs, p) == 0
  {
    if cs != [] {
      CountWhereNone(cs[..|cs| - 1], p);
    }
  }

  lemma {:induction false} CountWhereAll(cs: seq<Object>, p: Object -> bool)
    requires forall j :: 0 <= j < |cs| ==> p(cs[j])
    ensures CountWhere(cs, p) == |cs|
  {
    if cs != [] {
      CountWhereAll(cs[..|cs| - 1], p);
    }
  }

  /** When every analysis is None, a dict or truthy, the counts add up to the total. */
  lemma TallyComplete(cs: seq<Object>)
    requires forall j :: 0 <= j < |cs| ==> var a := Analysis(cs[j]); a.JNull? || a.JObj? || Truthy(a)
    ensures Tally(cs).success + Tally(cs).skipped + Tally(cs).errors == Tally(cs).total
  {
    TallyPartition(cs);
    CountWhereNone(cs, Uncounted);
  }

  /** Without the client library no record carries `llm_analysis`, so all of them count as skipped. */
  lemma TallyWithoutClient(cs: seq<Object>)
    requires forall j :: 0 <= j < |cs| ==> !HasKey(cs[j], AnalysisKey)
    ensures Tally(cs) == Summary(|cs|, 0, |cs|, 0)
  {
    forall j | 0 <= j < |cs| ensures Analysis(cs[j]) == JNull {
      Dict.GetSome(cs[j], AnalysisKey);
    }
    CountWhereAll(cs, CountedSkipped);
    CountWhereNone(cs, CountedSuccess);
    CountWhereNone(cs, CountedError);
  }

  /** How each outcome is counted once written into a record. */
  lemma OutcomeCounted(call: Object, o: Outcome)
    ensures var c := Dict.Set(call, AnalysisKey, OutcomeJson(o));
      && (o.Skipped? ==> CountedSkipped(c))
      && (o.InvalidJson? || o.Failed? ==> CountedError(c))
      && (o.Parsed? ==> (CountedSuccess(c) <==> (o.doc.JObj? && !HasKey(o.doc.fields, "error")) || (Truthy(o.doc) && !o.doc.JObj?)))
  {
    var c := Dict.Set(call, AnalysisKey, OutcomeJson(o));
    Dict.SetGet(call, AnalysisKey, OutcomeJson(o), AnalysisKey);
    match o
    case InvalidJson(raw) =>
      assert Dict.Keys(OutcomeJson(o).fields) == ["error", "raw"];
    case Failed(message) =>
      assert Dict.Keys(OutcomeJson(o).fields) == ["error"];
    case _ =>
  }

  /** A decoded reply that is falsy but neither None nor a dict (`[]`, say) escapes all three counts. */
  lemma TallyMissesFalsyReply()
    ensures var cs := [[(AnalysisKey, JArr([]))]];
      Tally(cs).success + Tally(cs).skipped + Tally(cs).errors == 0 < Tally(cs).total
  {
    var cs := [[(AnalysisKey, JArr([]))]];
    assert Analysis(cs[0]) == JArr([]);
    assert cs[..0] == [];
  }

  /** Success as the run summary intends it: every record that is neither skipped nor an error. */
  predicate IntendedSuccess(c: Object) {
    !CountedSkipped(c) && !CountedError(c)
  }

  function IntendedTally(cs: seq<Object>): Summary {
    Summary(|cs|, CountWhere(cs, IntendedSuccess), CountWhere(cs, CountedSkipped), CountWhere(cs, CountedError))
  }

  /** With that reading the three counts always add up to the total. */
  lemma {:induction false} IntendedTallyAddsUp(cs: seq<Object>)
    ensures IntendedTally(cs).success + IntendedTally(cs).skipped + IntendedTally(cs).errors == |cs|
    ensures CountWhere(cs, CountedSuccess) <= IntendedTally(cs).success
  {
    if cs != [] {
      IntendedTallyAddsUp(cs[..|cs| - 1]);
    }
  }
}
