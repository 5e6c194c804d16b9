/**
 * The viewer's loader (`load_vapi_data` in vapi_resolution.py): which
 * analysed calls it keeps, the per-call record it derives, and the two
 * dictionaries it fills, one keyed by call id and one grouping the records
 * by resolution type.
 */
module Resolution {
  import opened Wrappers
  import opened Json
  import opened Text
  import Dict
  import Analyze

  /** The `file_info` dict built for each kept call. */
  datatype FileInfo = FileInfo(
    id: Json,
    index: nat,
    resolutionType: Json,
    callerType: string,
    finalOutcome: Json,
    resolutionAchieved: Json,
    transferSuccess: Option<bool>,
    transferDestination: Option<string>,
    secondaryAction: Json,
    primaryIntent: Json,
    transcriptContent: Json,
    callDuration: Option<int>,
    assistantId: Json,
    squadId: Json,
    data: Object,
    rawCall: Object,
    hasResolutionType: bool)

  const NoResolutionType := "no_resolution_type"
  const UnknownCaller := "unknown"

  /** A call is shown only when its analysis is truthy and not an error object. */
  predicate Kept(call: Object) {
    var a := Field(call, Analyze.AnalysisKey);
    Truthy(a) && !IsErrorObject(a)
  }

  /** `f'call_{idx}'` */
  function DefaultId(idx: nat): string {
    "call_" + NatToString(idx)
  }

  /** `call.get('id', f'call_{idx}')`: the default applies only when the key is missing. */
  function CallId(call: Object, idx: nat): Json {
    FieldOr(call, "id", JStr(DefaultId(idx)))
  }

  function AnalysisOf(call: Object): Object
    requires Field(call, Analyze.AnalysisKey).JObj?
  {
    Field(call, Analyze.AnalysisKey).fields
  }

  /** `llm_analysis.get('call_summary', {})` */
  function SummaryOf(call: Object): Json
    requires Field(call, Analyze.AnalysisKey).JObj?
  {
    FieldOr(AnalysisOf(call), "call_summary", JObj([]))
  }

  /** `resolution_type or 'no_resolution_type'` */
  function TypeKeyOf(summary: Object): Json {
    Or(Field(summary, "resolution_type"), JStr(NoResolutionType))
  }

  /**
   * What a kept call must look like for the loader not to raise: its
   * analysis and call summary are dicts, a truthy transcript is a string
   * (`.replace`), and its id and resolution type key can be dict keys.
   */
  predicate LoadOk(call: Object) {
    var a := Field(call, Analyze.AnalysisKey);
    Kept(call) ==>
      && a.JObj?
      && SummaryOf(call).JObj?
      && (var t := FieldOr(call, "transcript", JStr("")); !Truthy(t) || t.JStr?)
      && Hashable(Field(call, "id"))
      && Hashable(TypeKeyOf(SummaryOf(call).fields))
  }

  predicate AllLoadOk(calls: seq<Object>) {
    forall j :: 0 <= j < |calls| ==> LoadOk(calls[j])
  }

  /** The caller type if it is a non-empty string, else `'unknown'`. */
  function CallerTypeOf(analysis: Object): string {
    var ct := FieldOr(analysis, "caller_type", JStr(UnknownCaller));
    if Truthy(ct) && ct.JStr? then ct.s else UnknownCaller
  }

  predicate IsNonEmptyString(j: Json) {
    j.JStr? && j.s != ""
  }

  /** The first non-empty string in a `destinations` list. */
  function FirstNonEmptyString(items: seq<Json>): (r: Option<string>)
    ensures r.Some? ==> exists j :: 0 <= j < |items| && items[j] == JStr(r.value)
                           && r.value != "" && forall i :: 0 <= i < j ==> !IsNonEmptyString(items[i])
    ensures r.None? ==> forall i :: 0 <= i < |items| ==> !IsNonEmptyString(items[i])
  {
    if items == [] then None
    else if IsNonEmptyString(items[0]) then Some(items[0].s)
    else
      var r := FirstNonEmptyString(items[1..]);
      assert r.Some? ==> exists j :: 1 <= j < |items| && items[j] == JStr(r.value)
                           && forall i :: 0 <= i < j ==> !IsNonEmptyString(items[i]) by {
        if r.Some? {
          var j :| 0 <= j < |items[1..]| && items[1..][j] == JStr(r.value)
                   && forall i :: 0 <= i < j ==> !IsNonEmptyString(items[1..][i]);
          assert forall i :: 0 <= i < j + 1 ==> !IsNonEmptyString(items[i]) by {
            forall i | 0 <= i < j + 1 ensures !IsNonEmptyString(items[i]) {
              if i > 0 { assert items[i] == items[1..][i - 1]; }
            }
          }
        }
      }
      assert r.None? ==> forall i :: 1 <= i < |items| ==> !IsNonEmptyString(items[i]) by {
        if r.None? {
          forall i | 1 <= i < |items| ensures !IsNonEmptyString(items[i]) {
            assert items[i] == items[1..][i - 1];
          }
        }
      }
      r
  }

  /** The first valid destination, found by the `for ... break` loop of lines 127-130. */
  method FindDestination(items: seq<Json>) returns (dest: Option<string>)
    ensures dest == FirstNonEmptyString(items)
  {
    dest := None;
    var i := 0;
    while i < |items|
      invariant 0 <= i <= |items|
      invariant forall j :: 0 <= j < i ==> !IsNonEmptyString(items[j])
    {
      var d := items[i];
      if d.JStr? && d.s != "" {
        dest := Some(d.s);
        FirstIsFirst(items, i);
        return;
      }
      i := i + 1;
    }
    NoneIsNone(items);
  }

  lemma {:induction false} FirstIsFirst(items: seq<Json>, i: nat)
    requires i < |items| && IsNonEmptyString(items[i])
    requires forall j :: 0 <= j < i ==> !IsNonEmptyString(items[j])
    ensures FirstNonEmptyString(items) == Some(items[i].s)
  {
    if i > 0 {
      assert !IsNonEmptyString(items[0]);
      assert items[1..][i - 1] == items[i];
      FirstIsFirst(items[1..], i - 1);
    }
  }

  lemma NoneIsNone(items: seq<Json>)
    requires forall j :: 0 <= j < |items| ==> !IsNonEmptyString(items[j])
    ensures FirstNonEmptyString(items) == None
  {
  }

  /** `transfer_destination` from a dict `transfer_context`. */
  function DestinationOf(context: Object): Option<string> {
    var d := Field(context, "destinations");
    if d.JArr? && d.items != [] then FirstNonEmptyString(d.items)
    else if IsNonEmptyString(d) then Some(d.s)
    else None
  }

  /** `[v for v in status if isinstance(v, bool)]` */
  function BoolsOf(items: seq<Json>): (bs: seq<bool>)
    ensures forall b :: b in bs <==> JBool(b) in items
  {
    if items == [] then []
    else BoolsOf(items[..|items| - 1]) + (if items[|items| - 1].JBool? then [items[|items| - 1].b] else [])
  }

  /** `transfer_success` from the `transfer_connection_status` value. */
  function ConnectionStatusOf(status: Json): Option<bool> {
    if !status.JArr? || status.items == [] then None
    else
      var bools := BoolsOf(status.items);
      if bools != [] then Some(true in bools) else None
  }

  /**
   * The tri-state: unknown without a list or without booleans in it;
   * connected when some boolean is True; failed when there are booleans
   * and all of them are False.
   */
  lemma ConnectionStatusTriState(status: Json)
    ensures ConnectionStatusOf(status) == None <==>
      !status.JArr? || forall i :: 0 <= i < |status.items| ==> !status.items[i].JBool?
    ensures ConnectionStatusOf(status) == Some(true) <==> status.JArr? && JBool(true) in status.items
    ensures ConnectionStatusOf(status) == Some(false) <==>
      status.JArr? && JBool(false) in status.items && JBool(true) !in status.items
  {
    if status.JArr? {
      var bools := BoolsOf(status.items);
      if bools == [] {
        forall i | 0 <= i < |status.items| ensures !status.items[i].JBool? {
          assert status.items[i] in status.items;
        }
      } else {
        assert bools[0] in bools;
        var j :| 0 <= j < |status.items| && status.items[j] == JBool(bools[0]);
        assert JBool(true) in status.items || JBool(false) in status.items;
      }
    }
  }

  /** The transfer destination and success of an analysis. */
  function TransferOf(analysis: Object): (Option<string>, Option<bool>) {
    var context := FieldOr(analysis, "transfer_context", JObj([]));
    if Truthy(context) && context.JObj? then
      (DestinationOf(context.fields), ConnectionStatusOf(Field(context.fields, "transfer_connection_status")))
    else (None, None)
  }

  /** `transcript.replace('\\n', '\n')`: every backslash-n pair becomes a line feed, scanning left to right. */
  function Unescape(s: string): string {
    if |s| < 2 then s
    else if s[0] == '\\' && s[1] == 'n' then "\n" + Unescape(s[2..])
    else [s[0]] + Unescape(s[1..])
  }

  predicate EscapeAt(s: string, i: nat) {
    i + 1 < |s| && s[i] == '\\' && s[i + 1] == 'n'
  }

  lemma {:induction false} UnescapeHead(s: string)
    requires s != []
    ensures Unescape(s) != []
    ensures Unescape(s)[0] == if EscapeAt(s, 0) then '\n' else s[0]
  {
  }

  /** No backslash-n pair survives the replacement. */
  lemma {:induction false} UnescapeLeavesNoEscape(s: string)
    ensures forall i: nat :: !EscapeAt(Unescape(s), i)
  {
    if |s| >= 2 {
      var u := Unescape(s);
      if EscapeAt(s, 0) {
        UnescapeLeavesNoEscape(s[2..]);
        assert u == "\n" + Unescape(s[2..]);
        forall i: nat ensures !EscapeAt(u, i) {
          if i > 0 && i + 1 < |u| {
            assert u[i] == Unescape(s[2..])[i - 1] && u[i + 1] == Unescape(s[2..])[i];
            assert !EscapeAt(Unescape(s[2..]), i - 1);
          }
        }
      } else {
        var t := Unescape(s[1..]);
        UnescapeLeavesNoEscape(s[1..]);
        assert u == [s[0]] + t;
        UnescapeHead(s[1..]);
        forall i: nat ensures !EscapeAt(u, i) {
          if i > 0 && i + 1 < |u| {
            assert u[i] == t[i - 1] && u[i + 1] == t[i];
            assert !EscapeAt(t, i - 1);
          } else if i == 0 && 1 < |u| {
            assert u[1] == t[0];
          }
        }
      }
    }
  }

  /** Text without a backslash is left as it is. */
  lemma {:induction false} UnescapeNoBackslash(s: string)
    requires '\\' !in s
    ensures Unescape(s) == s
  {
    if |s| >= 2 {
      assert s[0] != '\\';
      assert s[1..][..] == s[1..];
      UnescapeNoBackslash(s[1..]);
    }
  }

  /** `call.get('transcript', '')`, with escapes replaced when it is truthy. */
  function TranscriptOf(call: Object): Json
    requires var t := FieldOr(call, "transcript", JStr("")); !Truthy(t) || t.JStr?
  {
    var t := FieldOr(call, "transcript", JStr(""));
    if Truthy(t) then JStr(Unescape(t.s)) else t
  }

  /**
   * `get_duration_from_call`: a number is its own duration and a boolean
   * converts to 1 or 0; None, lists, dicts and strings give None. A numeric
   * string such as "30", which `float()` would accept, also reads as no duration.
   */
  function DurationOf(call: Object): Option<int> {
    match Field(call, "durationSeconds")
    case JNum(n) => Some(n)
    case JBool(b) => Some(if b then 1 else 0)
    case _ => None
  }

  /** The record the loader derives for the kept call at position `idx`. */
  function InfoOf(call: Object, idx: nat): FileInfo
    requires Kept(call) && LoadOk(call)
  {
    var analysis := AnalysisOf(call);
    var summary := SummaryOf(call).fields;
    var rt := Field(summary, "resolution_type");
    var transfer := TransferOf(analysis);
    FileInfo(
      id := CallId(call, idx),
      index := idx,
      resolutionType := TypeKeyOf(summary),
      callerType := CallerTypeOf(analysis),
      finalOutcome := Or(FieldOr(summary, "final_outcome", JStr("")), JStr("")),
      resolutionAchieved := Field(summary, "resolution_achieved"),
      transferSuccess := transfer.1,
      transferDestination := transfer.0,
      secondaryAction := Field(summary, "secondary_action"),
      primaryIntent := Field(summary, "primary_intent"),
      transcriptContent := TranscriptOf(call),
      callDuration := DurationOf(call),
      assistantId := Or(Field(call, "assistantId"), JStr("unknown")),
      squadId := Or(Field(call, "squadId"), JStr("none")),
      data := analysis,
      rawCall := call,
      hasResolutionType := !rt.JNull?)
  }

  /**
   * The defaulting rules: the caller type is the analysis's own value when
   * that is a non-empty string and `'unknown'` otherwise; assistant id,
   * squad id and resolution type fall back to `'unknown'`, `'none'` and
   * `'no_resolution_type'`, so none of them is falsy; the final outcome is
   * never None; and `has_resolution_type` tells whether the summary had one.
   */
  lemma InfoDefaults(call: Object, idx: nat)
    requires Kept(call) && LoadOk(call)
    ensures var f := InfoOf(call, idx);
      var ct := Field(AnalysisOf(call), "caller_type");
      var rt := Field(SummaryOf(call).fields, "resolution_type");
      && f.callerType != ""
      && (f.callerType == if IsNonEmptyString(ct) then ct.s else UnknownCaller)
      && Truthy(f.assistantId) && Truthy(f.squadId) && Truthy(f.resolutionType)
      && (!Truthy(Field(call, "assistantId")) ==> f.assistantId == JStr("unknown"))
      && (!Truthy(Field(call, "squadId")) ==> f.squadId == JStr("none"))
      && (!Truthy(rt) ==> f.resolutionType == JStr(NoResolutionType))
      && (Truthy(rt) ==> f.resolutionType == rt)
      && !f.finalOutcome.JNull?
      && (f.hasResolutionType <==> !rt.JNull?)
      && (!HasKey(call, "id") ==> f.id == JStr(DefaultId(idx)))
      && (HasKey(call, "id") ==> f.id == Field(call, "id"))
  {
    var ct := FieldOr(AnalysisOf(call), "caller_type", JStr(UnknownCaller));
    if !HasKey(AnalysisOf(call), "caller_type") {
      assert ct == JStr(UnknownCaller);
    }
  }

  /**
   * The transfer fields: both are None unless `transfer_context` is a
   * non-empty dict; the destination is the first non-empty string of a
   * `destinations` list or a non-empty `destinations` string.
   */
  lemma TransferFields(call: Object, idx: nat)
    requires Kept(call) && LoadOk(call)
    ensures var f := InfoOf(call, idx);
      var context := FieldOr(AnalysisOf(call), "transfer_context", JObj([]));
      && (!(Truthy(context) && context.JObj?) ==> f.transferDestination == None && f.transferSuccess == None)
      && (Truthy(context) && context.JObj? ==>
            var d := Field(context.fields, "destinations");
            && f.transferSuccess == ConnectionStatusOf(Field(context.fields, "transfer_connection_status"))
            && (d.JArr? ==> f.transferDestination == FirstNonEmptyString(d.items))
            && (d.JStr? ==> f.transferDestination == if d.s != "" then Some(d.s) else None)
            && (!d.JArr? && !d.JStr? ==> f.transferDestination == None))
      && (f.transferDestination.Some? ==> f.transferDestination.value != "")
  {
  }

  /** The records of the kept calls, in input order, each tagged with its position. */
  function KeptInfos(calls: seq<Object>): (fs: seq<FileInfo>)
    requires AllLoadOk(calls)
    ensures |fs| <= |calls|
  {
    if calls == [] then []
    else
      var n := |calls| - 1;
      KeptInfos(calls[..n]) + (if Kept(calls[n]) then [InfoOf(calls[n], n)] else [])
  }

  lemma AllLoadOkPrefix(calls: seq<Object>, n: nat)
    requires AllLoadOk(calls) && n <= |calls|
    ensures AllLoadOk(calls[..n])
  {
    assert forall j :: 0 <= j < n ==> calls[..n][j] == calls[j];
  }

  /** The loop step: the call at position `n` adds its record when it is kept. */
  lemma KeptInfosSnoc(calls: seq<Object>, n: nat)
    requires AllLoadOk(calls) && n < |calls|
    ensures AllLoadOk(calls[..n]) && AllLoadOk(calls[..n + 1])
    ensures KeptInfos(calls[..n + 1]) ==
      KeptInfos(calls[..n]) + (if Kept(calls[n]) then [InfoOf(calls[n], n)] else [])
  {
    AllLoadOkPrefix(calls, n);
    AllLoadOkPrefix(calls, n + 1);
    assert calls[..n + 1][..n] == calls[..n];
    assert calls[..n + 1][n] == calls[n];
  }

  /** Every record is the derivation of a kept call at its own position. */
  lemma {:induction false} KeptInfosSound(calls: seq<Object>)
    requires AllLoadOk(calls)
    ensures var fs := KeptInfos(calls);
      forall j :: 0 <= j < |fs| ==>
        (fs[j].index < |calls| && Kept(calls[fs[j].index]) && fs[j] == InfoOf(calls[fs[j].index], fs[j].index))
  {
    if calls != [] {
      var n := |calls| - 1;
      KeptInfosSnoc(calls, n);
      assert calls[..n + 1] == calls;
      KeptInfosSound(calls[..n]);
      var ps := KeptInfos(calls[..n]);
      forall j | 0 <= j < |ps| ensures calls[ps[j].index] == calls[..n][ps[j].index] {
      }
    }
  }

  /** Positions increase strictly along the list: input order is kept. */
  lemma {:induction false} KeptInfosOrdered(calls: seq<Object>)
    requires AllLoadOk(calls)
    ensures var fs := KeptInfos(calls);
      forall i, j :: 0 <= i < j < |fs| ==> fs[i].index < fs[j].index
  {
    if calls != [] {
      var n := |calls| - 1;
      KeptInfosSnoc(calls, n);
      assert calls[..n + 1] == calls;
      KeptInfosOrdered(calls[..n]);
      KeptInfosSound(calls[..n]);
    }
  }

  /** Every kept call has its record in the list. */
  lemma {:induction false} KeptInfosComplete(calls: seq<Object>, m: nat)
    requires AllLoadOk(calls) && m < |calls| && Kept(calls[m])
    ensures exists j :: 0 <= j < |KeptInfos(calls)| && KeptInfos(calls)[j] == InfoOf(calls[m], m)
  {
    var n := |calls| - 1;
    KeptInfosSnoc(calls, n);
    assert calls[..n + 1] == calls;
    var fs := KeptInfos(calls);
    var ps := KeptInfos(calls[..n]);
    if m < n {
      assert calls[..n][m] == calls[m];
      KeptInfosComplete(calls[..n], m);
      var j :| 0 <= j < |ps| && ps[j] == InfoOf(calls[m], m);
      assert fs[j] == ps[j];
    } else {
      assert fs[|ps|] == InfoOf(calls[m], m);
    }
  }

  function IdOf(f: FileInfo): Json {
    f.id
  }

  function TypeOf(f: FileInfo): Json {
    f.resolutionType
  }

  /**
   * `load_vapi_data`: one pass over the calls that fills `json_files`
   * (keyed by id, so a later duplicate overwrites an earlier one) and
   * `resolution_types` (the records grouped by resolution type key).
   */
  method LoadVapiData(calls: seq<Object>) returns (jsonFiles: seq<(Json, FileInfo)>, resolutionTypes: seq<(Json, seq<FileInfo>)>)
    requires AllLoadOk(calls)
    ensures jsonFiles == Dict.IndexBy(KeptInfos(calls), IdOf)
    ensures resolutionTypes == Dict.GroupBy(KeptInfos(calls), TypeOf)
  {
    jsonFiles := [];
    resolutionTypes := [];
    for idx := 0 to |calls|
      invariant AllLoadOk(calls[..idx])
      invariant jsonFiles == Dict.IndexBy(KeptInfos(calls[..idx]), IdOf)
      invariant resolutionTypes == Dict.GroupBy(KeptInfos(calls[..idx]), TypeOf)
    {
      var call := calls[idx];
      KeptInfosSnoc(calls, idx);
      var llmAnalysis := Field(call, Analyze.AnalysisKey);
      ghost var ks := KeptInfos(calls[..idx]);
      if !Truthy(llmAnalysis) || (llmAnalysis.JObj? && HasKey(llmAnalysis.fields, "error")) {
        assert KeptInfos(calls[..idx + 1]) == ks + [] == ks;
        continue;
      }
      var fileInfo := DeriveFileInfo(call, idx);
      assert KeptInfos(calls[..idx + 1]) == ks + [fileInfo];
      Dict.IndexBySnoc(ks, fileInfo, IdOf);
      Dict.GroupBySnoc(ks, fileInfo, TypeOf);
      jsonFiles := Dict.Set(jsonFiles, fileInfo.id, fileInfo);
      var key := fileInfo.resolutionType;
      resolutionTypes := Dict.Set(resolutionTypes, key, Dict.GetOr(resolutionTypes, key, []) + [fileInfo]);
    }
    assert calls[..|calls|] == calls;
  }

  /** The body of the loader's loop for one kept call, field by field. */
  method DeriveFileInfo(call: Object, idx: nat) returns (info: FileInfo)
    requires Kept(call) && LoadOk(call)
    ensures info == InfoOf(call, idx)
  {
    var llmAnalysis := AnalysisOf(call);
    var callSummary := FieldOr(llmAnalysis, "call_summary", JObj([])).fields;
    var resolutionType := Field(callSummary, "resolution_type");
    var finalOutcome := Or(FieldOr(callSummary, "final_outcome", JStr("")), JStr(""));
    var resolutionAchieved := Field(callSummary, "resolution_achieved");
    var secondaryAction := Field(callSummary, "secondary_action");
    var primaryIntent := Field(callSummary, "primary_intent");

    var callerType := FieldOr(llmAnalysis, "caller_type", JStr(UnknownCaller));
    if !Truthy(callerType) || !callerType.JStr? {
      callerType := JStr(UnknownCaller);
    }

    var transferDestination, transferSuccess := ReadTransferContext(llmAnalysis);

    var transcript := FieldOr(call, "transcript", JStr(""));
    if Truthy(transcript) {
      transcript := JStr(Unescape(transcript.s));
    }

    info := FileInfo(
      id := FieldOr(call, "id", JStr(DefaultId(idx))),
      index := idx,
      resolutionType := Or(resolutionType, JStr(NoResolutionType)),
      callerType := callerType.s,
      finalOutcome := finalOutcome,
      resolutionAchieved := resolutionAchieved,
      transferSuccess := transferSuccess,
      transferDestination := transferDestination,
      secondaryAction := secondaryAction,
      primaryIntent := primaryIntent,
      transcriptContent := transcript,
      callDuration := DurationOf(call),
      assistantId := Or(Field(call, "assistantId"), JStr("unknown")),
      squadId := Or(Field(call, "squadId"), JStr("none")),
      data := llmAnalysis,
      rawCall := call,
      hasResolutionType := !resolutionType.JNull?);
  }

  /** The `transfer_context` branch of the loader: destination and connection status. */
  method ReadTransferContext(llmAnalysis: Object) returns (transferDestination: Option<string>, transferSuccess: Option<bool>)
    ensures (transferDestination, transferSuccess) == TransferOf(llmAnalysis)
  {
    var transferContext := FieldOr(llmAnalysis, "transfer_context", JObj([]));
    transferDestination := None;
    transferSuccess := None;
    if Truthy(transferContext) && transferContext.JObj? {
      var status := Field(transferContext.fields, "transfer_connection_status");
      var destinations := Field(transferContext.fields, "destinations");
      if destinations.JArr? && destinations.items != [] {
        transferDestination := FindDestination(destinations.items);
      } else if destinations.JStr? && destinations.s != "" {
        transferDestination := Some(destinations.s);
      }
      if status.JArr? {
        if |status.items| == 0 {
          transferSuccess := None;
        } else {
          var boolValues := BoolsOf(status.items);
          if boolValues != [] {
            transferSuccess := Some(true in boolValues);
          } else {
            transferSuccess := None;
          }
        }
      }
    }
  }

  // ----- how the views classify a record -----

  /** `f.get('resolution_achieved') is True` */
  predicate IsResolved(f: FileInfo) {
    f.resolutionAchieved == JBool(true)
  }

  /** `f.get('resolution_achieved') is False` */
  predicate IsUnresolved(f: FileInfo) {
    f.resolutionAchieved == JBool(false)
  }

  /** Neither True nor False: missing, None, or any other value. */
  predicate IsUnsettled(f: FileInfo) {
    !IsResolved(f) && !IsUnresolved(f)
  }

  predicate IsConnected(f: FileInfo) {
    f.transferSuccess == Some(true)
  }

  predicate IsTransferFailed(f: FileInfo) {
    f.transferSuccess == Some(false)
  }

  predicate IsNoTransfer(f: FileInfo) {
    f.transferSuccess == None
  }

  /** `f.get('resolution_type') in ['transfer', 'transfer_attempted']` */
  predicate IsTransfer(f: FileInfo) {
    f.resolutionType == JStr("transfer") || f.resolutionType == JStr("transfer_attempted")
  }

  /** `list(json_files.values())`, the order every view iterates in. */
  function AllFiles(calls: seq<Object>): seq<FileInfo>
    requires AllLoadOk(calls)
  {
    Dict.Values(Dict.IndexBy(KeptInfos(calls), IdOf))
  }

  /**
   * What the analyser writes decides whether the viewer keeps a call:
   * skipped records and both kinds of error object are dropped, and a
   * decoded document is kept exactly when it is truthy and not an error object.
   */
  lemma KeptAfterAnalysis(call: Object, o: Analyze.Outcome)
    ensures var c := Dict.Set(call, Analyze.AnalysisKey, Analyze.OutcomeJson(o));
      && (o.Skipped? || o.InvalidJson? || o.Failed? ==> !Kept(c))
      && (o.Parsed? ==> (Kept(c) <==> Truthy(o.doc) && !IsErrorObject(o.doc)))
  {
    Analyze.OutcomeCounted(call, o);
    Dict.SetGet(call, Analyze.AnalysisKey, Analyze.OutcomeJson(o), Analyze.AnalysisKey);
  }
}
