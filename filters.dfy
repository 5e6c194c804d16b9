// The sidebar filters of the analysis view: eight tests on a call record,
// the list of records passing all of them, and the selection the widgets
// start with.

module Filters {
  import opened Json
  import Dict
  import opened Resolution

  /**
   * What the widgets hand to the filters: the chosen values of each
   * multiselect, and the slider's duration range in whole seconds.
   */
  datatype Selection = Selection(
    types: set<Json>,
    achieved: set<string>,
    callerTypes: set<string>,
    intents: set<Json>,
    transfer: set<string>,
    duration: (int, int),
    assistantIds: set<Json>,
    squadIds: set<Json>)

  const AchievedOptions: set<string> := {"resolved", "unresolved", "unknown"}
  const TransferOptions: set<string> := {"successful", "failed", "no_transfer"}

  // ----- the eight tests -----

  /** `f.get('resolution_type', 'no_resolution_type') in res_types`; the key is always present. */
  predicate MatchesResolutionType(f: FileInfo, resTypes: set<Json>) {
    f.resolutionType in resTypes
  }

  /** True asks for "resolved", False for "unresolved", anything else for "unknown". */
  predicate MatchesAchieved(f: FileInfo, achieved: set<string>) {
    if IsResolved(f) then "resolved" in achieved
    else if IsUnresolved(f) then "unresolved" in achieved
    else "unknown" in achieved
  }

  predicate MatchesCallerType(f: FileInfo, callerTypes: set<string>) {
    f.callerType in callerTypes
  }

  /** `(f.get('primary_intent') or 'unknown') in intent_list` */
  predicate MatchesPrimaryIntent(f: FileInfo, intents: set<Json>) {
    Or(f.primaryIntent, JStr("unknown")) in intents
  }

  /** True asks for "successful", False for "failed", None for "no_transfer". */
  predicate MatchesTransferSuccess(f: FileInfo, transfer: set<string>) {
    match f.transferSuccess
    case Some(true) => "successful" in transfer
    case Some(false) => "failed" in transfer
    case None => "no_transfer" in transfer
  }

  /** A call without a duration is kept whatever the range; otherwise the range is inclusive. */
  predicate MatchesDuration(f: FileInfo, range: (int, int)) {
    match f.callDuration
    case None => true
    case Some(d) => range.0 <= d <= range.1
  }

  predicate MatchesAssistantId(f: FileInfo, assistantIds: set<Json>) {
    f.assistantId in assistantIds
  }

  predicate MatchesSquadId(f: FileInfo, squadIds: set<Json>) {
    f.squadId in squadIds
  }

  /** The conjunction the list comprehension applies. */
  predicate Matches(f: FileInfo, sel: Selection) {
    && MatchesResolutionType(f, sel.types)
    && MatchesAchieved(f, sel.achieved)
    && MatchesCallerType(f, sel.callerTypes)
    && MatchesPrimaryIntent(f, sel.intents)
    && MatchesTransferSuccess(f, sel.transfer)
    && MatchesDuration(f, sel.duration)
    && MatchesAssistantId(f, sel.assistantIds)
    && MatchesSquadId(f, sel.squadIds)
  }

  /** `filtered_files = [f for f in all_files if <all eight tests>]` */
  function FilteredFiles(allFiles: seq<FileInfo>, sel: Selection): (r: seq<FileInfo>)
    ensures |r| <= |allFiles|
  {
    Dict.Filter(allFiles, f => Matches(f, sel))
  }

  // ----- what the tests promise -----

  /**
   * The achieved filter sorts every record into exactly one of three classes,
   * and keeps it exactly when that class's option is selected.
   */
  lemma AchievedClasses(f: FileInfo, achieved: set<string>)
    ensures Dict.ExactlyOne(IsResolved(f), IsUnresolved(f), IsUnsettled(f))
    ensures MatchesAchieved(f, achieved) <==>
      || (IsResolved(f) && "resolved" in achieved)
      || (IsUnresolved(f) && "unresolved" in achieved)
      || (IsUnsettled(f) && "unknown" in achieved)
  {
  }

  /** The same three-way split for the transfer filter. */
  lemma TransferClasses(f: FileInfo, transfer: set<string>)
    ensures Dict.ExactlyOne(IsConnected(f), IsTransferFailed(f), IsNoTransfer(f))
    ensures MatchesTransferSuccess(f, transfer) <==>
      || (IsConnected(f) && "successful" in transfer)
      || (IsTransferFailed(f) && "failed" in transfer)
      || (IsNoTransfer(f) && "no_transfer" in transfer)
  {
    if f.transferSuccess.Some? {
      assert IsConnected(f) <==> f.transferSuccess.value;
    }
  }

  /** Selecting all three options of a three-way filter keeps every record. */
  lemma AllOptionsKeepAll(f: FileInfo)
    ensures MatchesAchieved(f, AchievedOptions) && MatchesTransferSuccess(f, TransferOptions)
  {
  }

  /** A record without a duration passes every duration range, even an empty one. */
  lemma NoDurationPasses(f: FileInfo, range: (int, int))
    requires f.callDuration.None?
    ensures MatchesDuration(f, range)
  {
  }

  /** The filtered list holds exactly the records passing all eight tests. */
  lemma FilteredMembers(allFiles: seq<FileInfo>, sel: Selection)
    ensures forall f :: f in FilteredFiles(allFiles, sel) <==> f in allFiles && Matches(f, sel)
  {
    Dict.FilterMember(allFiles, f => Matches(f, sel));
  }

  /**
   * The filter keeps the input order: filtering two consecutive runs of
   * records gives the two filtered runs one after the other, and a single
   * record is kept or dropped on its own.
   */
  lemma FilteredInOrder(xs: seq<FileInfo>, ys: seq<FileInfo>, f: FileInfo, sel: Selection)
    ensures FilteredFiles(xs + ys, sel) == FilteredFiles(xs, sel) + FilteredFiles(ys, sel)
    ensures FilteredFiles([f], sel) == if Matches(f, sel) then [f] else []
  {
    Dict.FilterConcat(xs, ys, f => Matches(f, sel));
    Dict.FilterSnoc([], f, f => Matches(f, sel));
    assert [] + [f] == [f];
  }

  // ----- the selection the widgets start with -----

  /** `[f.get('call_duration') for f in all_files if f.get('call_duration') is not None]` */
  function DurationsOf(allFiles: seq<FileInfo>): (ds: seq<int>)
    ensures forall i :: 0 <= i < |allFiles| && allFiles[i].callDuration.Some? ==> allFiles[i].callDuration.value in ds
    ensures ds == [] ==> forall i :: 0 <= i < |allFiles| ==> allFiles[i].callDuration.None?
  {
    if allFiles == [] then []
    else
      var n := |allFiles| - 1;
      var rest := DurationsOf(allFiles[..n]);
      assert forall i :: 0 <= i < n ==> allFiles[..n][i] == allFiles[i];
      match allFiles[n].callDuration
      case Some(d) => rest + [d]
      case None => rest
  }

  /** `min(ds)` */
  function MinOf(ds: seq<int>): (m: int)
    requires ds != []
    ensures m in ds && forall i :: 0 <= i < |ds| ==> m <= ds[i]
  {
    if |ds| == 1 then ds[0]
    else
      var m := MinOf(ds[1..]);
      assert forall i :: 1 <= i < |ds| ==> ds[i] == ds[1..][i - 1];
      if ds[0] <= m then ds[0] else m
  }

  /** `max(ds)` */
  function MaxOf(ds: seq<int>): (m: int)
    requires ds != []
    ensures m in ds && forall i :: 0 <= i < |ds| ==> ds[i] <= m
  {
    if |ds| == 1 then ds[0]
    else
      var m := MaxOf(ds[1..]);
      assert forall i :: 1 <= i < |ds| ==> ds[i] == ds[1..][i - 1];
      if ds[0] >= m then ds[0] else m
  }

  /** The slider's bounds: the smallest duration to one past the largest, or 0 to 600 without durations. */
  function DurationRange(allFiles: seq<FileInfo>): (int, int) {
    var ds := DurationsOf(allFiles);
    if ds == [] then (0, 600) else (MinOf(ds), MaxOf(ds) + 1)
  }

  /**
   * Every widget preselects all of its options: the loader's resolution
   * types, the values that occur in the records, the three fixed options of
   * the two three-way filters, and the whole duration range.
   */
  function DefaultSelection(allFiles: seq<FileInfo>, resolutionTypes: seq<(Json, seq<FileInfo>)>): (sel: Selection)
    ensures forall t :: t in sel.types <==> t in Dict.Keys(resolutionTypes)
  {
    Selection(
      types := (set t | t in Dict.Keys(resolutionTypes)),
      achieved := AchievedOptions,
      callerTypes := set f | f in allFiles :: f.callerType,
      intents := set f | f in allFiles :: Or(f.primaryIntent, JStr("unknown")),
      transfer := TransferOptions,
      duration := DurationRange(allFiles),
      assistantIds := set f | f in allFiles :: f.assistantId,
      squadIds := set f | f in allFiles :: f.squadId)
  }

  /** One call passes every default widget. */
  lemma DefaultSelectionMatches(f: FileInfo, allFiles: seq<FileInfo>, resolutionTypes: seq<(Json, seq<FileInfo>)>)
    requires f in allFiles && f.resolutionType in Dict.Keys(resolutionTypes)
    ensures Matches(f, DefaultSelection(allFiles, resolutionTypes))
  {
    var sel := DefaultSelection(allFiles, resolutionTypes);
    var ds := DurationsOf(allFiles);
    assert MatchesResolutionType(f, sel.types);
    match f.callDuration {
      case Some(d) =>
        assert d in ds;
        var lo, hi := MinOf(ds), MaxOf(ds);
        var k :| 0 <= k < |ds| && ds[k] == d;
        assert lo <= ds[k] <= hi;
      case None =>
    }
  }

  /**
   * Before the user narrows any widget, the analysis view shows every call,
   * provided each call's type is one of the loader's type keys.
   */
  lemma DefaultSelectionKeepsAll(allFiles: seq<FileInfo>, resolutionTypes: seq<(Json, seq<FileInfo>)>)
    requires forall i :: 0 <= i < |allFiles| ==> allFiles[i].resolutionType in Dict.Keys(resolutionTypes)
    ensures FilteredFiles(allFiles, DefaultSelection(allFiles, resolutionTypes)) == allFiles
  {
    var sel := DefaultSelection(allFiles, resolutionTypes);
    forall i | 0 <= i < |allFiles| ensures Matches(allFiles[i], sel) {
      DefaultSelectionMatches(allFiles[i], allFiles, resolutionTypes);
    }
    Dict.FilterAll(allFiles, f => Matches(f, sel));
  }

  /**
   * What the loader returns meets that condition: every shown call's type is
   * a `resolution_types` key, so the default view of a loaded file shows all
   * of `json_files.values()`.
   */
  lemma LoadedDefaultsKeepAll(calls: seq<Object>)
    requires AllLoadOk(calls)
    ensures var all, types := AllFiles(calls), Dict.GroupBy(KeptInfos(calls), TypeOf);
      FilteredFiles(all, DefaultSelection(all, types)) == all
  {
    var infos := KeptInfos(calls);
    var files, types := Dict.IndexBy(infos, IdOf), Dict.GroupBy(infos, TypeOf);
    var all := AllFiles(calls);
    Dict.IndexByValues(infos, IdOf);
    Dict.GroupByKeys(infos, TypeOf);
    forall i | 0 <= i < |all| ensures all[i].resolutionType in Dict.Keys(types) {
      assert all[i] == files[i].1;
      var j :| 0 <= j < |infos| && infos[j] == all[i];
      assert TypeOf(infos[j]) == all[i].resolutionType;
    }
    DefaultSelectionKeepsAll(all, types);
  }
}
