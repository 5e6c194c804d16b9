# Call-analysis pipeline, modelled in Dafny

The pipeline works on recorded phone calls of a voice-agent platform in three
batch stages:

- **Extract** (`vapi_extract.py`) projects every raw call record onto thirteen
  fixed keys. Two of them are derived: the duration comes from the last
  message, and the transfers come from the call's artifact.
- **Analyse** (`vapi_analyze.py`) sends every call that has a transcript to a
  language model. It cleans the Markdown fence off the reply, decodes it, and
  writes the outcome into the record's `llm_analysis` field: `None`, the
  decoded document, or an error object. It then counts successes, skips and
  errors.
- **View** (`vapi_resolution.py`, `vapi_heatmap.py`) loads the analysed calls
  and keeps those with a usable analysis. It derives one file-info record per
  kept call, with its defaults, the first valid transfer destination and a
  tri-state transfer success. It groups the records by resolution type,
  filters them with eight sidebar tests, and builds two views: the node and
  link lists of a Sankey diagram, and the counts behind a 3-D scatter plot and
  a 2-D heat map.

The model, module by module:

- `Json`: decoded JSON documents, with Python truthiness, `or`, `get` and
  hashability.
- `Dict`: Python's insertion-ordered `dict`, `defaultdict(list)` and
  `Counter`, as association lists.
- `Text`: ASCII `strip`, `find`/`rfind`, `replace(.., 1)`, `rsplit(.., 1)`
  and slicing.
- `Sorting`: the stable `sorted(.., reverse=True)` by size and
  `sorted(set(..))` on strings.
- `Extract`, `Analyze`, `Resolution`, `Filters`, `Sankey` and `Heatmap`: the
  stages themselves.

Where the source mutates state, the model does too:

- The analyser annotates an `array` of records in place.
- The loader, the extractor, the aggregation and the plot-point collection
  are loops proved against specification functions.
- The Sankey diagram is a class whose parallel lists grow by `AddNode` and
  `AddLink` under the invariant `Valid`.
- The heat-map grid is a pair of `array2`s filled row by row.

The language-model client and the JSON decoder are parameters:

- `Client = (model, prompt) -> Result<reply text, error message>`
- `Decoder = text -> Option<Json>`

## Model

| member | source | states |
|---|---|---|
| Analyze.SkipsIff | vapi_analyze.py:53-57 | A call is skipped exactly when its transcript is missing, not a string, or blank; a missing key always skips |
| Analyze.SkippedIgnoresClient | vapi_analyze.py:56-60 | A skipped call's outcome is `Skipped` whatever client and decoder are used, and no prompt is sent for it |
| Analyze.AnnotatedSkipped | vapi_analyze.py:57-60 | A skipped call gets `llm_analysis = None` |
| Analyze.CleanFenced | vapi_analyze.py:89-96 | Cleaning "```json\n" + s + "\n```" gives back any trimmed s |
| Analyze.CleanUnfenced | vapi_analyze.py:89-96 | Cleaning trimmed text that neither starts with "```json" nor ends with "```" changes nothing |
| Analyze.CleanKeepsBareFence | vapi_analyze.py:92-96 | A bare opening "```" without the `json` tag is not removed; only the closing fence is |
| Analyze.CleanIsTrimmed | vapi_analyze.py:96 | The cleaned reply never has leading or trailing whitespace |
| Analyze.FenceIsTransparent | vapi_analyze.py:89-105 | A fenced reply and the bare reply lead to the same outcome |
| Analyze.ReplyDependsOnCleanedText | vapi_analyze.py:89-105 | Two replies that clean to the same text lead to the same outcome |
| Analyze.ReplyOutcomeOfText | vapi_analyze.py:99-105 | A reply decodes to `Parsed(doc)` when the decoder accepts the cleaned text, and otherwise to `InvalidJson` of the cleaned text's first 500 characters |
| Analyze.AnnotatedDecoded | vapi_analyze.py:99-101 | When decoding succeeds, `llm_analysis` is exactly the decoded value |
| Analyze.AnnotatedInvalid | vapi_analyze.py:103-105 | When decoding fails, `llm_analysis` is an error object holding "Invalid JSON response" and the first min(500, length) characters of the cleaned text |
| Analyze.InvalidJsonFields | vapi_analyze.py:105 | The invalid-JSON error object has its `error` and `raw` fields |
| Analyze.AnnotatedFailure | vapi_analyze.py:107-109 | A client failure yields `{"error": message}` with no other key, in particular no `raw` |
| Analyze.AnnotatedChangesOnlyAnalysis | vapi_analyze.py:59-109 | Annotating changes no field but `llm_analysis`, which keeps its position or is appended last |
| Analyze.AnalysisIsOutcome | vapi_analyze.py:59-109 | The field written is the JSON form of the call's outcome |
| Analyze.AnalysisFor | vapi_analyze.py:52-111 | Computes the skip/clean/parse/outcome steps; its result is the outcome's JSON and it reports the prompts it sent |
| Analyze.AnalyzeSingleTranscript | vapi_analyze.py:38-111 | Sets `llm_analysis` of record i in place, leaves every other record untouched, and sends the full prompt (instructions + transcript) only for a non-skipped call |
| Analyze.AnalyzeAllCalls | vapi_analyze.py:114-141 | Without the client library the records come back unchanged and nothing is sent; otherwise result j is record j annotated, in input order, with the input's length |
| Analyze.PromptsCount | vapi_analyze.py:134-140 | The client is called once per call that is not skipped |
| Analyze.ClassesPartition | vapi_analyze.py:201-203 | The success, skipped and error tests are pairwise disjoint; a record passing none of them is uncounted |
| Analyze.TallyPartition | vapi_analyze.py:201-203 | success + skipped + errors + uncounted == total |
| Analyze.TallyComplete | vapi_analyze.py:201-203 | The three counts add up to the total when every `llm_analysis` is `None`, a dict or a truthy non-dict |
| Analyze.TallyWithoutClient | vapi_analyze.py:201-203 | When no record has `llm_analysis`, every record is counted as skipped |
| Analyze.OutcomeCounted | vapi_analyze.py:201-203 | A skipped outcome counts as skipped, an invalid reply or a failure as an error, and a decoded document as a success exactly when its success test holds |
| Analyze.TallyMissesFalsyReply | vapi_analyze.py:201-203 | A record whose `llm_analysis` is `[]` is counted in no class, so the three counts fall short of the total |
| Analyze.IntendedTallyAddsUp | vapi_analyze.py:201-203 | The corrected tally counts every record in exactly one class, with at least the source's successes |
| Extract.ExtractCalls | vapi_extract.py:14-47 | One output record per input call, in input order, each the call's projection; the returned count is the input length |
| Extract.ProjectKeys | vapi_extract.py:28-42 | Every output record has exactly the thirteen keys, in the listed order |
| Extract.ProjectCopies | vapi_extract.py:29-41 | Each copied key holds the input's value for that key, or `None` when it is absent |
| Extract.ProjectDuration | vapi_extract.py:22-40 | `durationSeconds` is the last message's `secondsFromStart` when `messages` is non-empty, and `None` otherwise |
| Extract.ProjectTransfers | vapi_extract.py:37 | `transfers` is `artifact.transfers` when `artifact` is truthy, and `None` otherwise |
| Extract.FieldOfRecord | vapi_extract.py:28-42 | The record built from the values has the listed keys, and each key reads back its value |
| Extract.RecordValues | vapi_extract.py:28-42 | The values are computed key by key, in the listed order |
| Extract.DistinctProjectedKeys | vapi_extract.py:28-42 | No key is listed twice |
| Extract.CopiedAreProjected | vapi_extract.py:28-42 | The copied keys are among the projected ones; the two derived keys are not copied |
| Resolution.KeptAfterAnalysis | vapi_resolution.py:101-104 | Skipped, invalid-reply and failed calls are never kept; a decoded call is kept exactly when its document is truthy and not an error object |
| Resolution.InfoDefaults | vapi_resolution.py:107-176 | The caller type is the analysis's value when that is a non-empty string and "unknown" otherwise; assistant and squad ids default to "unknown" and "none"; a falsy resolution type becomes "no_resolution_type"; the id defaults to `call_<idx>`; `has_resolution_type` holds iff the type is not `None` |
| Resolution.TransferFields | vapi_resolution.py:118-143 | Without a dict transfer context both transfer fields are `None`; otherwise the destination is the first non-empty string of a list or a non-empty string itself, and the success is the tri-state of the status list |
| Resolution.FirstNonEmptyString | vapi_resolution.py:127-131 | Finds a non-empty string in the list with none before it, or reports that there is none |
| Resolution.FindDestination | vapi_resolution.py:127-131 | The loop with `break` returns the first non-empty string of the list |
| Resolution.FirstIsFirst | vapi_resolution.py:127-131 | When item i is the first non-empty string, that is the destination |
| Resolution.NoneIsNone | vapi_resolution.py:127-131 | A list without non-empty strings gives no destination |
| Resolution.BoolsOf | vapi_resolution.py:139 | The booleans collected are exactly the booleans in the list |
| Resolution.ConnectionStatusTriState | vapi_resolution.py:135-143 | The success is `None` for a non-list or a list without booleans, True iff some boolean is True, and False iff there are booleans and none of them is True |
| Resolution.ReadTransferContext | vapi_resolution.py:118-143 | Computes both transfer fields as the specification function does |
| Resolution.UnescapeHead | vapi_resolution.py:146-148 | The transcript's literal backslash-n becomes a newline, one position at a time |
| Resolution.UnescapeLeavesNoEscape | vapi_resolution.py:146-148 | No backslash-n sequence is left after the replacement |
| Resolution.UnescapeNoBackslash | vapi_resolution.py:146-148 | A transcript without backslashes is unchanged |
| Resolution.DeriveFileInfo | vapi_resolution.py:106-177 | Builds the file-info record of one kept call |
| Resolution.KeptInfos | vapi_resolution.py:100-104 | There are at most as many kept records as calls |
| Resolution.KeptInfosSnoc | vapi_resolution.py:100-104 | Each call adds its own record to the kept list, or nothing when it is not kept |
| Resolution.KeptInfosSound | vapi_resolution.py:100-177 | Every kept record derives from its own call, whose index it holds, and that call passes the keep test |
| Resolution.KeptInfosOrdered | vapi_resolution.py:100 | The kept records are in the order of the input calls |
| Resolution.KeptInfosComplete | vapi_resolution.py:100-104 | Every call passing the keep test has its record in the kept list |
| Resolution.LoadVapiData | vapi_resolution.py:91-182 | The loop produces `json_files`, keyed by id over the kept records, and `resolution_types`, the kept records grouped by type |
| Dict.IndexByGet | vapi_resolution.py:179 | Keying by id keeps the last record with each id, so a later duplicate overwrites an earlier one |
| Dict.LastWith | vapi_resolution.py:179 | The record found has the key, and no later record has it |
| Dict.GroupByGet | vapi_resolution.py:180-181 | Each group holds exactly the records with its key, in input order, and empty groups are absent |
| Dict.GroupBySizes | vapi_resolution.py:180-181 | The group sizes add up to the number of records, so each record is in exactly one group |
| Dict.CountByTotal | vapi_resolution.py:206-211 | The counts of a counter add up to the number of elements counted |
| Dict.CountByGet | vapi_heatmap.py:29-34 | The count of a key is the number of elements with that key, and a key is present iff some element has it |
| Sorting.SortDescCorrect | vapi_resolution.py:377 | Sorting by size in reverse gives a non-increasing order and the same elements |
| Sorting.SortDescTotal | vapi_resolution.py:377 | Sorting keeps every sum over the elements |
| Sorting.SortedUnique | vapi_heatmap.py:41-43 | `sorted(set(xs))` is strictly ascending and holds exactly the members of xs |
| Sorting.IndexOfInverse | vapi_heatmap.py:45-47 | On a sorted distinct list, the value-to-index map inverts indexing |
| Sorting.InsertUnique | vapi_heatmap.py:41-43 | Adding a string to an ascending list keeps it ascending and adds exactly that string |
| Text.StripIsTrimmedInfix | vapi_analyze.py:89-96 | `strip` returns a trimmed slice of the text with only whitespace on either side of it |
| Text.StripEmptyIffBlank | vapi_analyze.py:57 | A text strips to nothing exactly when it is blank |
| Text.StripPadded | vapi_analyze.py:96 | Stripping whitespace padding off a trimmed text gives the text |
| Text.RemoveFirstPrefix | vapi_analyze.py:92-93 | Replacing the first "```json" of a text that starts with it drops that prefix |
| Text.BeforeLastSuffix | vapi_analyze.py:94-95 | Cutting at the last "```" of a text that ends with it drops that suffix |
| Text.Take | vapi_analyze.py:105 | `raw[:500]` is the prefix of length min(500, length) |
| Text.FindFrom | vapi_analyze.py:93 | Returns the first occurrence of the pattern at or after the start, or -1 when there is none |
| Text.RFindUpTo | vapi_analyze.py:95 | Returns the last occurrence of the pattern at or before the bound, or -1 when there is none |
| Sankey.ResolutionPartition | vapi_resolution.py:196-198 | resolved + unresolved + unknown == total, and `unknown_count` is the number of records whose value is neither True nor False |
| Sankey.TypeCountsAddUp | vapi_resolution.py:205-211 | The per-type counts of the resolved records add up to the resolved count |
| Sankey.TransferPartition | vapi_resolution.py:223-226 | Connected + failed + unknown transfers == the number of transfer records |
| Sankey.UnknownLinkAsWrittenMismatch | vapi_resolution.py:289-316 | For a record whose `resolution_achieved` is "yes", the unknown link has value 1 while the list of records it carries, as written, is empty |
| Sankey.UnknownAgreesOnBooleans | vapi_resolution.py:289 | The as-written and corrected unknown lists agree when every value is True, False or None |
| Sankey.RootConservation | vapi_resolution.py:291-316 | With the corrected unknown list, the links out of All Calls carry every record once, and none of them is empty |
| Sankey.RootLinkTotal | vapi_resolution.py:291-316 | A root link carries exactly the records of its category, and only exists when there is one |
| Sankey.DiagramStartsWithRootLinks | vapi_resolution.py:291-316 | The first links of the diagram are the root links |
| Sankey.SortedGroups | vapi_resolution.py:320-372 | Grouped and sorted lists of records hold no empty group and carry all records |
| Sankey.CallerFanOut | vapi_resolution.py:319-372 | The caller links of one side carry all the records of that side, none empty |
| Sankey.TypeGroupAt | vapi_resolution.py:374-407 | The j-th type node carries the records of that type, and their number is the type's count |
| Sankey.TypeFanOut | vapi_resolution.py:374-407 | One type link per sorted type, each carrying that type's records in input order, adding up to all records of the side |
| Sankey.DestFanOut | vapi_resolution.py:513-561 | The destination links of one outcome carry all its records, none empty |
| Sankey.ActionFanOut | vapi_resolution.py:563-619 | The action links skip `no_secondary_action` and carry at most the outcome's records, none empty |
| Sankey.TotalFilter | vapi_resolution.py:603-605 | Dropping groups never raises the total |
| Sankey.Diagram.constructor | vapi_resolution.py:267 | The diagram starts with the All Calls node and no link |
| Sankey.Diagram.AddNode | vapi_resolution.py:267-279 | Appends one node at the next index and keeps every link valid |
| Sankey.Diagram.AddLink | vapi_resolution.py:291-298 | Appends the source, target, value, records and label of one link at index `link_index`, keeping the four parallel lists and `link_sources` in step, each end an existing node and each value positive |
| Sankey.Diagram.AddFanOut | vapi_resolution.py:319-372 | Appends one node per group and one link from the parent into each |
| Sankey.TallyTypes | vapi_resolution.py:206-211 | The loop's `type_counts` and `type_files` are the counter and the grouping of the records by type |
| Sankey.SplitBy | vapi_resolution.py:320-330 | One pass groups the two disjoint sides of the records separately |
| Sankey.KeyPos | vapi_resolution.py:472-476 | Finds the first position of a key, or reports that it is absent |
| Sankey.FindKey | vapi_resolution.py:472-476 | The search loop with `break` returns the first position of the type |
| Sankey.TransferSplits | vapi_resolution.py:468-484 | The per-type transfer splits, for the two transfer types present |
| Sankey.HeadCounts | vapi_resolution.py:196-289 | Computes the three categories and `unknown_count`; the unknown list is the corrected one of the second finding (records neither True nor False) |
| Sankey.CallerSplit | vapi_resolution.py:319-330 | Computes the caller groups of both sides |
| Sankey.DestSplit | vapi_resolution.py:515-527 | Computes the destination groups of both outcomes |
| Sankey.ActionSplit | vapi_resolution.py:565-577 | Computes the action groups of both outcomes |
| Sankey.FanGroups | vapi_resolution.py:205-436 | Computes the caller and type groups the options ask for |
| Sankey.TransferGroups | vapi_resolution.py:223-619 | Computes the transfer counts, splits, destinations and actions, each only when its option and guard are on |
| Sankey.ComputeLayout | vapi_resolution.py:196-230 | Computes every count and group of the diagram |
| Sankey.LayoutOfOk | vapi_resolution.py:319-619 | Every group in the layout is non-empty and every split points at an existing type node |
| Sankey.AddOutcomeNodes | vapi_resolution.py:448-466 | Adds one outcome node per positive count and records the index of each |
| Sankey.LinkTypeOutcomes | vapi_resolution.py:481-511 | Adds the links from one transfer type to its outcome nodes |
| Sankey.LinkSplits | vapi_resolution.py:468-511 | Adds the outcome links of every transfer type |
| Sankey.AddOutcomeFans | vapi_resolution.py:528-561 | Hangs the groups below the connected and failed nodes that exist |
| Sankey.DrawFans | vapi_resolution.py:267-436 | Builds the head nodes, root links, caller and type fans |
| Sankey.DrawOutcomes | vapi_resolution.py:438-511 | Adds outcome nodes and links and reports where they are |
| Sankey.DrawDetail | vapi_resolution.py:438-619 | Adds outcomes, destinations and actions |
| Sankey.Draw | vapi_resolution.py:267-619 | Builds all nodes and links of a layout, keeping the diagram valid |
| Sankey.RenderResolutionFlow | vapi_resolution.py:186-619 | No diagram for no records; otherwise a valid diagram whose nodes and links are those of the records' layout, with the corrected unknown root link of the second finding |
| Filters.AchievedClasses | vapi_resolution.py:888-895 | Each record is in exactly one of the three achieved classes, and passes exactly when its class is selected |
| Filters.TransferClasses | vapi_resolution.py:903-910 | Each record is in exactly one of the three transfer classes, and passes exactly when its class is selected |
| Filters.AllOptionsKeepAll | vapi_resolution.py:800-838 | Selecting all three options of a three-way filter keeps every record |
| Filters.NoDurationPasses | vapi_resolution.py:911-915 | A record without a duration passes every range |
| Filters.FilteredFiles | vapi_resolution.py:924-934 | The filtered list is no longer than the input |
| Filters.FilteredMembers | vapi_resolution.py:924-934 | The filtered list holds exactly the records that pass all eight tests |
| Filters.FilteredInOrder | vapi_resolution.py:924-934 | Filtering keeps the input order: two runs filter to the two filtered runs one after the other |
| Filters.DurationsOf | vapi_resolution.py:846 | Every duration present is collected, and none is collected only when no record has one |
| Filters.MinOf | vapi_resolution.py:848 | `min` is an element no larger than any element |
| Filters.MaxOf | vapi_resolution.py:849 | `max` is an element no smaller than any element |
| Filters.DefaultSelection | vapi_resolution.py:785-882 | The type options are exactly the loader's `resolution_types` keys, including the type of a record a later duplicate id overwrote |
| Filters.DefaultSelectionMatches | vapi_resolution.py:785-915 | A record whose type is a loader key passes every default widget |
| Filters.DefaultSelectionKeepsAll | vapi_resolution.py:785-934 | With every widget at its default and every record's type a loader key, the filtered list is the whole list |
| Filters.LoadedDefaultsKeepAll | vapi_resolution.py:718-934 | For what the loader returns, every shown record's type is a `resolution_types` key, so the default view shows all of `json_files.values()` |
| Dict.IndexByValues | vapi_resolution.py:179 | Every value of the id-keyed dict is one of the loaded records |
| Dict.GroupByKeys | vapi_resolution.py:180-181 | Every loaded record's type is a key of the grouped dict, whether or not its id was overwritten |
| Heatmap.DimOr | vapi_heatmap.py:17-22 | A dimension is the field's value when that is truthy, and "unknown" otherwise |
| Heatmap.DimensionsOf | vapi_heatmap.py:10-24 | Every component of a returned triple is truthy |
| Heatmap.DimensionsNone | vapi_heatmap.py:12-24 | No triple exactly when `data` is missing or falsy, or `data` or its `call_summary` is not a dict |
| Heatmap.DimensionsDefaults | vapi_heatmap.py:17-22 | A missing or falsy resolution type, caller type or intent becomes "unknown", and a truthy one is kept |
| Heatmap.LoadedRecordsHaveDimensions | vapi_heatmap.py:13-22 | Every record the loader keeps has dimensions |
| Heatmap.AggregateVapiData | vapi_heatmap.py:27-36 | The counting loop computes the counter of the triples of the records that have one |
| Heatmap.AggregateTotal | vapi_heatmap.py:29-36 | The counts add up to the number of records with dimensions |
| Heatmap.AggregatePositive | vapi_heatmap.py:29-36 | No triple is stored twice, and every stored count is at least 1 |
| Heatmap.SelectDims | vapi_heatmap.py:31-34 | The records counted under a triple are those whose triple it is |
| Heatmap.AggregateCount | vapi_heatmap.py:29-36 | The count of a triple is the number of records with that triple, and it is stored iff there is one |
| Heatmap.NamesOf | vapi_heatmap.py:41-43 | The names on an axis are the chosen component of every key |
| Heatmap.AxisSpec | vapi_heatmap.py:41-47 | Each axis is sorted and duplicate-free, holds exactly the keys' components, and its index map inverts it |
| Heatmap.SelectedMembers | vapi_heatmap.py:58-59 | A point is drawn exactly for the keys whose count reaches `min_count` |
| Heatmap.NamedPrefix | vapi_heatmap.py:58 | A prefix of string-valued keys is string-valued |
| Heatmap.PlotPoints | vapi_heatmap.py:49-66 | One point per selected key, in counter order, at that key's index on each axis, coloured by its count |
| Heatmap.CreateFigure3D | vapi_heatmap.py:39-66 | The axes are the sorted distinct components, and the points are as `PlotPoints` places them |
| Heatmap.Aggregate2D | vapi_heatmap.py:146-156 | The loop computes the 2-D projection of the counter and the names seen on both dimensions |
| Heatmap.ProjectTotal | vapi_heatmap.py:151-165 | The 2-D counts add up to the same total as the 3-D counts |
| Heatmap.ProjectCell | vapi_heatmap.py:151-156 | Each cell is the sum of the counts of the triples that project onto it |
| Heatmap.ProjectDistinct | vapi_heatmap.py:151-156 | No pair is stored twice in the 2-D counter |
| Heatmap.CellText | vapi_heatmap.py:171-175 | A text cell is empty iff its value is 0 |
| Heatmap.PercentDefined | vapi_heatmap.py:171-172 | A positive cell implies a positive total, so the percentage is defined |
| Heatmap.AbsentPairZero | vapi_heatmap.py:169 | A pair absent from the counter reads as 0 |
| Heatmap.FillRow | vapi_heatmap.py:168-175 | Fills one row of both grids with the cell values and texts and changes no other row |
| Heatmap.FillGrid | vapi_heatmap.py:161-175 | Fresh grids of `len(sorted_d2)` rows by `len(sorted_d1)` columns, each cell the pair's count and its text |
| Heatmap.CreateFigure2D | vapi_heatmap.py:141-175 | The grid axes are the sorted distinct names, and each cell holds the sum of the triples that project onto it, with its text over the 3-D total |

## Left out

- Floating point is not modelled: percentages, marker sizes, `max_count`, the `float()` of durations, the duration sums and their formatting. A numeric-string `durationSeconds` such as "30", which `float()` accepts, reads as no duration. JSON numbers and durations are integers, and the duration slider compares integers.
- Streamlit and Plotly are not modelled: widgets, CSS, session state, search and pagination, figure layout, colours and hover text. Widget values become `Options` and `Selection` parameters.
- File I/O, `argparse`, `print` logging, `st.cache_data` and `load_prompt` are not modelled.
- The asyncio semaphore, `gather` and the thread pool are not modelled. The batch is a sequential loop, which is what `gather`'s result order makes observable; the bound on calls in flight is not.
- The Gemini client, its configuration and `get_api_key` are a `Client` parameter. The `utils` module is not part of this model.
- `json.loads`, `json.load` and `json.dump` are a `Decoder` parameter or are left out. An exception from the client is its `Failure` message.
- `str.strip` is ASCII whitespace only, with no Unicode semantics.
- Python dicts treat `1` and `True` as the same key; the model keeps them apart.
- Node and link labels are kept as the data they are formatted from, so the `.replace('_', ' ').title()` of type and action names is left out. A truthy non-string `resolution_type` or `secondary_action` makes that `.replace` raise (vapi_resolution.py:390, 422, 587 and 607), where the model still draws the diagram.
- The percentage text of a heat-map cell is a `percent` parameter.
- Heatmap.CreateFigure2D: the `dim1_vals`/`dim2_vals` sets are lists with repeats, which are then sorted and made distinct. Its axes must be strings, because Python can only sort a set of mixed values when they are comparable.
- Heatmap.CreateFigure3D: it needs string-valued dimensions for the same reason.
- Heatmap.AggregateVapiData: it requires every triple to be hashable, since a list or dict dimension would make `Counter` raise.
- Heatmap.HeatmapRecord reads only the `data` field of a file-info record, because that is the only one the extraction reads.
- Filters.DefaultSelection: the type options are a set, where the source sorts the keys and puts `no_resolution_type` last; the order of the options is not modelled, nor the error that sorting keys of mixed kinds raises. When two kept calls share an id, the keys can hold the type of the overwritten record, which no shown record has; the model offers that option too, and it changes no filtered list.
- Filters.DurationRange: it takes the integer minimum and maximum, where the source truncates float durations with `int()`.
- Analyze.SkipsIff, Analyze.AnalyzeSingleTranscript, Analyze.AnalyzeAllCalls: they require a missing or string transcript or a falsy one, because any other value makes `strip()` raise outside the `try`.
- Extract.ExtractCalls: it requires every truthy `messages` to be a list whose last item is a dict and every truthy `artifact` to be a dict; other values make the source raise.
- Resolution.LoadVapiData: it requires of each kept call a dict analysis, a missing or dict `call_summary`, a missing or string or falsy transcript, and a hashable id and type; other values make the source raise.
- Sankey.RenderResolutionFlow / Sankey.HeadCounts: the unknown root link carries the records neither True nor False (the corrected list of the second finding); the source's carries only the None ones, so its value can differ from the number of records it lists.
- Sankey.RenderResolutionFlow: the figure is built after all lists; the flow selector below the chart, which reads `link_labels` and `link_sources`, is not modelled.
- Heatmap.ProjectTotal: the grid total is stated over the 2-D counter, `sum(agg_counts.values())`, rather than as a double sum over the grid cells.
- Sorting.SortDesc: it is a stable insertion sort standing for Python's stable `sorted`; the order and the permutation are proved, the stability itself is not stated.

## Findings

| source | as written | input that shows it | evidently intended | confidence | as-written member | corrected member |
|---|---|---|---|---|---|---|
| vapi_analyze.py:201-203 | success counts `(truthy and not dict) or (dict without error)`, skipped counts `None`, errors count dicts with `error` | a record whose `llm_analysis` is `[]` (or `0`, `""`, `False`) is in no class, so the three counts do not add up to the number processed | every record counted once: success is every record that is neither skipped nor an error | not executed | Analyze.TallyMissesFalsyReply | Analyze.IntendedTallyAddsUp |
| vapi_resolution.py:289 | `unknown_count` counts every record whose `resolution_achieved` is neither True nor False, but `unknown_files_list` keeps only those whose value is `None` | one record with `resolution_achieved = "yes"`: the All Calls → Unknown link has value 1 and carries no record | the unknown link carries the records it counts, those neither True nor False | not executed | Sankey.UnknownLinkAsWrittenMismatch | Sankey.RootConservation |
