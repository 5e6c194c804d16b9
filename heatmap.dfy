// The heatmap page: each call record reduced to three dimensions, a Counter
// of the triples, the index bookkeeping of the 3-D scatter plot and the
// 2-D grid a pair of dimensions is projected onto.

module Heatmap {
  import opened Wrappers
  import opened Json
  import Dict
  import opened Sorting
  import opened Text
  import opened Resolution

  /** (resolution type, caller type, primary intent) */
  type Dims = (Json, Json, Json)

  const Unknown := JStr("unknown")

  // ----- extract_dimensions_from_call -----

  /** `o.get(k, 'unknown') or 'unknown'` */
  function DimOr(o: Object, k: string): (r: Json)
    ensures Truthy(r)
    ensures !Truthy(Field(o, k)) ==> r == Unknown
    ensures Truthy(Field(o, k)) ==> r == Field(o, k)
  {
    Or(FieldOr(o, k, Unknown), Unknown)
  }

  /** `call_info.get('data', {})` */
  function DataOf(callInfo: Object): Json {
    FieldOr(callInfo, "data", JObj([]))
  }

  /** `data.get('call_summary', {})` */
  function CallSummaryOf(data: Object): Json {
    FieldOr(data, "call_summary", JObj([]))
  }

  /**
   * The three dimensions of one record. Calling `.get` on a `data` or a call
   * summary that is not a dict raises, and the handler turns that into None.
   */
  function DimensionsOf(callInfo: Object): (r: Option<Dims>)
    ensures r.Some? ==> Truthy(r.value.0) && Truthy(r.value.1) && Truthy(r.value.2)
  {
    var data := DataOf(callInfo);
    if !Truthy(data) || !data.JObj? then None
    else
      var summary := CallSummaryOf(data.fields);
      if !summary.JObj? then None
      else Some((DimOr(summary.fields, "resolution_type"), DimOr(data.fields, "caller_type"), DimOr(summary.fields, "primary_intent")))
  }

  /** A record has no dimensions exactly when its data is falsy or not a dict, or its call summary is not a dict. */
  lemma DimensionsNone(callInfo: Object)
    ensures var data := DataOf(callInfo);
      DimensionsOf(callInfo).None? <==> !Truthy(data) || !data.JObj? || !CallSummaryOf(data.fields).JObj?
  {
  }

  /** Each dimension is the record's own value when that is truthy and `'unknown'` otherwise. */
  lemma DimensionsDefaults(callInfo: Object)
    requires DimensionsOf(callInfo).Some?
    ensures var data := DataOf(callInfo).fields;
      var summary := CallSummaryOf(data).fields;
      var r := DimensionsOf(callInfo).value;
      && r.0 == (if Truthy(Field(summary, "resolution_type")) then Field(summary, "resolution_type") else Unknown)
      && r.1 == (if Truthy(Field(data, "caller_type")) then Field(data, "caller_type") else Unknown)
      && r.2 == (if Truthy(Field(summary, "primary_intent")) then Field(summary, "primary_intent") else Unknown)
  {
  }

  /** The part of a loaded record the heatmap reads: its analysis under `'data'`. */
  function HeatmapRecord(f: FileInfo): Object {
    [("data", JObj(f.data))]
  }

  /** Every call the loader keeps has dimensions: its analysis is a non-empty dict with a dict summary. */
  lemma LoadedRecordsHaveDimensions(call: Object, idx: nat)
    requires Kept(call) && LoadOk(call)
    ensures DimensionsOf(HeatmapRecord(InfoOf(call, idx))).Some?
  {
    var f := InfoOf(call, idx);
    assert Dict.Keys(HeatmapRecord(f)) == ["data"];
    assert DataOf(HeatmapRecord(f)) == JObj(AnalysisOf(call));
  }

  // ----- aggregate_vapi_data -----

  predicate HasDims(callInfo: Object) {
    DimensionsOf(callInfo).Some?
  }

  function DimsOf(callInfo: Object): Dims {
    DimensionsOf(callInfo).GetOr((Unknown, Unknown, Unknown))
  }

  /** A tuple is a valid `Counter` key only when none of its parts is a list or a dict. */
  predicate HashableDims(k: Dims) {
    Hashable(k.0) && Hashable(k.1) && Hashable(k.2)
  }

  /** The `Counter` of the triples of the records that have them, in first-seen order. */
  function Aggregate(allFiles: seq<Object>): seq<(Dims, nat)> {
    Dict.CountBy(Dict.Filter(allFiles, HasDims), DimsOf)
  }

  method AggregateVapiData(allFiles: seq<Object>) returns (counts: seq<(Dims, nat)>)
    requires forall i :: 0 <= i < |allFiles| && HasDims(allFiles[i]) ==> HashableDims(DimsOf(allFiles[i]))
    ensures counts == Aggregate(allFiles)
  {
    counts := [];
    for i := 0 to |allFiles|
      invariant counts == Aggregate(allFiles[..i])
    {
      var callInfo := allFiles[i];
      ghost var kept := Dict.Filter(allFiles[..i], HasDims);
      assert allFiles[..i + 1] == allFiles[..i] + [callInfo];
      Dict.FilterSnoc(allFiles[..i], callInfo, HasDims);
      var dims := DimensionsOf(callInfo);
      if dims.Some? {
        assert Dict.Filter(allFiles[..i + 1], HasDims) == kept + [callInfo];
        Dict.CountBySnoc(kept, callInfo, DimsOf);
        assert DimsOf(callInfo) == dims.value;
        counts := Dict.AddTo(counts, dims.value, 1);
      } else {
        assert Dict.Filter(allFiles[..i + 1], HasDims) == kept;
      }
    }
    assert allFiles[..|allFiles|] == allFiles;
  }

  /** The counts add up to the number of records that have dimensions. */
  lemma AggregateTotal(allFiles: seq<Object>)
    ensures Dict.SumOf(Aggregate(allFiles), Dict.Id) == |Dict.Filter(allFiles, HasDims)|
  {
    Dict.CountByTotal(Dict.Filter(allFiles, HasDims), DimsOf);
  }

  /** Every stored count is at least 1, and no triple is stored twice. */
  lemma AggregatePositive(allFiles: seq<Object>)
    ensures Dict.Distinct(Dict.Keys(Aggregate(allFiles)))
    ensures forall i :: 0 <= i < |Aggregate(allFiles)| ==> Aggregate(allFiles)[i].1 >= 1
  {
    var xs := Dict.Filter(allFiles, HasDims);
    Dict.CountByDistinct(xs, DimsOf);
    forall i | 0 <= i < |Aggregate(allFiles)| ensures Aggregate(allFiles)[i].1 >= 1 {
      Dict.CountByPositive(xs, DimsOf, i);
    }
  }

  /** The records whose dimensions are `k`. */
  function WithDims(allFiles: seq<Object>, k: Dims): seq<Object> {
    Dict.Filter(allFiles, x => DimensionsOf(x) == Some(k))
  }

  lemma {:induction false} SelectDims(allFiles: seq<Object>, k: Dims)
    ensures Dict.Select(Dict.Filter(allFiles, HasDims), DimsOf, k) == WithDims(allFiles, k)
  {
    if allFiles != [] {
      var n := |allFiles| - 1;
      var x := allFiles[n];
      SelectDims(allFiles[..n], k);
      var before := Dict.Filter(allFiles[..n], HasDims);
      var hit := DimensionsOf(x) == Some(k);
      assert WithDims(allFiles, k) == WithDims(allFiles[..n], k) + (if hit then [x] else []);
      assert Dict.Filter(allFiles, HasDims) == before + (if HasDims(x) then [x] else []);
      var lhs := Dict.Select(Dict.Filter(allFiles, HasDims), DimsOf, k);
      if HasDims(x) {
        Dict.SelectSnoc(before, x, DimsOf, k);
        assert (DimsOf(x) == k) == hit;
        assert lhs == Dict.Select(before, DimsOf, k) + (if hit then [x] else []);
      } else {
        assert !hit;
        assert before + [] == before;
        assert Dict.Filter(allFiles, HasDims) == before;
        assert lhs == Dict.Select(before, DimsOf, k);
        assert WithDims(allFiles[..n], k) + [] == WithDims(allFiles[..n], k);
      }
    }
  }

  /** `counts[k]` is the number of records whose dimensions are `k`; the others read as 0. */
  lemma AggregateCount(allFiles: seq<Object>, k: Dims)
    ensures Dict.Count(Aggregate(allFiles), k) == |WithDims(allFiles, k)|
    ensures k in Dict.Keys(Aggregate(allFiles)) <==> WithDims(allFiles, k) != []
  {
    Dict.CountByGet(Dict.Filter(allFiles, HasDims), DimsOf, k);
    SelectDims(allFiles, k);
  }

  // ----- create_figure_3d: axes and points -----

  /** `key[d]`, for the three positions 0, 1 and 2 the callers use. */
  function Component(k: Dims, d: nat): Json {
    if d == 0 then k.0 else if d == 1 then k.1 else k.2
  }

  /** The plots sort the dimension values, which the model requires to be strings. */
  predicate Named(counts: seq<(Dims, nat)>) {
    forall i :: 0 <= i < |counts| ==> counts[i].0.0.JStr? && counts[i].0.1.JStr? && counts[i].0.2.JStr?
  }

  /** `[k[d] for k in counts.keys()]` */
  function NamesOf(counts: seq<(Dims, nat)>, d: nat): (ns: seq<string>)
    requires Named(counts) && d < 3
    ensures |ns| == |counts| && forall i :: 0 <= i < |counts| ==> JStr(ns[i]) == Component(counts[i].0, d)
  {
    if counts == [] then []
    else
      var n := |counts| - 1;
      assert forall i :: 0 <= i < n ==> counts[..n][i] == counts[i];
      NamesOf(counts[..n], d) + [Component(counts[n].0, d).s]
  }

  /** `sorted(set(k[d] for k in counts.keys()))` */
  function Axis(counts: seq<(Dims, nat)>, d: nat): seq<string>
    requires Named(counts) && d < 3
  {
    SortedUnique(NamesOf(counts, d))
  }

  /**
   * An axis lists each value of its dimension once, in ascending order, and
   * `{v: i for i, v in enumerate(axis)}` inverts it: looking up the value at
   * position `i` gives back `i`.
   */
  lemma AxisSpec(counts: seq<(Dims, nat)>, d: nat)
    requires Named(counts) && d < 3
    ensures Ascending(Axis(counts, d))
    ensures forall i :: 0 <= i < |counts| ==> Component(counts[i].0, d).s in Axis(counts, d)
    ensures forall y :: y in Axis(counts, d) ==> exists i :: 0 <= i < |counts| && Component(counts[i].0, d) == JStr(y)
    ensures forall i :: 0 <= i < |Axis(counts, d)| ==> IndexOf(Axis(counts, d), Axis(counts, d)[i]) == i
  {
    var ns, axis := NamesOf(counts, d), Axis(counts, d);
    forall i | 0 <= i < |counts| ensures Component(counts[i].0, d).s in axis {
      assert ns[i] in ns;
    }
    forall y | y in axis ensures exists i :: 0 <= i < |counts| && Component(counts[i].0, d) == JStr(y) {
      var i :| 0 <= i < |ns| && ns[i] == y;
      assert Component(counts[i].0, d) == JStr(y);
    }
    forall i | 0 <= i < |axis| ensures IndexOf(axis, axis[i]) == i {
      IndexOfInverse(axis, i);
    }
  }

  /** The entries drawn as points: `count >= min_count`, in the Counter's order. */
  function Selected(counts: seq<(Dims, nat)>, minCount: int): seq<(Dims, nat)> {
    Dict.Filter(counts, (e: (Dims, nat)) => e.1 >= minCount)
  }

  /** A point is drawn for exactly the entries whose count reaches `min_count`. */
  lemma SelectedMembers(counts: seq<(Dims, nat)>, minCount: int)
    ensures forall e :: e in Selected(counts, minCount) <==> e in counts && e.1 >= minCount
  {
    Dict.FilterMember(counts, (e: (Dims, nat)) => e.1 >= minCount);
  }

  lemma NamedPrefix(counts: seq<(Dims, nat)>, n: nat)
    requires Named(counts) && n <= |counts|
    ensures Named(counts[..n])
  {
    assert forall i :: 0 <= i < n ==> counts[..n][i] == counts[i];
  }

  /** A point sits at the axis positions of its three values and is coloured by its count. */
  predicate PlacedAt(e: (Dims, nat), axes: (seq<string>, seq<string>, seq<string>), x: nat, y: nat, z: nat, color: nat) {
    && x < |axes.0| && y < |axes.1| && z < |axes.2|
    && JStr(axes.0[x]) == e.0.0 && JStr(axes.1[y]) == e.0.1 && JStr(axes.2[z]) == e.0.2
    && color == e.1
  }

  /**
   * The loop over `counts.items()` that appends one point per entry reaching
   * `min_count`: coordinates through the value-to-index maps and the count
   * as colour.
   */
  method PlotPoints(counts: seq<(Dims, nat)>, minCount: int, axes: (seq<string>, seq<string>, seq<string>))
      returns (xVals: seq<nat>, yVals: seq<nat>, zVals: seq<nat>, colors: seq<nat>)
    requires Named(counts)
    requires forall i :: 0 <= i < |counts| ==>
      && counts[i].0.0.s in axes.0 && counts[i].0.1.s in axes.1 && counts[i].0.2.s in axes.2
    ensures |xVals| == |yVals| == |zVals| == |colors| == |Selected(counts, minCount)|
    ensures forall j :: 0 <= j < |xVals| ==>
      PlacedAt(Selected(counts, minCount)[j], axes, xVals[j], yVals[j], zVals[j], colors[j])
  {
    xVals, yVals, zVals, colors := [], [], [], [];
    for i := 0 to |counts|
      invariant |xVals| == |yVals| == |zVals| == |colors| == |Selected(counts[..i], minCount)|
      invariant forall j :: 0 <= j < |xVals| ==>
        PlacedAt(Selected(counts[..i], minCount)[j], axes, xVals[j], yVals[j], zVals[j], colors[j])
    {
      var e := counts[i];
      assert counts[..i + 1] == counts[..i] + [e];
      Dict.FilterSnoc<(Dims, nat)>(counts[..i], e, (e: (Dims, nat)) => e.1 >= minCount);
      if e.1 >= minCount {
        var x, y, z := IndexOf(axes.0, e.0.0.s), IndexOf(axes.1, e.0.1.s), IndexOf(axes.2, e.0.2.s);
        xVals, yVals, zVals, colors := xVals + [x], yVals + [y], zVals + [z], colors + [e.1];
      }
    }
    assert counts[..|counts|] == counts;
  }

  /** The index part of `create_figure_3d`: the three axes and the points placed on them. */
  method CreateFigure3D(counts: seq<(Dims, nat)>, minCount: int)
      returns (axes: (seq<string>, seq<string>, seq<string>), xVals: seq<nat>, yVals: seq<nat>, zVals: seq<nat>, colors: seq<nat>)
    requires Named(counts)
    ensures axes == (Axis(counts, 0), Axis(counts, 1), Axis(counts, 2))
    ensures |xVals| == |yVals| == |zVals| == |colors| == |Selected(counts, minCount)|
    ensures forall j :: 0 <= j < |xVals| ==>
      PlacedAt(Selected(counts, minCount)[j], axes, xVals[j], yVals[j], zVals[j], colors[j])
  {
    axes := (Axis(counts, 0), Axis(counts, 1), Axis(counts, 2));
    AxisSpec(counts, 0);
    AxisSpec(counts, 1);
    AxisSpec(counts, 2);
    xVals, yVals, zVals, colors := PlotPoints(counts, minCount, axes);
  }

  // ----- create_figure_2d: projection and grid -----

  /** `(key[d1], key[d2])` */
  function Cell(k: Dims, d1: nat, d2: nat): (Json, Json) {
    (Component(k, d1), Component(k, d2))
  }

  /** `agg_counts[(key[d1], key[d2])] += count` for every entry, in order. */
  function Project(counts: seq<(Dims, nat)>, d1: nat, d2: nat): seq<((Json, Json), nat)>
    requires d1 < 3 && d2 < 3
  {
    if counts == [] then []
    else
      var n := |counts| - 1;
      Dict.AddTo(Project(counts[..n], d1, d2), Cell(counts[n].0, d1, d2), counts[n].1)
  }

  /** The 2-D counter holds the same total as the 3-D one. */
  lemma {:induction false} ProjectTotal(counts: seq<(Dims, nat)>, d1: nat, d2: nat)
    requires d1 < 3 && d2 < 3
    ensures Dict.SumOf(Project(counts, d1, d2), Dict.Id) == Dict.SumOf(counts, Dict.Id)
  {
    if counts != [] {
      var n := |counts| - 1;
      ProjectTotal(counts[..n], d1, d2);
      Dict.AddToSum(Project(counts[..n], d1, d2), Cell(counts[n].0, d1, d2), counts[n].1);
      assert counts == counts[..n] + [counts[n]];
      Dict.SumOfAppend(counts[..n], counts[n], Dict.Id);
    }
  }

  /** The entries of the 3-D counter that project onto `v`. */
  function OnCell(counts: seq<(Dims, nat)>, d1: nat, d2: nat, v: (Json, Json)): seq<(Dims, nat)>
    requires d1 < 3 && d2 < 3
  {
    Dict.Filter(counts, (e: (Dims, nat)) => Cell(e.0, d1, d2) == v)
  }

  /** Each cell of the 2-D counter is the sum of the counts of the triples that project onto it. */
  lemma {:induction false} ProjectCell(counts: seq<(Dims, nat)>, d1: nat, d2: nat, v: (Json, Json))
    requires d1 < 3 && d2 < 3
    ensures Dict.Count(Project(counts, d1, d2), v) == Dict.SumOf(OnCell(counts, d1, d2, v), Dict.Id)
  {
    if counts != [] {
      var n := |counts| - 1;
      var e := counts[n];
      var before := OnCell(counts[..n], d1, d2, v);
      ProjectCell(counts[..n], d1, d2, v);
      Dict.AddToGet(Project(counts[..n], d1, d2), Cell(e.0, d1, d2), e.1, v);
      if Cell(e.0, d1, d2) == v {
        assert OnCell(counts, d1, d2, v) == before + [e];
        Dict.SumOfAppend(before, e, Dict.Id);
      } else {
        assert OnCell(counts, d1, d2, v) == before + [];
        assert before + [] == before;
        assert Dict.Count(Project(counts, d1, d2), v) == Dict.Count(Project(counts[..n], d1, d2), v);
      }
    }
  }

  lemma ProjectDistinct(counts: seq<(Dims, nat)>, d1: nat, d2: nat)
    requires d1 < 3 && d2 < 3
    ensures Dict.Distinct(Dict.Keys(Project(counts, d1, d2)))
  {
    if counts != [] {
      var n := |counts| - 1;
      ProjectDistinct(counts[..n], d1, d2);
      Dict.AddToKeys(Project(counts[..n], d1, d2), Cell(counts[n].0, d1, d2), counts[n].1);
    }
  }

  /**
   * The aggregation loop of `create_figure_2d`. The two value sets are kept
   * as the lists of the values added to them; they are only ever sorted, and
   * sorting a list with repeats gives the same axis as sorting its set.
   */
  method Aggregate2D(counts: seq<(Dims, nat)>, d1: nat, d2: nat)
      returns (agg: seq<((Json, Json), nat)>, dim1Vals: seq<string>, dim2Vals: seq<string>)
    requires Named(counts) && d1 < 3 && d2 < 3
    ensures agg == Project(counts, d1, d2)
    ensures dim1Vals == NamesOf(counts, d1) && dim2Vals == NamesOf(counts, d2)
  {
    agg, dim1Vals, dim2Vals := [], [], [];
    for i := 0 to |counts|
      invariant Named(counts[..i])
      invariant agg == Project(counts[..i], d1, d2)
      invariant dim1Vals == NamesOf(counts[..i], d1) && dim2Vals == NamesOf(counts[..i], d2)
    {
      var (key, count) := counts[i];
      assert counts[..i + 1][..i] == counts[..i];
      NamedPrefix(counts, i + 1);
      var v1, v2 := Component(key, d1), Component(key, d2);
      agg := Dict.AddTo(agg, (v1, v2), count);
      dim1Vals, dim2Vals := dim1Vals + [v1.s], dim2Vals + [v2.s];
    }
    assert counts[..|counts|] == counts;
  }

  /**
   * The text of a cell: empty for an empty pair, else the count over the
   * percentage, whose float formatting `percent` stands for.
   */
  function CellText(val: nat, total: nat, percent: (nat, nat) -> string): (t: string)
    ensures t == "" <==> val == 0
  {
    if val > 0 then NatToString(val) + "<br>(" + percent(val, total) + "%)" else ""
  }

  /** A non-empty cell implies a non-zero total, so the percentage never divides by zero. */
  lemma PercentDefined(agg: seq<((Json, Json), nat)>, v: (Json, Json))
    requires Dict.Count(agg, v) > 0
    ensures Dict.SumOf(agg, Dict.Id) > 0
  {
    Dict.CountAtMostSum(agg, v);
  }

  /** A pair that never occurred reads as 0. */
  lemma AbsentPairZero(agg: seq<((Json, Json), nat)>, v: (Json, Json))
    requires v !in Dict.Keys(agg)
    ensures Dict.Count(agg, v) == 0
  {
    Dict.GetSome(agg, v);
  }

  /** Row `r` of the grid, column by column. */
  method FillRow(z: array2<nat>, text: array2<string>, r: nat, agg: seq<((Json, Json), nat)>,
                 sortedD1: seq<string>, d2: string, total: nat, percent: (nat, nat) -> string)
    requires z.Length0 == text.Length0 && r < z.Length0
    requires z.Length1 == text.Length1 == |sortedD1|
    modifies z, text
    ensures forall rr, c :: 0 <= rr < z.Length0 && rr != r && 0 <= c < z.Length1 ==>
      z[rr, c] == old(z[rr, c]) && text[rr, c] == old(text[rr, c])
    ensures forall c :: 0 <= c < z.Length1 ==>
      z[r, c] == Dict.Count(agg, (JStr(sortedD1[c]), JStr(d2))) && text[r, c] == CellText(z[r, c], total, percent)
  {
    for c := 0 to |sortedD1|
      invariant forall rr, cc :: 0 <= rr < z.Length0 && rr != r && 0 <= cc < z.Length1 ==>
        z[rr, cc] == old(z[rr, cc]) && text[rr, cc] == old(text[rr, cc])
      invariant forall cc :: 0 <= cc < c ==>
        z[r, cc] == Dict.Count(agg, (JStr(sortedD1[cc]), JStr(d2))) && text[r, cc] == CellText(z[r, cc], total, percent)
    {
      var val := Dict.Count(agg, (JStr(sortedD1[c]), JStr(d2)));
      z[r, c] := val;
      if val > 0 {
        text[r, c] := NatToString(val) + "<br>(" + percent(val, total) + "%)";
      } else {
        text[r, c] := "";
      }
    }
  }

  /**
   * `z_data` and `text_data`: one row per value of the second dimension, one
   * column per value of the first, each cell the pair's count (0 when the
   * pair never occurs) and its text.
   */
  method FillGrid(agg: seq<((Json, Json), nat)>, sortedD1: seq<string>, sortedD2: seq<string>, percent: (nat, nat) -> string)
      returns (z: array2<nat>, text: array2<string>)
    ensures fresh(z) && fresh(text)
    ensures z.Length0 == text.Length0 == |sortedD2| && z.Length1 == text.Length1 == |sortedD1|
    ensures forall r, c :: 0 <= r < |sortedD2| && 0 <= c < |sortedD1| ==>
      && z[r, c] == Dict.Count(agg, (JStr(sortedD1[c]), JStr(sortedD2[r])))
      && text[r, c] == CellText(z[r, c], Dict.SumOf(agg, Dict.Id), percent)
  {
    z := new nat[|sortedD2|, |sortedD1|]((i, j) => 0);
    text := new string[|sortedD2|, |sortedD1|]((i, j) => "");
    var total := Dict.SumOf(agg, Dict.Id);
    for r := 0 to |sortedD2|
      invariant forall rr, c :: 0 <= rr < r && 0 <= c < |sortedD1| ==>
        && z[rr, c] == Dict.Count(agg, (JStr(sortedD1[c]), JStr(sortedD2[rr])))
        && text[rr, c] == CellText(z[rr, c], total, percent)
    {
      FillRow(z, text, r, agg, sortedD1, sortedD2[r], total, percent);
    }
  }

  /** The grid part of `create_figure_2d`: project, sort both value sets, fill the grid. */
  method CreateFigure2D(counts: seq<(Dims, nat)>, d1: nat, d2: nat, percent: (nat, nat) -> string)
      returns (sortedD1: seq<string>, sortedD2: seq<string>, z: array2<nat>, text: array2<string>)
    requires Named(counts) && d1 < 3 && d2 < 3
    ensures sortedD1 == Axis(counts, d1) && sortedD2 == Axis(counts, d2)
    ensures fresh(z) && fresh(text)
    ensures z.Length0 == text.Length0 == |sortedD2| && z.Length1 == text.Length1 == |sortedD1|
    ensures forall r, c :: 0 <= r < |sortedD2| && 0 <= c < |sortedD1| ==>
      && z[r, c] == Dict.SumOf(OnCell(counts, d1, d2, (JStr(sortedD1[c]), JStr(sortedD2[r]))), Dict.Id)
      && text[r, c] == CellText(z[r, c], Dict.SumOf(counts, Dict.Id), percent)
  {
    var agg, dim1Vals, dim2Vals := Aggregate2D(counts, d1, d2);
    sortedD1, sortedD2 := SortedUnique(dim1Vals), SortedUnique(dim2Vals);
    z, text := FillGrid(agg, sortedD1, sortedD2, percent);
    ProjectTotal(counts, d1, d2);
    forall r, c | 0 <= r < |sortedD2| && 0 <= c < |sortedD1|
      ensures z[r, c] == Dict.SumOf(OnCell(counts, d1, d2, (JStr(sortedD1[c]), JStr(sortedD2[r]))), Dict.Id)
    {
      ProjectCell(counts, d1, d2, (JStr(sortedD1[c]), JStr(sortedD2[r])));
    }
  }
}
