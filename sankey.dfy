/**
 * The bookkeeping of `render_resolution_flow` (vapi_resolution.py): how the
 * records are counted and split, and how the Sankey diagram's parallel
 * lists of nodes and links are built up. Node and link labels are kept as
 * the data they are formatted from; percentages, colours and the Plotly
 * figure are left out, and the diagram's checkboxes are the `Options`.
 */
module Sankey {
  import opened Wrappers
  import opened Json
  import Dict
  import Sorting
  import opened Resolution

  const NoSecondaryAction := "no_secondary_action"
  const UnknownDestination := "Unknown Destination"

  datatype Side = OfResolved | OfUnresolved

  /** What each node stands for; its label is formatted from this and the counts. */
  datatype Node =
    | AllCalls
    | ResolvedNode
    | UnresolvedNode
    | UnknownNode
    | CallerNode(side: Side, callerType: string)
    | TypeNode(side: Side, resolutionType: Json)
    | ConnectedNode
    | FailedNode
    | TransferUnknownNode
    | DestinationNode(connected: bool, destination: string)
    | ActionNode(connected: bool, action: Json)

  /** A link label names its two ends and its value. */
  datatype LinkLabel = LinkLabel(from: Node, to: Node, count: nat)

  /** A link as the diagram's parallel lists hold it: source index, target index, the records it carries. */
  datatype Link = Link(source: nat, target: nat, files: seq<FileInfo>)

  /** The six checkboxes of the diagram controls. */
  datatype Options = Options(
    showResolutionTypes: bool,
    splitByCallerType: bool,
    expandUnresolved: bool,
    showTransferOutcomes: bool,
    showTransferDestinations: bool,
    showSecondaryActions: bool)

  /** A node to add together with the records of the link that leads into it. */
  type Group = (Node, seq<FileInfo>)

  // ----- counts -----

  function ResolvedFiles(fs: seq<FileInfo>): seq<FileInfo> {
    Dict.Filter(fs, IsResolved)
  }

  function UnresolvedFiles(fs: seq<FileInfo>): seq<FileInfo> {
    Dict.Filter(fs, IsUnresolved)
  }

  /** The records counted as unknown: `resolution_achieved` is neither True nor False. */
  function UnknownFiles(fs: seq<FileInfo>): seq<FileInfo> {
    Dict.Filter(fs, IsUnsettled)
  }

  /** `unknown_count = total - resolved_count - unresolved_count` */
  function UnknownCount(fs: seq<FileInfo>): int {
    |fs| - |ResolvedFiles(fs)| - |UnresolvedFiles(fs)|
  }

  function TransferFiles(fs: seq<FileInfo>): seq<FileInfo> {
    Dict.Filter(fs, IsTransfer)
  }

  /** Every record is resolved, unresolved or unknown, so the three counts add up to the total. */
  lemma ResolutionPartition(fs: seq<FileInfo>)
    ensures |ResolvedFiles(fs)| + |UnresolvedFiles(fs)| + |UnknownFiles(fs)| == |fs|
    ensures UnknownCount(fs) == |UnknownFiles(fs)|
  {
    Dict.FilterPartition3(fs, IsResolved, IsUnresolved, IsUnsettled);
  }

  /** Connected, failed and unknown transfers partition the transfer records. */
  lemma TransferPartition(tf: seq<FileInfo>)
    ensures |Dict.Filter(tf, IsConnected)| + |Dict.Filter(tf, IsTransferFailed)| + |Dict.Filter(tf, IsNoTransfer)| == |tf|
  {
    forall i | 0 <= i < |tf|
      ensures Dict.ExactlyOne(IsConnected(tf[i]), IsTransferFailed(tf[i]), IsNoTransfer(tf[i]))
    {
      match tf[i].transferSuccess
      case None =>
      case Some(b) =>
    }
    Dict.FilterPartition3(tf, IsConnected, IsTransferFailed, IsNoTransfer);
  }

  /** The per-type counts of the resolved records add up to the resolved count. */
  lemma TypeCountsAddUp(fs: seq<FileInfo>)
    ensures Dict.SumOf(Dict.CountBy(ResolvedFiles(fs), TypeOf), Dict.Id) == |ResolvedFiles(fs)|
  {
    Dict.CountByTotal(ResolvedFiles(fs), TypeOf);
  }

  // ----- the unknown link, as written and as intended -----

  predicate AchievedIsNone(f: FileInfo) {
    f.resolutionAchieved.JNull?
  }

  /** `unknown_files_list` as the source builds it: only the records whose value is None. */
  function UnknownFilesAsWritten(fs: seq<FileInfo>): seq<FileInfo> {
    Dict.Filter(fs, AchievedIsNone)
  }

  function SampleInfo(achieved: Json): FileInfo {
    FileInfo(JStr("c"), 0, JStr(NoResolutionType), UnknownCaller, JStr(""), achieved, None, None,
             JNull, JNull, JStr(""), None, JStr("unknown"), JStr("none"), [], [], false)
  }

  /**
   * A record whose `resolution_achieved` is the string "yes" is counted as
   * unknown, so the unknown link has value 1, yet the list of records it
   * carries, as written, is empty.
   */
  lemma UnknownLinkAsWrittenMismatch()
    ensures var fs := [SampleInfo(JStr("yes"))];
      UnknownCount(fs) == 1 && UnknownFilesAsWritten(fs) == []
  {
    var fs := [SampleInfo(JStr("yes"))];
    assert fs[..0] == [];
    assert UnknownFilesAsWritten(fs) == UnknownFilesAsWritten(fs[..0]);
    assert ResolvedFiles(fs) == ResolvedFiles(fs[..0]);
    assert UnresolvedFiles(fs) == UnresolvedFiles(fs[..0]);
  }

  /** The two lists agree when every value is True, False or None, the values the analyser is asked for. */
  lemma UnknownAgreesOnBooleans(fs: seq<FileInfo>)
    requires forall i :: 0 <= i < |fs| ==> fs[i].resolutionAchieved.JNull? || fs[i].resolutionAchieved.JBool?
    ensures UnknownFilesAsWritten(fs) == UnknownFiles(fs)
  {
    Dict.FilterCongruent(fs, AchievedIsNone, IsUnsettled);
  }

  // ----- the links out of All Calls -----

  /** The first links of the diagram: one from All Calls into each non-empty category. */
  function RootLinks(fs: seq<FileInfo>): seq<Link> {
    RootLink(1, ResolvedFiles(fs)) + RootLink(2, UnresolvedFiles(fs)) + RootLink(3, UnknownFiles(fs))
  }

  /** The link from All Calls to node `t`, present when it would carry some record. */
  function RootLink(t: nat, files: seq<FileInfo>): seq<Link> {
    if files != [] then [Link(0, t, files)] else []
  }

  function LinkSize(l: Link): nat {
    |l.files|
  }

  lemma RootLinkTotal(t: nat, files: seq<FileInfo>)
    ensures Sorting.Total(RootLink(t, files), LinkSize) == |files|
    ensures forall k :: 0 <= k < |RootLink(t, files)| ==> RootLink(t, files)[k].files != []
  {
    if files != [] {
      assert RootLink(t, files)[1..] == [];
    }
  }

  /** Every record leaves All Calls along exactly one root link. */
  lemma {:induction false} RootConservation(fs: seq<FileInfo>)
    ensures Sorting.Total(RootLinks(fs), LinkSize) == |fs|
    ensures forall k :: 0 <= k < |RootLinks(fs)| ==> RootLinks(fs)[k].files != []
  {
    ResolutionPartition(fs);
    var a, b, c := RootLink(1, ResolvedFiles(fs)), RootLink(2, UnresolvedFiles(fs)), RootLink(3, UnknownFiles(fs));
    RootLinkTotal(1, ResolvedFiles(fs));
    RootLinkTotal(2, UnresolvedFiles(fs));
    RootLinkTotal(3, UnknownFiles(fs));
    Sorting.TotalConcat(a + b, c, LinkSize);
    Sorting.TotalConcat(a, b, LinkSize);
  }

  // ----- groups that fan out of one node -----

  function GroupSize<K>(g: (K, seq<FileInfo>)): nat {
    |g.1|
  }

  function CountOf<K>(c: (K, nat)): nat {
    c.1
  }

  /** Gives each sorted group its node. */
  function Tag<K>(s: seq<(K, seq<FileInfo>)>, mk: K -> Node): (r: seq<Group>)
    ensures |r| == |s| && forall j :: 0 <= j < |s| ==> r[j] == (mk(s[j].0), s[j].1)
  {
    seq(|s|, j requires 0 <= j < |s| => (mk(s[j].0), s[j].1))
  }

  lemma {:induction false} TotalIsSumOf<K, V>(d: seq<(K, V)>, f: V -> nat, v: ((K, V)) -> nat)
    requires forall j :: 0 <= j < |d| ==> v(d[j]) == f(d[j].1)
    ensures Sorting.Total(d, v) == Dict.SumOf(d, f)
  {
    if d != [] {
      assert forall j :: 0 <= j < |d| - 1 ==> d[1..][j] == d[j + 1];
      TotalIsSumOf(d[1..], f, v);
    }
  }

  /**
   * `sorted(groups.items(), key=lambda x: len(x[1]), reverse=True)`, tagged:
   * no group is empty, and together the groups carry every record of `xs`.
   */
  lemma SortedGroups<K(!new)>(xs: seq<FileInfo>, key: FileInfo -> K, mk: K -> Node)
    ensures var r := Tag(Sorting.SortDesc(Dict.GroupBy(xs, key), GroupSize), mk);
      && (forall j :: 0 <= j < |r| ==> r[j].1 != [])
      && Sorting.Total(r, GroupSize) == |xs|
  {
    var g := Dict.GroupBy(xs, key);
    var s := Sorting.SortDesc(g, GroupSize);
    var r := Tag(s, mk);
    Sorting.SortDescMembers(g, GroupSize);
    forall j | 0 <= j < |r| ensures r[j].1 != [] {
      assert s[j] in g;
      var i :| 0 <= i < |g| && g[i] == s[j];
      Dict.GroupByNonEmpty(xs, key, i);
    }
    Sorting.TotalPointwise(r, s, GroupSize, GroupSize);
    Sorting.SortDescTotal(g, GroupSize, GroupSize);
    TotalIsSumOf(g, Dict.Len, GroupSize);
    Dict.GroupBySizes(xs, key);
  }

  function CallerKey(f: FileInfo): string {
    f.callerType
  }

  function CallerNodeOf(side: Side): string -> Node {
    ct => CallerNode(side, ct)
  }

  function SideFiles(fs: seq<FileInfo>, side: Side): seq<FileInfo> {
    if side == OfResolved then ResolvedFiles(fs) else UnresolvedFiles(fs)
  }

  /** The caller-type nodes after Resolved or Unresolved, largest group first. */
  function CallerGroups(fs: seq<FileInfo>, side: Side): seq<Group> {
    Tag(Sorting.SortDesc(Dict.GroupBy(SideFiles(fs, side), CallerKey), GroupSize), CallerNodeOf(side))
  }

  /** The caller split carries every resolved (unresolved) record exactly once. */
  lemma CallerFanOut(fs: seq<FileInfo>, side: Side)
    ensures forall j :: 0 <= j < |CallerGroups(fs, side)| ==> CallerGroups(fs, side)[j].1 != []
    ensures Sorting.Total(CallerGroups(fs, side), GroupSize) == |SideFiles(fs, side)|
  {
    SortedGroups(SideFiles(fs, side), CallerKey, CallerNodeOf(side));
  }

  /** Type nodes from the sorted `(type, count)` pairs and the records of each type. */
  function TypeGroupsOf(sorted: seq<(Json, nat)>, byType: seq<(Json, seq<FileInfo>)>, side: Side): (r: seq<Group>)
    ensures |r| == |sorted|
    ensures forall j :: 0 <= j < |sorted| ==> r[j] == (TypeNode(side, sorted[j].0), Dict.GetOr(byType, sorted[j].0, []))
  {
    seq(|sorted|, j requires 0 <= j < |sorted| => (TypeNode(side, sorted[j].0), Dict.GetOr(byType, sorted[j].0, [])))
  }

  function SortedTypes(files: seq<FileInfo>): seq<(Json, nat)> {
    Sorting.SortDesc(Dict.CountBy(files, TypeOf), CountOf)
  }

  /** The type nodes fanning out of Resolved (or Unresolved, when expanded). */
  function TypeGroups(files: seq<FileInfo>, side: Side): seq<Group> {
    TypeGroupsOf(SortedTypes(files), Dict.GroupBy(files, TypeOf), side)
  }

  lemma TypeGroupAt(files: seq<FileInfo>, side: Side, j: nat)
    requires j < |SortedTypes(files)|
    ensures var p := SortedTypes(files)[j];
      && TypeGroups(files, side)[j].1 == Dict.Select(files, TypeOf, p.0)
      && |Dict.Select(files, TypeOf, p.0)| == p.1 >= 1
  {
    var c := Dict.CountBy(files, TypeOf);
    var sorted := SortedTypes(files);
    assert sorted == Sorting.SortDesc(c, CountOf);
    var p := sorted[j];
    assert p in sorted;
    Sorting.SortDescMembers(c, CountOf);
    var i :| 0 <= i < |c| && c[i] == p;
    Dict.CountByDistinct(files, TypeOf);
    Dict.DistinctGet(c, i);
    Dict.CountByPositive(files, TypeOf, i);
    Dict.CountByGet(files, TypeOf, p.0);
    Dict.GroupByGet(files, TypeOf, p.0);
  }

  /**
   * Each type link's value, the count, is the number of records it carries,
   * those records are exactly the ones of that type, and the type links
   * together carry every record.
   */
  lemma TypeFanOut(files: seq<FileInfo>, side: Side)
    ensures var sorted := SortedTypes(files); var r := TypeGroups(files, side);
      && |r| == |sorted|
      && (forall j :: 0 <= j < |r| ==>
            && r[j].1 == Dict.Select(files, TypeOf, sorted[j].0)
            && |r[j].1| == sorted[j].1 >= 1)
      && Sorting.Total(r, GroupSize) == |files|
  {
    var c := Dict.CountBy(files, TypeOf);
    var sorted := SortedTypes(files);
    var r := TypeGroups(files, side);
    forall j | 0 <= j < |r|
      ensures r[j].1 == Dict.Select(files, TypeOf, sorted[j].0)
      ensures |r[j].1| == sorted[j].1 >= 1
    {
      TypeGroupAt(files, side, j);
    }
    Sorting.TotalPointwise(r, sorted, GroupSize, CountOf);
    Sorting.SortDescTotal(c, CountOf, CountOf);
    TotalIsSumOf(c, Dict.Id, CountOf);
    Dict.CountByTotal(files, TypeOf);
  }

  /** `f.get('transfer_destination') or 'Unknown Destination'` */
  function DestKey(f: FileInfo): string {
    if f.transferDestination.Some? && f.transferDestination.value != [] then f.transferDestination.value
    else UnknownDestination
  }

  function DestNodeOf(connected: bool): string -> Node {
    dest => DestinationNode(connected, dest)
  }

  /** The transfer records that connected (or failed). */
  function OutcomeFiles(fs: seq<FileInfo>, connected: bool): seq<FileInfo> {
    Dict.Filter(TransferFiles(fs), if connected then IsConnected else IsTransferFailed)
  }

  function DestGroups(fs: seq<FileInfo>, connected: bool): seq<Group> {
    Tag(Sorting.SortDesc(Dict.GroupBy(OutcomeFiles(fs, connected), DestKey), GroupSize), DestNodeOf(connected))
  }

  /** The destination split carries every connected (failed) transfer exactly once. */
  lemma DestFanOut(fs: seq<FileInfo>, connected: bool)
    ensures forall j :: 0 <= j < |DestGroups(fs, connected)| ==> DestGroups(fs, connected)[j].1 != []
    ensures Sorting.Total(DestGroups(fs, connected), GroupSize) == |OutcomeFiles(fs, connected)|
  {
    SortedGroups(OutcomeFiles(fs, connected), DestKey, DestNodeOf(connected));
  }

  /** `f.get('secondary_action') or 'no_secondary_action'` */
  function ActionKey(f: FileInfo): Json {
    Or(f.secondaryAction, JStr(NoSecondaryAction))
  }

  function ActionNodeOf(connected: bool): Json -> Node {
    action => ActionNode(connected, action)
  }

  /** Groups for "no secondary action" get no node. */
  predicate IsShownAction(g: Group) {
    !(g.0.ActionNode? && g.0.action == JStr(NoSecondaryAction))
  }

  function AllActionGroups(fs: seq<FileInfo>, connected: bool): seq<Group> {
    Tag(Sorting.SortDesc(Dict.GroupBy(OutcomeFiles(fs, connected), ActionKey), GroupSize), ActionNodeOf(connected))
  }

  function ActionGroups(fs: seq<FileInfo>, connected: bool): seq<Group> {
    Dict.Filter(AllActionGroups(fs, connected), IsShownAction)
  }

  lemma {:induction false} TotalFilter<T(!new)>(xs: seq<T>, p: T -> bool, v: T -> nat)
    ensures Sorting.Total(Dict.Filter(xs, p), v) <= Sorting.Total(xs, v)
  {
    if xs != [] {
      var n := |xs| - 1;
      var x := xs[n];
      TotalFilter(xs[..n], p, v);
      assert xs == xs[..n] + [x];
      Sorting.TotalAppend(xs[..n], x, v);
      if p(x) {
        assert Dict.Filter(xs, p) == Dict.Filter(xs[..n], p) + [x];
        Sorting.TotalAppend(Dict.Filter(xs[..n], p), x, v);
      } else {
        assert Dict.Filter(xs, p) == Dict.Filter(xs[..n], p);
      }
    }
  }

  /** The action nodes are non-empty, never "no secondary action", and carry no record twice. */
  lemma ActionFanOut(fs: seq<FileInfo>, connected: bool)
    ensures forall j :: 0 <= j < |ActionGroups(fs, connected)| ==>
      ActionGroups(fs, connected)[j].1 != [] && IsShownAction(ActionGroups(fs, connected)[j])
    ensures Sorting.Total(ActionGroups(fs, connected), GroupSize) <= |OutcomeFiles(fs, connected)|
  {
    var all := AllActionGroups(fs, connected);
    SortedGroups(OutcomeFiles(fs, connected), ActionKey, ActionNodeOf(connected));
    var r := ActionGroups(fs, connected);
    Dict.FilterMember(all, IsShownAction);
    forall j | 0 <= j < |r| ensures r[j].1 != [] && IsShownAction(r[j]) {
      assert r[j] in all;
    }
    TotalFilter(all, IsShownAction, GroupSize);
  }

  // ----- the diagram -----

  /** The nodes of a fan-out: one per group, in group order. */
  function GroupNodes(groups: seq<Group>): (ns: seq<Node>)
    ensures |ns| == |groups|
  {
    seq(|groups|, j requires 0 <= j < |groups| => groups[j].0)
  }

  /** The links of a fan-out: from `parent` to the new nodes numbered from `start`. */
  function FanLinks(parent: nat, start: nat, groups: seq<Group>): (ls: seq<Link>)
    ensures |ls| == |groups|
  {
    seq(|groups|, j requires 0 <= j < |groups| => Link(parent, start + j, groups[j].1))
  }

  /**
   * The diagram under construction: the node list and the parallel link
   * lists `sources`, `targets`, `values`, `link_labels`, with `link_sources`
   * mapping each link number to its records and `link_index` counting links.
   * `links` is the same list of links viewed as one sequence.
   */
  class Diagram {
    var nodes: seq<Node>
    var sources: seq<nat>
    var targets: seq<nat>
    var values: seq<nat>
    var linkLabels: seq<LinkLabel>
    var linkSources: map<nat, seq<FileInfo>>
    var linkIndex: nat
    ghost var links: seq<Link>

    /**
     * The lists have one entry per link, `link_sources` is keyed by exactly
     * the link numbers, every link goes from an earlier node to a later one
     * (so both ends exist and the diagram has no cycle), and each link's
     * value is the positive number of records it carries.
     */
    ghost predicate Valid()
      reads this
    {
      && |sources| == linkIndex && |targets| == linkIndex && |values| == linkIndex
      && |linkLabels| == linkIndex && |links| == linkIndex
      && (forall i: nat :: i in linkSources <==> i < linkIndex)
      && (forall i :: 0 <= i < linkIndex ==> LinkOk(i))
    }

    /** Link `i` in every parallel list: its ends, its records, its value and its label. */
    ghost predicate LinkOk(i: nat)
      reads this
    {
      && i < |links| && i < |sources| && i < |targets| && i < |values| && i < |linkLabels| && i in linkSources
      && links[i] == Link(sources[i], targets[i], linkSources[i])
      && sources[i] < targets[i] < |nodes|
      && values[i] == |linkSources[i]| > 0
      && linkLabels[i] == LinkLabel(nodes[sources[i]], nodes[targets[i]], values[i])
    }

    /** `nodes = ["All Calls"]`, and no links yet. */
    constructor ()
      ensures Valid() && nodes == [AllCalls] && links == []
    {
      nodes := [AllCalls];
      sources := [];
      targets := [];
      values := [];
      linkLabels := [];
      linkSources := map[];
      linkIndex := 0;
      links := [];
    }

    /** `idx = len(nodes); nodes.append(...)` */
    method AddNode(n: Node) returns (idx: nat)
      requires Valid()
      modifies this
      ensures Valid()
      ensures idx == old(|nodes|) && nodes == old(nodes) + [n]
      ensures links == old(links)
    {
      idx := |nodes|;
      nodes := nodes + [n];
      forall i | 0 <= i < linkIndex ensures LinkOk(i) {
        assert old(LinkOk(i));
      }
    }

    /** Appends one link to every parallel list and records its files under the next link number. */
    method AddLink(s: nat, t: nat, value: nat, files: seq<FileInfo>)
      requires Valid() && s < t < |nodes| && value == |files| > 0
      modifies this
      ensures Valid()
      ensures nodes == old(nodes) && links == old(links) + [Link(s, t, files)]
    {
      var n := linkIndex;
      sources := sources + [s];
      targets := targets + [t];
      values := values + [value];
      linkSources := linkSources[n := files];
      linkLabels := linkLabels + [LinkLabel(nodes[s], nodes[t], value)];
      links := links + [Link(s, t, files)];
      linkIndex := n + 1;
      forall i | 0 <= i < linkIndex ensures LinkOk(i) {
        if i < n {
          assert old(LinkOk(i));
        }
      }
    }

    /** One new node per group, each fed by a link from `parent` carrying the group's records. */
    method AddFanOut(parent: nat, groups: seq<Group>)
      requires Valid() && parent < |nodes|
      requires forall j :: 0 <= j < |groups| ==> groups[j].1 != []
      modifies this
      ensures Valid()
      ensures nodes == old(nodes) + GroupNodes(groups)
      ensures links == old(links) + FanLinks(parent, old(|nodes|), groups)
    {
      ghost var nodes0, links0 := nodes, links;
      for j := 0 to |groups|
        invariant Valid() && parent < |nodes|
        invariant nodes == nodes0 + GroupNodes(groups[..j])
        invariant links == links0 + FanLinks(parent, |nodes0|, groups[..j])
      {
        assert groups[..j + 1] == groups[..j] + [groups[j]];
        var idx := AddNode(groups[j].0);
        AddLink(parent, idx, |groups[j].1|, groups[j].1);
        assert FanLinks(parent, |nodes0|, groups[..j + 1]) == FanLinks(parent, |nodes0|, groups[..j]) + [Link(parent, idx, groups[j].1)];
      }
      assert groups[..|groups|] == groups;
    }
  }

  // ----- the loops that fill the dictionaries -----

  /** The `for f in files` loop filling `type_counts` and `type_files`. */
  method TallyTypes(files: seq<FileInfo>) returns (counts: seq<(Json, nat)>, byType: seq<(Json, seq<FileInfo>)>)
    ensures counts == Dict.CountBy(files, TypeOf)
    ensures byType == Dict.GroupBy(files, TypeOf)
  {
    counts, byType := [], [];
    for i := 0 to |files|
      invariant counts == Dict.CountBy(files[..i], TypeOf)
      invariant byType == Dict.GroupBy(files[..i], TypeOf)
    {
      var f := files[i];
      assert files[..i + 1] == files[..i] + [f];
      Dict.CountBySnoc(files[..i], f, TypeOf);
      Dict.GroupBySnoc(files[..i], f, TypeOf);
      var resType := f.resolutionType;
      counts := Dict.AddTo(counts, resType, 1);
      byType := Dict.Set(byType, resType, Dict.GetOr(byType, resType, []) + [f]);
    }
    assert files[..|files|] == files;
  }

  /**
   * A loop `if p(f): gp[key(f)].append(f) elif q(f): gq[key(f)].append(f)`:
   * the records passing each test, grouped by key in input order.
   */
  method SplitBy<K(==,!new)>(xs: seq<FileInfo>, key: FileInfo -> K, p: FileInfo -> bool, q: FileInfo -> bool)
      returns (gp: seq<(K, seq<FileInfo>)>, gq: seq<(K, seq<FileInfo>)>)
    requires forall i :: 0 <= i < |xs| ==> !(p(xs[i]) && q(xs[i]))
    ensures gp == Dict.GroupBy(Dict.Filter(xs, p), key)
    ensures gq == Dict.GroupBy(Dict.Filter(xs, q), key)
  {
    gp, gq := [], [];
    for i := 0 to |xs|
      invariant gp == Dict.GroupBy(Dict.Filter(xs[..i], p), key)
      invariant gq == Dict.GroupBy(Dict.Filter(xs[..i], q), key)
    {
      var x := xs[i];
      ghost var pre := xs[..i];
      assert xs[..i + 1] == pre + [x];
      Dict.FilterSnoc(pre, x, p);
      Dict.FilterSnoc(pre, x, q);
      ghost var fp, fq := Dict.Filter(pre, p), Dict.Filter(pre, q);
      var k := key(x);
      if p(x) {
        assert Dict.Filter(xs[..i + 1], q) == fq;
        Dict.GroupBySnoc(fp, x, key);
        gp := Dict.Set(gp, k, Dict.GetOr(gp, k, []) + [x]);
      } else if q(x) {
        assert Dict.Filter(xs[..i + 1], p) == fp;
        Dict.GroupBySnoc(fq, x, key);
        gq := Dict.Set(gq, k, Dict.GetOr(gq, k, []) + [x]);
      } else {
        assert Dict.Filter(xs[..i + 1], p) == fp;
        assert Dict.Filter(xs[..i + 1], q) == fq;
      }
    }
    assert xs[..|xs|] == xs;
  }

  /** The position of the first pair with key `k`, if any. */
  function KeyPos<K(==), V>(xs: seq<(K, V)>, k: K): (r: Option<nat>)
    ensures r.Some? ==> r.value < |xs| && xs[r.value].0 == k && forall j :: 0 <= j < r.value ==> xs[j].0 != k
    ensures r.None? <==> forall j :: 0 <= j < |xs| ==> xs[j].0 != k
  {
    if xs == [] then None
    else if xs[0].0 == k then Some(0)
    else match KeyPos(xs[1..], k)
      case None => None
      case Some(p) => Some(p + 1)
  }

  /** The `for i, (t, c) in enumerate(sorted_types)` search with `break`. */
  method FindKey<K(==), V>(xs: seq<(K, V)>, k: K) returns (r: Option<nat>)
    ensures r == KeyPos(xs, k)
  {
    r := None;
    var i := 0;
    while i < |xs|
      invariant 0 <= i <= |xs|
      invariant forall j :: 0 <= j < i ==> xs[j].0 != k
    {
      if xs[i].0 == k {
        r := Some(i);
        return;
      }
      i := i + 1;
    }
  }

  // ----- what the render works out before drawing -----

  /** All Calls, Resolved, Unresolved, and Unknown when some record is unknown. */
  function HeadNodes(fs: seq<FileInfo>): seq<Node> {
    [AllCalls, ResolvedNode, UnresolvedNode] + (if UnknownCount(fs) > 0 then [UnknownNode] else [])
  }

  function Whenever(c: bool, groups: seq<Group>): seq<Group> {
    if c then groups else []
  }

  function CallerPart(fs: seq<FileInfo>, opts: Options, side: Side): seq<Group> {
    Whenever(opts.splitByCallerType, CallerGroups(fs, side))
  }

  function ResolvedTypePart(fs: seq<FileInfo>, opts: Options): seq<Group> {
    Whenever(opts.showResolutionTypes, TypeGroups(ResolvedFiles(fs), OfResolved))
  }

  function UnresolvedTypePart(fs: seq<FileInfo>, opts: Options): seq<Group> {
    Whenever(opts.expandUnresolved && UnresolvedFiles(fs) != [], TypeGroups(UnresolvedFiles(fs), OfUnresolved))
  }

  function NumConnected(fs: seq<FileInfo>): nat {
    |OutcomeFiles(fs, true)|
  }

  function NumFailed(fs: seq<FileInfo>): nat {
    |OutcomeFiles(fs, false)|
  }

  /** `transfer_unknown = len(transfer_files) - transfer_success - transfer_failed` */
  function NumTransferUnknown(fs: seq<FileInfo>): int {
    |TransferFiles(fs)| - NumConnected(fs) - NumFailed(fs)
  }

  /** The guard shared by the outcome, destination and secondary-action blocks, less their own checkbox. */
  predicate ShowsTransferDetail(fs: seq<FileInfo>, opts: Options) {
    opts.showResolutionTypes && opts.showTransferOutcomes && TransferFiles(fs) != []
  }

  /** The guard of the transfer-outcome block. */
  predicate ShowsOutcomes(fs: seq<FileInfo>, opts: Options) {
    ShowsTransferDetail(fs, opts) && (NumConnected(fs) > 0 || NumFailed(fs) > 0 || NumTransferUnknown(fs) > 0)
  }

  const TransferTypes: seq<Json> := [JStr("transfer"), JStr("transfer_attempted")]

  /** A transfer type that has a node: its position among the type nodes and its records by `transfer_success`. */
  datatype TypeSplit = TypeSplit(pos: nat, connected: seq<FileInfo>, failed: seq<FileInfo>, unknown: seq<FileInfo>)

  /** The split of type `t`: none unless it is a resolved type found among the sorted types. */
  function TypeSplitOf(t: Json, counts: seq<(Json, nat)>, sorted: seq<(Json, nat)>,
                       byType: seq<(Json, seq<FileInfo>)>): seq<TypeSplit> {
    if t !in Dict.Keys(counts) then []
    else match KeyPos(sorted, t)
      case None => []
      case Some(p) =>
        var files := Dict.GetOr(byType, t, []);
        [TypeSplit(p, Dict.Filter(files, IsConnected), Dict.Filter(files, IsTransferFailed), Dict.Filter(files, IsNoTransfer))]
  }

  function SplitsFor(types: seq<Json>, counts: seq<(Json, nat)>, sorted: seq<(Json, nat)>,
                     byType: seq<(Json, seq<FileInfo>)>): seq<TypeSplit>
    decreases |types|
  {
    if types == [] then []
    else SplitsFor(types[..|types| - 1], counts, sorted, byType) + TypeSplitOf(types[|types| - 1], counts, sorted, byType)
  }

  /** The per-type splits of the outcome block, for "transfer" and then "transfer_attempted". */
  function OutcomeSplits(fs: seq<FileInfo>, opts: Options): seq<TypeSplit> {
    var rf := ResolvedFiles(fs);
    if ShowsOutcomes(fs, opts) then SplitsFor(TransferTypes, Dict.CountBy(rf, TypeOf), SortedTypes(rf), Dict.GroupBy(rf, TypeOf))
    else []
  }

  /**
   * Everything the drawing consumes: the records of the three root links,
   * the groups of every fan (empty when its block is switched off), the
   * outcome counts, and the per-type outcome splits.
   */
  datatype Layout = Layout(
    resolved: seq<FileInfo>, unresolved: seq<FileInfo>, unknownCount: int, unknown: seq<FileInfo>,
    callerR: seq<Group>, callerU: seq<Group>, typeR: seq<Group>, typeU: seq<Group>,
    showsOutcomes: bool, ts: int, tf: int, tu: int, splits: seq<TypeSplit>,
    destS: seq<Group>, destF: seq<Group>, actS: seq<Group>, actF: seq<Group>)

  /** The layout of `fs` under the options, block by block as the render function works it out. */
  function LayoutOf(fs: seq<FileInfo>, opts: Options): Layout {
    var rf := ResolvedFiles(fs);
    var detail := ShowsTransferDetail(fs, opts);
    var shows := ShowsOutcomes(fs, opts);
    Layout(
      rf, UnresolvedFiles(fs), UnknownCount(fs), UnknownFiles(fs),
      CallerPart(fs, opts, OfResolved), CallerPart(fs, opts, OfUnresolved),
      ResolvedTypePart(fs, opts), UnresolvedTypePart(fs, opts),
      shows, NumConnected(fs), NumFailed(fs), NumTransferUnknown(fs),
      OutcomeSplits(fs, opts),
      Whenever(opts.showTransferDestinations && detail, DestGroups(fs, true)),
      Whenever(opts.showTransferDestinations && detail, DestGroups(fs, false)),
      Whenever(opts.showSecondaryActions && detail, ActionGroups(fs, true)),
      Whenever(opts.showSecondaryActions && detail, ActionGroups(fs, false)))
  }

  predicate NonEmptyGroups(groups: seq<Group>) {
    forall j :: 0 <= j < |groups| ==> groups[j].1 != []
  }

  /** What drawing needs of a layout: the unknown count is the number of unknown records, no group is empty, every split names a type node. */
  predicate LayoutOk(l: Layout) {
    && l.unknownCount == |l.unknown|
    && NonEmptyGroups(l.callerR) && NonEmptyGroups(l.callerU)
    && NonEmptyGroups(l.typeR) && NonEmptyGroups(l.typeU)
    && NonEmptyGroups(l.destS) && NonEmptyGroups(l.destF)
    && NonEmptyGroups(l.actS) && NonEmptyGroups(l.actF)
    && (forall j :: 0 <= j < |l.splits| ==> l.splits[j].pos < |l.typeR|)
  }

  // ----- the diagram a layout draws -----

  /** `success_idx`, `failed_idx`, `unknown_idx`. */
  datatype Outcomes = Outcomes(connected: Option<nat>, failed: Option<nat>, unknown: Option<nat>)

  /** The outcome nodes that get added: one per positive count, in the order connected, failed, unknown. */
  function OutcomeNodesOf(ts: int, tf: int, tu: int): seq<Node> {
    (if ts > 0 then [ConnectedNode] else [])
    + (if tf > 0 then [FailedNode] else [])
    + (if tu > 0 then [TransferUnknownNode] else [])
  }

  /** Where those nodes land when the first is numbered `start`. */
  function OutcomeSlots(start: nat, ts: int, tf: int, tu: int): Outcomes {
    var afterConnected := start + (if ts > 0 then 1 else 0);
    var afterFailed := afterConnected + (if tf > 0 then 1 else 0);
    Outcomes(
      if ts > 0 then Some(start) else None,
      if tf > 0 then Some(afterConnected) else None,
      if tu > 0 then Some(afterFailed) else None)
  }

  function HeadOf(l: Layout): seq<Node> {
    [AllCalls, ResolvedNode, UnresolvedNode] + (if l.unknownCount > 0 then [UnknownNode] else [])
  }

  /** `type_node_start`: the node count after the head and the caller split. */
  function TypeStartOf(l: Layout): nat {
    |HeadOf(l)| + |l.callerR| + |l.callerU|
  }

  /** The node count when the transfer-outcome block begins. */
  function OutcomeStartOf(l: Layout): nat {
    TypeStartOf(l) + |l.typeR| + |l.typeU|
  }

  function OutcomePartOf(l: Layout): seq<Node> {
    if l.showsOutcomes then OutcomeNodesOf(l.ts, l.tf, l.tu) else []
  }

  function SlotsOf(l: Layout): Outcomes {
    if l.showsOutcomes then OutcomeSlots(OutcomeStartOf(l), l.ts, l.tf, l.tu) else Outcomes(None, None, None)
  }

  /** The node count when the destination block begins. */
  function DetailStartOf(l: Layout): nat {
    OutcomeStartOf(l) + |OutcomePartOf(l)|
  }

  /** The links from one type node to the outcome nodes that exist, each with the matching records. */
  function SplitLinks(typeIdx: nat, s: TypeSplit, o: Outcomes): seq<Link> {
    (if s.connected != [] && o.connected.Some? then [Link(typeIdx, o.connected.value, s.connected)] else [])
    + (if s.failed != [] && o.failed.Some? then [Link(typeIdx, o.failed.value, s.failed)] else [])
    + (if s.unknown != [] && o.unknown.Some? then [Link(typeIdx, o.unknown.value, s.unknown)] else [])
  }

  function SplitsLinks(splits: seq<TypeSplit>, typeStart: nat, o: Outcomes): seq<Link>
    decreases |splits|
  {
    if splits == [] then []
    else
      var last := splits[|splits| - 1];
      SplitsLinks(splits[..|splits| - 1], typeStart, o) + SplitLinks(typeStart + last.pos, last, o)
  }

  /** The node a fan of destinations or actions hangs from (irrelevant when the fan is empty). */
  function Parent(idx: Option<nat>): nat {
    if idx.Some? then idx.value else 0
  }

  /** The groups of the destination (or action) fans that get nodes: those whose outcome node exists. */
  function HungFrom(idx: Option<nat>, groups: seq<Group>): seq<Group> {
    Whenever(idx.Some?, groups)
  }

  /** The links into the outcome nodes, drawn only when the outcome block is. */
  function OutcomeLinksOf(l: Layout): seq<Link> {
    if l.showsOutcomes then SplitsLinks(l.splits, TypeStartOf(l), SlotsOf(l)) else []
  }

  /** The nodes up to the type nodes: head, caller split, types. */
  function FanNodesOf(l: Layout): seq<Node> {
    HeadOf(l) + GroupNodes(l.callerR) + GroupNodes(l.callerU) + GroupNodes(l.typeR) + GroupNodes(l.typeU)
  }

  /** The nodes of the two fans that hang from the connected and the failed outcome node. */
  function HungNodes(o: Outcomes, connected: seq<Group>, failed: seq<Group>): seq<Node> {
    GroupNodes(HungFrom(o.connected, connected)) + GroupNodes(HungFrom(o.failed, failed))
  }

  /** The links of those fans, their nodes numbered from `start`. */
  function HungLinks(o: Outcomes, start: nat, connected: seq<Group>, failed: seq<Group>): seq<Link> {
    var c := HungFrom(o.connected, connected);
    FanLinks(Parent(o.connected), start, c) + FanLinks(Parent(o.failed), start + |c|, HungFrom(o.failed, failed))
  }

  /** The nodes after the type nodes: outcomes, destinations, secondary actions. */
  function DetailNodesOf(l: Layout): seq<Node> {
    var o := SlotsOf(l);
    OutcomePartOf(l) + HungNodes(o, l.destS, l.destF) + HungNodes(o, l.actS, l.actF)
  }

  function NodesOf(l: Layout): seq<Node> {
    FanNodesOf(l) + DetailNodesOf(l)
  }

  /** The links out of All Calls. */
  function RootPartOf(l: Layout): seq<Link> {
    RootLink(1, l.resolved) + RootLink(2, l.unresolved) + (if l.unknownCount > 0 then RootLink(3, l.unknown) else [])
  }

  /** The links drawn with the head, the caller split and the type nodes. */
  function FanLinksOf(l: Layout): seq<Link> {
    var n0 := |HeadOf(l)|;
    var t0 := TypeStartOf(l);
    RootPartOf(l)
    + FanLinks(1, n0, l.callerR) + FanLinks(2, n0 + |l.callerR|, l.callerU)
    + FanLinks(1, t0, l.typeR) + FanLinks(2, t0 + |l.typeR|, l.typeU)
  }

  /** The links into the outcome, destination and secondary-action nodes. */
  function DetailLinksOf(l: Layout): seq<Link> {
    var o := SlotsOf(l);
    var n5 := DetailStartOf(l);
    OutcomeLinksOf(l) + HungLinks(o, n5, l.destS, l.destF)
    + HungLinks(o, n5 + |HungNodes(o, l.destS, l.destF)|, l.actS, l.actF)
  }

  function LinksOf(l: Layout): seq<Link> {
    FanLinksOf(l) + DetailLinksOf(l)
  }

  /** The node list of the finished diagram. */
  function DiagramNodes(fs: seq<FileInfo>, opts: Options): seq<Node> {
    NodesOf(LayoutOf(fs, opts))
  }

  /** The link list of the finished diagram. */
  function DiagramLinks(fs: seq<FileInfo>, opts: Options): seq<Link> {
    LinksOf(LayoutOf(fs, opts))
  }

  // ----- properties of the layout -----

  lemma {:induction false} SplitsForPositions(types: seq<Json>, counts: seq<(Json, nat)>, sorted: seq<(Json, nat)>,
                                              byType: seq<(Json, seq<FileInfo>)>)
    ensures forall j :: 0 <= j < |SplitsFor(types, counts, sorted, byType)| ==>
      SplitsFor(types, counts, sorted, byType)[j].pos < |sorted|
    decreases |types|
  {
    if types != [] {
      SplitsForPositions(types[..|types| - 1], counts, sorted, byType);
    }
  }

  lemma CallerPartOk(fs: seq<FileInfo>, opts: Options, side: Side)
    ensures NonEmptyGroups(CallerPart(fs, opts, side))
  {
    CallerFanOut(fs, side);
  }

  lemma TypePartsOk(fs: seq<FileInfo>, opts: Options)
    ensures NonEmptyGroups(ResolvedTypePart(fs, opts)) && NonEmptyGroups(UnresolvedTypePart(fs, opts))
  {
    TypeFanOut(ResolvedFiles(fs), OfResolved);
    TypeFanOut(UnresolvedFiles(fs), OfUnresolved);
  }

  lemma DetailPartOk(fs: seq<FileInfo>, c: bool, connected: bool)
    ensures NonEmptyGroups(Whenever(c, DestGroups(fs, connected)))
    ensures NonEmptyGroups(Whenever(c, ActionGroups(fs, connected)))
  {
    DestFanOut(fs, connected);
    ActionFanOut(fs, connected);
  }

  /** Every split names one of the type nodes under Resolved. */
  lemma OutcomeSplitsOk(fs: seq<FileInfo>, opts: Options)
    ensures forall j :: 0 <= j < |OutcomeSplits(fs, opts)| ==> OutcomeSplits(fs, opts)[j].pos < |ResolvedTypePart(fs, opts)|
  {
    var rf := ResolvedFiles(fs);
    if ShowsOutcomes(fs, opts) {
      SplitsForPositions(TransferTypes, Dict.CountBy(rf, TypeOf), SortedTypes(rf), Dict.GroupBy(rf, TypeOf));
      assert |ResolvedTypePart(fs, opts)| == |SortedTypes(rf)|;
    }
  }

  /** The layout of any record list can be drawn. */
  lemma LayoutOfOk(fs: seq<FileInfo>, opts: Options)
    ensures LayoutOk(LayoutOf(fs, opts))
  {
    ResolutionPartition(fs);
    CallerPartOk(fs, opts, OfResolved);
    CallerPartOk(fs, opts, OfUnresolved);
    TypePartsOk(fs, opts);
    var detail := ShowsTransferDetail(fs, opts);
    DetailPartOk(fs, opts.showTransferDestinations && detail, true);
    DetailPartOk(fs, opts.showTransferDestinations && detail, false);
    DetailPartOk(fs, opts.showSecondaryActions && detail, true);
    DetailPartOk(fs, opts.showSecondaryActions && detail, false);
    OutcomeSplitsOk(fs, opts);
  }

  /** The first links of the diagram are the root links, whatever the options. */
  lemma DiagramStartsWithRootLinks(fs: seq<FileInfo>, opts: Options)
    ensures RootPartOf(LayoutOf(fs, opts)) == RootLinks(fs)
  {
    ResolutionPartition(fs);
  }

  // ----- render_resolution_flow: working out the layout -----

  /** The loop over "transfer" and "transfer_attempted": the split of each transfer type that has a node. */
  method TransferSplits(counts: seq<(Json, nat)>, sorted: seq<(Json, nat)>, byType: seq<(Json, seq<FileInfo>)>)
    returns (splits: seq<TypeSplit>)
    ensures splits == SplitsFor(TransferTypes, counts, sorted, byType)
  {
    splits := [];
    for k := 0 to |TransferTypes|
      invariant splits == SplitsFor(TransferTypes[..k], counts, sorted, byType)
    {
      var resType := TransferTypes[k];
      assert TransferTypes[..k + 1][..k] == TransferTypes[..k];
      assert SplitsFor(TransferTypes[..k + 1], counts, sorted, byType)
        == SplitsFor(TransferTypes[..k], counts, sorted, byType) + TypeSplitOf(resType, counts, sorted, byType);
      if resType !in Dict.Keys(counts) {
        continue;
      }
      var pos := FindKey(sorted, resType);
      if pos.None? {
        continue;
      }
      var resTypeFiles := Dict.GetOr(byType, resType, []);
      var successFiles := Dict.Filter(resTypeFiles, IsConnected);
      var failedFiles := Dict.Filter(resTypeFiles, IsTransferFailed);
      var unknownFiles := Dict.Filter(resTypeFiles, IsNoTransfer);
      splits := splits + [TypeSplit(pos.value, successFiles, failedFiles, unknownFiles)];
    }
  }

  /** The caller-type loop and the two sorts: the groups under Resolved and under Unresolved. */
  method CallerSplit(fs: seq<FileInfo>) returns (resolved: seq<Group>, unresolved: seq<Group>)
    ensures resolved == CallerGroups(fs, OfResolved) && unresolved == CallerGroups(fs, OfUnresolved)
  {
    var resolvedByCaller, unresolvedByCaller := SplitBy(fs, CallerKey, IsResolved, IsUnresolved);
    resolved := Tag(Sorting.SortDesc(resolvedByCaller, GroupSize), CallerNodeOf(OfResolved));
    unresolved := Tag(Sorting.SortDesc(unresolvedByCaller, GroupSize), CallerNodeOf(OfUnresolved));
  }

  /** The destination loop and the two sorts: the groups under the connected and the failed node. */
  method DestSplit(fs: seq<FileInfo>) returns (connected: seq<Group>, failed: seq<Group>)
    ensures connected == DestGroups(fs, true) && failed == DestGroups(fs, false)
  {
    var successByDest, failedByDest := SplitBy(TransferFiles(fs), DestKey, IsConnected, IsTransferFailed);
    connected := Tag(Sorting.SortDesc(successByDest, GroupSize), DestNodeOf(true));
    failed := Tag(Sorting.SortDesc(failedByDest, GroupSize), DestNodeOf(false));
  }

  /** The secondary-action loop, the two sorts and the skipping of "no secondary action". */
  method ActionSplit(fs: seq<FileInfo>) returns (connected: seq<Group>, failed: seq<Group>)
    ensures connected == ActionGroups(fs, true) && failed == ActionGroups(fs, false)
  {
    var successByAction, failedByAction := SplitBy(TransferFiles(fs), ActionKey, IsConnected, IsTransferFailed);
    connected := Dict.Filter(Tag(Sorting.SortDesc(successByAction, GroupSize), ActionNodeOf(true)), IsShownAction);
    failed := Dict.Filter(Tag(Sorting.SortDesc(failedByAction, GroupSize), ActionNodeOf(false)), IsShownAction);
  }

  /** The counts at the top of the function and the files of the three root links. */
  method HeadCounts(fs: seq<FileInfo>) returns (resolved: seq<FileInfo>, unresolved: seq<FileInfo>, unknownCount: int, unknown: seq<FileInfo>)
    ensures resolved == ResolvedFiles(fs) && unresolved == UnresolvedFiles(fs)
    ensures unknownCount == UnknownCount(fs) && unknown == UnknownFiles(fs)
  {
    resolved := Dict.Filter(fs, IsResolved);
    unresolved := Dict.Filter(fs, IsUnresolved);
    unknownCount := |fs| - |resolved| - |unresolved|;
    unknown := Dict.Filter(fs, IsUnsettled);
  }

  /** The caller split and the two type splits, each empty when its checkbox is off. */
  method FanGroups(fs: seq<FileInfo>, opts: Options, resolved: seq<FileInfo>, unresolved: seq<FileInfo>)
    returns (callerR: seq<Group>, callerU: seq<Group>, typeR: seq<Group>, typeU: seq<Group>,
             typeCounts: seq<(Json, nat)>, sortedTypes: seq<(Json, nat)>, typeFiles: seq<(Json, seq<FileInfo>)>)
    requires resolved == ResolvedFiles(fs) && unresolved == UnresolvedFiles(fs)
    ensures callerR == CallerPart(fs, opts, OfResolved) && callerU == CallerPart(fs, opts, OfUnresolved)
    ensures typeR == ResolvedTypePart(fs, opts) && typeU == UnresolvedTypePart(fs, opts)
    ensures typeCounts == Dict.CountBy(resolved, TypeOf) && sortedTypes == SortedTypes(resolved)
    ensures typeFiles == Dict.GroupBy(resolved, TypeOf)
  {
    typeCounts, typeFiles := TallyTypes(resolved);
    var unresolvedTypeCounts, unresolvedTypeFiles := TallyTypes(unresolved);
    callerR, callerU := [], [];
    if opts.splitByCallerType {
      callerR, callerU := CallerSplit(fs);
    }
    sortedTypes := Sorting.SortDesc(typeCounts, CountOf);
    typeR, typeU := [], [];
    if opts.showResolutionTypes {
      typeR := TypeGroupsOf(sortedTypes, typeFiles, OfResolved);
    }
    if opts.expandUnresolved && |unresolved| > 0 {
      typeU := TypeGroupsOf(Sorting.SortDesc(unresolvedTypeCounts, CountOf), unresolvedTypeFiles, OfUnresolved);
    }
  }

  /** The transfer counts, the outcome guard, the per-type splits and the destination and action groups. */
  method TransferGroups(fs: seq<FileInfo>, opts: Options, typeCounts: seq<(Json, nat)>, sortedTypes: seq<(Json, nat)>,
                        typeFiles: seq<(Json, seq<FileInfo>)>)
    returns (shows: bool, ts: int, tf: int, tu: int, splits: seq<TypeSplit>,
             destS: seq<Group>, destF: seq<Group>, actS: seq<Group>, actF: seq<Group>)
    requires typeCounts == Dict.CountBy(ResolvedFiles(fs), TypeOf) && sortedTypes == SortedTypes(ResolvedFiles(fs))
    requires typeFiles == Dict.GroupBy(ResolvedFiles(fs), TypeOf)
    ensures shows == ShowsOutcomes(fs, opts) && splits == OutcomeSplits(fs, opts)
    ensures ts == NumConnected(fs) && tf == NumFailed(fs) && tu == NumTransferUnknown(fs)
    ensures destS == Whenever(opts.showTransferDestinations && ShowsTransferDetail(fs, opts), DestGroups(fs, true))
    ensures destF == Whenever(opts.showTransferDestinations && ShowsTransferDetail(fs, opts), DestGroups(fs, false))
    ensures actS == Whenever(opts.showSecondaryActions && ShowsTransferDetail(fs, opts), ActionGroups(fs, true))
    ensures actF == Whenever(opts.showSecondaryActions && ShowsTransferDetail(fs, opts), ActionGroups(fs, false))
  {
    var transferFiles := Dict.Filter(fs, IsTransfer);
    ts := |Dict.Filter(transferFiles, IsConnected)|;
    tf := |Dict.Filter(transferFiles, IsTransferFailed)|;
    tu := |transferFiles| - ts - tf;
    var detail := opts.showResolutionTypes && opts.showTransferOutcomes && |transferFiles| > 0;
    shows := detail && (ts > 0 || tf > 0 || tu > 0);
    splits := [];
    if shows {
      splits := TransferSplits(typeCounts, sortedTypes, typeFiles);
    }
    destS, destF, actS, actF := [], [], [], [];
    if opts.showTransferDestinations && detail {
      destS, destF := DestSplit(fs);
    }
    if opts.showSecondaryActions && detail {
      actS, actF := ActionSplit(fs);
    }
  }

  /** Every count, grouping and sort of the render function, before anything is drawn. */
  method ComputeLayout(fs: seq<FileInfo>, opts: Options) returns (l: Layout)
    ensures l == LayoutOf(fs, opts)
  {
    var resolved, unresolved, unknownCount, unknown := HeadCounts(fs);
    var callerR, callerU, typeR, typeU, typeCounts, sortedTypes, typeFiles := FanGroups(fs, opts, resolved, unresolved);
    var shows, ts, tf, tu, splits, destS, destF, actS, actF := TransferGroups(fs, opts, typeCounts, sortedTypes, typeFiles);
    l := Layout(resolved, unresolved, unknownCount, unknown, callerR, callerU, typeR, typeU,
                shows, ts, tf, tu, splits, destS, destF, actS, actF);
  }

  // ----- render_resolution_flow: drawing -----

  /** `nodes = ["All Calls", "Resolved", "Unresolved"]`, plus "Unknown" when some record is unknown. */
  method HeadNodesDiagram(l: Layout) returns (d: Diagram)
    ensures fresh(d) && d.Valid() && d.nodes == HeadOf(l) && d.links == []
  {
    d := new Diagram();
    var resolvedIdx := d.AddNode(ResolvedNode);
    var unresolvedIdx := d.AddNode(UnresolvedNode);
    if l.unknownCount > 0 {
      var unknownIdx := d.AddNode(UnknownNode);
    }
  }

  /** The head nodes and the links from All Calls into each non-empty category. */
  method StartDiagram(l: Layout) returns (d: Diagram)
    requires l.unknownCount == |l.unknown|
    ensures fresh(d) && d.Valid()
    ensures d.nodes == HeadOf(l) && d.links == RootPartOf(l)
  {
    d := HeadNodesDiagram(l);
    AddRootLink(d, 1, |l.resolved|, l.resolved);
    AddRootLink(d, 2, |l.unresolved|, l.unresolved);
    if l.unknownCount > 0 {
      AddRootLink(d, 3, l.unknownCount, l.unknown);
    }
  }

  /** `if count > 0:` a link from All Calls to node `t` carrying `files`. */
  method AddRootLink(d: Diagram, t: nat, count: nat, files: seq<FileInfo>)
    requires d.Valid() && 0 < t < |d.nodes| && count == |files|
    modifies d
    ensures d.Valid() && d.nodes == old(d.nodes) && d.links == old(d.links) + RootLink(t, files)
  {
    if count > 0 {
      d.AddLink(0, t, count, files);
    }
  }

  /** Two fans in a row: `first` under node `p`, then `second` under node `q`. */
  method AddTwoFans(d: Diagram, p: nat, first: seq<Group>, q: nat, second: seq<Group>)
    requires d.Valid() && p < |d.nodes| && q < |d.nodes|
    requires NonEmptyGroups(first) && NonEmptyGroups(second)
    modifies d
    ensures d.Valid()
    ensures d.nodes == old(d.nodes) + GroupNodes(first) + GroupNodes(second)
    ensures d.links == old(d.links) + FanLinks(p, old(|d.nodes|), first) + FanLinks(q, old(|d.nodes|) + |first|, second)
  {
    d.AddFanOut(p, first);
    d.AddFanOut(q, second);
  }

  /** The connected, failed and unknown outcome nodes, each only when its count is positive. */
  method AddOutcomeNodes(d: Diagram, ts: int, tf: int, tu: int) returns (o: Outcomes)
    requires d.Valid()
    modifies d
    ensures d.Valid()
    ensures d.nodes == old(d.nodes) + OutcomeNodesOf(ts, tf, tu) && d.links == old(d.links)
    ensures o == OutcomeSlots(old(|d.nodes|), ts, tf, tu)
  {
    o := Outcomes(None, None, None);
    if ts > 0 {
      var i := d.AddNode(ConnectedNode);
      o := o.(connected := Some(i));
    }
    if tf > 0 {
      var i := d.AddNode(FailedNode);
      o := o.(failed := Some(i));
    }
    if tu > 0 {
      var i := d.AddNode(TransferUnknownNode);
      o := o.(unknown := Some(i));
    }
  }

  /** An outcome node index, if there is one, lies after the type nodes and inside the node list. */
  predicate OutcomeIdx(idx: Option<nat>, typeEnd: nat, nodeCount: nat) {
    idx.Some? ==> typeEnd <= idx.value < nodeCount
  }

  predicate SlotsBetween(o: Outcomes, typeEnd: nat, nodeCount: nat) {
    OutcomeIdx(o.connected, typeEnd, nodeCount) && OutcomeIdx(o.failed, typeEnd, nodeCount)
    && OutcomeIdx(o.unknown, typeEnd, nodeCount)
  }

  /** The links from the node of one transfer type into the outcome nodes, split by `transfer_success`. */
  method LinkTypeOutcomes(d: Diagram, typeIdx: nat, s: TypeSplit, o: Outcomes)
    requires d.Valid() && SlotsBetween(o, typeIdx + 1, |d.nodes|)
    modifies d
    ensures d.Valid()
    ensures d.nodes == old(d.nodes) && d.links == old(d.links) + SplitLinks(typeIdx, s, o)
  {
    ghost var links0 := d.links;
    ghost var a := if s.connected != [] && o.connected.Some? then [Link(typeIdx, o.connected.value, s.connected)] else [];
    ghost var b := if s.failed != [] && o.failed.Some? then [Link(typeIdx, o.failed.value, s.failed)] else [];
    if s.connected != [] && o.connected.Some? {
      d.AddLink(typeIdx, o.connected.value, |s.connected|, s.connected);
    }
    assert d.links == links0 + a;
    if s.failed != [] && o.failed.Some? {
      d.AddLink(typeIdx, o.failed.value, |s.failed|, s.failed);
    }
    assert d.links == links0 + a + b;
    if s.unknown != [] && o.unknown.Some? {
      d.AddLink(typeIdx, o.unknown.value, |s.unknown|, s.unknown);
    }
  }

  /** The outcome links of every split, in order. */
  method LinkSplits(d: Diagram, splits: seq<TypeSplit>, typeStart: nat, typeCount: nat, o: Outcomes)
    requires d.Valid() && SlotsBetween(o, typeStart + typeCount, |d.nodes|)
    requires forall j :: 0 <= j < |splits| ==> splits[j].pos < typeCount
    modifies d
    ensures d.Valid()
    ensures d.nodes == old(d.nodes) && d.links == old(d.links) + SplitsLinks(splits, typeStart, o)
  {
    ghost var links0 := d.links;
    for k := 0 to |splits|
      invariant d.Valid() && d.nodes == old(d.nodes)
      invariant d.links == links0 + SplitsLinks(splits[..k], typeStart, o)
    {
      assert splits[..k + 1][..k] == splits[..k];
      LinkTypeOutcomes(d, typeStart + splits[k].pos, splits[k], o);
    }
    assert splits[..|splits|] == splits;
  }

  /** The groups that hang from the connected and the failed outcome node, when that node exists. */
  method AddOutcomeFans(d: Diagram, o: Outcomes, connected: seq<Group>, failed: seq<Group>)
    requires d.Valid() && (o.connected.Some? ==> o.connected.value < |d.nodes|)
    requires o.failed.Some? ==> o.failed.value < |d.nodes|
    requires NonEmptyGroups(connected) && NonEmptyGroups(failed)
    modifies d
    ensures d.Valid()
    ensures d.nodes == old(d.nodes) + HungNodes(o, connected, failed)
    ensures d.links == old(d.links) + HungLinks(o, old(|d.nodes|), connected, failed)
  {
    if o.connected.Some? {
      d.AddFanOut(o.connected.value, connected);
    }
    if o.failed.Some? {
      d.AddFanOut(o.failed.value, failed);
    }
  }

  /** The head, the caller split and the type nodes with their links. */
  method DrawFans(l: Layout) returns (d: Diagram)
    requires LayoutOk(l)
    ensures fresh(d) && d.Valid()
    ensures d.nodes == FanNodesOf(l) && d.links == FanLinksOf(l)
  {
    d := StartDiagram(l);
    AddTwoFans(d, 1, l.callerR, 2, l.callerU);
    assert |d.nodes| == TypeStartOf(l);
    AddTwoFans(d, 1, l.typeR, 2, l.typeU);
  }

  /** The transfer-outcome block: the outcome nodes, then the links into them from each transfer type. */
  method DrawOutcomes(d: Diagram, l: Layout) returns (slots: Outcomes)
    requires LayoutOk(l) && d.Valid() && |d.nodes| == OutcomeStartOf(l)
    modifies d
    ensures d.Valid() && slots == SlotsOf(l)
    ensures d.nodes == old(d.nodes) + OutcomePartOf(l) && d.links == old(d.links) + OutcomeLinksOf(l)
    ensures |d.nodes| == DetailStartOf(l) && SlotsBetween(slots, OutcomeStartOf(l), |d.nodes|)
  {
    slots := Outcomes(None, None, None);
    if l.showsOutcomes {
      slots := AddOutcomeNodes(d, l.ts, l.tf, l.tu);
      LinkSplits(d, l.splits, TypeStartOf(l), |l.typeR|, slots);
    }
  }

  /** The outcome nodes and their links, then the destination and secondary-action fans. */
  method DrawDetail(d: Diagram, l: Layout)
    requires LayoutOk(l) && d.Valid() && d.nodes == FanNodesOf(l) && d.links == FanLinksOf(l)
    modifies d
    ensures d.Valid()
    ensures d.nodes == old(d.nodes) + DetailNodesOf(l)
    ensures d.links == old(d.links) + DetailLinksOf(l)
  {
    ghost var n0, l0 := d.nodes, d.links;
    var slots := DrawOutcomes(d, l);
    ghost var n1, l1 := d.nodes, d.links;
    AddOutcomeFans(d, slots, l.destS, l.destF);
    ghost var n2, l2 := d.nodes, d.links;
    assert |n1| == DetailStartOf(l) && |n2| == |n1| + |HungNodes(slots, l.destS, l.destF)|;
    AddOutcomeFans(d, slots, l.actS, l.actF);
    DetailSplit(l, slots);
    Chain(n0, n1, n2, d.nodes, OutcomePartOf(l), HungNodes(slots, l.destS, l.destF), HungNodes(slots, l.actS, l.actF));
    Chain(l0, l1, l2, d.links, OutcomeLinksOf(l), HungLinks(slots, |n1|, l.destS, l.destF), HungLinks(slots, |n2|, l.actS, l.actF));
  }

  /** The detail lists, block by block. */
  lemma DetailSplit(l: Layout, o: Outcomes)
    requires o == SlotsOf(l)
    ensures DetailNodesOf(l) == OutcomePartOf(l) + HungNodes(o, l.destS, l.destF) + HungNodes(o, l.actS, l.actF)
    ensures DetailLinksOf(l) == OutcomeLinksOf(l) + HungLinks(o, DetailStartOf(l), l.destS, l.destF)
      + HungLinks(o, DetailStartOf(l) + |HungNodes(o, l.destS, l.destF)|, l.actS, l.actF)
  {
  }

  lemma Chain<T>(s0: seq<T>, s1: seq<T>, s2: seq<T>, s3: seq<T>, a: seq<T>, b: seq<T>, c: seq<T>)
    requires s1 == s0 + a && s2 == s1 + b && s3 == s2 + c
    ensures s3 == s0 + (a + b + c)
  {
  }

  /** Draws a layout: the blocks of nodes and links in the order the render function appends them. */
  method Draw(l: Layout) returns (d: Diagram)
    requires LayoutOk(l)
    ensures fresh(d) && d.Valid()
    ensures d.nodes == NodesOf(l) && d.links == LinksOf(l)
  {
    d := DrawFans(l);
    DrawDetail(d, l);
  }

  /**
   * `render_resolution_flow`: nothing for an empty record list; otherwise a
   * well-formed diagram whose nodes and links are `DiagramNodes` and
   * `DiagramLinks` of the records under the chosen options.
   */
  method RenderResolutionFlow(allFiles: seq<FileInfo>, opts: Options) returns (d: Diagram?)
    ensures d == null <==> allFiles == []
    ensures d != null ==> fresh(d) && d.Valid()
    ensures d != null ==> d.nodes == DiagramNodes(allFiles, opts) && d.links == DiagramLinks(allFiles, opts)
  {
    if |allFiles| == 0 {
      return null;
    }
    var l := ComputeLayout(allFiles, opts);
    LayoutOfOk(allFiles, opts);
    d := Draw(l);
  }
}
