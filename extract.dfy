/**
 * Stage one of the pipeline: projecting each raw call record onto the
 * thirteen fields the later stages use (vapi_extract.py). Reading and
 * writing the files is left out; the list of records is the input.
 */
module Extract {
  import opened Json
  import Dict

  /** The keys of a projected record, in the order they are written. */
  const ProjectedKeys: seq<string> := [
    "id", "transcript", "type", "endedReason", "assistantId", "phoneNumberId",
    "phoneCallProvider", "squadId", "transfers", "createdAt", "updatedAt",
    "durationSeconds", "orgId"]

  /** The projected keys copied verbatim from the raw record. */
  const CopiedKeys: seq<string> := [
    "id", "transcript", "type", "endedReason", "assistantId", "phoneNumberId",
    "phoneCallProvider", "squadId", "createdAt", "updatedAt", "orgId"]

  /**
   * What the projection needs of a record to run without raising: truthy
   * `messages` must be a list whose last element is a dict (`messages[-1].get`),
   * and a truthy `artifact` must be a dict (`.get('transfers')`).
   */
  predicate ShapeOk(call: Object) {
    var m := Field(call, "messages");
    var a := Field(call, "artifact");
    && (!Truthy(m) || (m.JArr? && m.items[|m.items| - 1].JObj?))
    && (!Truthy(a) || a.JObj?)
  }

  /** The value a projected record holds under key `k`, given the duration the loop worked out. */
  function ValueFor(call: Object, durationSeconds: Json, k: string): Json
    requires ShapeOk(call)
  {
    var artifact := Field(call, "artifact");
    if k == "transfers" then (if Truthy(artifact) then Field(artifact.fields, "transfers") else JNull)
    else if k == "durationSeconds" then durationSeconds
    else Field(call, k)
  }

  function RecordValues(call: Object, durationSeconds: Json): (vs: seq<Json>)
    requires ShapeOk(call)
    ensures |vs| == |ProjectedKeys|
    ensures forall j :: 0 <= j < |vs| ==> vs[j] == ValueFor(call, durationSeconds, ProjectedKeys[j])
  {
    seq(|ProjectedKeys|, j requires 0 <= j < |ProjectedKeys| => ValueFor(call, durationSeconds, ProjectedKeys[j]))
  }

  /** The projected record: the dict literal of lines 28-42. */
  function Record(call: Object, durationSeconds: Json): Object
    requires ShapeOk(call)
  {
    Dict.Zip(ProjectedKeys, RecordValues(call, durationSeconds))
  }

  /** `secondsFromStart` of the last message, or None when there are no messages. */
  function DurationOf(call: Object): Json
    requires ShapeOk(call)
  {
    var m := Field(call, "messages");
    if Truthy(m) then Field(m.items[|m.items| - 1].fields, "secondsFromStart") else JNull
  }

  function Project(call: Object): Object
    requires ShapeOk(call)
  {
    Record(call, DurationOf(call))
  }

  lemma {:induction false} DistinctProjectedKeys()
    ensures Dict.Distinct(ProjectedKeys)
  {
  }

  lemma CopiedAreProjected()
    ensures forall k :: k in CopiedKeys ==> k in ProjectedKeys
    ensures "transfers" !in CopiedKeys && "durationSeconds" !in CopiedKeys
  {
  }

  /** The projection keeps exactly the thirteen keys, in their order. */
  lemma ProjectKeys(call: Object)
    requires ShapeOk(call)
    ensures Dict.Keys(Project(call)) == ProjectedKeys
    ensures forall k :: HasKey(Project(call), k) <==> k in ProjectedKeys
  {
    FieldOfRecord(call, DurationOf(call), "id");
  }

  /** Eleven fields are copied from the raw record; a missing one reads as None. */
  lemma ProjectCopies(call: Object, k: string)
    requires ShapeOk(call) && k in CopiedKeys
    ensures Field(Project(call), k) == Field(call, k)
  {
    CopiedAreProjected();
    FieldOfRecord(call, DurationOf(call), k);
  }

  /** `durationSeconds` is the last message's `secondsFromStart`, or None without messages. */
  lemma ProjectDuration(call: Object)
    requires ShapeOk(call)
    ensures var m := Field(call, "messages");
      Field(Project(call), "durationSeconds") ==
        if Truthy(m) then Field(m.items[|m.items| - 1].fields, "secondsFromStart") else JNull
  {
    assert "durationSeconds" == ProjectedKeys[11];
    FieldOfRecord(call, DurationOf(call), "durationSeconds");
  }

  /** `transfers` comes from a truthy `artifact`, and is None otherwise. */
  lemma ProjectTransfers(call: Object)
    requires ShapeOk(call)
    ensures var a := Field(call, "artifact");
      Field(Project(call), "transfers") == if Truthy(a) then Field(a.fields, "transfers") else JNull
  {
    assert "transfers" == ProjectedKeys[8];
    FieldOfRecord(call, DurationOf(call), "transfers");
  }

  lemma FieldOfRecord(call: Object, d: Json, k: string)
    requires ShapeOk(call)
    ensures Dict.Keys(Record(call, d)) == ProjectedKeys
    ensures k in ProjectedKeys ==> Field(Record(call, d), k) == ValueFor(call, d, k)
  {
    var vs := RecordValues(call, d);
    DistinctProjectedKeys();
    Dict.ZipGet(ProjectedKeys, vs, 0);
    if k in ProjectedKeys {
      var j :| 0 <= j < |ProjectedKeys| && ProjectedKeys[j] == k;
      Dict.ZipGet(ProjectedKeys, vs, j);
    }
  }

  /** `extract_calls`: one projected record per input record, in input order, and their number. */
  method ExtractCalls(calls: seq<Object>) returns (extracted: seq<Object>, count: nat)
    requires forall j :: 0 <= j < |calls| ==> ShapeOk(calls[j])
    ensures count == |extracted| == |calls|
    ensures forall j :: 0 <= j < |calls| ==> extracted[j] == Project(calls[j])
  {
    extracted := [];
    for i := 0 to |calls|
      invariant |extracted| == i
      invariant forall j :: 0 <= j < i ==> extracted[j] == Project(calls[j])
    {
      var call := calls[i];
      var durationSeconds := JNull;
      var messages := Field(call, "messages");
      if Truthy(messages) {
        var lastMsg := messages.items[|messages.items| - 1];
        durationSeconds := Field(lastMsg.fields, "secondsFromStart");
      }
      extracted := extracted + [Record(call, durationSeconds)];
    }
    count := |extracted|;
  }
}
