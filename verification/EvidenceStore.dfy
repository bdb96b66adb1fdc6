/** Evidence rows and whether their recorded sources still stand. */
module EvidenceStore {
  import opened Common
  import opened AgentTypes

  // Identifiers are hashes of what they are derived from; a hash is the hashed value itself.
  datatype EvidenceKey =
    | Observed(token: nat)
    | Derived(item: nat, source: EvidenceKey, requirement: nat)

  datatype Evidence = Evidence(
    id: EvidenceKey,
    caseId: nat,
    requirementId: nat,
    stance: Stance,
    modality: string,
    start: int,
    end: int,
    artifact: Option<nat>,
    toolRun: Option<nat>,
    modelCall: Option<nat>,
    sourceRef: string,
    summary: string,
    confidence: Option<real>,
    origin: Option<EvidenceKey>,
    replayItem: Option<nat>)

  datatype SourceStatus = StillRunning | Succeeded | PartlySucceeded | Broken
  datatype ToolRun = ToolRun(caseId: nat, requirementId: nat, status: SourceStatus)
  datatype ModelCall = ModelCall(caseId: Option<nat>, status: SourceStatus)

  // The rows of cases and of what evidence refers to, and the evidence table in order of creation.
  datatype Tables = Tables(
    videos: map<nat, nat>,          // video of a case
    artifacts: map<nat, nat>,       // video of an artifact
    tools: map<nat, ToolRun>,
    calls: map<nat, ModelCall>,
    rows: seq<Evidence>)

  datatype Classified = Classified(
    evidence: Evidence,
    valid: bool,
    toolStatus: Option<SourceStatus>,
    modelStatus: Option<SourceStatus>,
    artifactAvailable: Option<bool>)

  predicate DistinctIds(rows: seq<Evidence>) {
    forall i, j :: 0 <= i < j < |rows| ==> rows[i].id != rows[j].id
  }

  predicate Holds(rows: seq<Evidence>, id: EvidenceKey) {
    exists i :: 0 <= i < |rows| && rows[i].id == id
  }

  predicate ModalityAllowed(modality: string, allowed: seq<string>) {
    var normalized :=
      if modality == "vision" || modality == "visual_caption" || modality == "clip" || modality == "keyframe"
      then "vision" else modality;
    normalized in allowed
  }

  function ListFor(rows: seq<Evidence>, requirementId: nat): (r: seq<Evidence>)
    ensures forall e :: e in r <==> e in rows && e.requirementId == requirementId
    ensures DistinctIds(rows) ==> DistinctIds(r)
  {
    if rows == [] then []
    else
      var rest := ListFor(rows[..|rows| - 1], requirementId);
      var last := rows[|rows| - 1];
      if last.requirementId == requirementId then rest + [last] else rest
  }

  // Where the rows of a requirement stand in the table.
  ghost function Places(rows: seq<Evidence>, requirementId: nat): (r: seq<nat>)
    ensures forall i :: i in r <==> 0 <= i < |rows| && rows[i].requirementId == requirementId
    ensures forall a, b :: 0 <= a < b < |r| ==> r[a] < r[b]
  {
    if rows == [] then []
    else
      var n := |rows| - 1;
      var rest := Places(rows[..n], requirementId);
      assert forall a :: 0 <= a < |rest| ==> rest[a] in rest;
      if rows[n].requirementId == requirementId then rest + [n] else rest
  }

  // The list is the table at those places: every row of the requirement, as often and in the order it was stored.
  lemma {:induction false} ListForInOrder(rows: seq<Evidence>, requirementId: nat)
    ensures
      var places := Places(rows, requirementId);
      && |ListFor(rows, requirementId)| == |places|
      && forall k :: 0 <= k < |places| ==> places[k] in places && ListFor(rows, requirementId)[k] == rows[places[k]]
  {
    if rows != [] {
      ListForInOrder(rows[..|rows| - 1], requirementId);
    }
  }

  predicate ToolStands(t: Tables, e: Evidence) {
    e.toolRun.Some? ==>
      && e.toolRun.value in t.tools
      && t.tools[e.toolRun.value].caseId == e.caseId
      && t.tools[e.toolRun.value].requirementId == e.requirementId
      && (t.tools[e.toolRun.value].status == Succeeded || t.tools[e.toolRun.value].status == PartlySucceeded)
  }

  predicate CallStands(t: Tables, e: Evidence) {
    e.modelCall.Some? ==>
      && e.modelCall.value in t.calls
      && t.calls[e.modelCall.value].caseId == Some(e.caseId)
      && t.calls[e.modelCall.value].status == Succeeded
  }

  function Classify(t: Tables, requirementId: nat, caseId: nat, modalities: seq<string>, e: Evidence)
    : (c: Classified)
    ensures c.evidence == e
  {
    var bad := Classified(e, false, None, None, None);
    if e.caseId != caseId || e.requirementId != requirementId then bad
    else if e.start < 0 || e.end <= e.start then bad
    else if !ModalityAllowed(e.modality, modalities) then bad
    else if caseId !in t.videos then bad
    else
      var artifact := if e.artifact.None? then None
                      else Some(e.artifact.value in t.artifacts && t.artifacts[e.artifact.value] == t.videos[caseId]);
      if artifact == Some(false) then bad.(artifactAvailable := artifact)
      else
        var tool := if e.toolRun.Some? && e.toolRun.value in t.tools then Some(t.tools[e.toolRun.value].status)
          else None;
        if !ToolStands(t, e) then bad.(toolStatus := tool, artifactAvailable := artifact)
        else
          var model := if e.modelCall.Some? && e.modelCall.value in t.calls
                       then Some(t.calls[e.modelCall.value].status) else None;
          if !CallStands(t, e) then Classified(e, false, tool, model, artifact)
          else if e.origin.Some? && !Holds(t.rows, e.origin.value) then bad
          else if e.origin.None? && e.artifact.None? && e.toolRun.None? && e.modelCall.None? then bad
          else Classified(e, true, tool, model, artifact)
  }

  function ClassifyAll(t: Tables, requirementId: nat, caseId: nat, modalities: seq<string>, list: seq<Evidence>)
    : (r: seq<Classified>)
    ensures |r| == |list|
    ensures forall i :: 0 <= i < |list| ==> r[i] == Classify(t, requirementId, caseId, modalities, list[i])
  {
    seq(|list|, i requires 0 <= i < |list| => Classify(t, requirementId, caseId, modalities, list[i]))
  }

  // ---- validity --------------------------------------------------------------------------

  // Names under which pictures are recorded.
  ghost predicate Pictorial(modality: string) {
    modality == "vision" || modality == "visual_caption" || modality == "clip" || modality == "keyframe"
  }

  // The row is the requirement's own, of a proper interval and of a modality it admits.
  ghost predicate InPlace(t: Tables, requirementId: nat, caseId: nat, modalities: seq<string>, e: Evidence) {
    && e.caseId == caseId && e.requirementId == requirementId && 0 <= e.start < e.end
    && (if Pictorial(e.modality) then "vision" in modalities else e.modality in modalities)
    && caseId in t.videos
  }

  ghost predicate ArtifactThere(t: Tables, caseId: nat, e: Evidence)
    requires caseId in t.videos
  {
    e.artifact.Some? ==> e.artifact.value in t.artifacts && t.artifacts[e.artifact.value] == t.videos[caseId]
  }

  ghost predicate ToolSucceeded(t: Tables, e: Evidence) {
    e.toolRun.Some? ==>
      exists status :: status in {Succeeded, PartlySucceeded} && e.toolRun.value in t.tools
                       && t.tools[e.toolRun.value] == ToolRun(e.caseId, e.requirementId, status)
  }

  ghost predicate CallSucceeded(t: Tables, e: Evidence) {
    e.modelCall.Some? ==>
      e.modelCall.value in t.calls && t.calls[e.modelCall.value] == ModelCall(Some(e.caseId), Succeeded)
  }

  // It derives from a row in the table or, deriving from none, names some source.
  ghost predicate Sourced(t: Tables, e: Evidence) {
    if e.origin.Some? then exists row :: row in t.rows && row.id == e.origin.value
    else e.artifact.Some? || e.toolRun.Some? || e.modelCall.Some?
  }

  // A row is valid when it is in place and everything it refers to stands. The states of its sources are
  // reported as far as the checks come, and dropped when they come to the end and fail there.
  lemma ValidityIsExact(t: Tables, requirementId: nat, caseId: nat, modalities: seq<string>, e: Evidence)
    ensures
      var c := Classify(t, requirementId, caseId, modalities, e);
      var tool := if e.toolRun.Some? && e.toolRun.value in t.tools then Some(t.tools[e.toolRun.value].status) else None;
      var model := if e.modelCall.Some? && e.modelCall.value in t.calls then Some(t.calls[e.modelCall.value].status)
                   else None;
      var artifact := if e.artifact.Some? then Some(true) else None;
      if !InPlace(t, requirementId, caseId, modalities, e) then c == Classified(e, false, None, None, None)
      else if !ArtifactThere(t, caseId, e) then c == Classified(e, false, None, None, Some(false))
      else if !ToolSucceeded(t, e) then c == Classified(e, false, tool, None, artifact)
      else if !CallSucceeded(t, e) then c == Classified(e, false, tool, model, artifact)
      else if !Sourced(t, e) then c == Classified(e, false, None, None, None)
      else c == Classified(e, true, tool, model, artifact)
  {
    if e.origin.Some? {
      if row :| row in t.rows && row.id == e.origin.value {
        var i :| 0 <= i < |t.rows| && t.rows[i] == row;
      }
      if i :| 0 <= i < |t.rows| && t.rows[i].id == e.origin.value {
        assert t.rows[i] in t.rows;
      }
    }
  }
}
