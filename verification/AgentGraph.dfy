/** The six-node investigation graph as a worker executes it: budgets, validation of model answers,
    and the program points of a worker between two database transactions. */
module AgentGraph {
  import opened Common
  import opened AgentTypes

  // ---- transitions -----------------------------------------------------------------------

  predicate Allowed(node: Node, next: Option<Node>) {
    match node
    case Plan => next == Some(Retrieve)
    case Retrieve => next == Some(Inspect)
    case Inspect => next == Some(Verify)
    case Verify => next == Some(Challenge)
    case Challenge => next == Some(Plan) || next == Some(Decide)
    case Decide => next == None
  }

  // ---- budgets ---------------------------------------------------------------------------

  function CounterStop(cfg: Settings, s: State): Option<StopReason> {
    if s.iteration >= cfg.maxIterations && (s.next == Some(Plan) || s.next == Some(Decide)) then Some(BudgetIteration)
    else if s.vlmCalls >= cfg.maxVlmCalls then Some(BudgetVlm)
    else if s.consecutiveFailures >= cfg.maxToolFailures then Some(ToolFailureLimit)
    else if s.stagnant >= cfg.maxStagnant then Some(StagnationLimit)
    else None
  }

  // `late` says whether the clock has reached the deadline.
  function BudgetStop(cfg: Settings, s: State, late: bool): Option<StopReason> {
    if late then Some(BudgetTime) else CounterStop(cfg, s)
  }

  function ReviewDecision(s: State, reason: StopReason): Decision {
    Decision(NeedsHumanReview, Runtime(reason), s.evidenceIds)
  }

  // ---- requirements and actions ----------------------------------------------------------

  function FindRequirement(requirements: seq<Requirement>, id: RequirementId): (r: Option<Requirement>)
    ensures r.Some? ==> r.value in requirements && r.value.id == id
    ensures r.None? ==> forall q :: q in requirements ==> q.id != id
  {
    if requirements == [] then None
    else if requirements[0].id == id then Some(requirements[0])
    else FindRequirement(requirements[1..], id)
  }

  predicate Searches(tool: Tool) {
    tool == SearchTranscript || tool == SearchOcr || tool == SearchVisualCaption
  }

  predicate NeedsRange(tool: Tool) {
    tool == InspectClip || tool == ExpandTemporalContext || tool == GetNeighborSegments
  }

  predicate ValidAction(cfg: Settings, s: State, action: Action) {
    var requirement := FindRequirement(s.requirements, action.requirementId);
    && requirement.Some?
    && action.tool in requirement.value.tools
    && action.tool in cfg.registry
    && (Searches(action.tool) ==> !cfg.blank(action.query))
    && (NeedsRange(action.tool) ==> action.range.Some?)
  }

  // ---- evidence --------------------------------------------------------------------------

  function FindItem(items: seq<Item>, sourceRef: string): (r: Option<Item>)
    ensures r.Some? ==> r.value in items && r.value.found.sourceRef == sourceRef
    ensures r.None? ==> forall i :: i in items ==> i.found.sourceRef != sourceRef
  {
    // A later item with the same reference replaces an earlier one.
    if items == [] then None
    else if items[|items| - 1].found.sourceRef == sourceRef then Some(items[|items| - 1])
    else FindItem(items[..|items| - 1], sourceRef)
  }

  // Of several items with one reference the last one counts, of several requirements with one identity the first.
  lemma {:induction false} LastItemCounts(items: seq<Item>, k: nat)
    requires k < |items| && forall j :: k < j < |items| ==> items[j].found.sourceRef != items[k].found.sourceRef
    ensures FindItem(items, items[k].found.sourceRef) == Some(items[k])
  {
    if k < |items| - 1 {
      LastItemCounts(items[..|items| - 1], k);
    }
  }

  lemma {:induction false} FirstRequirementCounts(requirements: seq<Requirement>, k: nat)
    requires k < |requirements| && forall j :: 0 <= j < k ==> requirements[j].id != requirements[k].id
    ensures FindRequirement(requirements, requirements[k].id) == Some(requirements[k])
  {
    if k > 0 {
      FirstRequirementCounts(requirements[1..], k - 1);
    }
  }

  function RowOf(draft: Draft, item: Item, requirementId: RequirementId, call: nat): EvidenceRow {
    EvidenceRow(EvidenceId(requirementId, draft.sourceRef, draft.stance, draft.start, draft.end, call),
                item.found.modality, item.found.artifact, item.run, draft.summary, draft.confidence)
  }

  predicate DraftFits(items: seq<Item>, requirementId: RequirementId, draft: Draft) {
    var item := FindItem(items, draft.sourceRef);
    && item.Some?
    && item.value.found.start <= draft.start
    && draft.end <= item.value.found.end
    && item.value.requirementId == requirementId
  }

  // The rows a verifier answer turns into, or None when a draft forges its source.
  function ValidateEvidence(items: seq<Item>, requirementId: RequirementId, drafts: seq<Draft>, call: nat)
    : (r: Option<seq<EvidenceRow>>)
    ensures r.Some? <==> forall d :: d in drafts ==> DraftFits(items, requirementId, d)
    ensures r.Some? ==> |r.value| == |drafts|
    ensures r.Some? ==> forall k :: 0 <= k < |drafts| ==>
      DraftFits(items, requirementId, drafts[k]) &&
      r.value[k] == RowOf(drafts[k], FindItem(items, drafts[k].sourceRef).value, requirementId, call)
  {
    if drafts == [] then Some([])
    else
      var rest := ValidateEvidence(items, requirementId, drafts[1..], call);
      if !DraftFits(items, requirementId, drafts[0]) || rest.None? then None
      else
        var row := RowOf(drafts[0], FindItem(items, drafts[0].sourceRef).value, requirementId, call);
        Some([row] + rest.value)
  }

  function AppendIds(ids: seq<EvidenceId>, rows: seq<EvidenceRow>): (r: seq<EvidenceId>)
    ensures forall id :: id in r <==> id in ids || exists row :: row in rows && row.id == id
    decreases rows
  {
    if rows == [] then ids
    else AppendIds(if rows[0].id in ids then ids else ids + [rows[0].id], rows[1..])
  }

  predicate Unrepeated(ids: seq<EvidenceId>) {
    forall i, j :: 0 <= i < j < |ids| ==> ids[i] != ids[j]
  }

  // Some row of the one identity comes before every row of the other.
  predicate RowComesFirst(rows: seq<EvidenceRow>, id: EvidenceId, other: EvidenceId) {
    exists i :: 0 <= i < |rows| && rows[i].id == id && forall j :: 0 <= j <= i ==> rows[j].id != other
  }

  lemma {:induction false} AppendIdsKeeps(ids: seq<EvidenceId>, rows: seq<EvidenceRow>)
    requires Unrepeated(ids)
    ensures ids <= AppendIds(ids, rows) && Unrepeated(AppendIds(ids, rows))
    ensures |AppendIds(ids, rows)| == |ids| <==> forall row :: row in rows ==> row.id in ids
    decreases rows
  {
    if rows != [] {
      AppendIdsKeeps(if rows[0].id in ids then ids else ids + [rows[0].id], rows[1..]);
      assert forall row :: row in rows <==> row == rows[0] || row in rows[1..];
    }
  }

  lemma RowComesFirstLater(rows: seq<EvidenceRow>, id: EvidenceId, other: EvidenceId)
    requires rows != [] && RowComesFirst(rows[1..], id, other) && rows[0].id != other
    ensures RowComesFirst(rows, id, other)
  {
    var i :| 0 <= i < |rows[1..]| && rows[1..][i].id == id && forall j :: 0 <= j <= i ==> rows[1..][j].id != other;
    assert rows[i + 1].id == id;
    forall j | 0 <= j <= i + 1
      ensures rows[j].id != other
    {
      if j > 0 {
        assert rows[1..][j - 1] == rows[j];
      }
    }
  }

  lemma {:induction false} NewIdsInOrder(ids: seq<EvidenceId>, rows: seq<EvidenceRow>, a: nat, b: nat)
    requires Unrepeated(ids) && |ids| <= a < b < |AppendIds(ids, rows)|
    ensures RowComesFirst(rows, AppendIds(ids, rows)[a], AppendIds(ids, rows)[b])
    decreases rows
  {
    var more := if rows[0].id in ids then ids else ids + [rows[0].id];
    var r := AppendIds(ids, rows);
    AppendIdsKeeps(more, rows[1..]);
    if a < |more| {
      assert rows[0].id == r[a] && r[a] != r[b];
    } else {
      var k :| 0 <= k < |more| && more[k] == rows[0].id;
      assert r[k] == rows[0].id && r[k] != r[b];
      NewIdsInOrder(more, rows[1..], a, b);
      RowComesFirstLater(rows, r[a], r[b]);
    }
  }

  // The identities held so far stay where they are and the new ones follow, none twice and in the order
  // of their first rows; so the list stays as long as it was exactly when no identity is new.
  lemma AppendIdsInOrder(ids: seq<EvidenceId>, rows: seq<EvidenceRow>)
    requires Unrepeated(ids)
    ensures
      var r := AppendIds(ids, rows);
      && ids <= r && Unrepeated(r)
      && (forall id :: id in r <==> id in ids || exists row :: row in rows && row.id == id)
      && (|r| == |ids| <==> forall row :: row in rows ==> row.id in ids)
      && (forall a, b :: |ids| <= a < b < |r| ==> RowComesFirst(rows, r[a], r[b]))
  {
    AppendIdsKeeps(ids, rows);
    var r := AppendIds(ids, rows);
    assert forall id :: id in r <==> id in ids || exists row :: row in rows && row.id == id;
    hide AppendIds, RowComesFirst;
    forall a, b | |ids| <= a < b < |r|
      ensures RowComesFirst(rows, r[a], r[b])
    {
      NewIdsInOrder(ids, rows, a, b);
    }
  }

  predicate Decisive(stance: Stance) {
    stance == Support || stance == Contradict
  }

  predicate Resolves(rows: seq<EvidenceRow>, id: RequirementId) {
    exists row :: row in rows && row.id.requirementId == id && Decisive(row.id.stance)
  }

  function StillMissing(missing: seq<RequirementId>, rows: seq<EvidenceRow>): (r: seq<RequirementId>)
    ensures forall id :: id in r <==> id in missing && !Resolves(rows, id)
  {
    if missing == [] then []
    else (if Resolves(rows, missing[0]) then [] else [missing[0]]) + StillMissing(missing[1..], rows)
  }

  // The append-only store keeps the first row of an identity.
  function StoreEvidence(table: EvidenceTable, rows: seq<EvidenceRow>): (r: EvidenceTable)
    ensures r.Keys == table.Keys + (set row | row in rows :: row.id)
    ensures forall id :: id in table ==> r[id] == table[id]
    ensures forall id :: id in r && id !in table ==> r[id] in rows && r[id].id == id
    decreases rows
  {
    if rows == [] then table
    else
      var first := if rows[0].id in table then table else table[rows[0].id := rows[0]];
      StoreEvidence(first, rows[1..])
  }

  lemma {:induction false} FirstRowIsStored(table: EvidenceTable, rows: seq<EvidenceRow>, i: nat)
    requires i < |rows| && rows[i].id !in table && forall j :: 0 <= j < i ==> rows[j].id != rows[i].id
    ensures StoreEvidence(table, rows)[rows[i].id] == rows[i]
    decreases rows
  {
    if i > 0 {
      var first := if rows[0].id in table then table else table[rows[0].id := rows[0]];
      assert rows[1..][i - 1] == rows[i];
      assert rows[0].id != rows[i].id;
      FirstRowIsStored(first, rows[1..], i - 1);
    }
  }

  // Append-only: stored rows stay, and of several rows with one new identity the first is stored.
  lemma FirstRowsStay(table: EvidenceTable, rows: seq<EvidenceRow>)
    ensures
      var r := StoreEvidence(table, rows);
      && (forall id :: id in r <==> id in table || exists row :: row in rows && row.id == id)
      && (forall id :: id in table ==> r[id] == table[id])
      && forall i :: 0 <= i < |rows| && rows[i].id !in table ==>
           (forall j :: 0 <= j < i ==> rows[j].id != rows[i].id) ==> r[rows[i].id] == rows[i]
  {
    var r := StoreEvidence(table, rows);
    forall i | 0 <= i < |rows| && rows[i].id !in table && forall j :: 0 <= j < i ==> rows[j].id != rows[i].id
      ensures r[rows[i].id] == rows[i]
    {
      FirstRowIsStored(table, rows, i);
    }
  }

  function Summary(table: EvidenceTable, ids: seq<EvidenceId>): map<EvidenceId, Brief> {
    map id | id in ids && id in table :: Brief(table[id].summary, table[id].confidence)
  }

  // ---- the provisional decision ----------------------------------------------------------

  predicate Conflicted(ids: set<EvidenceId>, requirementId: RequirementId) {
    && (exists a :: a in ids && a.requirementId == requirementId && a.stance == Support)
    && (exists b :: b in ids && b.requirementId == requirementId && b.stance == Contradict)
  }

  function Conflicts(ids: set<EvidenceId>): set<RequirementId> {
    set a | a in ids && Conflicted(ids, a.requirementId) :: a.requirementId
  }

  datatype Enforced = Enforced(decision: Decision, reason: StopReason, contradictory: set<RequirementId>)

  // None: the proposal cites evidence the run does not hold.
  function Enforce(cfg: Settings, late: bool, table: EvidenceTable, s: State, proposed: Decision)
    : Option<Enforced>
  {
    if exists id :: id in proposed.evidenceIds && id !in s.evidenceIds then None
    else
      var stop0 := BudgetStop(cfg, s, late);
      var stop1 := if proposed.verdict != NeedsHumanReview && proposed.evidenceIds == []
                   then Some(DecisionEvidenceMissing) else stop0;
      var stop2 := if stop1.None? && s.missing != [] then Some(RequiredEvidenceMissing) else stop1;
      var conflicts := Conflicts(Summary(table, s.evidenceIds).Keys);
      var stop3 := if conflicts != {} then Some(ContradictoryEvidence) else stop2;
      var contradictory := if conflicts != {} then conflicts else s.contradictory;
      match stop3
      case Some(reason) => Some(Enforced(ReviewDecision(s, reason), reason, contradictory))
      case None => Some(Enforced(proposed, ProvisionalDecision, contradictory))
  }

  // ---- program points of a worker --------------------------------------------------------

  // `proposed` marks the model's own actions, which are checked before they run.
  datatype ToolCall = ToolCall(action: Action, proposed: bool)

  datatype Commit = Commit(node: Node, next: Option<Node>, output: Output, evidence: seq<EvidenceRow>)

  datatype Worker =
    | Looping(s: State)
    | Asking(s: State, key: ModelKey)
    | Awaiting(s: State, key: ModelKey, call: nat)
    | Tooling(s: State, todo: seq<ToolCall>, done: seq<ToolSummary>, plan: Option<ChallengePlan>)
    | Executing(s: State, todo: seq<ToolCall>, done: seq<ToolSummary>, plan: Option<ChallengePlan>,
                tool: ToolKey, run: nat)
    | Committing(s: State, commit: Commit)
    | Deciding(s: State, decision: Decision, reason: StopReason)
    | Stopping(s: State, reason: StopReason)
    | Failing(s: State, code: ErrorCode)
    | Deferring(s: State, retryCode: string)

  function Found(items: seq<Item>): (r: seq<ToolItem>)
    ensures |r| == |items|
  {
    seq(|items|, i requires 0 <= i < |items| => items[i].found)
  }

  // One turn of the run loop up to its first transaction.
  function Begin(cfg: Settings, late: bool, table: EvidenceTable, s: State): (p: Worker)
    ensures !p.Looping? && !p.Awaiting? && !p.Executing?
  {
    if s.next.None? then Failing(s, CheckpointInvalid)
    else
      match BudgetStop(cfg, s, late)
      case Some(reason) => Stopping(s, reason)
      case None => Enter(table, s, s.next.value)
  }

  function Enter(table: EvidenceTable, s: State, node: Node): (p: Worker)
    ensures !p.Looping? && !p.Awaiting? && !p.Executing?
  {
    match node
    case Plan =>
      var s' := s.(iteration := s.iteration + 1);
      Asking(s', ModelKey(Plan, s.version,
                          PlanPrompt(s'.iteration, s.requirements, s.evidenceIds, s.missing)))
    case Retrieve =>
      if s.pending.None? then Failing(s, CheckpointInvalid)
      else Tooling(s, [ToolCall(s.pending.value, false)], [], None)
    case Inspect =>
      if s.selected == []
      then Committing(s.(observations := []), Commit(Inspect, Some(Verify), InspectOut([]), []))
      else Asking(s, ModelKey(Inspect, s.version, InspectPrompt(Found(s.selected))))
    case Verify =>
      if s.selected == [] then Committing(s, Commit(Verify, Some(Challenge), VerifyOut([]), []))
      else if s.pending.None? then Failing(s, CheckpointInvalid)
      else
        var requirement := FindRequirement(s.requirements, s.pending.value.requirementId);
        if requirement.None? then Failing(s, ActionInvalid)
        else Asking(s, ModelKey(Verify, s.version,
                                VerifyPrompt(requirement.value, Found(s.selected), s.observations)))
    case Challenge =>
      Asking(s, ModelKey(Challenge, s.version,
                         EvidencePrompt(s.requirements, Summary(table, s.evidenceIds))))
    case Decide =>
      Asking(s, ModelKey(Decide, s.version,
                         EvidencePrompt(s.requirements, Summary(table, s.evidenceIds))))
  }

  // The node's work once its model has answered.
  function Resume(cfg: Settings, late: bool, table: EvidenceTable, s: State, node: Node, reply: Reply)
    : (p: Worker)
    ensures p.Tooling? || p.Committing? || p.Failing?
  {
    match (node, reply.answer)
    case (Plan, PlanAnswer(hypothesisFor, action)) =>
      if !ValidAction(cfg, s, action) || hypothesisFor != action.requirementId
      then Failing(s, ActionInvalid)
      else Committing(s.(pending := Some(action)), Commit(Plan, Some(Retrieve), PlanOut(action), []))
    case (Inspect, InspectAnswer(observation)) =>
      if FindItem(s.selected, observation.sourceRef).None? then Failing(s, ActionInvalid)
      else Committing(s.(observations := [observation], vlmCalls := s.vlmCalls + 1),
                      Commit(Inspect, Some(Verify), InspectOut([observation]), []))
    case (Verify, VerifyAnswer(drafts)) =>
      if s.pending.None? then Failing(s, CheckpointInvalid)
      else
        var rows := ValidateEvidence(s.selected, s.pending.value.requirementId, drafts, reply.call);
        if rows.None? then Failing(s, ActionInvalid)
        else
          var s' := s.(evidenceIds := AppendIds(s.evidenceIds, rows.value),
                       vlmCalls := s.vlmCalls + 1,
                       missing := StillMissing(s.missing, rows.value));
          Committing(s', Commit(Verify, Some(Challenge), VerifyOut(Ids(rows.value)), rows.value))
    case (Challenge, ChallengeAnswer(plan)) =>
      Tooling(s, ChallengeCalls(s, plan), [], Some(plan))
    case (Decide, DecideAnswer(proposed)) =>
      (match Enforce(cfg, late, table, s, proposed)
       case None => Failing(s, ActionInvalid)
       case Some(e) =>
         Committing(s.(decision := Some(e.decision), stopReason := Some(e.reason),
                       contradictory := e.contradictory),
                    Commit(Decide, None, DecideOut(e.decision, e.reason), [])))
    case _ => Failing(s, CheckpointInvalid)
  }

  function Ids(rows: seq<EvidenceRow>): seq<EvidenceId> {
    seq(|rows|, i requires 0 <= i < |rows| => rows[i].id)
  }

  // The model's counter-evidence actions, then the temporal context of the first selected item.
  function ChallengeCalls(s: State, plan: ChallengePlan): (r: seq<ToolCall>)
    ensures |r| <= 9
  {
    seq(|plan.actions|, i requires 0 <= i < |plan.actions| => ToolCall(plan.actions[i], true))
    + if s.selected == [] then [] else [ToolCall(ContextAction(s.selected[0]), false)]
  }

  function ContextAction(item: Item): Action {
    Action(item.requirementId, ExpandTemporalContext, "", Some(Range(item.found.start, item.found.end)), 5)
  }

  // ---- tools -----------------------------------------------------------------------------

  // Error the challenge loop raises before running a proposed action.
  predicate RefusedCall(s: State, call: ToolCall) {
    call.proposed && (call.action.tool != FindCounterEvidence
                      || FindRequirement(s.requirements, call.action.requirementId).None?)
  }

  // Requests the executor refuses without recording a run.
  predicate InvalidRequest(cfg: Settings, s: State, action: Action) {
    || action.tool !in cfg.registry
    || FindRequirement(s.requirements, action.requirementId).None?
    || ((Searches(action.tool) || action.tool == FindCounterEvidence) && cfg.blank(action.query))
    || (NeedsRange(action.tool) && action.range.None?)
  }

  function KeyOf(cfg: Settings, action: Action): ToolKey {
    ToolKey(action.requirementId, action.tool, cfg.normalize(action.query), action.range, action.limit)
  }

  const Refusal: ToolResult := ToolResult(None, ToolOutput(Failed, []))

  function CountResult(s: State, status: ToolStatus): State {
    if status == Failed
    then s.(consecutiveFailures := s.consecutiveFailures + 1, totalFailures := s.totalFailures + 1)
    else s.(consecutiveFailures := 0)
  }

  function Refs(items: seq<ToolItem>): seq<string> {
    seq(|items|, i requires 0 <= i < |items| => items[i].sourceRef)
  }

  function Select(items: seq<ToolItem>, run: Option<nat>, requirementId: RequirementId): (r: seq<Item>)
    ensures |r| == |items|
    ensures forall k :: 0 <= k < |items| ==> r[k] == Item(items[k], run, requirementId)
  {
    seq(|items|, i requires 0 <= i < |items| => Item(items[i], run, requirementId))
  }

  // The head of `todo` has answered with `result`.
  function AfterTool(s: State, todo: seq<ToolCall>, done: seq<ToolSummary>, plan: Option<ChallengePlan>,
                     result: ToolResult): Worker
    requires todo != []
  {
    var counted := CountResult(s, result.output.status);
    var s' := if plan.Some? then counted
              else counted.(selected := Select(result.output.items, result.run, todo[0].action.requirementId));
    var summary := ToolSummary(result.run, result.output.status, Refs(result.output.items));
    Tooling(s', todo[1..], done + [summary], plan)
  }

  // All tools of the node have answered.
  function FinishTools(cfg: Settings, late: bool, s: State, done: seq<ToolSummary>, plan: Option<ChallengePlan>)
    : (p: Worker)
    ensures p.Committing?
  {
    match plan
    case None =>
      var summary := if done == [] then ToolSummary(None, Failed, []) else done[0];
      Committing(s, Commit(Retrieve, Some(Inspect), RetrieveOut(summary), []))
    case Some(plan) =>
      var s1 := s.(stagnant := if |s.evidenceIds| == s.lastEvidenceCount then s.stagnant + 1 else 0,
                   lastEvidenceCount := |s.evidenceIds|);
      var s2 := if plan.contradictory
                then s1.(contradictory := set r | r in s.requirements && r.required :: r.id) else s1;
      var next := if plan.continues && BudgetStop(cfg, s2, late).None? then Plan else Decide;
      Committing(s2, Commit(Challenge, Some(next), ChallengeOut(plan, done), []))
  }
}
