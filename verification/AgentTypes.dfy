/** Values of the investigation runtime: actions, tool items, evidence, the private state of a
    worker, and the recorded requests and answers of model and tool calls. */
module AgentTypes {
  import opened Common

  datatype Node = Plan | Retrieve | Inspect | Verify | Challenge | Decide
  datatype Stance = Support | Contradict | Neutral | Uncertain
  datatype Verdict = Approve | Reject | NeedsHumanReview
  datatype SourceKind = Ordinary | Exceptional
  datatype ToolStatus = Success | Partial | Failed

  datatype Tool =
    | SearchTranscript
    | SearchOcr
    | SearchVisualCaption
    | FindCounterEvidence
    | InspectClip
    | ExpandTemporalContext
    | GetNeighborSegments
    | OtherTool(name: string)

  type RequirementId = string
  datatype Requirement =
    Requirement(id: RequirementId, kind: SourceKind, required: bool, tools: set<Tool>)

  datatype Range = Range(start: nat, end: nat)
  datatype Action =
    Action(requirementId: RequirementId, tool: Tool, query: string, range: Option<Range>, limit: nat)

  datatype ToolItem =
    ToolItem(sourceRef: string, modality: string, start: nat, end: nat,
             artifact: Option<string>, content: string)

  // A selected item: what a tool found, under the run that found it and the requirement it serves.
  datatype Item = Item(found: ToolItem, run: Option<nat>, requirementId: RequirementId)

  datatype RawToolOutput = ToolOutput(status: ToolStatus, items: seq<ToolItem>)
  // The registered tools return no items with a failure.
  type ToolOutput = o: RawToolOutput | o.status == Failed ==> o.items == []
    witness ToolOutput(Failed, [])

  // What the executor hands back: `run` is None when validation refused the request unrecorded.
  datatype ToolResult = ToolResult(run: Option<nat>, output: ToolOutput)

  // Evidence identity: every field of the hashed identity string.
  datatype EvidenceId =
    EvidenceId(requirementId: RequirementId, sourceRef: string, stance: Stance,
               start: nat, end: nat, call: nat)

  datatype EvidenceRow =
    EvidenceRow(id: EvidenceId, modality: string, artifact: Option<string>, run: Option<nat>,
                summary: string, confidence: Option<real>)

  type EvidenceTable = map<EvidenceId, EvidenceRow>

  datatype RawDraft =
    Draft(sourceRef: string, stance: Stance, start: nat, end: nat, summary: string,
          confidence: Option<real>)
  // The schema a verifier answer must satisfy.
  type Draft = d: RawDraft | d.start < d.end witness Draft("", Neutral, 0, 1, "", None)

  datatype ErrorCode =
    | CheckpointInvalid
    | ActionInvalid
    | TransitionInvalid
    | AlreadyRunning
    | NotResumable
    | ScopeConflict
    | CaseNotReady
    | StateConflict
    | ModelError(code: string)

  datatype StopReason =
    | BudgetTime
    | BudgetIteration
    | BudgetVlm
    | ToolFailureLimit
    | StagnationLimit
    | AgentModelFailed
    | DecisionEvidenceMissing
    | RequiredEvidenceMissing
    | ContradictoryEvidence
    | ProvisionalDecision
    | Failure(code: ErrorCode)

  datatype ReasonCode = Runtime(reason: StopReason) | FromModel(text: string)
  datatype Decision = Decision(verdict: Verdict, reason: ReasonCode, evidenceIds: seq<EvidenceId>)

  datatype RawChallenge =
    ChallengePlan(actions: seq<Action>, contradictory: bool, continues: bool)
  // The schema allows at most eight counter-evidence actions.
  type ChallengePlan = c: RawChallenge | |c.actions| <= 8 witness ChallengePlan([], false, false)

  datatype Observation = Observation(sourceRef: string, summary: string)

  datatype State = State(
    requirements: seq<Requirement>,
    selected: seq<Item>,
    observations: seq<Observation>,
    evidenceIds: seq<EvidenceId>,
    missing: seq<RequirementId>,
    contradictory: set<RequirementId>,
    pending: Option<Action>,
    iteration: nat,
    vlmCalls: nat,
    consecutiveFailures: nat,
    totalFailures: nat,
    stagnant: nat,
    lastEvidenceCount: nat,
    next: Option<Node>,
    version: nat,
    deadline: nat,
    decision: Option<Decision>,
    stopReason: Option<StopReason>)

  datatype Settings = Settings(
    maxIterations: nat,
    maxVlmCalls: nat,
    maxToolFailures: nat,
    maxStagnant: nat,
    jobLease: nat,
    callLease: nat,
    registry: set<Tool>,
    normalize: string -> string,
    blank: string -> bool)

  // What the prompt of each node is built from; with the node and the version it is the request key.
  datatype Brief = Brief(summary: string, confidence: Option<real>)
  datatype Prompt =
    | PlanPrompt(iteration: nat, requirements: seq<Requirement>, evidenceIds: seq<EvidenceId>,
                 missing: seq<RequirementId>)
    | InspectPrompt(items: seq<ToolItem>)
    | VerifyPrompt(requirement: Requirement, items: seq<ToolItem>, observations: seq<Observation>)
    | EvidencePrompt(requirements: seq<Requirement>, evidence: map<EvidenceId, Brief>)
  datatype ModelKey = ModelKey(node: Node, version: nat, prompt: Prompt)

  datatype Answer =
    | PlanAnswer(hypothesisFor: RequirementId, action: Action)
    | InspectAnswer(observation: Observation)
    | VerifyAnswer(drafts: seq<Draft>)
    | ChallengeAnswer(plan: ChallengePlan)
    | DecideAnswer(decision: Decision)
  datatype Reply = Reply(call: nat, answer: Answer)

  // Tool requests do not carry the version: equal requests share one row in a run.
  datatype ToolKey =
    ToolKey(requirementId: RequirementId, tool: Tool, query: string, range: Option<Range>, limit: nat)

  datatype CallRow =
    | CallRunning(call: nat, lease: nat, attempt: nat)
    | CallDone(call: nat, answer: Answer, attempt: nat)
    | CallFailed(call: nat, code: string, attempt: nat)
  datatype ToolRow = ToolRunning(run: nat) | ToolDone(run: nat, output: ToolOutput)

  type CallTable = map<ModelKey, CallRow>
  type ToolTable = map<ToolKey, ToolRow>

  datatype ToolSummary = ToolSummary(run: Option<nat>, status: ToolStatus, refs: seq<string>)
  datatype Output =
    | PlanOut(action: Action)
    | RetrieveOut(tool: ToolSummary)
    | InspectOut(observations: seq<Observation>)
    | VerifyOut(evidenceIds: seq<EvidenceId>)
    | ChallengeOut(plan: ChallengePlan, tools: seq<ToolSummary>)
    | DecideOut(decision: Decision, reason: StopReason)

  datatype StepRow = StepRow(node: Node, iteration: nat, version: nat, output: Output)
}
