/** What holds in every state the machine can reach: the log is one path of the graph, every counter
    stays within its budget, evidence is grounded in recorded tool items, and COMPLETED means a
    conclusive decision. */
module AgentSafety {
  import opened Common
  import opened AgentTypes
  import opened AgentGraph
  import opened AgentCalls
  import opened AgentStore
  import opened AgentMachine

  // ---- shape of the log ------------------------------------------------------------------

  // The version a step must carry in its iteration.
  ghost predicate Timed(cfg: Settings, step: StepRow) {
    && step.iteration <= cfg.maxIterations
    && match step.node
       case Plan => step.version == 5 * (step.iteration - 1) + 1
       case Retrieve => step.version == 5 * (step.iteration - 1) + 2
       case Inspect => step.version == 5 * (step.iteration - 1) + 3
       case Verify => step.version == 5 * (step.iteration - 1) + 4
       case Challenge => step.version == 5 * step.iteration
       case Decide => step.version == 5 * step.iteration + 1 && step.iteration < cfg.maxIterations
  }

  ghost predicate Path(steps: seq<StepRow>) {
    && (steps != [] ==> steps[0].node == Plan)
    && forall i :: 0 < i < |steps| ==> Allowed(steps[i - 1].node, Some(steps[i].node))
  }

  ghost predicate LogOk(cfg: Settings, steps: seq<StepRow>) {
    && Path(steps)
    && forall i :: 0 <= i < |steps| ==> steps[i].version == i + 1 && Timed(cfg, steps[i])
  }

  // `next` is a node that may follow the first `version` steps.
  ghost predicate Follows(steps: seq<StepRow>, version: nat, next: Option<Node>)
    requires version <= |steps|
  {
    next.Some? ==> if version == 0 then next == Some(Plan) else Allowed(steps[version - 1].node, next)
  }

  // ---- counters --------------------------------------------------------------------------

  ghost predicate Bounded(cfg: Settings, s: State) {
    && s.iteration <= cfg.maxIterations
    && s.vlmCalls <= cfg.maxVlmCalls
    && s.vlmCalls <= 2 * s.iteration
    && s.consecutiveFailures <= cfg.maxToolFailures + 8
    && s.totalFailures <= 10 * s.iteration
  }

  // What holds of the counters when the node in `next` is about to run.
  ghost predicate Counted(s: State) {
    match s.next
    case None => true
    case Some(Plan) => s.version == 5 * s.iteration
    case Some(Decide) => s.version == 5 * s.iteration
    case Some(Retrieve) =>
      s.version == 5 * (s.iteration - 1) + 1 && s.vlmCalls <= 2 * s.iteration - 2
      && s.totalFailures <= 10 * s.iteration - 10
    case Some(Inspect) =>
      s.version == 5 * (s.iteration - 1) + 2 && s.vlmCalls <= 2 * s.iteration - 2
      && s.totalFailures <= 10 * s.iteration - 9
    case Some(Verify) =>
      s.version == 5 * (s.iteration - 1) + 3 && s.vlmCalls <= 2 * s.iteration - 1
      && s.totalFailures <= 10 * s.iteration - 9
    case Some(Challenge) =>
      s.version == 5 * (s.iteration - 1) + 4 && s.totalFailures <= 10 * s.iteration - 9
  }

  // ---- dataflow --------------------------------------------------------------------------

  ghost predicate Targets(s: State, id: RequirementId) {
    FindRequirement(s.requirements, id).Some?
  }

  // The nodes that work on what RETRIEVE selected.
  ghost predicate InNode(s: State) {
    s.next == Some(Inspect) || s.next == Some(Verify) || s.next == Some(Challenge)
  }

  ghost predicate Wired(s: State) {
    && (s.next == Some(Retrieve) || InNode(s) ==>
          s.pending.Some? && Targets(s, s.pending.value.requirementId))
    && (InNode(s) ==>
          forall item :: item in s.selected ==> item.requirementId == s.pending.value.requirementId)
  }

  // Some recorded, unfailed tool run for its requirement returned the item.
  ghost predicate Sourced(tools: ToolTable, item: Item) {
    exists key :: key in tools && key.requirementId == item.requirementId && Holds(tools[key], item)
  }

  ghost predicate Holds(row: ToolRow, item: Item) {
    row.ToolDone? && row.output.status != Failed && item.run == Some(row.run) && item.found in row.output.items
  }

  ghost predicate AllSourced(tools: ToolTable, s: State) {
    forall item :: item in s.selected ==> Sourced(tools, item)
  }

  // A row copies a recorded item of its requirement and stays inside its interval.
  ghost predicate Grounded(tools: ToolTable, row: EvidenceRow) {
    exists item: Item :: Sourced(tools, item) && Within(row, item)
  }

  ghost predicate Within(row: EvidenceRow, item: Item) {
    && row.id.requirementId == item.requirementId
    && row.id.sourceRef == item.found.sourceRef
    && item.found.start <= row.id.start < row.id.end <= item.found.end
    && row.run == item.run
    && row.modality == item.found.modality
    && row.artifact == item.found.artifact
  }

  ghost predicate AllGrounded(tools: ToolTable, evidence: EvidenceTable) {
    forall id :: id in evidence ==> evidence[id].id == id && Grounded(tools, evidence[id])
  }

  // ---- evidence held by a worker ---------------------------------------------------------

  ghost predicate Accounted(s: State) {
    forall q :: q in s.requirements && q.required && q.kind == Ordinary ==>
      q.id in s.missing || Settled(s, q.id)
  }

  ghost predicate Settled(s: State, id: RequirementId) {
    exists e :: e in s.evidenceIds && e.requirementId == id && Decisive(e.stance)
  }

  ghost predicate Knows(db: Db, s: State) {
    && (forall id :: id in s.evidenceIds ==> id in db.evidence)
    && (s.version == db.run.version ==> forall id :: id in db.evidence ==> id in s.evidenceIds)
    && Accounted(s)
  }

  // What a conclusive decision must rest on.
  ghost predicate Conclusive(cfg: Settings, s: State, d: Decision) {
    && d.evidenceIds != []
    && (forall id :: id in d.evidenceIds ==> id in s.evidenceIds)
    && s.missing == []
    && Conflicts(set id | id in s.evidenceIds) == {}
    && s.iteration < cfg.maxIterations
    && s.vlmCalls < cfg.maxVlmCalls
    && s.consecutiveFailures < cfg.maxToolFailures
    && s.stagnant < cfg.maxStagnant
  }

  ghost predicate DecisionOk(cfg: Settings, s: State, d: Decision, reason: StopReason) {
    d.verdict != NeedsHumanReview ==> reason == ProvisionalDecision && Conclusive(cfg, s, d)
  }

  // ---- the invariant ---------------------------------------------------------------------

  // State at the head of the loop, and within a node up to its counters.
  ghost predicate Based(requirements: seq<Requirement>, db: Db, tools: ToolTable, s: State) {
    && s.requirements == requirements
    && s.version <= |db.steps|
    && Follows(db.steps, s.version, s.next)
    && Knows(db, s)
    && AllSourced(tools, s)
  }

  ghost predicate HeadOk(cfg: Settings, requirements: seq<Requirement>, db: Db, tools: ToolTable, s: State) {
    Based(requirements, db, tools, s) && Bounded(cfg, s) && (s.next.Some? ==> Counted(s) && Wired(s))
  }

  // The head state a pending model call started from.
  ghost function HeadOf(s: State, node: Node): State
    requires node == Plan ==> s.iteration >= 1
  {
    if node == Plan then s.(iteration := s.iteration - 1) else s
  }

  ghost predicate AskOk(cfg: Settings, requirements: seq<Requirement>, db: Db, tools: ToolTable, s: State,
                        key: ModelKey) {
    && s.next == Some(key.node)
    && (key.node == Plan ==> s.iteration >= 1)
    && HeadOk(cfg, requirements, db, tools, HeadOf(s, key.node))
    && CounterStop(cfg, HeadOf(s, key.node)).None?
  }

  ghost predicate ToolsOk(cfg: Settings, requirements: seq<Requirement>, db: Db, tools: ToolTable, s: State,
                    todo: seq<ToolCall>, done: seq<ToolSummary>, plan: Option<ChallengePlan>) {
    && Based(requirements, db, tools, s)
    && s.next == Some(if plan.None? then Retrieve else Challenge)
    && s.iteration <= cfg.maxIterations
    && s.vlmCalls <= cfg.maxVlmCalls
    && s.version == 5 * (s.iteration - 1) + (if plan.None? then 1 else 4)
    && s.vlmCalls <= 2 * s.iteration - (if plan.None? then 2 else 0)
    && s.consecutiveFailures < cfg.maxToolFailures + |done|
    && s.totalFailures <= 10 * s.iteration - (if plan.None? then 10 else 9) + |done|
    && |todo| + |done| <= (if plan.None? then 1 else 9)
    && Wired(s)
    && (plan.None? ==>
          if todo == [] then forall item :: item in s.selected ==> item.requirementId == s.pending.value.requirementId
          else todo == [ToolCall(s.pending.value, false)])
  }

  ghost predicate CommitOk(cfg: Settings, requirements: seq<Requirement>, db: Db, tools: ToolTable, s: State,
                           c: Commit) {
    var s' := Advance(s, c.next);
    && s.next == Some(c.node)
    && Allowed(c.node, c.next)
    && s.requirements == requirements
    && s.version <= |db.steps|
    && Follows(db.steps, s.version, s.next)
    && Timed(cfg, StepRow(c.node, s.iteration, s.version + 1, c.output))
    && Bounded(cfg, s)
    && (c.next.Some? ==> Counted(s') && Wired(s'))
    && AllSourced(tools, s)
    && Accounted(s)
    && (forall id :: id in s.evidenceIds ==> id in db.evidence || exists row :: row in c.evidence && row.id == id)
    && (forall row :: row in c.evidence ==> row.id in s.evidenceIds && Grounded(tools, row))
    && (s.version == db.run.version ==> forall id :: id in db.evidence ==> id in s.evidenceIds)
    && (c.node == Decide <==> c.output.DecideOut?)
    && (c.node == Decide ==>
          && s.decision == Some(c.output.decision)
          && s.stopReason == Some(c.output.reason)
          && DecisionOk(cfg, s, c.output.decision, c.output.reason))
  }

  ghost predicate WorkerOk(cfg: Settings, requirements: seq<Requirement>, db: Db, tools: ToolTable, p: Worker) {
    match p
    case Looping(s) => HeadOk(cfg, requirements, db, tools, s)
    case Asking(s, key) => AskOk(cfg, requirements, db, tools, s, key)
    case Awaiting(s, key, _) => AskOk(cfg, requirements, db, tools, s, key)
    case Tooling(s, todo, done, plan) => ToolsOk(cfg, requirements, db, tools, s, todo, done, plan)
    case Executing(s, todo, done, plan, key, run) =>
      && ToolsOk(cfg, requirements, db, tools, s, todo, done, plan)
      && todo != []
      && key == KeyOf(cfg, todo[0].action)
      && key in tools && tools[key] == ToolRunning(run)
    case Committing(s, c) => CommitOk(cfg, requirements, db, tools, s, c)
    case Deciding(s, decision, reason) =>
      && s.requirements == requirements
      && 1 <= s.version <= |db.steps|
      && db.steps[s.version - 1].output == DecideOut(decision, reason)
      && db.steps[s.version - 1].node == Decide
      && Bounded(cfg, s)
      && AllSourced(tools, s)
      && Knows(db, s)
      && s.next == None && s.decision == Some(decision) && s.stopReason == Some(reason)
      && DecisionOk(cfg, s, decision, reason)
    case Stopping(s, _) =>
      && s.requirements == requirements && s.version <= |db.steps| && Bounded(cfg, s)
      && AllSourced(tools, s) && Knows(db, s)
    case Failing(s, code) =>
      && s.version <= |db.steps|
      && (code == ActionInvalid || code == AlreadyRunning || (code == CheckpointInvalid && s.next == None))
    case Deferring(s, _) => s.version <= |db.steps|
  }

  // What COMPLETED guarantees about the committed rows.
  ghost predicate CompletedOk(cfg: Settings, db: Db) {
    && db.run.result.Some?
    && db.run.result.value.verdict != NeedsHumanReview
    && db.steps != []
    && db.steps[|db.steps| - 1].node == Decide
    && db.steps[|db.steps| - 1].output == DecideOut(db.run.result.value, ProvisionalDecision)
    && Conclusive(cfg, db.run.snapshot, db.run.result.value)
  }

  ghost predicate DbOk(cfg: Settings, requirements: seq<Requirement>, db: Db, tools: ToolTable) {
    && LogOk(cfg, db.steps)
    && db.run.version == |db.steps|
    && db.run.snapshot.version == |db.steps|
    && HeadOk(cfg, requirements, db, tools, db.run.snapshot)
    && AllGrounded(tools, db.evidence)
    && (db.run.status == RunCompleted ==> CompletedOk(cfg, db))
  }

  ghost predicate Distinct(workers: map<nat, Worker>) {
    forall a, b :: a in workers && b in workers && a != b && workers[a].Executing? && workers[b].Executing? ==>
      workers[a].tool != workers[b].tool
  }

  ghost predicate Inv(cfg: Settings, requirements: seq<Requirement>, w: World) {
    && DbOk(cfg, requirements, w.db, w.tools)
    && (forall k :: k in w.workers ==> WorkerOk(cfg, requirements, w.db, w.tools, w.workers[k]))
    && Distinct(w.workers)
    && Answered(w.calls)
  }

  ghost predicate Answered(calls: CallTable) {
    forall k :: k in calls && calls[k].CallDone? ==> Fits(k.node, calls[k].answer)
  }

  // ---- frames ----------------------------------------------------------------------------

  ghost predicate Grows(db: Db, db': Db) {
    && db.steps <= db'.steps
    && db.evidence.Keys <= db'.evidence.Keys
    && db.run.version == |db.steps|
    && db'.run.version == |db'.steps|
    && (|db.steps| == |db'.steps| ==> db'.evidence.Keys == db.evidence.Keys)
  }

  ghost predicate ToolsGrow(tools: ToolTable, tools': ToolTable) {
    forall k :: k in tools && tools[k].ToolDone? ==> k in tools' && tools'[k] == tools[k]
  }

  lemma FrameSourced(tools: ToolTable, tools': ToolTable)
    requires ToolsGrow(tools, tools')
    ensures forall item :: Sourced(tools, item) ==> Sourced(tools', item)
    ensures forall row :: Grounded(tools, row) ==> Grounded(tools', row)
  {
    forall item | Sourced(tools, item)
      ensures Sourced(tools', item)
    {
      var key :| key in tools && key.requirementId == item.requirementId && Holds(tools[key], item);
      assert key in tools' && Holds(tools'[key], item);
    }
  }

  lemma FrameWorker(cfg: Settings, requirements: seq<Requirement>, db: Db, db': Db,
                    tools: ToolTable, tools': ToolTable, p: Worker)
    requires WorkerOk(cfg, requirements, db, tools, p)
    requires Grows(db, db') && ToolsGrow(tools, tools')
    requires p.Executing? ==> p.tool in tools' && tools'[p.tool] == tools[p.tool]
    ensures WorkerOk(cfg, requirements, db', tools', p)
  {
    hide Sourced, Grounded, Settled, Follows, Knows, AllSourced, Timed, Bounded, Counted, Wired, DecisionOk,
      CounterStop;
    FrameSourced(tools, tools');
    FrameState(db, db', tools, tools', p.s);
    if p.Asking? || p.Awaiting? {
      assert p.key.node == Plan ==> p.s.iteration >= 1;
      FrameState(db, db', tools, tools', HeadOf(p.s, p.key.node));
    }
  }

  // What a private state relies on survives more steps, more evidence and more tool rows.
  lemma FrameState(db: Db, db': Db, tools: ToolTable, tools': ToolTable, s: State)
    requires Grows(db, db') && ToolsGrow(tools, tools') && s.version <= |db.steps|
    ensures Follows(db.steps, s.version, s.next) ==> Follows(db'.steps, s.version, s.next)
    ensures Knows(db, s) ==> Knows(db', s)
    ensures AllSourced(tools, s) ==> AllSourced(tools', s)
  {
    hide Sourced, Settled, Accounted;
    FrameSourced(tools, tools');
  }

  // ---- one stretch of private work -------------------------------------------------------

  lemma BeginKeeps(cfg: Settings, late: bool, requirements: seq<Requirement>, db: Db, tools: ToolTable, s: State)
    requires HeadOk(cfg, requirements, db, tools, s)
    ensures WorkerOk(cfg, requirements, db, tools, Begin(cfg, late, db.evidence, s))
  {
    if s.next.Some? && BudgetStop(cfg, s, late).None? {
      EnterKeeps(cfg, requirements, db, tools, s, s.next.value);
    }
  }

  lemma EnterKeeps(cfg: Settings, requirements: seq<Requirement>, db: Db, tools: ToolTable, s: State, node: Node)
    requires HeadOk(cfg, requirements, db, tools, s) && s.next == Some(node) && CounterStop(cfg, s).None?
    ensures WorkerOk(cfg, requirements, db, tools, Enter(db.evidence, s, node))
  {
    if node == Plan {
      var s' := s.(iteration := s.iteration + 1);
      assert s'.(iteration := s'.iteration - 1) == s;
      hide HeadOk, CounterStop;
    } else if node == Retrieve {
      hide Follows, Knows, AllSourced;
    } else {
      EnterAsks(cfg, requirements, db, tools, s, node);
    }
  }

  lemma EnterAsks(cfg: Settings, requirements: seq<Requirement>, db: Db, tools: ToolTable, s: State, node: Node)
    requires HeadOk(cfg, requirements, db, tools, s) && s.next == Some(node) && CounterStop(cfg, s).None?
    requires node != Plan && node != Retrieve
    ensures WorkerOk(cfg, requirements, db, tools, Enter(db.evidence, s, node))
  {
    if node == Inspect {
      hide Grounded;
    } else {
      hide Sourced, Grounded, Settled;
    }
  }

  lemma ResumeKeeps(cfg: Settings, late: bool, requirements: seq<Requirement>, db: Db, tools: ToolTable,
                    s: State, key: ModelKey, reply: Reply)
    requires AskOk(cfg, requirements, db, tools, s, key) && Fits(key.node, reply.answer)
    ensures WorkerOk(cfg, requirements, db, tools, Resume(cfg, late, db.evidence, s, key.node, reply))
  {
    hide WorkerOk, Resume, AskOk;
    match key.node
    case Plan => PlanKeeps(cfg, late, requirements, db, tools, s, key, reply);
    case Inspect => InspectKeeps(cfg, late, requirements, db, tools, s, key, reply);
    case Verify => VerifyKeeps(cfg, late, requirements, db, tools, s, key, reply);
    case Challenge => ChallengeKeeps(cfg, late, requirements, db, tools, s, key, reply);
    case Decide => DecideKeeps(cfg, late, requirements, db, tools, s, key, reply);
  }

  lemma ChallengeKeeps(cfg: Settings, late: bool, requirements: seq<Requirement>, db: Db, tools: ToolTable,
                       s: State, key: ModelKey, reply: Reply)
    requires AskOk(cfg, requirements, db, tools, s, key) && key.node == Challenge && reply.answer.ChallengeAnswer?
    ensures WorkerOk(cfg, requirements, db, tools, Resume(cfg, late, db.evidence, s, Challenge, reply))
  {
    hide AllSourced, Knows;
  }

  lemma PlanKeeps(cfg: Settings, late: bool, requirements: seq<Requirement>, db: Db, tools: ToolTable,
                  s: State, key: ModelKey, reply: Reply)
    requires AskOk(cfg, requirements, db, tools, s, key) && key.node == Plan && reply.answer.PlanAnswer?
    ensures WorkerOk(cfg, requirements, db, tools, Resume(cfg, late, db.evidence, s, Plan, reply))
  {
  }

  lemma InspectKeeps(cfg: Settings, late: bool, requirements: seq<Requirement>, db: Db, tools: ToolTable,
                     s: State, key: ModelKey, reply: Reply)
    requires AskOk(cfg, requirements, db, tools, s, key) && key.node == Inspect && reply.answer.InspectAnswer?
    ensures WorkerOk(cfg, requirements, db, tools, Resume(cfg, late, db.evidence, s, Inspect, reply))
  {
  }

  lemma VerifyKeeps(cfg: Settings, late: bool, requirements: seq<Requirement>, db: Db, tools: ToolTable,
                    s: State, key: ModelKey, reply: Reply)
    requires AskOk(cfg, requirements, db, tools, s, key) && key.node == Verify && reply.answer.VerifyAnswer?
    ensures WorkerOk(cfg, requirements, db, tools, Resume(cfg, late, db.evidence, s, Verify, reply))
  {
    hide AskOk, HeadOk, CommitOk, ToolsOk, ValidateEvidence;
    var drafts := reply.answer.drafts;
    VerifyAsks(cfg, requirements, db, tools, s, key);
    if ValidateEvidence(s.selected, s.pending.value.requirementId, drafts, reply.call).Some? {
      VerifiedKeeps(cfg, requirements, db, tools, s, drafts, reply.call);
    }
  }

  lemma VerifyAsks(cfg: Settings, requirements: seq<Requirement>, db: Db, tools: ToolTable, s: State, key: ModelKey)
    requires AskOk(cfg, requirements, db, tools, s, key) && key.node == Verify
    ensures HeadOk(cfg, requirements, db, tools, s) && CounterStop(cfg, s).None?
    ensures s.next == Some(Verify) && s.version <= |db.steps| && s.pending.Some?
  {
  }

  lemma VerifiedKeeps(cfg: Settings, requirements: seq<Requirement>, db: Db, tools: ToolTable,
                    s: State, drafts: seq<Draft>, call: nat)
    requires HeadOk(cfg, requirements, db, tools, s) && s.next == Some(Verify)
    requires CounterStop(cfg, s).None?
    requires ValidateEvidence(s.selected, s.pending.value.requirementId, drafts, call).Some?
    ensures
      var rows := ValidateEvidence(s.selected, s.pending.value.requirementId, drafts, call).value;
      var s' := s.(evidenceIds := AppendIds(s.evidenceIds, rows), vlmCalls := s.vlmCalls + 1,
                   missing := StillMissing(s.missing, rows));
      CommitOk(cfg, requirements, db, tools, s', Commit(Verify, Some(Challenge), VerifyOut(Ids(rows)), rows))
  {
    var id := s.pending.value.requirementId;
    var rows := ValidateEvidence(s.selected, id, drafts, call).value;
    forall row | row in rows
      ensures Grounded(tools, row)
    {
      var k :| 0 <= k < |rows| && rows[k] == row;
      var item := FindItem(s.selected, drafts[k].sourceRef).value;
      assert DraftFits(s.selected, id, drafts[k]);
      assert Sourced(tools, item) && Within(row, item);
    }
    var s' := s.(evidenceIds := AppendIds(s.evidenceIds, rows), missing := StillMissing(s.missing, rows));
    forall q | q in s.requirements && q.required && q.kind == Ordinary
      ensures q.id in s'.missing || Settled(s', q.id)
    {
      if q.id in s.missing && Resolves(rows, q.id) {
        var row :| row in rows && row.id.requirementId == q.id && Decisive(row.id.stance);
        assert row.id in s'.evidenceIds;
      } else if q.id !in s.missing {
        var e :| e in s.evidenceIds && e.requirementId == q.id && Decisive(e.stance);
        assert e in s'.evidenceIds;
      }
    }
  }

  lemma DecideKeeps(cfg: Settings, late: bool, requirements: seq<Requirement>, db: Db, tools: ToolTable,
                    s: State, key: ModelKey, reply: Reply)
    requires AskOk(cfg, requirements, db, tools, s, key) && key.node == Decide && reply.answer.DecideAnswer?
    ensures WorkerOk(cfg, requirements, db, tools, Resume(cfg, late, db.evidence, s, Decide, reply))
  {
    if Enforce(cfg, late, db.evidence, s, reply.answer.decision).Some? {
      EnforcedKeeps(cfg, late, requirements, db, tools, s, reply.answer.decision);
    }
  }

  lemma EnforcedKeeps(cfg: Settings, late: bool, requirements: seq<Requirement>, db: Db, tools: ToolTable,
                    s: State, proposed: Decision)
    requires HeadOk(cfg, requirements, db, tools, s) && s.next == Some(Decide)
    requires CounterStop(cfg, s).None?
    requires Enforce(cfg, late, db.evidence, s, proposed).Some?
    ensures
      var e := Enforce(cfg, late, db.evidence, s, proposed).value;
      var s' := s.(decision := Some(e.decision), stopReason := Some(e.reason), contradictory := e.contradictory);
      CommitOk(cfg, requirements, db, tools, s', Commit(Decide, None, DecideOut(e.decision, e.reason), []))
  {
    SummaryKeys(db.evidence, s.evidenceIds);
  }

  lemma SummaryKeys(table: EvidenceTable, ids: seq<EvidenceId>)
    requires forall id :: id in ids ==> id in table
    ensures Summary(table, ids).Keys == set id | id in ids
  {
  }

  lemma ToolKeeps(cfg: Settings, requirements: seq<Requirement>, db: Db, tools: ToolTable, s: State,
                  todo: seq<ToolCall>, done: seq<ToolSummary>, plan: Option<ChallengePlan>, result: ToolResult)
    requires ToolsOk(cfg, requirements, db, tools, s, todo, done, plan) && todo != []
    requires result.output.items != [] ==>
      exists key :: key in tools && key.requirementId == todo[0].action.requirementId
                    && result.run.Some? && tools[key] == ToolDone(result.run.value, result.output)
    ensures WorkerOk(cfg, requirements, db, tools, AfterTool(s, todo, done, plan, result))
  {
    var p := AfterTool(s, todo, done, plan, result);
    forall item | item in p.s.selected && plan.None?
      ensures Sourced(tools, item)
    {
      var key :| key in tools && key.requirementId == todo[0].action.requirementId
                 && result.run.Some? && tools[key] == ToolDone(result.run.value, result.output);
      assert Holds(tools[key], item);
    }
  }

  lemma FinishKeeps(cfg: Settings, late: bool, requirements: seq<Requirement>, db: Db, tools: ToolTable, s: State,
                    done: seq<ToolSummary>, plan: Option<ChallengePlan>)
    requires ToolsOk(cfg, requirements, db, tools, s, [], done, plan)
    ensures WorkerOk(cfg, requirements, db, tools, FinishTools(cfg, late, s, done, plan))
  {
  }

  // ---- transactions ----------------------------------------------------------------------

  lemma CheckpointKeeps(cfg: Settings, requirements: seq<Requirement>, now: nat, db: Db, tools: ToolTable,
                        s: State, c: Commit)
    requires DbOk(cfg, requirements, db, tools) && CommitOk(cfg, requirements, db, tools, s, c)
    requires Checkpoint(cfg, now, db, s, c).Saved?
    ensures
      var saved := Checkpoint(cfg, now, db, s, c);
      && DbOk(cfg, requirements, saved.db, tools) && Grows(db, saved.db)
      && WorkerOk(cfg, requirements, saved.db, tools,
                  if c.output.DecideOut? then Deciding(saved.s, c.output.decision, c.output.reason)
                  else Looping(saved.s))
  {
    hide Knows, AllGrounded, Grounded, Sourced, Settled, StoreEvidence, CompletedOk, DecisionOk, Accounted, AllSourced;
    CheckpointKnows(cfg, requirements, now, db, tools, s, c);
    CheckpointGrounds(cfg, requirements, now, db, tools, s, c);
    SameSourced(tools, s, Checkpoint(cfg, now, db, s, c).s);
    if c.node == Decide {
      SameDecision(cfg, s, c);
    }
  }

  lemma SameSourced(tools: ToolTable, s: State, s': State)
    requires AllSourced(tools, s) && s'.selected == s.selected
    ensures AllSourced(tools, s')
  {
  }

  lemma SameDecision(cfg: Settings, s: State, c: Commit)
    requires c.output.DecideOut? && DecisionOk(cfg, s, c.output.decision, c.output.reason)
    ensures DecisionOk(cfg, Advance(s, c.next), c.output.decision, c.output.reason)
  {
  }

  // The committed rows are what the worker knows.
  lemma CheckpointKnows(cfg: Settings, requirements: seq<Requirement>, now: nat, db: Db, tools: ToolTable,
                        s: State, c: Commit)
    requires CommitOk(cfg, requirements, db, tools, s, c)
    requires Checkpoint(cfg, now, db, s, c).Saved?
    ensures var saved := Checkpoint(cfg, now, db, s, c); Knows(saved.db, saved.s)
  {
    hide Follows, Timed, Bounded, Counted, Wired, AllSourced, Grounded, DecisionOk;
    var saved := Checkpoint(cfg, now, db, s, c);
    forall id | id in saved.s.evidenceIds
      ensures id in saved.db.evidence
    {
      if id !in db.evidence {
        var row :| row in c.evidence && row.id == id;
      }
    }
    forall e | Settled(s, e)
      ensures Settled(saved.s, e)
    {
    }
  }

  lemma CheckpointGrounds(cfg: Settings, requirements: seq<Requirement>, now: nat, db: Db, tools: ToolTable,
                          s: State, c: Commit)
    requires AllGrounded(tools, db.evidence) && CommitOk(cfg, requirements, db, tools, s, c)
    requires Checkpoint(cfg, now, db, s, c).Saved?
    ensures AllGrounded(tools, Checkpoint(cfg, now, db, s, c).db.evidence)
    ensures db.evidence.Keys <= Checkpoint(cfg, now, db, s, c).db.evidence.Keys
  {
    hide Follows, Timed, Bounded, Counted, Wired, AllSourced, Grounded, DecisionOk;
  }

  lemma CompleteKeeps(cfg: Settings, requirements: seq<Requirement>, db: Db, tools: ToolTable, p: Worker,
                      decision: Decision, reason: StopReason)
    requires DbOk(cfg, requirements, db, tools) && WorkerOk(cfg, requirements, db, tools, p)
    requires p == Deciding(p.s, decision, reason)
             || (p == Stopping(p.s, reason) && decision == ReviewDecision(p.s, reason))
    requires Complete(db, p.s, decision, reason).Ok?
    ensures DbOk(cfg, requirements, Complete(db, p.s, decision, reason).value, tools)
    ensures Grows(db, Complete(db, p.s, decision, reason).value)
  {
    hide LogOk, AllGrounded;
  }

  // ---- every step, every run -------------------------------------------------------------

  // What a worker's move leaves behind for itself and for the tables.
  ghost predicate MoveOk(cfg: Settings, requirements: seq<Requirement>, w: World, m: Moved) {
    && DbOk(cfg, requirements, m.db, m.tools)
    && Answered(m.calls)
    && Grows(w.db, m.db)
    && ToolsGrow(w.tools, m.tools)
    && (m.worker.Some? ==> WorkerOk(cfg, requirements, m.db, m.tools, m.worker.value))
  }

  ghost predicate Ready(cfg: Settings, requirements: seq<Requirement>, w: World, p: Worker) {
    && DbOk(cfg, requirements, w.db, w.tools)
    && Answered(w.calls)
    && WorkerOk(cfg, requirements, w.db, w.tools, p)
  }

  lemma MoveKeeps(cfg: Settings, requirements: seq<Requirement>, w: World, p: Worker, arrival: Arrival)
    requires Ready(cfg, requirements, w, p)
    ensures MoveOk(cfg, requirements, w, Move(cfg, w, p, arrival))
  {
    hide Ready, MoveOk, Move;
    match p
    case Looping(s) => LoopingMoves(cfg, requirements, w, p, arrival);
    case Asking(s, key) => AskingMoves(cfg, requirements, w, p, arrival);
    case Awaiting(s, key, call) => AwaitingMoves(cfg, requirements, w, p, arrival);
    case Tooling(s, todo, done, plan) => ToolingMoves(cfg, requirements, w, p, arrival);
    case Executing(s, todo, done, plan, key, run) => ExecutingMoves(cfg, requirements, w, p, arrival);
    case Committing(s, c) => CommittingMoves(cfg, requirements, w, p, arrival);
    case _ => EndingMoves(cfg, requirements, w, p, arrival);
  }

  lemma LoopingMoves(cfg: Settings, requirements: seq<Requirement>, w: World, p: Worker, arrival: Arrival)
    requires Ready(cfg, requirements, w, p) && p.Looping?
    ensures MoveOk(cfg, requirements, w, Move(cfg, w, p, arrival))
  {
    hide HeadOk, AskOk, CommitOk, ToolsOk, LogOk, AllGrounded, CompletedOk;
    BeginKeeps(cfg, Late(p.s, w.now), requirements, w.db, w.tools, p.s);
  }

  lemma AskEnds(cfg: Settings, requirements: seq<Requirement>, db: Db, tools: ToolTable, s: State, key: ModelKey,
                reason: StopReason)
    requires AskOk(cfg, requirements, db, tools, s, key)
    ensures WorkerOk(cfg, requirements, db, tools, Stopping(s, reason))
  {
  }

  lemma AskingMoves(cfg: Settings, requirements: seq<Requirement>, w: World, p: Worker, arrival: Arrival)
    requires Ready(cfg, requirements, w, p) && p.Asking?
    ensures MoveOk(cfg, requirements, w, Move(cfg, w, p, arrival))
  {
    hide HeadOk, AskOk, CommitOk, ToolsOk, LogOk, AllGrounded, CompletedOk;
    var Asking(s, key) := p;
    AskEnds(cfg, requirements, w.db, w.tools, s, key, AgentModelFailed);
    if key in w.calls && w.calls[key].CallDone? {
      ResumeKeeps(cfg, Late(s, w.now), requirements, w.db, w.tools, s, key,
                  Reply(w.calls[key].call, w.calls[key].answer));
    }
  }

  lemma AwaitingMoves(cfg: Settings, requirements: seq<Requirement>, w: World, p: Worker, arrival: Arrival)
    requires Ready(cfg, requirements, w, p) && p.Awaiting?
    ensures MoveOk(cfg, requirements, w, Move(cfg, w, p, arrival))
  {
    hide HeadOk, AskOk, CommitOk, ToolsOk, LogOk, AllGrounded, CompletedOk;
    var Awaiting(s, key, call) := p;
    AskEnds(cfg, requirements, w.db, w.tools, s, key, AgentModelFailed);
    if arrival.ModelAnswers? && Fits(key.node, arrival.answer) {
      ResumeKeeps(cfg, Late(s, w.now), requirements, w.db, w.tools, s, key, Reply(call, arrival.answer));
    }
  }

  lemma ToolingMoves(cfg: Settings, requirements: seq<Requirement>, w: World, p: Worker, arrival: Arrival)
    requires Ready(cfg, requirements, w, p) && p.Tooling?
    ensures MoveOk(cfg, requirements, w, Move(cfg, w, p, arrival))
  {
    GrowsItself(cfg, requirements, w.db, w.tools);
    hide HeadOk, AskOk, CommitOk, ToolsOk, DbOk, Grows, AfterTool, FinishTools, StartTool;
    if p.todo == [] {
      FinishKeeps(cfg, Late(p.s, w.now), requirements, w.db, w.tools, p.s, p.done, p.plan);
    } else if RefusedCall(p.s, p.todo[0]) {
      RefusalKeeps(cfg, requirements, w.db, w.tools, p);
    } else if StartTool(cfg, p.s, w.tools, p.todo[0].action).Launch? {
      LaunchMoves(cfg, requirements, w, p);
    } else {
      ReuseKeeps(cfg, requirements, w, p);
    }
  }

  lemma LaunchMoves(cfg: Settings, requirements: seq<Requirement>, w: World, p: Worker)
    requires Ready(cfg, requirements, w, p) && p.Tooling? && p.todo != []
    requires StartTool(cfg, p.s, w.tools, p.todo[0].action).Launch?
    ensures
      var key := StartTool(cfg, p.s, w.tools, p.todo[0].action).key;
      var tools := w.tools[key := ToolRunning(w.issued)];
      && DbOk(cfg, requirements, w.db, tools)
      && ToolsGrow(w.tools, tools)
      && WorkerOk(cfg, requirements, w.db, tools, Executing(p.s, p.todo, p.done, p.plan, key, w.issued))
  {
    hide HeadOk, AskOk, CommitOk, ToolsOk, DbOk, InvalidRequest;
    var key := StartTool(cfg, p.s, w.tools, p.todo[0].action).key;
    FrameTools(cfg, requirements, w.db, w.tools, w.tools[key := ToolRunning(w.issued)], p);
  }

  lemma ReuseKeeps(cfg: Settings, requirements: seq<Requirement>, w: World, p: Worker)
    requires Ready(cfg, requirements, w, p) && p.Tooling? && p.todo != []
    ensures
      match StartTool(cfg, p.s, w.tools, p.todo[0].action)
      case Refuse => WorkerOk(cfg, requirements, w.db, w.tools, AfterTool(p.s, p.todo, p.done, p.plan, Refusal))
      case Reuse(result) => WorkerOk(cfg, requirements, w.db, w.tools, AfterTool(p.s, p.todo, p.done, p.plan, result))
      case Launch(_) => true
  {
    hide HeadOk, AskOk, CommitOk, ToolsOk, DbOk, InvalidRequest, AfterTool;
    match StartTool(cfg, p.s, w.tools, p.todo[0].action)
    case Refuse => ToolKeeps(cfg, requirements, w.db, w.tools, p.s, p.todo, p.done, p.plan, Refusal);
    case Reuse(result) => ToolKeeps(cfg, requirements, w.db, w.tools, p.s, p.todo, p.done, p.plan, result);
    case Launch(_) =>
  }

  lemma GrowsItself(cfg: Settings, requirements: seq<Requirement>, db: Db, tools: ToolTable)
    requires DbOk(cfg, requirements, db, tools)
    ensures Grows(db, db)
  {
  }

  lemma RefusalKeeps(cfg: Settings, requirements: seq<Requirement>, db: Db, tools: ToolTable, p: Worker)
    requires WorkerOk(cfg, requirements, db, tools, p) && p.Tooling?
    ensures WorkerOk(cfg, requirements, db, tools, Failing(p.s, ActionInvalid))
  {
  }

  lemma ExecutingMoves(cfg: Settings, requirements: seq<Requirement>, w: World, p: Worker, arrival: Arrival)
    requires Ready(cfg, requirements, w, p) && p.Executing?
    ensures MoveOk(cfg, requirements, w, Move(cfg, w, p, arrival))
  {
    hide HeadOk, AskOk, CommitOk, ToolsOk, LogOk, CompletedOk, AfterTool;
    if arrival.ToolAnswers? {
      var row := ToolDone(p.run, arrival.output);
      var tools := w.tools[p.tool := row];
      FrameTools(cfg, requirements, w.db, w.tools, tools, Tooling(p.s, p.todo, p.done, p.plan));
      ToolKeeps(cfg, requirements, w.db, tools, p.s, p.todo, p.done, p.plan, Recorded(row));
    }
  }

  lemma FrameTools(cfg: Settings, requirements: seq<Requirement>, db: Db, tools: ToolTable, tools': ToolTable,
                   p: Worker)
    requires DbOk(cfg, requirements, db, tools) && WorkerOk(cfg, requirements, db, tools, p) && !p.Executing?
    requires ToolsGrow(tools, tools')
    ensures DbOk(cfg, requirements, db, tools') && WorkerOk(cfg, requirements, db, tools', p)
  {
    FrameSourced(tools, tools');
    FrameWorker(cfg, requirements, db, db, tools, tools', p);
  }

  lemma CommittingMoves(cfg: Settings, requirements: seq<Requirement>, w: World, p: Worker, arrival: Arrival)
    requires Ready(cfg, requirements, w, p) && p.Committing?
    ensures MoveOk(cfg, requirements, w, Move(cfg, w, p, arrival))
  {
    var Committing(s, c) := p;
    assert s.next == Some(c.node) && Allowed(c.node, c.next);
    hide HeadOk, AskOk, CommitOk, ToolsOk, LogOk, AllGrounded, CompletedOk;
    if Checkpoint(cfg, w.now, w.db, s, c).Saved? {
      CheckpointKeeps(cfg, requirements, w.now, w.db, w.tools, s, c);
    }
  }

  // A transaction that writes neither version, snapshot, log nor evidence, and does not complete the run.
  lemma StatusKeeps(cfg: Settings, requirements: seq<Requirement>, db: Db, db': Db, tools: ToolTable)
    requires DbOk(cfg, requirements, db, tools)
    requires db'.steps == db.steps && db'.evidence == db.evidence
    requires db'.run.version == db.run.version && db'.run.snapshot == db.run.snapshot
    requires db'.run.status != RunCompleted
    ensures DbOk(cfg, requirements, db', tools) && Grows(db, db')
  {
    hide LogOk, AllGrounded, CompletedOk, HeadOk;
    FrameHead(cfg, requirements, db, db', tools, db.run.snapshot) by {
      assert Grows(db, db');
    }
  }

  lemma EndingMoves(cfg: Settings, requirements: seq<Requirement>, w: World, p: Worker, arrival: Arrival)
    requires Ready(cfg, requirements, w, p) && (p.Deciding? || p.Stopping? || p.Failing? || p.Deferring?)
    ensures MoveOk(cfg, requirements, w, Move(cfg, w, p, arrival))
  {
    hide HeadOk, LogOk, AllGrounded, CompletedOk, Complete, Bounded, AllSourced, Knows, DecisionOk;
    if p.Failing? {
      StatusKeeps(cfg, requirements, w.db, Fail(w.db, p.code), w.tools);
    } else if p.Deferring? {
      StatusKeeps(cfg, requirements, w.db, DeferRetry(w.db, ModelError(p.retryCode)), w.tools);
    }
    if p.Deciding? && Complete(w.db, p.s, p.decision, p.reason).Ok? {
      CompleteKeeps(cfg, requirements, w.db, w.tools, p, p.decision, p.reason);
    } else if p.Stopping? && Complete(w.db, p.s, ReviewDecision(p.s, p.reason), p.reason).Ok? {
      CompleteKeeps(cfg, requirements, w.db, w.tools, p, ReviewDecision(p.s, p.reason), p.reason);
    }
  }

  // A tool row in flight belongs to one worker, and nobody else's move touches it.
  lemma MoveSpares(cfg: Settings, requirements: seq<Requirement>, w: World, k: nat, j: nat, arrival: Arrival)
    requires Inv(cfg, requirements, w)
    requires k in w.workers && j in w.workers && j != k && w.workers[j].Executing?
    ensures
      var m := Move(cfg, w, w.workers[k], arrival);
      var tool := w.workers[j].tool;
      && tool in w.tools && tool in m.tools && m.tools[tool] == w.tools[tool]
      && (m.worker.Some? && m.worker.value.Executing? ==> m.worker.value.tool != tool)
  {
    hide HeadOk, AskOk, CommitOk, ToolsOk, DbOk, Checkpoint, Complete;
    assert WorkerOk(cfg, requirements, w.db, w.tools, w.workers[j]);
  }

  lemma StepKeeps(cfg: Settings, requirements: seq<Requirement>, w: World, e: Event)
    requires Inv(cfg, requirements, w)
    ensures Inv(cfg, requirements, Step(cfg, w, e))
  {
    match e
    case Tick(_) =>
    case CrashOf(_) =>
    case ClaimBy(worker) => ClaimKeeps(cfg, requirements, w, worker);
    case WorkOn(worker, arrival) => WorkKeeps(cfg, requirements, w, worker, arrival);
  }

  lemma ClaimKeeps(cfg: Settings, requirements: seq<Requirement>, w: World, worker: nat)
    requires Inv(cfg, requirements, w)
    ensures Inv(cfg, requirements, Step(cfg, w, ClaimBy(worker)))
  {
    hide HeadOk, AskOk, CommitOk, ToolsOk, LogOk, AllGrounded;
    if worker !in w.workers && ClaimRun(cfg, w.now, w.db).Claimed? {
      var claimed := ClaimRun(cfg, w.now, w.db);
      StatusKeeps(cfg, requirements, w.db, claimed.db, w.tools);
      forall j | j in w.workers
        ensures WorkerOk(cfg, requirements, claimed.db, w.tools, w.workers[j])
      {
        FrameWorker(cfg, requirements, w.db, claimed.db, w.tools, w.tools, w.workers[j]);
      }
    }
  }

  lemma FrameHead(cfg: Settings, requirements: seq<Requirement>, db: Db, db': Db, tools: ToolTable, s: State)
    requires HeadOk(cfg, requirements, db, tools, s) && Grows(db, db')
    ensures HeadOk(cfg, requirements, db', tools, s)
  {
  }

  lemma WorkKeeps(cfg: Settings, requirements: seq<Requirement>, w: World, worker: nat, arrival: Arrival)
    requires Inv(cfg, requirements, w)
    ensures Inv(cfg, requirements, Step(cfg, w, WorkOn(worker, arrival)))
  {
    hide HeadOk, AskOk, CommitOk, ToolsOk, DbOk, Move, WorkerOk, Grows, ToolsGrow;
    if worker in w.workers {
      var m := Move(cfg, w, w.workers[worker], arrival);
      MoveKeeps(cfg, requirements, w, w.workers[worker], arrival);
      forall j | j in w.workers && j != worker
        ensures WorkerOk(cfg, requirements, m.db, m.tools, w.workers[j])
        ensures w.workers[j].Executing? && m.worker.Some? && m.worker.value.Executing? ==>
          m.worker.value.tool != w.workers[j].tool
      {
        if w.workers[j].Executing? {
          MoveSpares(cfg, requirements, w, worker, j, arrival);
        }
        FrameWorker(cfg, requirements, w.db, m.db, w.tools, m.tools, w.workers[j]);
      }
    }
  }

  // Bounds every configuration satisfies before the first claim.
  lemma StartOk(cfg: Settings, requirements: seq<Requirement>, scope: set<RequirementId>, deadline: nat, attempts: nat)
    ensures Inv(cfg, requirements, Start(requirements, scope, deadline, attempts))
  {
  }

  lemma {:induction false} RunKeeps(cfg: Settings, requirements: seq<Requirement>, w: World, events: seq<Event>)
    requires Inv(cfg, requirements, w)
    ensures Inv(cfg, requirements, Run(cfg, w, events))
    decreases |events|
  {
    if events != [] {
      RunKeeps(cfg, requirements, w, events[..|events| - 1]);
      StepKeeps(cfg, requirements, Run(cfg, w, events[..|events| - 1]), events[|events| - 1]);
    }
  }
}
