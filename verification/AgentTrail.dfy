/** The log says what was answered: every committed step, and every row of evidence, repeats an answer that
    was recorded for its node at its version, or the record of the tool run that was asked for. */
module AgentTrail {
  import opened Common
  import opened AgentTypes
  import opened AgentGraph
  import opened AgentCalls
  import opened AgentStore
  import opened AgentMachine
  import opened AgentSafety
  import opened AgentGuarantees
  import AgentEndings

  // ---- what has been recorded ------------------------------------------------------------

  // Answers by node, version and call; tool reports by the action they were asked for.
  datatype Facts =
    Facts(ghost answered: (Node, nat, nat, Answer) -> bool, ghost reported: (Action, ToolSummary) -> bool)

  ghost predicate AnsweredIn(calls: CallTable, node: Node, version: nat, call: nat, answer: Answer) {
    exists key :: key in calls && key.node == node && key.version == version
                  && calls[key].CallDone? && calls[key].call == call && calls[key].answer == answer
  }

  // What the tools table says of an action: the row under its request, a failure while that row still runs,
  // or no row at all for a request that does not fit.
  ghost predicate ReportedIn(cfg: Settings, requirements: seq<Requirement>, tools: ToolTable, action: Action,
                             summary: ToolSummary) {
    || (Unfit(cfg, requirements, action) && summary == ToolSummary(None, Failed, []))
    || exists key :: key in tools
         && key.requirementId == action.requirementId && key.tool == action.tool
         && key.query == cfg.normalize(action.query) && key.range == action.range && key.limit == action.limit
         && match tools[key]
            case ToolRunning(run) => summary == ToolSummary(Some(run), Failed, [])
            case ToolDone(run, output) =>
              && summary.run == Some(run) && summary.status == output.status && |summary.refs| == |output.items|
              && forall k :: 0 <= k < |output.items| ==> summary.refs[k] == output.items[k].sourceRef
  }

  ghost predicate Unfit(cfg: Settings, requirements: seq<Requirement>, action: Action) {
    || action.tool !in cfg.registry
    || (forall q :: q in requirements ==> q.id != action.requirementId)
    || (action.tool in {SearchTranscript, SearchOcr, SearchVisualCaption, FindCounterEvidence}
        && cfg.blank(action.query))
    || (action.tool in {InspectClip, ExpandTemporalContext, GetNeighborSegments} && action.range == None)
  }

  ghost predicate Covers(cfg: Settings, requirements: seq<Requirement>, f: Facts, calls: CallTable, tools: ToolTable) {
    && (forall node, version, call, answer :: AnsweredIn(calls, node, version, call, answer) ==>
          f.answered(node, version, call, answer))
    && forall action, summary :: ReportedIn(cfg, requirements, tools, action, summary) ==> f.reported(action, summary)
  }

  ghost predicate Within(f: Facts, f': Facts) {
    && (forall node, version, call, answer ::
          f.answered(node, version, call, answer) ==> f'.answered(node, version, call, answer))
    && forall action, summary :: f.reported(action, summary) ==> f'.reported(action, summary)
  }

  // ---- what a step repeats ---------------------------------------------------------------

  ghost predicate Planned(f: Facts, version: nat, action: Action) {
    exists call :: f.answered(Plan, version, call, PlanAnswer(action.requirementId, action))
  }

  ghost predicate Inspected(f: Facts, version: nat, observations: seq<Observation>) {
    observations == []
    || (|observations| == 1 && exists call :: f.answered(Inspect, version, call, InspectAnswer(observations[0])))
  }

  // Something is observed exactly when something was retrieved, and it is one of the items retrieved.
  ghost predicate Cites(refs: seq<string>, observations: seq<Observation>) {
    (observations == [] <==> refs == []) && forall o :: o in observations ==> o.sourceRef in refs
  }

  // The identity and the words of a draft under a call.
  ghost predicate Drafted(f: Facts, version: nat, drafts: seq<Draft>, call: nat, ids: seq<EvidenceId>) {
    && f.answered(Verify, version, call, VerifyAnswer(drafts))
    && |ids| == |drafts|
    && forall k :: 0 <= k < |ids| ==> NamesDraft(ids[k], drafts[k], call)
  }

  ghost predicate NamesDraft(id: EvidenceId, draft: Draft, call: nat) {
    && id.sourceRef == draft.sourceRef && id.stance == draft.stance
    && id.start == draft.start && id.end == draft.end && id.call == call
  }

  ghost predicate Verified(f: Facts, version: nat, ids: seq<EvidenceId>) {
    ids == [] || exists call, drafts :: Drafted(f, version, drafts, call, ids)
  }

  // The proposed actions reported in turn; one more report is the temporal context.
  ghost predicate Challenged(f: Facts, version: nat, plan: ChallengePlan, reports: seq<ToolSummary>) {
    && (exists call :: f.answered(Challenge, version, call, ChallengeAnswer(plan)))
    && |plan.actions| <= |reports| <= |plan.actions| + 1
    && (forall k :: 0 <= k < |plan.actions| ==> f.reported(plan.actions[k], reports[k]))
    && (|plan.actions| < |reports| ==> Surveyed(f, reports[|plan.actions|]))
  }

  // The report is that of the surroundings of some interval.
  ghost predicate Surveyed(f: Facts, report: ToolSummary) {
    exists id, start: nat, end: nat :: f.reported(Surroundings(id, start, end), report)
  }

  ghost function Surroundings(id: RequirementId, start: nat, end: nat): Action {
    Action(id, ExpandTemporalContext, "", Some(Range(start, end)), 5)
  }

  ghost predicate Decided(f: Facts, version: nat, decision: Decision, reason: StopReason) {
    exists call, proposed :: f.answered(Decide, version, call, DecideAnswer(proposed))
      && if reason == ProvisionalDecision then decision == proposed
         else decision.verdict == NeedsHumanReview && decision.reason == Runtime(reason)
  }

  ghost predicate StepRepeats(f: Facts, steps: seq<StepRow>, i: nat)
    requires i < |steps|
  {
    match steps[i].node
    case Plan => steps[i].output.PlanOut? && Planned(f, i, steps[i].output.action)
    case Retrieve =>
      && steps[i].output.RetrieveOut?
      && i >= 1 && steps[i - 1].output.PlanOut? && f.reported(steps[i - 1].output.action, steps[i].output.tool)
    case Inspect =>
      && steps[i].output.InspectOut? && Inspected(f, i, steps[i].output.observations)
      && i >= 1 && steps[i - 1].output.RetrieveOut?
      && Cites(steps[i - 1].output.tool.refs, steps[i].output.observations)
    case Verify =>
      && steps[i].output.VerifyOut? && Verified(f, i, steps[i].output.evidenceIds)
      && i >= 3 && steps[i - 3].output.PlanOut?
      && forall k :: 0 <= k < |steps[i].output.evidenceIds| ==>
           steps[i].output.evidenceIds[k].requirementId == steps[i - 3].output.action.requirementId
    case Challenge => steps[i].output.ChallengeOut? && Challenged(f, i, steps[i].output.plan, steps[i].output.tools)
    case Decide => steps[i].output.DecideOut? && Decided(f, i, steps[i].output.decision, steps[i].output.reason)
  }

  // A row of evidence is a draft of a recorded verifier answer.
  ghost predicate RowRepeats(f: Facts, row: EvidenceRow) {
    exists version, drafts, k :: 0 <= k < |drafts|
      && f.answered(Verify, version, row.id.call, VerifyAnswer(drafts)) && DraftOf(row, drafts[k])
  }

  ghost predicate DraftOf(row: EvidenceRow, draft: Draft) {
    NamesDraft(row.id, draft, row.id.call) && row.summary == draft.summary && row.confidence == draft.confidence
  }

  // ---- what a worker carries -------------------------------------------------------------

  // The PLAN step whose action the node works on.
  ghost predicate Follows(steps: seq<StepRow>, s: State) {
    var back := match s.next
                case Some(Retrieve) => 1
                case Some(Inspect) => 2
                case Some(Verify) => 3
                case Some(Challenge) => 4
                case _ => 0;
    back > 0 ==>
      && back <= s.version <= |steps| && s.pending.Some? && steps[s.version - back].output == PlanOut(s.pending.value)
      && (back == 2 ==>
            && steps[s.version - 1].output.RetrieveOut?
            && steps[s.version - 1].output.tool.refs == Refs(Found(s.selected)))
  }

  ghost function Wanted(s: State, plan: Option<ChallengePlan>): seq<Action>
    requires plan.None? ==> s.pending.Some?
  {
    match plan
    case None => [s.pending.value]
    case Some(plan) =>
      plan.actions
      + if s.selected == [] then []
        else
          var first := s.selected[0];
          [Surroundings(first.requirementId, first.found.start, first.found.end)]
  }

  ghost predicate ToolsTrail(f: Facts, s: State, todo: seq<ToolCall>, reports: seq<ToolSummary>,
                             plan: Option<ChallengePlan>) {
    && (plan.None? ==> s.pending.Some?)
    && var wanted := Wanted(s, plan);
    && |reports| + |todo| == |wanted|
    && (forall k :: 0 <= k < |todo| ==> todo[k].action == wanted[|reports| + k])
    && (forall k :: 0 <= k < |reports| ==> f.reported(wanted[k], reports[k]))
    && (plan.Some? ==> exists call :: f.answered(Challenge, s.version, call, ChallengeAnswer(plan.value)))
    && (plan.None? && reports != [] ==> reports[0].refs == Refs(Found(s.selected)))
  }

  ghost predicate CommitTrail(f: Facts, s: State, c: Commit) {
    && (forall row :: row in c.evidence ==> RowRepeats(f, row))
    && match c.node
       case Plan => c.output.PlanOut? && s.pending == Some(c.output.action) && Planned(f, s.version, c.output.action)
       case Retrieve =>
         && c.output.RetrieveOut? && s.pending.Some? && f.reported(s.pending.value, c.output.tool)
         && c.output.tool.refs == Refs(Found(s.selected))
       case Inspect =>
         && c.output.InspectOut? && Inspected(f, s.version, c.output.observations)
         && Cites(Refs(Found(s.selected)), c.output.observations)
       case Verify =>
         && c.output.VerifyOut? && Verified(f, s.version, c.output.evidenceIds) && s.pending.Some?
         && forall k :: 0 <= k < |c.output.evidenceIds| ==>
              c.output.evidenceIds[k].requirementId == s.pending.value.requirementId
       case Challenge => c.output.ChallengeOut? && Challenged(f, s.version, c.output.plan, c.output.tools)
       case Decide => c.output.DecideOut? && Decided(f, s.version, c.output.decision, c.output.reason)
  }

  ghost predicate WorkerTrail(f: Facts, steps: seq<StepRow>, p: Worker) {
    match p
    case Looping(s) => Follows(steps, s)
    case Asking(s, key) => key.version == s.version && Follows(steps, s)
    case Awaiting(s, key, _) => key.version == s.version && Follows(steps, s)
    case Tooling(s, todo, reports, plan) => Follows(steps, s) && ToolsTrail(f, s, todo, reports, plan)
    case Executing(s, todo, reports, plan, _, _) => Follows(steps, s) && ToolsTrail(f, s, todo, reports, plan)
    case Committing(s, c) => (c.node != Plan ==> Follows(steps, s)) && CommitTrail(f, s, c)
    case _ => true
  }

  ghost predicate DbTrail(f: Facts, db: Db) {
    && (forall i :: 0 <= i < |db.steps| ==> StepRepeats(f, db.steps, i))
    && (forall id :: id in db.evidence ==> RowRepeats(f, db.evidence[id]))
    && Follows(db.steps, db.run.snapshot)
  }

  ghost predicate Trail(f: Facts, w: World) {
    DbTrail(f, w.db) && forall k :: k in w.workers ==> WorkerTrail(f, w.db.steps, w.workers[k])
  }

  // ---- more facts, more steps ------------------------------------------------------------

  lemma MoreFactsCommit(f: Facts, f': Facts, s: State, c: Commit)
    requires Within(f, f') && CommitTrail(f, s, c)
    ensures CommitTrail(f', s, c)
  {
    forall row | row in c.evidence
      ensures RowRepeats(f', row)
    {
      MoreFactsRow(f, f', row);
    }
    if c.node == Verify && c.output.evidenceIds != [] {
      MoreFactsVerified(f, f', s.version, c.output.evidenceIds);
    }
    hide RowRepeats, Verified, Drafted;
  }

  lemma MoreFactsRow(f: Facts, f': Facts, row: EvidenceRow)
    requires Within(f, f') && RowRepeats(f, row)
    ensures RowRepeats(f', row)
  {
  }

  lemma MoreFactsVerified(f: Facts, f': Facts, version: nat, ids: seq<EvidenceId>)
    requires Within(f, f') && Verified(f, version, ids)
    ensures Verified(f', version, ids)
  {
    if ids != [] {
      var call, drafts :| Drafted(f, version, drafts, call, ids);
      assert Drafted(f', version, drafts, call, ids);
    }
  }

  lemma MoreFactsWorker(f: Facts, f': Facts, steps: seq<StepRow>, steps': seq<StepRow>, p: Worker)
    requires Within(f, f') && steps <= steps' && WorkerTrail(f, steps, p)
    ensures WorkerTrail(f', steps', p)
  {
    hide CommitTrail;
    if p.Committing? {
      MoreFactsCommit(f, f', p.s, p.commit);
    }
  }

  lemma MoreFactsStep(f: Facts, f': Facts, steps: seq<StepRow>, steps': seq<StepRow>, i: nat)
    requires Within(f, f') && i < |steps| && steps <= steps' && StepRepeats(f, steps, i)
    ensures StepRepeats(f', steps', i)
  {
    assert steps'[i] == steps[i];
    if steps[i].node == Verify {
      MoreFactsVerified(f, f', i, steps[i].output.evidenceIds);
    }
    hide Verified;
  }

  // ---- one stretch of private work -------------------------------------------------------

  lemma BeginTrail(cfg: Settings, late: bool, table: EvidenceTable, f: Facts, steps: seq<StepRow>, s: State)
    requires Follows(steps, s)
    ensures WorkerTrail(f, steps, Begin(cfg, late, table, s))
  {
    hide BudgetStop, Summary, FindRequirement;
  }

  lemma ResumeTrail(cfg: Settings, late: bool, table: EvidenceTable, f: Facts, steps: seq<StepRow>, s: State,
                    node: Node, reply: Reply)
    requires Follows(steps, s) && s.next == Some(node)
    requires f.answered(node, s.version, reply.call, reply.answer)
    ensures WorkerTrail(f, steps, Resume(cfg, late, table, s, node, reply))
  {
    hide Summary, ValidAction, AppendIds, StillMissing, Enforce, Decided, FindItem, RowRepeats, ToolsTrail, Drafted;
    match (node, reply.answer)
    case (Verify, VerifyAnswer(drafts)) => VerifyTrail(f, s, drafts, reply.call);
    case (Challenge, ChallengeAnswer(plan)) => ChallengeTrail(f, s, plan, reply.call);
    case (Plan, PlanAnswer(_, action)) =>
      assert reply.answer == PlanAnswer(action.requirementId, action) ==> Planned(f, s.version, action);
    case (Inspect, InspectAnswer(observation)) =>
      var observations := [observation];
      assert f.answered(Inspect, s.version, reply.call, InspectAnswer(observations[0]));
      assert Inspected(f, s.version, observations);
      FoundIsCited(s.selected, observation.sourceRef);
    case (Decide, DecideAnswer(proposed)) => DecideTrail(cfg, late, table, f, s, proposed, reply.call);
    case _ =>
  }

  lemma FoundIsCited(items: seq<Item>, ref: string)
    ensures FindItem(items, ref).Some? ==> ref in Refs(Found(items))
  {
    var item := FindItem(items, ref);
    if item.Some? {
      var k :| 0 <= k < |items| && items[k] == item.value;
      assert Refs(Found(items))[k] == ref;
    }
  }

  lemma SelectedRefs(items: seq<ToolItem>, run: Option<nat>, requirementId: RequirementId)
    ensures Refs(Found(Select(items, run, requirementId))) == Refs(items)
  {
  }

  lemma DecideTrail(cfg: Settings, late: bool, table: EvidenceTable, f: Facts, s: State, proposed: Decision, call: nat)
    requires f.answered(Decide, s.version, call, DecideAnswer(proposed))
    ensures
      var e := Enforce(cfg, late, table, s, proposed);
      e.Some? ==> Decided(f, s.version, e.value.decision, e.value.reason)
  {
    hide Conflicts, Summary;
  }

  lemma VerifyTrail(f: Facts, s: State, drafts: seq<Draft>, call: nat)
    requires f.answered(Verify, s.version, call, VerifyAnswer(drafts)) && s.pending.Some?
    ensures
      var rows := ValidateEvidence(s.selected, s.pending.value.requirementId, drafts, call);
      rows.Some? ==>
        && Drafted(f, s.version, drafts, call, Ids(rows.value))
        && (forall k :: 0 <= k < |rows.value| ==> rows.value[k].id.requirementId == s.pending.value.requirementId)
        && forall row :: row in rows.value ==> RowRepeats(f, row)
  {
    var rows := ValidateEvidence(s.selected, s.pending.value.requirementId, drafts, call);
    if rows.Some? {
      forall row | row in rows.value
        ensures RowRepeats(f, row)
      {
        var k :| 0 <= k < |rows.value| && rows.value[k] == row;
        assert DraftOf(row, drafts[k]);
      }
    }
  }

  lemma ChallengeTrail(f: Facts, s: State, plan: ChallengePlan, call: nat)
    requires f.answered(Challenge, s.version, call, ChallengeAnswer(plan))
    ensures ToolsTrail(f, s, ChallengeCalls(s, plan), [], Some(plan))
  {
  }

  lemma AfterToolTrail(f: Facts, steps: seq<StepRow>, s: State, todo: seq<ToolCall>, reports: seq<ToolSummary>,
                       plan: Option<ChallengePlan>, result: ToolResult)
    requires Follows(steps, s) && ToolsTrail(f, s, todo, reports, plan) && todo != []
    requires plan.None? ==> s.next == Some(Retrieve)
    requires f.reported(todo[0].action, ToolSummary(result.run, result.output.status, Refs(result.output.items)))
    ensures WorkerTrail(f, steps, AfterTool(s, todo, reports, plan, result))
  {
    hide Select, Refs, Found;
    SelectedRefs(result.output.items, result.run, todo[0].action.requirementId);
  }

  lemma FinishTrail(cfg: Settings, late: bool, f: Facts, steps: seq<StepRow>, s: State, reports: seq<ToolSummary>,
                    plan: Option<ChallengePlan>)
    requires Follows(steps, s) && ToolsTrail(f, s, [], reports, plan)
    requires s.next == Some(if plan.None? then Retrieve else Challenge)
    ensures WorkerTrail(f, steps, FinishTools(cfg, late, s, reports, plan))
  {
    hide BudgetStop;
  }

  // What the executor hands back is what the table reports.
  lemma StartReports(cfg: Settings, s: State, tools: ToolTable, action: Action)
    ensures
      match StartTool(cfg, s, tools, action)
      case Refuse => ReportedIn(cfg, s.requirements, tools, action, ToolSummary(None, Failed, []))
      case Reuse(result) =>
        ReportedIn(cfg, s.requirements, tools, action,
                   ToolSummary(result.run, result.output.status, Refs(result.output.items)))
      case Launch(key) => key == KeyOf(cfg, action)
  {
    if InvalidRequest(cfg, s, action) {
      assert Unfit(cfg, s.requirements, action);
    } else if KeyOf(cfg, action) in tools {
      var key := KeyOf(cfg, action);
      assert key in tools && key.requirementId == action.requirementId;
    }
  }

  lemma DoneReports(cfg: Settings, requirements: seq<Requirement>, tools: ToolTable, action: Action, run: nat,
                    output: ToolOutput)
    requires KeyOf(cfg, action) in tools && tools[KeyOf(cfg, action)] == ToolDone(run, output)
    ensures ReportedIn(cfg, requirements, tools, action, ToolSummary(Some(run), output.status, Refs(output.items)))
  {
    var key := KeyOf(cfg, action);
    assert key in tools && key.requirementId == action.requirementId;
  }

  // ---- one move --------------------------------------------------------------------------

  // What the invariant of the machine says of a worker, as far as its trail needs it.
  ghost predicate Usable(cfg: Settings, db: Db, p: Worker) {
    && db.run.version == |db.steps|
    && match p
       case Asking(s, key) => s.next == Some(key.node)
       case Awaiting(s, key, _) => s.next == Some(key.node)
       case Tooling(s, todo, _, plan) => s.next == Some(if plan.None? then Retrieve else Challenge)
       case Executing(s, todo, _, plan, key, _) =>
         && s.next == Some(if plan.None? then Retrieve else Challenge)
         && todo != [] && key == KeyOf(cfg, todo[0].action)
       case Committing(s, c) => s.next == Some(c.node)
       case Deciding(s, _, _) => s.next == None
       case _ => true
  }

  lemma InvIsUsable(cfg: Settings, requirements: seq<Requirement>, w: World, k: nat)
    requires Inv(cfg, requirements, w) && k in w.workers
    ensures Usable(cfg, w.db, w.workers[k])
    ensures !w.workers[k].Failing? && !w.workers[k].Deferring? ==> w.workers[k].s.requirements == requirements
  {
    hide Bounded, AllSourced, Knows, Counted, Wired, Grounded, CounterStop, DecisionOk;
    assert WorkerOk(cfg, requirements, w.db, w.tools, w.workers[k]);
  }

  ghost predicate MoveTrail(f: Facts, m: Moved) {
    DbTrail(f, m.db) && (m.worker.Some? ==> WorkerTrail(f, m.db.steps, m.worker.value))
  }

  lemma CallMoveTrail(cfg: Settings, f: Facts, requirements: seq<Requirement>, w: World, p: Worker, arrival: Arrival)
    requires (p.Asking? || p.Awaiting?) && Usable(cfg, w.db, p) && DbTrail(f, w.db) && WorkerTrail(f, w.db.steps, p)
    requires var m := Move(cfg, w, p, arrival); Covers(cfg, requirements, f, m.calls, m.tools)
    ensures MoveTrail(f, Move(cfg, w, p, arrival))
  {
    hide Resume, DbTrail, Follows, ReportedIn;
    var m := Move(cfg, w, p, arrival);
    var key := p.key;
    if p.Asking? && key in w.calls && w.calls[key].CallDone? {
      var reply := Reply(w.calls[key].call, w.calls[key].answer);
      assert AnsweredIn(m.calls, key.node, key.version, reply.call, reply.answer);
      ResumeTrail(cfg, Late(p.s, w.now), w.db.evidence, f, w.db.steps, p.s, key.node, reply);
    } else if p.Awaiting? && arrival.ModelAnswers? && Fits(key.node, arrival.answer) {
      assert key in m.calls && m.calls[key].answer == arrival.answer;
      assert AnsweredIn(m.calls, key.node, key.version, p.call, arrival.answer);
      ResumeTrail(cfg, Late(p.s, w.now), w.db.evidence, f, w.db.steps, p.s, key.node, Reply(p.call, arrival.answer));
    }
  }

  lemma ToolMoveTrail(cfg: Settings, f: Facts, w: World, p: Worker, arrival: Arrival)
    requires (p.Tooling? || p.Executing?) && Usable(cfg, w.db, p) && DbTrail(f, w.db) && WorkerTrail(f, w.db.steps, p)
    requires var m := Move(cfg, w, p, arrival);
             Covers(cfg, p.s.requirements, f, m.calls, m.tools) && Covers(cfg, p.s.requirements, f, w.calls, w.tools)
    ensures MoveTrail(f, Move(cfg, w, p, arrival))
  {
    hide DbTrail, Follows, AfterTool, FinishTools, RefusedCall, StartTool, ReportedIn, ToolsTrail, AnsweredIn;
    var m := Move(cfg, w, p, arrival);
    if p.Tooling? && p.todo == [] {
      FinishTrail(cfg, Late(p.s, w.now), f, w.db.steps, p.s, p.done, p.plan);
    } else if p.Tooling? {
      StartReports(cfg, p.s, w.tools, p.todo[0].action);
      match StartTool(cfg, p.s, w.tools, p.todo[0].action)
      case Refuse =>
        NoRefs();
        AfterToolTrail(f, w.db.steps, p.s, p.todo, p.done, p.plan, Refusal);
      case Reuse(result) => AfterToolTrail(f, w.db.steps, p.s, p.todo, p.done, p.plan, result);
      case Launch(_) =>
    } else if arrival.ToolAnswers? {
      DoneReports(cfg, p.s.requirements, m.tools, p.todo[0].action, p.run, arrival.output);
      AfterToolTrail(f, w.db.steps, p.s, p.todo, p.done, p.plan, Recorded(ToolDone(p.run, arrival.output)));
    }
  }

  lemma NoRefs()
    ensures Refs(Refusal.output.items) == []
  {
  }

  lemma CommitMoveTrail(cfg: Settings, f: Facts, w: World, p: Worker, arrival: Arrival)
    requires p.Committing? && Usable(cfg, w.db, p) && DbTrail(f, w.db) && WorkerTrail(f, w.db.steps, p)
    ensures MoveTrail(f, Move(cfg, w, p, arrival))
  {
    hide StepRepeats, RowRepeats, StoreEvidence, CommitTrail, Follows;
    if Checkpoint(cfg, w.now, w.db, p.s, p.commit).Saved? {
      CommittedStep(cfg, f, w.now, w.db, p.s, p.commit);
      CommittedRows(cfg, f, w.now, w.db, p.s, p.commit);
    }
  }

  lemma CommittedRows(cfg: Settings, f: Facts, now: nat, db: Db, s: State, c: Commit)
    requires DbTrail(f, db) && CommitTrail(f, s, c) && Checkpoint(cfg, now, db, s, c).Saved?
    ensures var saved := Checkpoint(cfg, now, db, s, c).db;
            forall id :: id in saved.evidence ==> RowRepeats(f, saved.evidence[id])
  {
    hide RowRepeats, StepRepeats, Follows, Verified, Challenged, Planned, Inspected, Decided;
  }

  lemma CommittedStep(cfg: Settings, f: Facts, now: nat, db: Db, s: State, c: Commit)
    requires DbTrail(f, db) && CommitTrail(f, s, c) && Checkpoint(cfg, now, db, s, c).Saved?
    requires db.run.version == |db.steps| && s.next == Some(c.node) && (c.node != Plan ==> Follows(db.steps, s))
    ensures
      var saved := Checkpoint(cfg, now, db, s, c);
      && (forall i :: 0 <= i < |saved.db.steps| ==> StepRepeats(f, saved.db.steps, i))
      && Follows(saved.db.steps, saved.s) && saved.db.run.snapshot == saved.s
  {
    hide RowRepeats, StoreEvidence, Verified, Challenged, Planned, Inspected, Decided;
    var saved := Checkpoint(cfg, now, db, s, c);
    var n := |db.steps|;
    forall i | 0 <= i < n
      ensures StepRepeats(f, saved.db.steps, i)
    {
      assert StepRepeats(f, db.steps, i);
    }
    assert saved.db.steps[n].output == c.output && saved.db.steps[n].node == c.node;
  }

  lemma AMoveTrail(cfg: Settings, f: Facts, requirements: seq<Requirement>, w: World, p: Worker, arrival: Arrival)
    requires Usable(cfg, w.db, p) && DbTrail(f, w.db) && WorkerTrail(f, w.db.steps, p)
    requires !p.Failing? && !p.Deferring? ==> p.s.requirements == requirements
    requires var m := Move(cfg, w, p, arrival);
             Covers(cfg, requirements, f, m.calls, m.tools) && Covers(cfg, requirements, f, w.calls, w.tools)
    ensures MoveTrail(f, Move(cfg, w, p, arrival))
  {
    hide Covers, MoveTrail, WorkerTrail, DbTrail, Move, Usable;
    match p
    case Looping(s) => LoopMoveTrail(cfg, f, w, p, arrival);
    case Asking(_, _) => CallMoveTrail(cfg, f, requirements, w, p, arrival);
    case Awaiting(_, _, _) => CallMoveTrail(cfg, f, requirements, w, p, arrival);
    case Tooling(_, _, _, _) => ToolMoveTrail(cfg, f, w, p, arrival);
    case Executing(_, _, _, _, _, _) => ToolMoveTrail(cfg, f, w, p, arrival);
    case Committing(_, _) => CommitMoveTrail(cfg, f, w, p, arrival);
    case _ => EndMoveTrail(cfg, f, w, p, arrival);
  }

  lemma LoopMoveTrail(cfg: Settings, f: Facts, w: World, p: Worker, arrival: Arrival)
    requires p.Looping? && DbTrail(f, w.db) && WorkerTrail(f, w.db.steps, p)
    ensures MoveTrail(f, Move(cfg, w, p, arrival))
  {
    hide DbTrail, Begin, Follows;
    BeginTrail(cfg, Late(p.s, w.now), w.db.evidence, f, w.db.steps, p.s);
  }

  // An ended run has no next node to work on.
  lemma EndMoveTrail(cfg: Settings, f: Facts, w: World, p: Worker, arrival: Arrival)
    requires (p.Deciding? || p.Stopping? || p.Failing? || p.Deferring?) && DbTrail(f, w.db)
    ensures MoveTrail(f, Move(cfg, w, p, arrival))
  {
    hide StepRepeats, RowRepeats;
  }

  lemma StepTrail(cfg: Settings, f: Facts, requirements: seq<Requirement>, w: World, e: Event)
    requires Inv(cfg, requirements, w) && Trail(f, w)
    requires Covers(cfg, requirements, f, w.calls, w.tools)
    requires Covers(cfg, requirements, f, Step(cfg, w, e).calls, Step(cfg, w, e).tools)
    ensures Trail(f, Step(cfg, w, e))
  {
    hide Covers, WorkerTrail, DbTrail, Move, Usable, Inv;
    match e
    case WorkOn(k, arrival) =>
      if k in w.workers {
        var m := Move(cfg, w, w.workers[k], arrival);
        InvIsUsable(cfg, requirements, w, k);
        AMoveTrail(cfg, f, requirements, w, w.workers[k], arrival);
        MovesAppend(cfg, w, w.workers[k], arrival);
        forall j | j in w.workers
          ensures WorkerTrail(f, m.db.steps, w.workers[j])
        {
          MoreFactsWorker(f, f, w.db.steps, m.db.steps, w.workers[j]);
        }
      }
    case ClaimBy(k) => ClaimTrail(cfg, f, w, k);
    case _ =>
  }

  lemma MovesAppend(cfg: Settings, w: World, p: Worker, arrival: Arrival)
    ensures w.db.steps <= Move(cfg, w, p, arrival).db.steps
  {
    hide Begin, Resume, ClaimCall, StartTool, AfterTool, FinishTools, StoreEvidence, RefusedCall, Allowed;
  }

  lemma ClaimTrail(cfg: Settings, f: Facts, w: World, k: nat)
    requires Trail(f, w)
    ensures Trail(f, Step(cfg, w, ClaimBy(k)))
  {
    hide StepRepeats, RowRepeats, Follows;
    var u := Step(cfg, w, ClaimBy(k));
    assert u.db.steps == w.db.steps && u.db.evidence == w.db.evidence && u.db.run.snapshot == w.db.run.snapshot;
    forall j | j in u.workers
      ensures WorkerTrail(f, u.db.steps, u.workers[j])
    {
      assert j in w.workers ==> u.workers[j] == w.workers[j];
      assert j !in w.workers ==> u.workers[j] == Looping(w.db.run.snapshot);
    }
  }

  // ---- along a run -----------------------------------------------------------------------

  // What was recorded at some point of the run.
  ghost predicate AnsweredBy(cfg: Settings, w: World, events: seq<Event>, node: Node, version: nat, call: nat,
                             answer: Answer) {
    exists n :: 0 <= n <= |events| && AnsweredIn(Run(cfg, w, events[..n]).calls, node, version, call, answer)
  }

  ghost predicate ReportedBy(cfg: Settings, requirements: seq<Requirement>, w: World, events: seq<Event>,
                             action: Action, summary: ToolSummary) {
    exists n :: 0 <= n <= |events| && ReportedIn(cfg, requirements, Run(cfg, w, events[..n]).tools, action, summary)
  }

  ghost function FactsOf(cfg: Settings, requirements: seq<Requirement>, w: World, events: seq<Event>): Facts {
    Facts((node: Node, version: nat, call: nat, answer: Answer) =>
            AnsweredBy(cfg, w, events, node, version, call, answer),
          (action: Action, summary: ToolSummary) => ReportedBy(cfg, requirements, w, events, action, summary))
  }

  lemma FactsCover(cfg: Settings, requirements: seq<Requirement>, w: World, events: seq<Event>)
    ensures var u := Run(cfg, w, events);
            Covers(cfg, requirements, FactsOf(cfg, requirements, w, events), u.calls, u.tools)
  {
    hide Run, AnsweredIn, ReportedIn;
    assert events[..|events|] == events;
    var f, u := FactsOf(cfg, requirements, w, events), Run(cfg, w, events);
    forall node, version, call, answer | AnsweredIn(u.calls, node, version, call, answer)
      ensures f.answered(node, version, call, answer)
    {
      assert AnsweredIn(Run(cfg, w, events[..|events|]).calls, node, version, call, answer);
    }
    forall action, summary | ReportedIn(cfg, requirements, u.tools, action, summary)
      ensures f.reported(action, summary)
    {
      assert ReportedIn(cfg, requirements, Run(cfg, w, events[..|events|]).tools, action, summary);
    }
  }

  lemma FactsGrow(cfg: Settings, requirements: seq<Requirement>, w: World, events: seq<Event>, e: Event)
    ensures Within(FactsOf(cfg, requirements, w, events), FactsOf(cfg, requirements, w, events + [e]))
  {
    hide Run, AnsweredIn, ReportedIn;
    forall node, version, call, answer | AnsweredBy(cfg, w, events, node, version, call, answer)
      ensures AnsweredBy(cfg, w, events + [e], node, version, call, answer)
    {
      var n :| 0 <= n <= |events| && AnsweredIn(Run(cfg, w, events[..n]).calls, node, version, call, answer);
      assert (events + [e])[..n] == events[..n];
    }
    forall action, summary | ReportedBy(cfg, requirements, w, events, action, summary)
      ensures ReportedBy(cfg, requirements, w, events + [e], action, summary)
    {
      var n :| 0 <= n <= |events| && ReportedIn(cfg, requirements, Run(cfg, w, events[..n]).tools, action, summary);
      assert (events + [e])[..n] == events[..n];
    }
  }

  lemma TrailGrows(f: Facts, f': Facts, w: World)
    requires Within(f, f') && Trail(f, w)
    ensures Trail(f', w)
  {
    hide Within, StepRepeats, RowRepeats, WorkerTrail, Follows;
    forall i | 0 <= i < |w.db.steps|
      ensures StepRepeats(f', w.db.steps, i)
    {
      MoreFactsStep(f, f', w.db.steps, w.db.steps, i);
    }
    forall id | id in w.db.evidence
      ensures RowRepeats(f', w.db.evidence[id])
    {
      MoreFactsRow(f, f', w.db.evidence[id]);
    }
    forall k | k in w.workers
      ensures WorkerTrail(f', w.db.steps, w.workers[k])
    {
      MoreFactsWorker(f, f', w.db.steps, w.db.steps, w.workers[k]);
    }
  }

  lemma CoversMore(cfg: Settings, requirements: seq<Requirement>, f: Facts, f': Facts, calls: CallTable,
                   tools: ToolTable)
    requires Within(f, f') && Covers(cfg, requirements, f, calls, tools)
    ensures Covers(cfg, requirements, f', calls, tools)
  {
    hide AnsweredIn, ReportedIn;
  }

  lemma StartTrail(f: Facts, requirements: seq<Requirement>, scope: set<RequirementId>, deadline: nat, attempts: nat)
    ensures Trail(f, Start(requirements, scope, deadline, attempts))
  {
  }

  lemma {:induction false} RunTrail(cfg: Settings, requirements: seq<Requirement>, w: World, events: seq<Event>)
    requires Inv(cfg, requirements, w) && forall f :: Trail(f, w)
    ensures Trail(FactsOf(cfg, requirements, w, events), Run(cfg, w, events))
    decreases |events|
  {
    hide Inv, Trail, Step, Covers, Within, FactsOf;
    if events != [] {
      var before := events[..|events| - 1];
      var e := events[|events| - 1];
      assert before + [e] == events;
      var f, f' := FactsOf(cfg, requirements, w, before), FactsOf(cfg, requirements, w, events);
      var u := Run(cfg, w, before);
      RunTrail(cfg, requirements, w, before);
      RunKeeps(cfg, requirements, w, before);
      FactsGrow(cfg, requirements, w, before, e);
      FactsCover(cfg, requirements, w, before);
      FactsCover(cfg, requirements, w, events);
      TrailGrows(f, f', u);
      CoversMore(cfg, requirements, f, f', u.calls, u.tools);
      StepTrail(cfg, f', requirements, u, e);
    }
  }

  lemma ReachedTrail(cfg: Settings, requirements: seq<Requirement>, scope: set<RequirementId>, deadline: nat,
                     attempts: nat, events: seq<Event>)
    ensures Trail(FactsOf(cfg, requirements, Start(requirements, scope, deadline, attempts), events),
                  Reached(cfg, requirements, scope, deadline, attempts, events))
  {
    hide Run, Inv, Trail, FactsOf;
    var w := Start(requirements, scope, deadline, attempts);
    StartOk(cfg, requirements, scope, deadline, attempts);
    forall f
      ensures Trail(f, w)
    {
      StartTrail(f, requirements, scope, deadline, attempts);
    }
    RunTrail(cfg, requirements, w, events);
  }

  // ---- results ---------------------------------------------------------------------------

  // Every step of the log repeats what was recorded during the run: PLAN the proposed action, RETRIEVE the
  // report of the tool run that PLAN asked for, INSPECT the observation, VERIFY the drafts, CHALLENGE the
  // plan and the reports of its actions in turn, DECIDE the proposal or a review in its place.
  lemma LogRepeatsAnswers(cfg: Settings, requirements: seq<Requirement>, scope: set<RequirementId>, deadline: nat,
                          attempts: nat, events: seq<Event>, i: nat)
    requires i < |Reached(cfg, requirements, scope, deadline, attempts, events).db.steps|
    ensures StepRepeats(FactsOf(cfg, requirements, Start(requirements, scope, deadline, attempts), events),
                        Reached(cfg, requirements, scope, deadline, attempts, events).db.steps, i)
  {
    hide Reached, StepRepeats, FactsOf;
    ReachedTrail(cfg, requirements, scope, deadline, attempts, events);
  }

  // The result of a completed run is the decision a model gave: recorded under a DECIDE request of the
  // version it was committed at.
  lemma CompletedAsProposed(cfg: Settings, requirements: seq<Requirement>, scope: set<RequirementId>, deadline: nat,
                            attempts: nat, events: seq<Event>)
    requires Reached(cfg, requirements, scope, deadline, attempts, events).db.run.status == RunCompleted
    ensures
      var db := Reached(cfg, requirements, scope, deadline, attempts, events).db;
      && db.run.result.Some? && db.steps != []
      && exists n, key :: 0 <= n <= |events|
           && var calls := Reached(cfg, requirements, scope, deadline, attempts, events[..n]).calls;
              && key in calls && key.node == Decide && key.version == |db.steps| - 1
              && calls[key].CallDone? && calls[key].answer == DecideAnswer(db.run.result.value)
  {
    hide Run, StepRepeats, FactsOf;
    var w := Start(requirements, scope, deadline, attempts);
    var db := Reached(cfg, requirements, scope, deadline, attempts, events).db;
    CompletedIsConclusive(cfg, requirements, scope, deadline, attempts, events);
    var i := |db.steps| - 1;
    LogRepeatsAnswers(cfg, requirements, scope, deadline, attempts, events, i);
    DecidedMeans(cfg, requirements, w, events, db.steps, i);
    var call :| AnsweredBy(cfg, w, events, Decide, i, call, DecideAnswer(db.run.result.value));
    var n :| 0 <= n <= |events|
             && AnsweredIn(Run(cfg, w, events[..n]).calls, Decide, i, call, DecideAnswer(db.run.result.value));
    var calls := Reached(cfg, requirements, scope, deadline, attempts, events[..n]).calls;
    var key :| key in calls && key.node == Decide && key.version == i && calls[key].CallDone?
               && calls[key].answer == DecideAnswer(db.run.result.value);
  }

  // While leases are kept it is still recorded there: an overlapping worker is the only one who could have
  // overwritten it.
  lemma KeptLeasesShowTheProposal(cfg: Settings, requirements: seq<Requirement>, scope: set<RequirementId>,
                                  deadline: nat, attempts: nat, events: seq<Event>)
    requires LeasesKept(cfg, Start(requirements, scope, deadline, attempts), events)
    requires Reached(cfg, requirements, scope, deadline, attempts, events).db.run.status == RunCompleted
    ensures
      var u := Reached(cfg, requirements, scope, deadline, attempts, events);
      && u.db.run.result.Some?
      && exists key :: key in u.calls && key.node == Decide && key.version == |u.db.steps| - 1
           && u.calls[key].CallDone? && u.calls[key].answer == DecideAnswer(u.db.run.result.value)
  {
    hide Run, LeasesKept;
    var w := Start(requirements, scope, deadline, attempts);
    var u := Reached(cfg, requirements, scope, deadline, attempts, events);
    CompletedAsProposed(cfg, requirements, scope, deadline, attempts, events);
    var n, key :| 0 <= n <= |events|
      && var calls := Reached(cfg, requirements, scope, deadline, attempts, events[..n]).calls;
         key in calls && key.node == Decide && key.version == |u.db.steps| - 1
         && calls[key].CallDone? && calls[key].answer == DecideAnswer(u.db.run.result.value);
    KeptBefore(cfg, w, events, n);
    AgentEndings.KeptLeasesKeepAnswers(cfg, requirements, scope, deadline, attempts, events[..n], key, events[n..]);
    RunsInTurn(cfg, w, events[..n], events[n..]);
    assert events[..n] + events[n..] == events;
  }

  lemma {:induction false} KeptBefore(cfg: Settings, w: World, events: seq<Event>, n: nat)
    requires LeasesKept(cfg, w, events) && n <= |events|
    ensures LeasesKept(cfg, w, events[..n])
    decreases |events|
  {
    hide Run;
    if n == |events| {
      assert events[..n] == events;
    } else {
      KeptBefore(cfg, w, events[..|events| - 1], n);
      assert events[..|events| - 1][..n] == events[..n];
    }
  }

  lemma DecidedMeans(cfg: Settings, requirements: seq<Requirement>, w: World, events: seq<Event>, steps: seq<StepRow>,
                     i: nat)
    requires i < |steps| && StepRepeats(FactsOf(cfg, requirements, w, events), steps, i)
    requires steps[i].node == Decide && steps[i].output.DecideOut? && steps[i].output.reason == ProvisionalDecision
    ensures exists call :: AnsweredBy(cfg, w, events, Decide, i, call, DecideAnswer(steps[i].output.decision))
  {
    hide Run, AnsweredBy;
    var f := FactsOf(cfg, requirements, w, events);
    var call, proposed :| f.answered(Decide, i, call, DecideAnswer(proposed)) && steps[i].output.decision == proposed;
    assert AnsweredBy(cfg, w, events, Decide, i, call, DecideAnswer(proposed));
  }

  // Every row of evidence has the words, the stance, the interval and the confidence of a draft that a
  // verifier gave in the call the row names.
  lemma EvidenceRepeatsDrafts(cfg: Settings, requirements: seq<Requirement>, scope: set<RequirementId>,
                              deadline: nat, attempts: nat, events: seq<Event>, id: EvidenceId)
    requires id in Reached(cfg, requirements, scope, deadline, attempts, events).db.evidence
    ensures
      var w := Start(requirements, scope, deadline, attempts);
      var row := Reached(cfg, requirements, scope, deadline, attempts, events).db.evidence[id];
      exists version: nat, drafts, k :: 0 <= k < |drafts|
        && AnsweredBy(cfg, w, events, Verify, version, row.id.call, VerifyAnswer(drafts)) && DraftOf(row, drafts[k])
  {
    hide Run, AnsweredBy, DraftOf;
    ReachedTrail(cfg, requirements, scope, deadline, attempts, events);
    var f := FactsOf(cfg, requirements, Start(requirements, scope, deadline, attempts), events);
    var row := Reached(cfg, requirements, scope, deadline, attempts, events).db.evidence[id];
    assert RowRepeats(f, row);
    var version, drafts, k :| 0 <= k < |drafts| && f.answered(Verify, version, row.id.call, VerifyAnswer(drafts))
                              && DraftOf(row, drafts[k]);
  }
}
