/** The log determines the state: whatever workers came and went, the stored snapshot is what folding the
    committed steps from the start gives, and every request is made from that fold. */
module AgentRebuild {
  import opened Common
  import opened AgentTypes
  import opened AgentGraph
  import opened AgentCalls
  import opened AgentStore
  import opened AgentMachine
  import opened AgentSafety
  import opened AgentGuarantees
  import AgentEndings

  // ---- the fold --------------------------------------------------------------------------

  // What the log tells: the state without the selected items and the next node, and the references of the
  // items selected.
  datatype Tally = Tally(s: State, refs: seq<string>)

  function First(requirements: seq<Requirement>, deadline: nat): Tally {
    Tally(InitialState(requirements, deadline).(next := None), [])
  }

  // One report of a tool.
  function Heard(s: State, report: ToolSummary): State {
    if report.status == Failed
    then s.(totalFailures := s.totalFailures + 1, consecutiveFailures := s.consecutiveFailures + 1)
    else s.(consecutiveFailures := 0)
  }

  function HeardAll(s: State, reports: seq<ToolSummary>): State {
    if reports == [] then s else Heard(HeardAll(s, reports[..|reports| - 1]), reports[|reports| - 1])
  }

  function WithNew(held: seq<EvidenceId>, ids: seq<EvidenceId>): seq<EvidenceId>
    decreases ids
  {
    if ids == [] then held else WithNew(if ids[0] in held then held else held + [ids[0]], ids[1..])
  }

  predicate SettledBy(ids: seq<EvidenceId>, id: RequirementId) {
    exists e :: e in ids && e.requirementId == id && (e.stance == Support || e.stance == Contradict)
  }

  function Unsettled(missing: seq<RequirementId>, ids: seq<EvidenceId>): seq<RequirementId> {
    if missing == [] then []
    else (if SettledBy(ids, missing[0]) then [] else [missing[0]]) + Unsettled(missing[1..], ids)
  }

  ghost function DisputedIds(s: State): set<RequirementId> {
    set e | e in s.evidenceIds && Disputed(s, e.requirementId) :: e.requirementId
  }

  ghost function Apply(t: Tally, output: Output): Tally {
    var s := t.s.(version := t.s.version + 1);
    match output
    case PlanOut(action) => t.(s := s.(iteration := s.iteration + 1, pending := Some(action)))
    case RetrieveOut(report) => Tally(Heard(s, report), report.refs)
    case InspectOut(observations) => t.(s := s.(observations := observations, vlmCalls := s.vlmCalls + |observations|))
    case VerifyOut(ids) =>
      t.(s := s.(vlmCalls := s.vlmCalls + (if t.refs == [] then 0 else 1), evidenceIds := WithNew(s.evidenceIds, ids),
                 missing := Unsettled(s.missing, ids)))
    case ChallengeOut(plan, reports) =>
      var heard := HeardAll(s, reports);
      var grown := |s.evidenceIds| != s.lastEvidenceCount;
      t.(s := heard.(stagnant := (if grown then 0 else s.stagnant + 1), lastEvidenceCount := |s.evidenceIds|,
                     contradictory := if plan.contradictory then set q | q in s.requirements && q.required :: q.id
                                      else s.contradictory))
    case DecideOut(decision, reason) =>
      t.(s := s.(decision := Some(decision), stopReason := Some(reason),
                 contradictory := if reason == ContradictoryEvidence then DisputedIds(s) else s.contradictory))
  }

  ghost function Fold(requirements: seq<Requirement>, deadline: nat, steps: seq<StepRow>): Tally {
    if steps == [] then First(requirements, deadline)
    else Apply(Fold(requirements, deadline, steps[..|steps| - 1]), steps[|steps| - 1].output)
  }

  lemma FoldMore(requirements: seq<Requirement>, deadline: nat, steps: seq<StepRow>, step: StepRow)
    ensures Fold(requirements, deadline, steps + [step]) == Apply(Fold(requirements, deadline, steps), step.output)
  {
    assert (steps + [step])[..|steps|] == steps;
  }

  // ---- who agrees with it ----------------------------------------------------------------

  function Bare(s: State): State {
    s.(selected := [], next := None)
  }

  predicate Agrees(s: State, t: Tally) {
    Bare(s) == t.s && Refs(Found(s.selected)) == t.refs
  }

  // The requests of a node, made from the fold at its version.
  ghost predicate RequestOf(t: Tally, table: EvidenceTable, key: ModelKey) {
    && key.version == t.s.version
    && match key.node
       case Plan => key.prompt == PlanPrompt(t.s.iteration + 1, t.s.requirements, t.s.evidenceIds, t.s.missing)
       case Inspect => key.prompt.InspectPrompt? && Refs(key.prompt.items) == t.refs
       case Verify =>
         && key.prompt.VerifyPrompt? && Refs(key.prompt.items) == t.refs && key.prompt.observations == t.s.observations
         && t.s.pending.Some? && key.prompt.requirement in t.s.requirements
         && key.prompt.requirement.id == t.s.pending.value.requirementId
       case Challenge => key.prompt == EvidencePrompt(t.s.requirements, Words(table, t.s.evidenceIds))
       case Decide => key.prompt == EvidencePrompt(t.s.requirements, Words(table, t.s.evidenceIds))
       case Retrieve => false
  }

  function Words(table: EvidenceTable, ids: seq<EvidenceId>): map<EvidenceId, Brief> {
    map id | id in ids && id in table :: Brief(table[id].summary, table[id].confidence)
  }

  ghost predicate ToolsAgree(s: State, t: Tally, reports: seq<ToolSummary>, plan: Option<ChallengePlan>) {
    && Bare(s) == HeardAll(t.s, reports)
    && if plan.None? && reports != [] then Refs(Found(s.selected)) == reports[0].refs
       else Refs(Found(s.selected)) == t.refs
  }

  ghost predicate AskAgrees(s: State, key: ModelKey, t: Tally, table: EvidenceTable) {
    && (key.node == Plan ==> s.iteration >= 1)
    && (key.node == Inspect || key.node == Verify ==> s.selected != [])
    && Agrees(HeadOf(s, key.node), t) && RequestOf(t, table, key)
  }

  ghost predicate WorkerAgrees(requirements: seq<Requirement>, deadline: nat, db: Db, p: Worker) {
    p.s.version <= |db.steps|
    && var t := Fold(requirements, deadline, db.steps[..p.s.version]);
       match p
       case Looping(s) => Agrees(s, t)
       case Asking(s, key) => AskAgrees(s, key, t, db.evidence)
       case Awaiting(s, key, _) => AskAgrees(s, key, t, db.evidence)
       case Tooling(s, todo, reports, plan) =>
         ToolsAgree(s, t, reports, plan) && (plan.None? ==> |reports| + |todo| == 1)
       case Executing(s, todo, reports, plan, _, _) =>
         ToolsAgree(s, t, reports, plan) && (plan.None? ==> |reports| + |todo| == 1)
       case Committing(s, c) => Agrees(Advance(s, None), Apply(t, c.output))
       case Deciding(s, _, _) => Agrees(s, t)
       case _ => true
  }

  ghost predicate CallsAgree(requirements: seq<Requirement>, deadline: nat, db: Db, calls: CallTable) {
    forall key :: key in calls ==>
      key.version <= |db.steps| && RequestOf(Fold(requirements, deadline, db.steps[..key.version]), db.evidence, key)
  }

  ghost predicate DbAgrees(requirements: seq<Requirement>, deadline: nat, db: Db) {
    !AgentEndings.Closed(db) ==> Agrees(db.run.snapshot, Fold(requirements, deadline, db.steps))
  }

  // Every identity a prefix of the log tells of is stored.
  ghost predicate FoldHeld(requirements: seq<Requirement>, deadline: nat, db: Db) {
    forall v, id :: 0 <= v <= |db.steps| && id in Fold(requirements, deadline, db.steps[..v]).s.evidenceIds ==>
      id in db.evidence
  }

  ghost predicate AllAgree(requirements: seq<Requirement>, deadline: nat, w: World) {
    && DbAgrees(requirements, deadline, w.db)
    && CallsAgree(requirements, deadline, w.db, w.calls)
    && FoldHeld(requirements, deadline, w.db)
    && forall k :: k in w.workers ==> WorkerAgrees(requirements, deadline, w.db, w.workers[k])
  }

  // ---- one stretch of private work -------------------------------------------------------

  lemma BeginAgrees(cfg: Settings, late: bool, table: EvidenceTable, s: State, t: Tally)
    requires Agrees(s, t)
    ensures
      var p := Begin(cfg, late, table, s);
      && p.s.version == s.version
      && match p
         case Asking(s', key) => AskAgrees(s', key, t, table)
         case Tooling(s', todo, reports, plan) =>
           ToolsAgree(s', t, reports, plan) && (plan.None? ==> |reports| + |todo| == 1)
         case Committing(s', c) => Agrees(Advance(s', None), Apply(t, c.output))
         case Stopping(_, _) => true
         case Failing(_, _) => true
         case _ => false
  {
    hide BudgetStop;
    if s.next == Some(Plan) {
      assert HeadOf(s.(iteration := s.iteration + 1), Plan) == s;
    }
    if s.selected == [] {
      assert Refs(Found(s.selected)) == [];
    }
    if s.next == Some(Verify) && s.selected == [] {
      NothingSettled(s.missing);
    }
  }

  lemma {:induction false} NothingSettled(missing: seq<RequirementId>)
    ensures Unsettled(missing, []) == missing
  {
    if missing != [] {
      NothingSettled(missing[1..]);
    }
  }

  lemma {:induction false} AppendIsWithNew(held: seq<EvidenceId>, rows: seq<EvidenceRow>)
    ensures AppendIds(held, rows) == WithNew(held, Ids(rows))
    decreases rows
  {
    if rows != [] {
      assert Ids(rows)[1..] == Ids(rows[1..]);
      AppendIsWithNew(if rows[0].id in held then held else held + [rows[0].id], rows[1..]);
    }
  }

  lemma {:induction false} StillMissingIsUnsettled(missing: seq<RequirementId>, rows: seq<EvidenceRow>)
    ensures StillMissing(missing, rows) == Unsettled(missing, Ids(rows))
  {
    if missing != [] {
      StillMissingIsUnsettled(missing[1..], rows);
      var ids := Ids(rows);
      if Resolves(rows, missing[0]) {
        var row :| row in rows && row.id.requirementId == missing[0] && Decisive(row.id.stance);
        var k :| 0 <= k < |rows| && rows[k] == row;
        assert ids[k] in ids && ids[k] == row.id;
      }
      if SettledBy(ids, missing[0]) {
        var e :| e in ids && e.requirementId == missing[0] && (e.stance == Support || e.stance == Contradict);
        var k :| 0 <= k < |ids| && ids[k] == e;
        assert rows[k] in rows;
      }
    }
  }

  lemma ResumeAgrees(cfg: Settings, late: bool, table: EvidenceTable, s: State, node: Node, reply: Reply, t: Tally)
    requires node == Plan ==> s.iteration >= 1
    requires Agrees(HeadOf(s, node), t) && s.next == Some(node)
    requires node == Inspect || node == Verify ==> s.selected != []
    requires forall id :: id in s.evidenceIds ==> id in table
    ensures
      var p := Resume(cfg, late, table, s, node, reply);
      && p.s.version == s.version
      && match p
         case Tooling(s', todo, reports, plan) =>
           ToolsAgree(s', t, reports, plan) && (plan.None? ==> |reports| + |todo| == 1)
         case Committing(s', c) => Agrees(Advance(s', None), Apply(t, c.output))
         case Failing(_, _) => true
         case _ => false
  {
    hide ValidAction, CounterStop, Summary, Conflicts, WithNew, AppendIds, StillMissing, Unsettled, Enforce, Stands,
      Affordable, FindItem;
    match (node, reply.answer)
    case (Verify, VerifyAnswer(drafts)) =>
      if s.pending.Some? {
        var rows := ValidateEvidence(s.selected, s.pending.value.requirementId, drafts, reply.call);
        if rows.Some? {
          AppendIsWithNew(s.evidenceIds, rows.value);
          StillMissingIsUnsettled(s.missing, rows.value);
          assert Refs(Found(s.selected)) != [];
        }
      }
    case (Decide, DecideAnswer(proposed)) =>
      EnforcementIsExact(cfg, late, table, s, proposed);
      DisputedInIds(s);
    case _ =>
  }

  lemma DisputedInIds(s: State)
    ensures forall id :: id in DisputedIds(s) <==> Disputed(s, id)
    ensures DisputedIds(Bare(s)) == DisputedIds(s)
  {
    assert forall id :: Disputed(Bare(s), id) <==> Disputed(s, id);
  }

  lemma AfterToolAgrees(s: State, t: Tally, todo: seq<ToolCall>, reports: seq<ToolSummary>, plan: Option<ChallengePlan>,
                        result: ToolResult)
    requires ToolsAgree(s, t, reports, plan) && todo != [] && (plan.None? ==> reports == [])
    ensures
      var p := AfterTool(s, todo, reports, plan, result);
      p.Tooling? && p.s.version == s.version && p.plan == plan && ToolsAgree(p.s, t, p.done, plan)
      && |p.done| == |reports| + 1 && p.todo == todo[1..]
  {
    var p := AfterTool(s, todo, reports, plan, result);
    assert p.done[..|reports|] == reports;
    if plan.None? {
      assert Refs(Found(p.s.selected)) == Refs(result.output.items);
    }
  }

  lemma {:induction false} HeardKeeps(s: State, reports: seq<ToolSummary>)
    ensures HeardAll(s, reports) == s.(totalFailures := HeardAll(s, reports).totalFailures,
                                       consecutiveFailures := HeardAll(s, reports).consecutiveFailures)
  {
    if reports != [] {
      HeardKeeps(s, reports[..|reports| - 1]);
    }
  }

  // The version does not matter to what a report counts.
  lemma {:induction false} HeardLater(s: State, reports: seq<ToolSummary>, version: nat)
    ensures HeardAll(s.(version := version), reports) == HeardAll(s, reports).(version := version)
  {
    if reports != [] {
      HeardLater(s, reports[..|reports| - 1], version);
    }
  }

  lemma FinishAgrees(cfg: Settings, late: bool, s: State, t: Tally, reports: seq<ToolSummary>,
                     plan: Option<ChallengePlan>)
    requires ToolsAgree(s, t, reports, plan) && (plan.None? ==> |reports| == 1)
    ensures
      var p := FinishTools(cfg, late, s, reports, plan);
      p.Committing? && p.s.version == s.version && Agrees(Advance(p.s, None), Apply(t, p.commit.output))
  {
    hide BudgetStop;
    HeardKeeps(t.s, reports);
    HeardLater(t.s, reports, t.s.version + 1);
    match plan
    case None =>
      assert reports == [reports[0]];
      assert HeardAll(t.s, reports) == Heard(HeardAll(t.s, []), reports[0]) by { assert reports[..0] == []; }
    case Some(plan) =>
      hide HeardAll;
  }

  // ---- one move --------------------------------------------------------------------------

  // What later commits leave as it is.
  ghost predicate Appends(db: Db, db': Db) {
    && db.steps <= db'.steps
    && forall id :: id in db.evidence ==> id in db'.evidence && db'.evidence[id] == db.evidence[id]
  }

  lemma RequestStays(t: Tally, table: EvidenceTable, table': EvidenceTable, key: ModelKey)
    requires RequestOf(t, table, key) && forall id :: id in t.s.evidenceIds ==> id in table
    requires forall id :: id in table ==> id in table' && table'[id] == table[id]
    ensures RequestOf(t, table', key)
  {
    assert Words(table', t.s.evidenceIds) == Words(table, t.s.evidenceIds);
  }

  lemma OthersAgree(requirements: seq<Requirement>, deadline: nat, db: Db, db': Db, p: Worker)
    requires WorkerAgrees(requirements, deadline, db, p) && FoldHeld(requirements, deadline, db) && Appends(db, db')
    ensures WorkerAgrees(requirements, deadline, db', p)
  {
    hide Fold, RequestOf, Agrees, ToolsAgree, Apply;
    assert db'.steps[..p.s.version] == db.steps[..p.s.version];
    var t := Fold(requirements, deadline, db.steps[..p.s.version]);
    if p.Asking? || p.Awaiting? {
      RequestStays(t, db.evidence, db'.evidence, p.key);
    }
  }

  lemma CallsStay(requirements: seq<Requirement>, deadline: nat, db: Db, db': Db, calls: CallTable)
    requires CallsAgree(requirements, deadline, db, calls) && FoldHeld(requirements, deadline, db) && Appends(db, db')
    ensures CallsAgree(requirements, deadline, db', calls)
  {
    hide Fold, RequestOf;
    forall key | key in calls
      ensures key.version <= |db'.steps|
              && RequestOf(Fold(requirements, deadline, db'.steps[..key.version]), db'.evidence, key)
    {
      assert db'.steps[..key.version] == db.steps[..key.version];
      RequestStays(Fold(requirements, deadline, db.steps[..key.version]), db.evidence, db'.evidence, key);
    }
  }

  // What a move gives, before the other workers are looked at.
  ghost predicate MoveAgrees(requirements: seq<Requirement>, deadline: nat, db: Db, m: Moved) {
    && Appends(db, m.db)
    && DbAgrees(requirements, deadline, m.db)
    && CallsAgree(requirements, deadline, m.db, m.calls)
    && FoldHeld(requirements, deadline, m.db)
    && (m.worker.Some? ==> WorkerAgrees(requirements, deadline, m.db, m.worker.value))
  }

  // What the invariant of the machine says here of a worker.
  ghost predicate Fitting(db: Db, p: Worker) {
    && db.run.version == |db.steps|
    && match p
       case Asking(s, key) => s.next == Some(key.node) && Held(db, s)
       case Awaiting(s, key, _) => s.next == Some(key.node) && Held(db, s)
       case Committing(s, c) => forall id :: id in s.evidenceIds ==> id in StoreEvidence(db.evidence, c.evidence)
       case Executing(_, todo, _, _, _, _) => todo != []
       case _ => true
  }

  ghost predicate Held(db: Db, s: State) {
    forall id :: id in s.evidenceIds ==> id in db.evidence
  }

  lemma InvIsFitting(cfg: Settings, requirements: seq<Requirement>, w: World, k: nat)
    requires Inv(cfg, requirements, w) && k in w.workers
    ensures Fitting(w.db, w.workers[k])
  {
    hide Bounded, AllSourced, Counted, Wired, Grounded, CounterStop, DecisionOk, Follows, Timed, Accounted;
    assert WorkerOk(cfg, requirements, w.db, w.tools, w.workers[k]);
  }

  lemma LoopMoves(cfg: Settings, requirements: seq<Requirement>, deadline: nat, w: World, p: Worker, arrival: Arrival)
    requires p.Looping? && AllAgree(requirements, deadline, w) && WorkerAgrees(requirements, deadline, w.db, p)
    ensures MoveAgrees(requirements, deadline, w.db, Move(cfg, w, p, arrival))
  {
    hide Begin, Fold, CallsAgree, FoldHeld, DbAgrees, Agrees, ToolsAgree, AskAgrees, Apply;
    BeginAgrees(cfg, Late(p.s, w.now), w.db.evidence, p.s, Fold(requirements, deadline, w.db.steps[..p.s.version]));
  }

  // What the answered worker becomes.
  lemma AnsweredAgrees(cfg: Settings, requirements: seq<Requirement>, deadline: nat, w: World, p: Worker, reply: Reply)
    requires (p.Asking? || p.Awaiting?) && WorkerAgrees(requirements, deadline, w.db, p) && Fitting(w.db, p)
    ensures
      var q := Resume(cfg, Late(p.s, w.now), w.db.evidence, p.s, p.key.node, reply);
      WorkerAgrees(requirements, deadline, w.db, q)
  {
    hide Resume, Fold, Apply, RequestOf, Agrees, ToolsAgree;
    ResumeAgrees(cfg, Late(p.s, w.now), w.db.evidence, p.s, p.key.node, reply,
                 Fold(requirements, deadline, w.db.steps[..p.s.version]));
  }

  lemma AskMoves(cfg: Settings, requirements: seq<Requirement>, deadline: nat, w: World, p: Worker, arrival: Arrival)
    requires p.Asking? && AllAgree(requirements, deadline, w)
    requires WorkerAgrees(requirements, deadline, w.db, p) && Fitting(w.db, p)
    ensures MoveAgrees(requirements, deadline, w.db, Move(cfg, w, p, arrival))
  {
    hide Resume, Fold, FoldHeld, DbAgrees, RequestOf, CallsAgree, Agrees, Fitting;
    var t := Fold(requirements, deadline, w.db.steps[..p.s.version]);
    RequestVersion(t, w.db.evidence, p.key);
    AgreedVersion(HeadOf(p.s, p.key.node), t);
    if p.key in w.calls && w.calls[p.key].CallDone? {
      AnsweredAgrees(cfg, requirements, deadline, w, p, Reply(w.calls[p.key].call, w.calls[p.key].answer));
    } else {
      var m := Move(cfg, w, p, arrival);
      if m.calls != w.calls {
        OneMoreCall(requirements, deadline, w.db, w.calls, p.key, m.calls[p.key]);
      }
    }
  }

  lemma AwaitMoves(cfg: Settings, requirements: seq<Requirement>, deadline: nat, w: World, p: Worker, arrival: Arrival)
    requires p.Awaiting? && AllAgree(requirements, deadline, w)
    requires WorkerAgrees(requirements, deadline, w.db, p) && Fitting(w.db, p)
    ensures MoveAgrees(requirements, deadline, w.db, Move(cfg, w, p, arrival))
  {
    hide Resume, Fold, FoldHeld, DbAgrees, RequestOf, CallsAgree, Agrees, Fitting;
    var t := Fold(requirements, deadline, w.db.steps[..p.s.version]);
    RequestVersion(t, w.db.evidence, p.key);
    AgreedVersion(HeadOf(p.s, p.key.node), t);
    var m := Move(cfg, w, p, arrival);
    if arrival.ModelAnswers? && Fits(p.key.node, arrival.answer) {
      AnsweredAgrees(cfg, requirements, deadline, w, p, Reply(p.call, arrival.answer));
      OneMoreCall(requirements, deadline, w.db, w.calls, p.key, m.calls[p.key]);
    } else if arrival.ModelFails? {
      OneMoreCall(requirements, deadline, w.db, w.calls, p.key, m.calls[p.key]);
    }
  }

  lemma AgreedVersion(s: State, t: Tally)
    requires Agrees(s, t)
    ensures t.s.version == s.version
  {
  }

  lemma OneMoreCall(requirements: seq<Requirement>, deadline: nat, db: Db, calls: CallTable, key: ModelKey,
                    row: CallRow)
    requires CallsAgree(requirements, deadline, db, calls) && key.version <= |db.steps|
    requires RequestOf(Fold(requirements, deadline, db.steps[..key.version]), db.evidence, key)
    ensures CallsAgree(requirements, deadline, db, calls[key := row])
  {
    hide RequestOf, Fold;
  }

  lemma RequestVersion(t: Tally, table: EvidenceTable, key: ModelKey)
    requires RequestOf(t, table, key)
    ensures key.version == t.s.version
  {
  }

  lemma ToolMoves(cfg: Settings, requirements: seq<Requirement>, deadline: nat, w: World, p: Worker, arrival: Arrival)
    requires (p.Tooling? || p.Executing?) && AllAgree(requirements, deadline, w)
    requires WorkerAgrees(requirements, deadline, w.db, p) && Fitting(w.db, p)
    ensures MoveAgrees(requirements, deadline, w.db, Move(cfg, w, p, arrival))
  {
    hide Fold, CallsAgree, FoldHeld, DbAgrees, ToolsAgree, Apply, Agrees, AfterTool, FinishTools, StartTool,
      RefusedCall, Recorded, KeyOf, Late;
    var t := Fold(requirements, deadline, w.db.steps[..p.s.version]);
    if p.Tooling? && p.todo == [] {
      FinishAgrees(cfg, Late(p.s, w.now), p.s, t, p.done, p.plan);
    } else if p.Tooling? {
      match StartTool(cfg, p.s, w.tools, p.todo[0].action)
      case Refuse => AfterToolAgrees(p.s, t, p.todo, p.done, p.plan, Refusal);
      case Reuse(result) => AfterToolAgrees(p.s, t, p.todo, p.done, p.plan, result);
      case Launch(_) =>
    } else if arrival.ToolAnswers? {
      AfterToolAgrees(p.s, t, p.todo, p.done, p.plan, Recorded(ToolDone(p.run, arrival.output)));
    }
  }

  lemma CommitMoves(cfg: Settings, requirements: seq<Requirement>, deadline: nat, w: World, p: Worker, arrival: Arrival)
    requires p.Committing? && AllAgree(requirements, deadline, w)
    requires WorkerAgrees(requirements, deadline, w.db, p) && Fitting(w.db, p)
    ensures MoveAgrees(requirements, deadline, w.db, Move(cfg, w, p, arrival))
  {
    hide Fold, CallsAgree, FoldHeld, Apply, StoreEvidence, Agrees, DbAgrees;
    var Committing(s, c) := p;
    if Checkpoint(cfg, w.now, w.db, s, c).Saved? {
      CommitAgrees(cfg, requirements, deadline, w, s, c);
      var saved := Checkpoint(cfg, w.now, w.db, s, c);
      assert saved.db.steps[..|saved.db.steps|] == saved.db.steps;
    }
  }

  lemma CommitAgrees(cfg: Settings, requirements: seq<Requirement>, deadline: nat, w: World, s: State, c: Commit)
    requires AllAgree(requirements, deadline, w) && WorkerAgrees(requirements, deadline, w.db, Committing(s, c))
    requires Fitting(w.db, Committing(s, c)) && Checkpoint(cfg, w.now, w.db, s, c).Saved?
    ensures
      var saved := Checkpoint(cfg, w.now, w.db, s, c);
      && Appends(w.db, saved.db) && DbAgrees(requirements, deadline, saved.db)
      && CallsAgree(requirements, deadline, saved.db, w.calls) && FoldHeld(requirements, deadline, saved.db)
      && saved.s.version == |saved.db.steps|
      && Agrees(saved.s, Fold(requirements, deadline, saved.db.steps))
  {
    hide Fold, Apply, StoreEvidence, CallsAgree;
    var saved := Checkpoint(cfg, w.now, w.db, s, c);
    var db' := saved.db;
    var row := StepRow(c.node, s.iteration, saved.s.version, c.output);
    FoldMore(requirements, deadline, w.db.steps, row);
    assert w.db.steps[..s.version] == w.db.steps && db'.steps[..|db'.steps|] == db'.steps;
    assert Appends(w.db, db') by { StoredStay(w.db.evidence, c.evidence); }
    CallsStay(requirements, deadline, w.db, db', w.calls);
    forall v, id | 0 <= v <= |db'.steps| && id in Fold(requirements, deadline, db'.steps[..v]).s.evidenceIds
      ensures id in db'.evidence
    {
      if v < |db'.steps| {
        assert db'.steps[..v] == w.db.steps[..v];
      }
    }
  }

  lemma StoredStay(table: EvidenceTable, rows: seq<EvidenceRow>)
    ensures forall id :: id in table ==> id in StoreEvidence(table, rows) && StoreEvidence(table, rows)[id] == table[id]
  {
  }

  lemma EndMoves(cfg: Settings, requirements: seq<Requirement>, deadline: nat, w: World, p: Worker, arrival: Arrival)
    requires (p.Deciding? || p.Stopping? || p.Failing? || p.Deferring?) && AllAgree(requirements, deadline, w)
    requires AgentEndings.Lifecycle(w.db)
    ensures MoveAgrees(requirements, deadline, w.db, Move(cfg, w, p, arrival))
  {
    AgentEndings.MoveLivesOn(cfg, w, p, arrival);
    hide Fold, CallsAgree, FoldHeld, Agrees, AgentEndings.Lifecycle;
    EndKeepsTables(cfg, w, p, arrival);
    var m := Move(cfg, w, p, arrival);
    CallsFrame(requirements, deadline, w.db, m.db, w.calls);
  }

  // An ending writes statuses, and the snapshot only when it closes the run.
  lemma EndKeepsTables(cfg: Settings, w: World, p: Worker, arrival: Arrival)
    requires p.Deciding? || p.Stopping? || p.Failing? || p.Deferring?
    ensures
      var m := Move(cfg, w, p, arrival);
      && m.db.steps == w.db.steps && m.db.evidence == w.db.evidence && m.calls == w.calls && m.worker.None?
      && (AgentEndings.Closed(m.db) || m.db.run.snapshot == w.db.run.snapshot)
  {
  }

  lemma CallsFrame(requirements: seq<Requirement>, deadline: nat, db: Db, db': Db, calls: CallTable)
    requires CallsAgree(requirements, deadline, db, calls) && FoldHeld(requirements, deadline, db)
    requires db'.steps == db.steps && db'.evidence == db.evidence
    ensures CallsAgree(requirements, deadline, db', calls) && FoldHeld(requirements, deadline, db')
  {
  }

  lemma AMoveAgrees(cfg: Settings, requirements: seq<Requirement>, deadline: nat, w: World, p: Worker, arrival: Arrival)
    requires AllAgree(requirements, deadline, w) && WorkerAgrees(requirements, deadline, w.db, p) && Fitting(w.db, p)
    requires AgentEndings.Lifecycle(w.db)
    ensures MoveAgrees(requirements, deadline, w.db, Move(cfg, w, p, arrival))
  {
    hide AllAgree, WorkerAgrees, Fitting, MoveAgrees, Move, AgentEndings.Lifecycle;
    match p
    case Looping(_) => LoopMoves(cfg, requirements, deadline, w, p, arrival);
    case Asking(_, _) => AskMoves(cfg, requirements, deadline, w, p, arrival);
    case Awaiting(_, _, _) => AwaitMoves(cfg, requirements, deadline, w, p, arrival);
    case Tooling(_, _, _, _) => ToolMoves(cfg, requirements, deadline, w, p, arrival);
    case Executing(_, _, _, _, _, _) => ToolMoves(cfg, requirements, deadline, w, p, arrival);
    case Committing(_, _) => CommitMoves(cfg, requirements, deadline, w, p, arrival);
    case _ => EndMoves(cfg, requirements, deadline, w, p, arrival);
  }

  // ---- every run -------------------------------------------------------------------------

  lemma StepAgrees(cfg: Settings, requirements: seq<Requirement>, deadline: nat, w: World, e: Event)
    requires Inv(cfg, requirements, w) && AgentEndings.Lifecycle(w.db) && AllAgree(requirements, deadline, w)
    ensures AllAgree(requirements, deadline, Step(cfg, w, e))
  {
    match e
    case WorkOn(k, arrival) =>
      hide Inv, AgentEndings.Lifecycle, Move, WorkerAgrees, DbAgrees, CallsAgree, FoldHeld, Fitting, Appends;
      if k in w.workers {
        var m := Move(cfg, w, w.workers[k], arrival);
        InvIsFitting(cfg, requirements, w, k);
        AMoveAgrees(cfg, requirements, deadline, w, w.workers[k], arrival);
        forall j | j in w.workers
          ensures WorkerAgrees(requirements, deadline, m.db, w.workers[j])
        {
          OthersAgree(requirements, deadline, w.db, m.db, w.workers[j]);
        }
      }
    case ClaimBy(k) =>
      hide Inv;
      ClaimAgrees(cfg, requirements, deadline, w, k) by { SnapshotVersion(cfg, requirements, w); }
    case _ =>
      hide *;
      QuietAgrees(cfg, requirements, deadline, w, e);
  }

  lemma SnapshotVersion(cfg: Settings, requirements: seq<Requirement>, w: World)
    requires Inv(cfg, requirements, w)
    ensures w.db.run.snapshot.version == |w.db.steps|
  {
  }

  lemma QuietAgrees(cfg: Settings, requirements: seq<Requirement>, deadline: nat, w: World, e: Event)
    requires (e.Tick? || e.CrashOf?) && AllAgree(requirements, deadline, w)
    ensures AllAgree(requirements, deadline, Step(cfg, w, e))
  {
    hide WorkerAgrees, DbAgrees, CallsAgree, FoldHeld;
  }

  lemma ClaimAgrees(cfg: Settings, requirements: seq<Requirement>, deadline: nat, w: World, k: nat)
    requires AllAgree(requirements, deadline, w) && w.db.run.snapshot.version == |w.db.steps|
    ensures AllAgree(requirements, deadline, Step(cfg, w, ClaimBy(k)))
  {
    hide Fold, Agrees, AskAgrees, ToolsAgree, Apply;
    var u := Step(cfg, w, ClaimBy(k));
    CallsFrame(requirements, deadline, w.db, u.db, w.calls);
    assert w.db.steps[..|w.db.steps|] == w.db.steps;
    forall j | j in u.workers
      ensures WorkerAgrees(requirements, deadline, u.db, u.workers[j])
    {
      if j in w.workers {
        assert u.workers[j] == w.workers[j];
      } else {
        assert u.workers[j] == Looping(w.db.run.snapshot);
      }
    }
    hide CallsAgree, FoldHeld;
  }

  lemma StartAgrees(requirements: seq<Requirement>, scope: set<RequirementId>, deadline: nat, attempts: nat)
    ensures AllAgree(requirements, deadline, Start(requirements, scope, deadline, attempts))
  {
    var db := Start(requirements, scope, deadline, attempts).db;
    assert db.steps == [] && db.steps[..0] == [];
    assert Refs(Found([])) == [];
  }

  lemma {:induction false} ReachedAgrees(cfg: Settings, requirements: seq<Requirement>, scope: set<RequirementId>,
                                         deadline: nat, attempts: nat, events: seq<Event>)
    ensures AllAgree(requirements, deadline, Reached(cfg, requirements, scope, deadline, attempts, events))
    decreases |events|
  {
    hide Inv, Step, AllAgree, AgentEndings.Lifecycle, Start;
    if events == [] {
      StartAgrees(requirements, scope, deadline, attempts);
    } else {
      var before := events[..|events| - 1];
      ReachedAgrees(cfg, requirements, scope, deadline, attempts, before);
      ReachedOk(cfg, requirements, scope, deadline, attempts, before);
      AgentEndings.ReachedLivesOn(cfg, requirements, scope, deadline, attempts, before);
      StepAgrees(cfg, requirements, deadline, Reached(cfg, requirements, scope, deadline, attempts, before),
                 events[|events| - 1]);
    }
  }

  // ---- results ---------------------------------------------------------------------------

  // Until the run is closed the stored snapshot is the fold of the log: every counter, the evidence list,
  // what is missing or contradictory, the pending action and the observations; and the items selected are
  // those the last RETRIEVE step names.
  lemma SnapshotIsTheFold(cfg: Settings, requirements: seq<Requirement>, scope: set<RequirementId>, deadline: nat,
                          attempts: nat, events: seq<Event>)
    ensures
      var db := Reached(cfg, requirements, scope, deadline, attempts, events).db;
      var t := Fold(requirements, deadline, db.steps);
      var s := db.run.snapshot;
      !AgentEndings.Closed(db) ==>
        && s.(selected := [], next := None) == t.s
        && |s.selected| == |t.refs|
        && forall k :: 0 <= k < |t.refs| ==> s.selected[k].found.sourceRef == t.refs[k]
  {
    ReachedAgrees(cfg, requirements, scope, deadline, attempts, events);
    var db := Reached(cfg, requirements, scope, deadline, attempts, events).db;
    hide Reached, Fold;
    if !AgentEndings.Closed(db) {
      var refs := Refs(Found(db.run.snapshot.selected));
      assert |refs| == |db.run.snapshot.selected|;
    }
  }

  // Every model request was made from the fold of the log at its version: the log alone says what each node
  // was asked, so a worker that takes over asks what the one before it asked.
  lemma RequestsAreOfTheFold(cfg: Settings, requirements: seq<Requirement>, scope: set<RequirementId>,
                             deadline: nat, attempts: nat, events: seq<Event>, key: ModelKey)
    requires key in Reached(cfg, requirements, scope, deadline, attempts, events).calls
    ensures
      var db := Reached(cfg, requirements, scope, deadline, attempts, events).db;
      && key.version <= |db.steps|
      && RequestOf(Fold(requirements, deadline, db.steps[..key.version]), db.evidence, key)
  {
    ReachedAgrees(cfg, requirements, scope, deadline, attempts, events);
    hide Reached, Fold, RequestOf;
  }
}
