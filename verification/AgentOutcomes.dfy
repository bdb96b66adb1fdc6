/** What runs accept and how they end: proposed actions and recorded tool requests are valid, a run in review
    names a reason that holds, leases last from the last claim or step, and every claim counts as an attempt. */
module AgentOutcomes {
  import opened Common
  import opened AgentTypes
  import opened AgentGraph
  import opened AgentCalls
  import opened AgentStore
  import opened AgentMachine
  import opened AgentSafety
  import opened AgentGuarantees

  // ---- what is accepted ------------------------------------------------------------------

  ghost predicate Ranged(action: Action) {
    action.tool in {InspectClip, ExpandTemporalContext, GetNeighborSegments} ==> action.range != None
  }

  // The model may plan a tool its requirement lists, with the arguments the tool needs.
  ghost predicate MayPlan(cfg: Settings, requirements: seq<Requirement>, action: Action) {
    && (exists q :: q in requirements && q.id == action.requirementId && action.tool in q.tools)
    && action.tool in cfg.registry
    && (action.tool in {SearchTranscript, SearchOcr, SearchVisualCaption} ==> !cfg.blank(action.query))
    && Ranged(action)
  }

  // The model may only look for counter-evidence when it challenges.
  ghost predicate MayChallenge(requirements: seq<Requirement>, action: Action) {
    action.tool == FindCounterEvidence && exists q :: q in requirements && q.id == action.requirementId
  }

  // A request of that key is one the executor carries out.
  ghost predicate Proper(cfg: Settings, requirements: seq<Requirement>, key: ToolKey) {
    exists action: Action ::
      && key == ToolKey(action.requirementId, action.tool, cfg.normalize(action.query), action.range, action.limit)
      && action.tool in cfg.registry
      && (exists q :: q in requirements && q.id == action.requirementId)
      && (action.tool in {SearchTranscript, SearchOcr, SearchVisualCaption, FindCounterEvidence} ==>
            !cfg.blank(action.query))
      && Ranged(action)
  }

  // ---- why a run stops -------------------------------------------------------------------

  // `failed` tells at which versions a model call has failed.
  ghost predicate StopsFor(cfg: Settings, now: nat, failed: nat -> bool, s: State, reason: StopReason) {
    match reason
    case BudgetTime => s.deadline <= now
    case BudgetIteration => s.iteration >= cfg.maxIterations && s.version == 5 * s.iteration
    case BudgetVlm => s.vlmCalls >= cfg.maxVlmCalls
    case ToolFailureLimit => s.consecutiveFailures >= cfg.maxToolFailures
    case StagnationLimit => s.stagnant >= cfg.maxStagnant
    case AgentModelFailed => failed(s.version)
    case _ => false
  }

  // The decision of DECIDE is what its proposal comes to.
  ghost predicate DecidesFor(cfg: Settings, now: nat, s: State, reason: StopReason) {
    exists late, proposed ::
      (late ==> s.deadline <= now) && Stands(cfg, late, s.(next := Some(Decide)), proposed, reason)
  }

  // ---- the invariant ---------------------------------------------------------------------

  ghost predicate Sound(cfg: Settings, requirements: seq<Requirement>, step: Output) {
    match step
    case PlanOut(action) => MayPlan(cfg, requirements, action)
    case ChallengeOut(plan, _) => forall k :: 0 <= k < |plan.actions| ==> MayChallenge(requirements, plan.actions[k])
    case _ => true
  }

  // The proposed actions come first; those that were carried out were allowed.
  ghost predicate TurnsSound(requirements: seq<Requirement>, todo: seq<ToolCall>, reports: seq<ToolSummary>,
                             plan: ChallengePlan) {
    && |plan.actions| <= |reports| + |todo|
    && forall k :: 0 <= k < |plan.actions| ==>
         if k < |reports| then MayChallenge(requirements, plan.actions[k])
         else todo[k - |reports|] == ToolCall(plan.actions[k], true)
  }

  ghost predicate WorkerSound(cfg: Settings, requirements: seq<Requirement>, now: nat, failed: nat -> bool, p: Worker) {
    match p
    case Asking(s, key) => key.version == s.version
    case Awaiting(s, key, _) => key.version == s.version
    case Tooling(s, todo, reports, plan) => plan.Some? ==> TurnsSound(requirements, todo, reports, plan.value)
    case Executing(s, todo, reports, plan, key, _) =>
      (plan.Some? ==> TurnsSound(requirements, todo, reports, plan.value) && todo != []
                      && (todo[0].proposed ==> MayChallenge(requirements, todo[0].action)))
    case Committing(s, c) =>
      && Sound(cfg, requirements, c.output)
      && (c.output.DecideOut? ==> DecidesFor(cfg, now, s, c.output.reason))
    case Deciding(s, decision, reason) => DecidesFor(cfg, now, s, reason)
    case Stopping(s, reason) => StopsFor(cfg, now, failed, s, reason)
    case _ => true
  }

  // A run in review shows a review, and its reason holds of the state it stopped in.
  ghost predicate ReviewSound(cfg: Settings, now: nat, failed: nat -> bool, db: Db) {
    db.run.status == RunNeedsReview ==>
      && db.run.result.Some? && db.run.result.value.verdict == NeedsHumanReview && db.run.stopReason.Some?
      && db.caseStatus == CaseNeedsReview && db.job.status == JobSucceeded
      && var s, result, reason := db.run.snapshot, db.run.result.value, db.run.stopReason.value;
      && ((DecidesFor(cfg, now, s, reason) && db.steps != []
           && db.steps[|db.steps| - 1].output == DecideOut(result, reason))
          || (StopsFor(cfg, now, failed, s, reason)
              && result == Decision(NeedsHumanReview, Runtime(reason), s.evidenceIds)))
  }

  ghost predicate DbSound(cfg: Settings, requirements: seq<Requirement>, now: nat, failed: nat -> bool, db: Db) {
    && (forall i :: 0 <= i < |db.steps| ==> Sound(cfg, requirements, db.steps[i].output))
    && ReviewSound(cfg, now, failed, db)
  }

  ghost predicate FailuresIn(failed: nat -> bool, calls: CallTable) {
    forall key :: key in calls && calls[key].CallFailed? ==> failed(key.version)
  }

  ghost predicate AllProper(cfg: Settings, requirements: seq<Requirement>, tools: ToolTable) {
    forall key :: key in tools ==> Proper(cfg, requirements, key)
  }

  ghost predicate AllSound(cfg: Settings, requirements: seq<Requirement>, failed: nat -> bool, w: World) {
    && DbSound(cfg, requirements, w.now, failed, w.db)
    && AllProper(cfg, requirements, w.tools)
    && forall k :: k in w.workers ==> WorkerSound(cfg, requirements, w.now, failed, w.workers[k])
  }

  // ---- later, and with more failures -----------------------------------------------------

  lemma LaterDecides(cfg: Settings, now: nat, now': nat, s: State, reason: StopReason)
    requires now <= now' && DecidesFor(cfg, now, s, reason)
    ensures DecidesFor(cfg, now', s, reason)
  {
    var late, proposed :| (late ==> s.deadline <= now)
                          && Stands(cfg, late, s.(next := Some(Decide)), proposed, reason);
    assert late ==> s.deadline <= now';
  }

  lemma LaterWorker(cfg: Settings, requirements: seq<Requirement>, now: nat, now': nat, failed: nat -> bool,
                    failed': nat -> bool, p: Worker)
    requires now <= now' && (forall v :: failed(v) ==> failed'(v))
    requires WorkerSound(cfg, requirements, now, failed, p)
    ensures WorkerSound(cfg, requirements, now', failed', p)
  {
    hide Sound, DecidesFor;
    match p
    case Committing(s, c) =>
      if c.output.DecideOut? {
        LaterDecides(cfg, now, now', s, c.output.reason);
      }
    case Deciding(s, _, reason) => LaterDecides(cfg, now, now', s, reason);
    case _ =>
  }

  lemma LaterDb(cfg: Settings, requirements: seq<Requirement>, now: nat, now': nat, failed: nat -> bool,
                failed': nat -> bool, db: Db)
    requires now <= now' && (forall v :: failed(v) ==> failed'(v))
    requires DbSound(cfg, requirements, now, failed, db)
    ensures DbSound(cfg, requirements, now', failed', db)
  {
    hide Sound, DecidesFor;
    if db.run.status == RunNeedsReview && DecidesFor(cfg, now, db.run.snapshot, db.run.stopReason.value) {
      LaterDecides(cfg, now, now', db.run.snapshot, db.run.stopReason.value);
    }
  }

  // ---- node by node ----------------------------------------------------------------------

  lemma BeginSound(cfg: Settings, requirements: seq<Requirement>, now: nat, failed: nat -> bool, table: EvidenceTable,
                   s: State)
    requires s.next.Some? ==> Counted(s)
    ensures WorkerSound(cfg, requirements, now, failed, Begin(cfg, Late(s, now), table, s))
  {
  }

  lemma DecideSound(cfg: Settings, now: nat, table: EvidenceTable, s: State, proposed: Decision)
    requires s.next == Some(Decide) && forall id :: id in s.evidenceIds ==> id in table
    ensures
      var e := Enforce(cfg, Late(s, now), table, s, proposed);
      e.Some? ==> forall s' :: s' == s.(decision := Some(e.value.decision), stopReason := Some(e.value.reason),
                                        contradictory := e.value.contradictory) ==>
                    DecidesFor(cfg, now, s', e.value.reason)
  {
    EnforcementIsExact(cfg, Late(s, now), table, s, proposed);
    hide Enforce;
    var e := Enforce(cfg, Late(s, now), table, s, proposed);
    if e.Some? {
      var s' := s.(decision := Some(e.value.decision), stopReason := Some(e.value.reason),
                   contradictory := e.value.contradictory);
      StandsAlike(cfg, Late(s, now), s, s'.(next := Some(Decide)), proposed, e.value.reason);
    }
  }

  lemma StandsAlike(cfg: Settings, late: bool, s: State, s': State, proposed: Decision, reason: StopReason)
    requires Stands(cfg, late, s, proposed, reason)
    requires s' == s.(decision := s'.decision, stopReason := s'.stopReason, contradictory := s'.contradictory)
    ensures Stands(cfg, late, s', proposed, reason)
  {
    assert forall id :: Disputed(s', id) <==> Disputed(s, id);
  }

  lemma ResumeSound(cfg: Settings, requirements: seq<Requirement>, now: nat, failed: nat -> bool, table: EvidenceTable,
                    s: State, node: Node, reply: Reply)
    requires s.next == Some(node) && s.requirements == requirements
    requires forall id :: id in s.evidenceIds ==> id in table
    ensures WorkerSound(cfg, requirements, now, failed, Resume(cfg, Late(s, now), table, s, node, reply))
  {
    hide Enforce, DecidesFor, AppendIds, StillMissing, ValidateEvidence, FindItem;
    match (node, reply.answer)
    case (Decide, DecideAnswer(proposed)) => DecideSound(cfg, now, table, s, proposed);
    case _ =>
  }

  lemma StartSound(cfg: Settings, requirements: seq<Requirement>, s: State, tools: ToolTable, action: Action)
    requires s.requirements == requirements
    ensures StartTool(cfg, s, tools, action).Launch? ==>
              Proper(cfg, requirements, StartTool(cfg, s, tools, action).key)
  {
  }

  lemma AfterToolSound(cfg: Settings, requirements: seq<Requirement>, now: nat, failed: nat -> bool, s: State,
                       todo: seq<ToolCall>, reports: seq<ToolSummary>, plan: Option<ChallengePlan>, result: ToolResult)
    requires todo != [] && (plan.Some? ==> TurnsSound(requirements, todo, reports, plan.value))
    requires plan.Some? && todo[0].proposed ==> MayChallenge(requirements, todo[0].action)
    ensures WorkerSound(cfg, requirements, now, failed, AfterTool(s, todo, reports, plan, result))
  {
    hide MayChallenge;
  }

  lemma FinishSound(cfg: Settings, requirements: seq<Requirement>, now: nat, failed: nat -> bool, s: State,
                    reports: seq<ToolSummary>, plan: Option<ChallengePlan>, late: bool)
    requires plan.Some? ==> TurnsSound(requirements, [], reports, plan.value)
    ensures WorkerSound(cfg, requirements, now, failed, FinishTools(cfg, late, s, reports, plan))
  {
    hide MayChallenge;
  }

  // ---- one move --------------------------------------------------------------------------

  // What the invariant of the machine says of a worker, as far as it is needed here.
  ghost predicate Poised(requirements: seq<Requirement>, db: Db, tools: ToolTable, p: Worker) {
    && db.run.version == |db.steps|
    && match p
       case Looping(s) => s.next.Some? ==> Counted(s)
       case Asking(s, key) => Ready(requirements, db, s, key.node)
       case Awaiting(s, key, _) => Ready(requirements, db, s, key.node)
       case Tooling(s, _, _, _) => s.requirements == requirements
       case Executing(s, _, _, _, key, _) => s.requirements == requirements && key in tools
       case Committing(s, c) => s.next == Some(c.node) && (c.node == Decide <==> c.output.DecideOut?)
       case Deciding(s, decision, reason) =>
         && 1 <= s.version <= |db.steps| && db.steps[s.version - 1].output == DecideOut(decision, reason)
         && s.next == None
       case _ => true
  }

  ghost predicate Ready(requirements: seq<Requirement>, db: Db, s: State, node: Node) {
    && s.next == Some(node) && s.requirements == requirements
    && forall id :: id in s.evidenceIds ==> id in db.evidence
  }

  lemma InvIsPoised(cfg: Settings, requirements: seq<Requirement>, w: World, k: nat)
    requires Inv(cfg, requirements, w) && k in w.workers
    ensures Poised(requirements, w.db, w.tools, w.workers[k])
  {
    hide Bounded, AllSourced, Counted, Wired, Grounded, CounterStop, DecisionOk;
    assert WorkerOk(cfg, requirements, w.db, w.tools, w.workers[k]);
  }

  ghost predicate MoveSound(cfg: Settings, requirements: seq<Requirement>, now: nat, failed: nat -> bool, m: Moved) {
    && DbSound(cfg, requirements, now, failed, m.db)
    && AllProper(cfg, requirements, m.tools)
    && (m.worker.Some? ==> WorkerSound(cfg, requirements, now, failed, m.worker.value))
  }

  lemma AskMoveSound(cfg: Settings, requirements: seq<Requirement>, failed: nat -> bool, w: World, p: Worker,
                     arrival: Arrival)
    requires p.Asking? || p.Awaiting?
    requires Poised(requirements, w.db, w.tools, p) && WorkerSound(cfg, requirements, w.now, failed, p)
    requires FailuresIn(failed, Move(cfg, w, p, arrival).calls)
    requires DbSound(cfg, requirements, w.now, failed, w.db) && AllProper(cfg, requirements, w.tools)
    ensures MoveSound(cfg, requirements, w.now, failed, Move(cfg, w, p, arrival))
  {
    hide Resume, DbSound, AllProper, Attempt;
    var late := Late(p.s, w.now);
    if p.Asking? && p.key in w.calls && w.calls[p.key].CallDone? {
      ResumeSound(cfg, requirements, w.now, failed, w.db.evidence, p.s, p.key.node,
                  Reply(w.calls[p.key].call, w.calls[p.key].answer));
    } else if p.Awaiting? && arrival.ModelAnswers? {
      ResumeSound(cfg, requirements, w.now, failed, w.db.evidence, p.s, p.key.node, Reply(p.call, arrival.answer));
    }
  }

  lemma ToolMoveSound(cfg: Settings, requirements: seq<Requirement>, failed: nat -> bool, w: World, p: Worker,
                      arrival: Arrival)
    requires p.Tooling? || p.Executing?
    requires Poised(requirements, w.db, w.tools, p) && WorkerSound(cfg, requirements, w.now, failed, p)
    requires DbSound(cfg, requirements, w.now, failed, w.db) && AllProper(cfg, requirements, w.tools)
    ensures MoveSound(cfg, requirements, w.now, failed, Move(cfg, w, p, arrival))
  {
    hide DbSound, Proper, StartTool, AfterTool, FinishTools, TurnsSound, Recorded;
    if p.Tooling? {
      if p.todo == [] {
        FinishSound(cfg, requirements, w.now, failed, p.s, p.done, p.plan, Late(p.s, w.now));
      } else if !RefusedCall(p.s, p.todo[0]) {
        StartSound(cfg, requirements, p.s, w.tools, p.todo[0].action);
        assert p.todo[0].proposed ==> MayChallenge(requirements, p.todo[0].action);
        match StartTool(cfg, p.s, w.tools, p.todo[0].action)
        case Refuse => AfterToolSound(cfg, requirements, w.now, failed, p.s, p.todo, p.done, p.plan, Refusal);
        case Reuse(result) => AfterToolSound(cfg, requirements, w.now, failed, p.s, p.todo, p.done, p.plan, result);
        case Launch(key) =>
      }
    } else if arrival.ToolAnswers? && p.todo != [] {
      AfterToolSound(cfg, requirements, w.now, failed, p.s, p.todo, p.done, p.plan,
                     Recorded(ToolDone(p.run, arrival.output)));
    }
  }

  lemma CommitMoveSound(cfg: Settings, requirements: seq<Requirement>, failed: nat -> bool, w: World, p: Worker,
                        arrival: Arrival)
    requires p.Committing?
    requires Poised(requirements, w.db, w.tools, p) && WorkerSound(cfg, requirements, w.now, failed, p)
    requires DbSound(cfg, requirements, w.now, failed, w.db) && AllProper(cfg, requirements, w.tools)
    ensures MoveSound(cfg, requirements, w.now, failed, Move(cfg, w, p, arrival))
  {
    hide Sound, Stands, AllProper, StoreEvidence, StopsFor;
    if Checkpoint(cfg, w.now, w.db, p.s, p.commit).Saved? && p.commit.output.DecideOut? {
      var s := p.s;
      var late, proposed :| (late ==> s.deadline <= w.now)
                            && Stands(cfg, late, s.(next := Some(Decide)), proposed, p.commit.output.reason);
      var s' := Advance(s, p.commit.next);
      VersionApart(cfg, late, s.(next := Some(Decide)), s'.(next := Some(Decide)), proposed, p.commit.output.reason);
    }
  }

  lemma VersionApart(cfg: Settings, late: bool, s: State, s': State, proposed: Decision, reason: StopReason)
    requires Stands(cfg, late, s, proposed, reason) && s' == s.(version := s'.version)
    ensures Stands(cfg, late, s', proposed, reason)
  {
    assert forall id :: Disputed(s', id) <==> Disputed(s, id);
  }

  lemma EndMoveSound(cfg: Settings, requirements: seq<Requirement>, failed: nat -> bool, w: World, p: Worker,
                     arrival: Arrival)
    requires p.Stopping? || p.Failing? || p.Deferring?
    requires WorkerSound(cfg, requirements, w.now, failed, p)
    requires DbSound(cfg, requirements, w.now, failed, w.db) && AllProper(cfg, requirements, w.tools)
    ensures MoveSound(cfg, requirements, w.now, failed, Move(cfg, w, p, arrival))
  {
    hide Sound, DecidesFor, AllProper;
  }

  lemma DecidingMoveSound(cfg: Settings, requirements: seq<Requirement>, failed: nat -> bool, w: World, p: Worker,
                          arrival: Arrival)
    requires p.Deciding?
    requires Poised(requirements, w.db, w.tools, p) && WorkerSound(cfg, requirements, w.now, failed, p)
    requires DbSound(cfg, requirements, w.now, failed, w.db) && AllProper(cfg, requirements, w.tools)
    ensures MoveSound(cfg, requirements, w.now, failed, Move(cfg, w, p, arrival))
  {
    hide Sound, Stands, AllProper, StopsFor;
    var s := p.s;
    var late, proposed :| (late ==> s.deadline <= w.now)
                          && Stands(cfg, late, s.(next := Some(Decide)), proposed, p.reason);
    StandsAlike(cfg, late, s.(next := Some(Decide)),
                s.(next := Some(Decide), decision := Some(p.decision), stopReason := Some(p.reason)), proposed,
                  p.reason);
  }

  lemma AMoveSound(cfg: Settings, requirements: seq<Requirement>, failed: nat -> bool, w: World, p: Worker,
                   arrival: Arrival)
    requires Poised(requirements, w.db, w.tools, p) && WorkerSound(cfg, requirements, w.now, failed, p)
    requires FailuresIn(failed, Move(cfg, w, p, arrival).calls)
    requires DbSound(cfg, requirements, w.now, failed, w.db) && AllProper(cfg, requirements, w.tools)
    ensures MoveSound(cfg, requirements, w.now, failed, Move(cfg, w, p, arrival))
  {
    hide Poised, WorkerSound, DbSound, AllProper, MoveSound, Move;
    match p
    case Looping(s) => LoopMoveSound(cfg, requirements, failed, w, p, arrival);
    case Asking(_, _) => AskMoveSound(cfg, requirements, failed, w, p, arrival);
    case Awaiting(_, _, _) => AskMoveSound(cfg, requirements, failed, w, p, arrival);
    case Tooling(_, _, _, _) => ToolMoveSound(cfg, requirements, failed, w, p, arrival);
    case Executing(_, _, _, _, _, _) => ToolMoveSound(cfg, requirements, failed, w, p, arrival);
    case Committing(_, _) => CommitMoveSound(cfg, requirements, failed, w, p, arrival);
    case Deciding(_, _, _) => DecidingMoveSound(cfg, requirements, failed, w, p, arrival);
    case _ => EndMoveSound(cfg, requirements, failed, w, p, arrival);
  }

  lemma LoopMoveSound(cfg: Settings, requirements: seq<Requirement>, failed: nat -> bool, w: World, p: Worker,
                      arrival: Arrival)
    requires p.Looping? && Poised(requirements, w.db, w.tools, p)
    requires DbSound(cfg, requirements, w.now, failed, w.db) && AllProper(cfg, requirements, w.tools)
    ensures MoveSound(cfg, requirements, w.now, failed, Move(cfg, w, p, arrival))
  {
    hide DbSound, AllProper, Begin;
    BeginSound(cfg, requirements, w.now, failed, w.db.evidence, p.s);
  }

  // ---- every run -------------------------------------------------------------------------

  // By now a model call of that version has failed.
  ghost predicate FailedAt(calls: CallTable, version: nat) {
    exists key :: key in calls && calls[key].CallFailed? && key.version == version
  }

  ghost predicate FailedBy(cfg: Settings, w: World, events: seq<Event>, version: nat) {
    exists n :: 0 <= n <= |events| && FailedAt(Run(cfg, w, events[..n]).calls, version)
  }

  ghost function FailuresOf(cfg: Settings, w: World, events: seq<Event>): nat -> bool {
    (version: nat) => FailedBy(cfg, w, events, version)
  }

  lemma FailuresCover(cfg: Settings, w: World, events: seq<Event>)
    ensures FailuresIn(FailuresOf(cfg, w, events), Run(cfg, w, events).calls)
  {
    hide Run;
    assert events[..|events|] == events;
    var calls := Run(cfg, w, events).calls;
    forall key | key in calls && calls[key].CallFailed?
      ensures FailedBy(cfg, w, events, key.version)
    {
      assert FailedAt(Run(cfg, w, events[..|events|]).calls, key.version);
    }
  }

  lemma FailuresGrow(cfg: Settings, w: World, events: seq<Event>, e: Event)
    ensures forall v :: FailuresOf(cfg, w, events)(v) ==> FailuresOf(cfg, w, events + [e])(v)
  {
    hide Run, FailedAt;
    forall v | FailedBy(cfg, w, events, v)
      ensures FailedBy(cfg, w, events + [e], v)
    {
      var n :| 0 <= n <= |events| && FailedAt(Run(cfg, w, events[..n]).calls, v);
      assert (events + [e])[..n] == events[..n];
    }
  }

  lemma LaterAll(cfg: Settings, requirements: seq<Requirement>, now: nat, failed: nat -> bool, failed': nat -> bool,
                 w: World)
    requires w.now <= now && (forall v :: failed(v) ==> failed'(v)) && AllSound(cfg, requirements, failed, w)
    ensures AllSound(cfg, requirements, failed', w.(now := now))
  {
    hide WorkerSound, DbSound, AllProper;
    LaterDb(cfg, requirements, w.now, now, failed, failed', w.db);
    forall k | k in w.workers
      ensures WorkerSound(cfg, requirements, now, failed', w.workers[k])
    {
      LaterWorker(cfg, requirements, w.now, now, failed, failed', w.workers[k]);
    }
  }

  lemma StepSound(cfg: Settings, requirements: seq<Requirement>, failed: nat -> bool, w: World, e: Event)
    requires Inv(cfg, requirements, w) && AllSound(cfg, requirements, failed, w)
    requires FailuresIn(failed, Step(cfg, w, e).calls)
    ensures AllSound(cfg, requirements, failed, Step(cfg, w, e))
  {
    hide Inv, WorkerSound, AllProper, Poised, Move, Sound, DecidesFor, StopsFor;
    match e
    case Tick(delta) => LaterAll(cfg, requirements, w.now + delta, failed, failed, w);
    case CrashOf(_) =>
    case ClaimBy(k) => NewWorkerSound(cfg, requirements, w.now, failed, w.db);
    case WorkOn(k, arrival) =>
      if k in w.workers {
        InvIsPoised(cfg, requirements, w, k);
        AMoveSound(cfg, requirements, failed, w, w.workers[k], arrival);
      }
  }

  lemma NewWorkerSound(cfg: Settings, requirements: seq<Requirement>, now: nat, failed: nat -> bool, db: Db)
    ensures forall s :: WorkerSound(cfg, requirements, now, failed, Looping(s))
  {
  }

  lemma {:induction false} RunSound(cfg: Settings, requirements: seq<Requirement>, w: World, events: seq<Event>)
    requires Inv(cfg, requirements, w) && forall failed :: AllSound(cfg, requirements, failed, w)
    ensures AllSound(cfg, requirements, FailuresOf(cfg, w, events), Run(cfg, w, events))
    decreases |events|
  {
    hide Inv, AllSound, Step, FailuresIn, FailuresOf;
    if events != [] {
      var before := events[..|events| - 1];
      var e := events[|events| - 1];
      assert before + [e] == events;
      var u := Run(cfg, w, before);
      RunSound(cfg, requirements, w, before);
      RunKeeps(cfg, requirements, w, before);
      FailuresGrow(cfg, w, before, e);
      LaterAll(cfg, requirements, u.now, FailuresOf(cfg, w, before), FailuresOf(cfg, w, events), u);
      FailuresCover(cfg, w, events);
      StepSound(cfg, requirements, FailuresOf(cfg, w, events), u, e);
    }
  }

  lemma ReachedSound(cfg: Settings, requirements: seq<Requirement>, scope: set<RequirementId>, deadline: nat,
                     attempts: nat, events: seq<Event>)
    ensures AllSound(cfg, requirements, FailuresOf(cfg, Start(requirements, scope, deadline, attempts), events),
                     Reached(cfg, requirements, scope, deadline, attempts, events))
  {
    hide Run, Inv, FailuresOf;
    var w := Start(requirements, scope, deadline, attempts);
    StartOk(cfg, requirements, scope, deadline, attempts);
    RunSound(cfg, requirements, w, events);
  }

  // Over every run, a PLAN step plans a registered tool its requirement lists, with the arguments it needs; a
  // CHALLENGE step has only looked for counter-evidence on requirements of the run; and every recorded tool
  // request is one the executor carries out.
  lemma OnlyValidActionsAreCommitted(cfg: Settings, requirements: seq<Requirement>, scope: set<RequirementId>,
                                     deadline: nat, attempts: nat, events: seq<Event>)
    ensures
      var w := Reached(cfg, requirements, scope, deadline, attempts, events);
      && (forall i :: 0 <= i < |w.db.steps| && w.db.steps[i].output.PlanOut? ==>
            MayPlan(cfg, requirements, w.db.steps[i].output.action))
      && (forall i, k :: 0 <= i < |w.db.steps| && w.db.steps[i].output.ChallengeOut?
                         && 0 <= k < |w.db.steps[i].output.plan.actions| ==>
            MayChallenge(requirements, w.db.steps[i].output.plan.actions[k]))
      && (forall key :: key in w.tools ==> Proper(cfg, requirements, key))
  {
    hide Reached, MayPlan, MayChallenge, Proper, FailuresOf;
    ReachedSound(cfg, requirements, scope, deadline, attempts, events);
    var w := Reached(cfg, requirements, scope, deadline, attempts, events);
    forall i | 0 <= i < |w.db.steps|
      ensures Sound(cfg, requirements, w.db.steps[i].output)
    {
    }
  }

  // A run in review shows a review with its reason, and the reason holds of the state it stopped in: either
  // DECIDE came to it on some proposal, or the run stopped on a budget that is spent, a deadline that has
  // passed or a model call of that version that failed.
  lemma ReviewsHaveAReason(cfg: Settings, requirements: seq<Requirement>, scope: set<RequirementId>, deadline: nat,
                           attempts: nat, events: seq<Event>)
    requires Reached(cfg, requirements, scope, deadline, attempts, events).db.run.status == RunNeedsReview
    ensures
      var start := Start(requirements, scope, deadline, attempts);
      var w := Reached(cfg, requirements, scope, deadline, attempts, events);
      var run := w.db.run;
      && run.result.Some? && run.result.value.verdict == NeedsHumanReview && run.stopReason.Some?
      && w.db.caseStatus == CaseNeedsReview && w.db.job.status == JobSucceeded
      && var s, reason := run.snapshot, run.stopReason.value;
      && ((w.db.steps != [] && w.db.steps[|w.db.steps| - 1].output == DecideOut(run.result.value, reason)
           && exists late, proposed ::
                (late ==> s.deadline <= w.now) && Stands(cfg, late, s.(next := Some(Decide)), proposed, reason))
          || (run.result.value == Decision(NeedsHumanReview, Runtime(reason), s.evidenceIds)
              && match reason
                 case BudgetTime => s.deadline <= w.now
                 case BudgetIteration => s.iteration >= cfg.maxIterations && s.version == 5 * s.iteration
                 case BudgetVlm => s.vlmCalls >= cfg.maxVlmCalls
                 case ToolFailureLimit => s.consecutiveFailures >= cfg.maxToolFailures
                 case StagnationLimit => s.stagnant >= cfg.maxStagnant
                 case AgentModelFailed => FailedBy(cfg, start, events, s.version)
                 case _ => false))
  {
    hide Reached, Stands, FailedBy;
    ReachedSound(cfg, requirements, scope, deadline, attempts, events);
  }

  // ---- attempts --------------------------------------------------------------------------

  // The event starts a worker.
  ghost predicate Admits(cfg: Settings, w: World, e: Event) {
    e.ClaimBy? && e.worker !in w.workers && e.worker in Step(cfg, w, e).workers
  }

  ghost function Started(cfg: Settings, w: World, events: seq<Event>): nat
    decreases |events|
  {
    if events == [] then 0
    else
      var before := events[..|events| - 1];
      Started(cfg, w, before) + if Admits(cfg, Run(cfg, w, before), events[|events| - 1]) then 1 else 0
  }

  lemma MovesKeepAttempts(cfg: Settings, w: World, p: Worker, arrival: Arrival)
    ensures
      var m := Move(cfg, w, p, arrival);
      m.db.job.attempt == w.db.job.attempt && m.db.job.maxAttempts == w.db.job.maxAttempts
  {
    hide Begin, Resume, StoreEvidence, AfterTool, FinishTools, StartTool, ClaimCall, EndCall;
  }

  lemma StepCounts(cfg: Settings, w: World, e: Event)
    ensures
      var after := Step(cfg, w, e);
      && after.db.job.attempt == w.db.job.attempt + (if Admits(cfg, w, e) then 1 else 0)
      && after.db.job.maxAttempts == w.db.job.maxAttempts
  {
    hide Move;
    if e.WorkOn? && e.worker in w.workers {
      MovesKeepAttempts(cfg, w, w.workers[e.worker], e.arrival);
    }
  }

  // The job has been attempted as often as a worker was admitted, whatever became of the workers.
  lemma {:induction false} AttemptsAreAdmissions(cfg: Settings, w: World, events: seq<Event>)
    ensures Run(cfg, w, events).db.job.attempt == w.db.job.attempt + Started(cfg, w, events)
    ensures Run(cfg, w, events).db.job.maxAttempts == w.db.job.maxAttempts
    decreases |events|
  {
    hide Step, Admits;
    if events != [] {
      AttemptsAreAdmissions(cfg, w, events[..|events| - 1]);
      StepCounts(cfg, Run(cfg, w, events[..|events| - 1]), events[|events| - 1]);
    }
  }

  // A retryable failure puts the run back for another attempt as long as fewer workers were admitted than the
  // job allows, and fails the run, its job and its case from then on.
  lemma RetriesAreLimitedExactly(cfg: Settings, requirements: seq<Requirement>, scope: set<RequirementId>,
                                 deadline: nat, attempts: nat, events: seq<Event>, k: nat, arrival: Arrival)
    requires var w := Reached(cfg, requirements, scope, deadline, attempts, events);
             k in w.workers && w.workers[k].Deferring?
    ensures
      var start := Start(requirements, scope, deadline, attempts);
      var w := Reached(cfg, requirements, scope, deadline, attempts, events);
      var db := Step(cfg, w, WorkOn(k, arrival)).db;
      var reason := Some(Failure(ModelError(w.workers[k].retryCode)));
      && db.run == w.db.run.(status := if Started(cfg, start, events) < attempts then RunPending else RunFailed,
                             stopReason := reason, lease := None)
      && (if Started(cfg, start, events) < attempts
          then db.job.status == JobRetryWait && db.job.retryable && db.caseStatus == w.db.caseStatus
          else db.job.status == JobFailed && !db.job.retryable && db.caseStatus == CaseNeedsReview)
      && db.job.lease == None && db.steps == w.db.steps && db.evidence == w.db.evidence
  {
    hide Run;
    AttemptsAreAdmissions(cfg, Start(requirements, scope, deadline, attempts), events);
  }

  // ---- leases ----------------------------------------------------------------------------

  // The event admits a worker or commits a step.
  ghost predicate Renews(cfg: Settings, w: World, e: Event) {
    Admits(cfg, w, e) || |Step(cfg, w, e).db.steps| > |w.db.steps|
  }

  ghost predicate Leased(cfg: Settings, db: Db, since: nat) {
    && db.run.lease == Some(since + cfg.jobLease) && db.job.lease == db.run.lease
    && db.job.status == JobRunning && db.caseStatus == CaseInvestigating
  }

  lemma MovesLease(cfg: Settings, w: World, p: Worker, arrival: Arrival)
    requires w.db.run.status != RunRunning || exists since :: Leased(cfg, w.db, since)
    ensures
      var db := Move(cfg, w, p, arrival).db;
      && |w.db.steps| <= |db.steps|
      && (db.run.status == RunRunning ==>
            if |db.steps| > |w.db.steps| then Leased(cfg, db, w.now)
            else w.db.run.status == RunRunning && forall since :: Leased(cfg, w.db, since) ==> Leased(cfg, db, since))
  {
    hide Begin, Resume, StoreEvidence, AfterTool, FinishTools, StartTool, ClaimCall, EndCall;
  }

  lemma StepLeases(cfg: Settings, w: World, e: Event)
    requires w.db.run.status != RunRunning || exists since :: Leased(cfg, w.db, since)
    ensures
      var after := Step(cfg, w, e);
      after.db.run.status == RunRunning ==>
        if Renews(cfg, w, e) then Leased(cfg, after.db, w.now)
        else w.db.run.status == RunRunning && forall since :: Leased(cfg, w.db, since) ==> Leased(cfg, after.db, since)
  {
    hide Move, Leased;
    if e.WorkOn? && e.worker in w.workers {
      MovesLease(cfg, w, w.workers[e.worker], e.arrival);
    } else if e.ClaimBy? {
      ClaimLeases(cfg, w, e.worker);
    }
  }

  lemma ClaimLeases(cfg: Settings, w: World, k: nat)
    ensures
      var after := Step(cfg, w, ClaimBy(k));
      if Admits(cfg, w, ClaimBy(k)) then Leased(cfg, after.db, w.now) && after.db.run.status == RunRunning
      else after == w
    ensures |Step(cfg, w, ClaimBy(k)).db.steps| == |w.db.steps|
  {
  }

  // A running run is leased since the last admission or commit, for the length of a job lease: nobody else is
  // admitted before that lease ends, and anybody is from then on.
  lemma LeasesLastExactly(cfg: Settings, requirements: seq<Requirement>, scope: set<RequirementId>, deadline: nat,
                          attempts: nat, events: seq<Event>) returns (n: nat)
    requires Reached(cfg, requirements, scope, deadline, attempts, events).db.run.status == RunRunning
    ensures
      var start := Start(requirements, scope, deadline, attempts);
      var w := Reached(cfg, requirements, scope, deadline, attempts, events);
      && n < |events|
      && var since := Run(cfg, start, events[..n]).now;
      && Renews(cfg, Run(cfg, start, events[..n]), events[n])
      && Leased(cfg, w.db, since)
      && forall k :: k !in w.workers ==> (Admits(cfg, w, ClaimBy(k)) <==> since + cfg.jobLease <= w.now)
  {
    var start := Start(requirements, scope, deadline, attempts);
    n := LeasedSince(cfg, start, events);
    hide Run;
    var w := Run(cfg, start, events);
    forall k | k !in w.workers
      ensures Admits(cfg, w, ClaimBy(k)) <==> Run(cfg, start, events[..n]).now + cfg.jobLease <= w.now
    {
    }
  }

  lemma {:induction false} LeasedSince(cfg: Settings, w: World, events: seq<Event>) returns (n: nat)
    requires w.db.run.status != RunRunning && Run(cfg, w, events).db.run.status == RunRunning
    ensures n < |events| && Renews(cfg, Run(cfg, w, events[..n]), events[n])
    ensures Leased(cfg, Run(cfg, w, events).db, Run(cfg, w, events[..n]).now)
    decreases |events|
  {
    hide Step, Leased, Renews;
    var last := |events| - 1;
    var before := events[..last];
    if Run(cfg, w, before).db.run.status == RunRunning {
      n := LeasedSince(cfg, w, before);
    }
    StepLeases(cfg, Run(cfg, w, before), events[last]);
    if Renews(cfg, Run(cfg, w, before), events[last]) {
      n := last;
    } else {
      assert before[..n] == events[..n] && before[n] == events[n];
    }
  }

  // ---- admission -------------------------------------------------------------------------

  ghost predicate StillLeased(lease: Option<nat>, now: nat) {
    exists until :: lease == Some(until) && now < until
  }

  ghost predicate InHand(now: nat, db: Db) {
    || (db.run.status == RunRunning && StillLeased(db.run.lease, now))
    || (db.job.status == JobRunning && StillLeased(db.job.lease, now))
  }

  // A claim is admitted exactly for a live run that nobody holds by its run or its job, whose job may start and
  // whose case is open; it takes both leases, counts an attempt and hands out the stored state.
  lemma ClaimIsExact(cfg: Settings, now: nat, db: Db)
    ensures
      var r := ClaimRun(cfg, now, db);
      var live := db.run.status in {RunPending, RunRunning};
      var free := live && !InHand(now, db);
      var startable := free && db.job.status in {JobPending, JobRunning, JobRetryWait};
      && (r == Finished <==> db.run.status in {RunCompleted, RunNeedsReview})
      && (r == Rejected(AlreadyRunning) <==> live && InHand(now, db))
      && (r == Rejected(NotResumable) <==> db.run.status in {RunFailed, RunCancelled} || (free && !startable))
      && (r == Rejected(CaseNotReady) <==> startable && db.caseStatus !in {CaseReady, CaseInvestigating})
      && (r.Claimed? <==> startable && db.caseStatus in {CaseReady, CaseInvestigating})
      && (r.Claimed? ==>
            var lease := Some(now + cfg.jobLease);
            && r.s == db.run.snapshot
            && r.db == db.(run := db.run.(status := RunRunning, lease := lease),
                           job := JobRow(JobRunning, db.job.attempt + 1, db.job.maxAttempts, lease, db.job.retryable),
                           caseStatus := CaseInvestigating))
  {
    assert Held(db.run.lease, now) <==> StillLeased(db.run.lease, now);
    assert Held(db.job.lease, now) <==> StillLeased(db.job.lease, now);
  }

  // A first investigation is prepared exactly for a ready case, a scope of its requirements, and something to
  // investigate; it starts from nothing, with its required ordinary requirements missing.
  lemma PreparingIsExact(caseStatus: CaseStatus, requirements: seq<Requirement>, scope: set<RequirementId>, now: nat,
                         timeout: nat, attempts: nat)
    ensures
      var r := Prepare(None, caseStatus, requirements, scope, now, timeout, attempts);
      var known := forall id :: id in scope ==> exists q :: q in requirements && q.id == id;
      && (r == Err(ActionInvalid) <==> caseStatus == CaseReady && !known)
      && (r == Err(CaseNotReady) <==> caseStatus != CaseReady || (known && requirements == []))
      && (r.Ok? <==> caseStatus == CaseReady && known && requirements != [])
      && (r.Ok? ==>
            var db, s := r.value, r.value.run.snapshot;
            && db == Db(RunRow(RunPending, scope, s, 0, Some(Plan), None, None, None),
                        JobRow(JobPending, 0, attempts, None, false), CaseReady, [], map[])
            && (forall q :: q in s.requirements <==> q in requirements && (scope == {} || q.id in scope))
            && (forall id :: id in s.missing <==>
                  exists q :: q in s.requirements && q.id == id && q.required && q.kind == Ordinary)
            && s == State(s.requirements, [], [], [], s.missing, {}, None, 0, 0, 0, 0, 0, 0, Some(Plan), 0,
                          now + timeout, None, None))
  {
    var known := forall id :: id in scope ==> exists q :: q in requirements && q.id == id;
    if known && scope != {} {
      var id :| id in scope;
      var q :| q in requirements && q.id == id;
      assert q in InScope(requirements, scope);
    }
    if requirements == [] && scope != {} {
      var id :| id in scope;
      assert !known;
    }
    if !known {
      var id :| id in scope && forall q :: q in requirements ==> q.id != id;
    }
  }

  // ---- in the middle of a request --------------------------------------------------------

  // A worker that asks what another is asking under a running lease fails the run, its job and its case, and
  // goes, whatever the other comes to.
  lemma MeetingInACallFailsTheRun(cfg: Settings, w: World, k: nat, first: Arrival, second: Arrival)
    requires k in w.workers && w.workers[k].Asking?
    requires var key := w.workers[k].key;
             key in w.calls && w.calls[key].CallRunning? && StillLeased(Some(w.calls[key].lease), w.now)
    ensures
      var after := Run(cfg, w, [WorkOn(k, first), WorkOn(k, second)]);
      && after.db == w.db.(
           run := w.db.run.(status := RunFailed, stopReason := Some(Failure(AlreadyRunning)), lease := None),
           job := w.db.job.(status := JobFailed, lease := None),
           caseStatus := CaseNeedsReview)
      && after.workers == w.workers - {k} && after.calls == w.calls && after.tools == w.tools
  {
    var once := Step(cfg, w, WorkOn(k, first));
    LastStep(cfg, w, [], WorkOn(k, first));
    LastStep(cfg, w, [WorkOn(k, first)], WorkOn(k, second));
    assert [] + [WorkOn(k, first)] == [WorkOn(k, first)];
    assert [WorkOn(k, first)] + [WorkOn(k, second)] == [WorkOn(k, first), WorkOn(k, second)];
    hide Run;
    assert once.workers[k] == Failing(w.workers[k].s, AlreadyRunning);
    assert once.workers - {k} == w.workers - {k};
  }

  // What arrives is recorded as it is, under the request that asked for it, and nothing else is touched.
  lemma ArrivalsAreRecorded(cfg: Settings, w: World, k: nat, arrival: Arrival)
    requires k in w.workers
    ensures
      var p, after := w.workers[k], Step(cfg, w, WorkOn(k, arrival));
      && (p.Awaiting? ==>
            && after.tools == w.tools && after.db == w.db && after.issued == w.issued
            && var attempt := if p.key in w.calls then w.calls[p.key].attempt else 1;
            && after.calls == match arrival
                              case ModelAnswers(answer) =>
                                if Fits(p.key.node, answer) then w.calls[p.key := CallDone(p.call, answer, attempt)]
                                else w.calls
                              case ModelFails(code, _) => w.calls[p.key := CallFailed(p.call, code, attempt)]
                              case _ => w.calls)
      && (p.Executing? && p.todo != [] ==>
            && after.calls == w.calls && after.db == w.db && after.issued == w.issued
            && after.tools == match arrival
                              case ToolAnswers(output) => w.tools[p.tool := ToolDone(p.run, output)]
                              case _ => w.tools)
  {
    hide Resume, AfterTool;
  }
}
