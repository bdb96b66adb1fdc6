/** The guarantees of the investigation protocol, stated over every run of the machine: any number of
    workers, any interleaving, crashes, lost leases and late answers included. */
module AgentGuarantees {
  import opened Common
  import opened AgentTypes
  import opened AgentGraph
  import opened AgentCalls
  import opened AgentStore
  import opened AgentMachine
  import opened AgentSafety
  import AgentProgress

  ghost function Reached(cfg: Settings, requirements: seq<Requirement>, scope: set<RequirementId>, deadline: nat,
                         attempts: nat, events: seq<Event>): World {
    Run(cfg, Start(requirements, scope, deadline, attempts), events)
  }

  lemma ReachedOk(cfg: Settings, requirements: seq<Requirement>, scope: set<RequirementId>, deadline: nat,
                  attempts: nat, events: seq<Event>)
    ensures Inv(cfg, requirements, Reached(cfg, requirements, scope, deadline, attempts, events))
  {
    StartOk(cfg, requirements, scope, deadline, attempts);
    RunKeeps(cfg, requirements, Start(requirements, scope, deadline, attempts), events);
  }

  // One step per version, and the nodes walk the graph from PLAN.
  lemma LogIsOnePath(cfg: Settings, requirements: seq<Requirement>, scope: set<RequirementId>, deadline: nat,
                     attempts: nat, events: seq<Event>)
    ensures
      var db := Reached(cfg, requirements, scope, deadline, attempts, events).db;
      && |db.steps| == db.run.version
      && (forall i :: 0 <= i < |db.steps| ==> db.steps[i].version == i + 1)
      && (db.steps != [] ==> db.steps[0].node == Plan)
      && (forall i :: 0 < i < |db.steps| ==> Allowed(db.steps[i - 1].node, Some(db.steps[i].node)))
  {
    ReachedOk(cfg, requirements, scope, deadline, attempts, events);
  }

  // The version of every step is fixed by its node and iteration, so the log is bounded whatever resumes it.
  lemma StepsAndCountersAreBounded(cfg: Settings, requirements: seq<Requirement>, scope: set<RequirementId>,
                                   deadline: nat, attempts: nat, events: seq<Event>)
    ensures
      var db := Reached(cfg, requirements, scope, deadline, attempts, events).db;
      var s := db.run.snapshot;
      && (forall i :: 0 <= i < |db.steps| ==> Timed(cfg, db.steps[i]))
      && |db.steps| <= 5 * cfg.maxIterations
      && (s.next == Some(Plan) || s.next == Some(Decide) ==> s.version == 5 * s.iteration)
      && (s.next == Some(Retrieve) ==> s.version == 5 * (s.iteration - 1) + 1)
      && (s.next == Some(Inspect) ==> s.version == 5 * (s.iteration - 1) + 2)
      && (s.next == Some(Verify) ==> s.version == 5 * (s.iteration - 1) + 3)
      && (s.next == Some(Challenge) ==> s.version == 5 * (s.iteration - 1) + 4)
      && s.vlmCalls <= Min(cfg.maxVlmCalls, 2 * s.iteration)
      && s.consecutiveFailures <= cfg.maxToolFailures + 8
      && s.totalFailures <= 10 * s.iteration
  {
    ReachedOk(cfg, requirements, scope, deadline, attempts, events);
    var db := Reached(cfg, requirements, scope, deadline, attempts, events).db;
    if db.steps != [] {
      assert Timed(cfg, db.steps[|db.steps| - 1]);
    }
  }

  // COMPLETED rests on committed evidence alone: all of it, and nothing else.
  lemma CompletedIsConclusive(cfg: Settings, requirements: seq<Requirement>, scope: set<RequirementId>,
                              deadline: nat, attempts: nat, events: seq<Event>)
    requires Reached(cfg, requirements, scope, deadline, attempts, events).db.run.status == RunCompleted
    ensures
      var db := Reached(cfg, requirements, scope, deadline, attempts, events).db;
      var s := db.run.snapshot;
      && db.steps != []
      && db.steps[|db.steps| - 1].node == Decide
      && db.run.result.Some?
      && var d := db.run.result.value;
      && d.verdict != NeedsHumanReview
      && db.steps[|db.steps| - 1].output == DecideOut(d, ProvisionalDecision)
      && d.evidenceIds != []
      && (forall id :: id in d.evidenceIds ==> id in db.evidence)
      && (forall q :: q in requirements && q.required && q.kind == Ordinary ==>
            exists id :: id in db.evidence && id.requirementId == q.id && Decisive(id.stance))
      && (forall a, b :: a in db.evidence && b in db.evidence && a.requirementId == b.requirementId ==>
            !(a.stance == Support && b.stance == Contradict))
      && s.iteration < cfg.maxIterations
      && s.vlmCalls < cfg.maxVlmCalls
      && s.consecutiveFailures < cfg.maxToolFailures
      && s.stagnant < cfg.maxStagnant
  {
    ReachedOk(cfg, requirements, scope, deadline, attempts, events);
    var db := Reached(cfg, requirements, scope, deadline, attempts, events).db;
    var s := db.run.snapshot;
    forall q | q in requirements && q.required && q.kind == Ordinary
      ensures exists id :: id in db.evidence && id.requirementId == q.id && Decisive(id.stance)
    {
      assert Settled(s, q.id);
    }
    NoConflicts(set id | id in s.evidenceIds);
  }

  // ---- prepared runs ---------------------------------------------------------------------

  // What a prepared run reaches is what the machine reaches, so every guarantee here holds of it.
  lemma PreparedRunsAreReached(cfg: Settings, caseStatus: CaseStatus, requirements: seq<Requirement>,
                               scope: set<RequirementId>, now: nat, timeout: nat, attempts: nat, events: seq<Event>)
    requires Prepare(None, caseStatus, requirements, scope, now, timeout, attempts).Ok?
    ensures
      var db := Prepare(None, caseStatus, requirements, scope, now, timeout, attempts).value;
      Run(cfg, World(db, now, map[], map[], 0, map[]), events)
      == Reached(cfg, Chosen(requirements, scope), scope, now + timeout, attempts, [Tick(now)] + events)
  {
    hide Run, Chosen;
    RunsOn(cfg, Start(Chosen(requirements, scope), scope, now + timeout, attempts), Tick(now), events);
  }

  lemma CompletedSettles(cfg: Settings, requirements: seq<Requirement>, scope: set<RequirementId>,
                         deadline: nat, attempts: nat, events: seq<Event>, q: Requirement)
    requires Reached(cfg, requirements, scope, deadline, attempts, events).db.run.status == RunCompleted
    requires q in requirements && q.required && q.kind == Ordinary
    ensures exists id :: id in Reached(cfg, requirements, scope, deadline, attempts, events).db.evidence
                         && id.requirementId == q.id && Decisive(id.stance)
  {
    hide Reached;
    CompletedIsConclusive(cfg, requirements, scope, deadline, attempts, events);
  }

  // A prepared investigation that completes holds a decisive row for every required ordinary
  // requirement of the case that the caller put in scope.
  lemma CompletedCoversTheScope(cfg: Settings, caseStatus: CaseStatus, requirements: seq<Requirement>,
                                scope: set<RequirementId>, now: nat, timeout: nat, attempts: nat,
                                events: seq<Event>, q: Requirement)
    requires Prepare(None, caseStatus, requirements, scope, now, timeout, attempts).Ok?
    requires q in requirements && q.required && q.kind == Ordinary && (scope == {} || q.id in scope)
    ensures
      var db := Prepare(None, caseStatus, requirements, scope, now, timeout, attempts).value;
      var after := Run(cfg, World(db, now, map[], map[], 0, map[]), events).db;
      after.run.status == RunCompleted ==>
        exists id :: id in after.evidence && id.requirementId == q.id && Decisive(id.stance)
  {
    PreparedRunsAreReached(cfg, caseStatus, requirements, scope, now, timeout, attempts, events);
    var chosen := Chosen(requirements, scope);
    assert q in chosen;
    var events' := [Tick(now)] + events;
    hide Reached, Run, Chosen, InitialDb;
    if Reached(cfg, chosen, scope, now + timeout, attempts, events').db.run.status == RunCompleted {
      CompletedSettles(cfg, chosen, scope, now + timeout, attempts, events', q);
    }
  }

  // Every committed row lies inside an item that a recorded, unfailed tool run for its requirement returned.
  lemma EvidenceIsGrounded(cfg: Settings, requirements: seq<Requirement>, scope: set<RequirementId>,
                           deadline: nat, attempts: nat, events: seq<Event>, id: EvidenceId)
    requires id in Reached(cfg, requirements, scope, deadline, attempts, events).db.evidence
    ensures
      var w := Reached(cfg, requirements, scope, deadline, attempts, events);
      var row := w.db.evidence[id];
      && row.id == id
      && exists key, item ::
           && key in w.tools && w.tools[key].ToolDone? && w.tools[key].output.status != Failed
           && key.requirementId == id.requirementId
           && row.run == Some(w.tools[key].run)
           && item in w.tools[key].output.items
           && item.sourceRef == id.sourceRef
           && item.start <= id.start < id.end <= item.end
  {
    ReachedOk(cfg, requirements, scope, deadline, attempts, events);
    var w := Reached(cfg, requirements, scope, deadline, attempts, events);
    var row := w.db.evidence[id];
    var item: Item :| Sourced(w.tools, item) && Within(row, item);
    var key :| key in w.tools && key.requirementId == item.requirementId && Holds(w.tools[key], item);
    assert item.found in w.tools[key].output.items;
  }

  // The "no action" and "invalid transition" errors are dead code: a checkpoint-invalid failure means
  // the worker resumed a state that has no next node.
  lemma OnlyAnEmptyNextNodeIsInvalid(cfg: Settings, requirements: seq<Requirement>, scope: set<RequirementId>,
                                     deadline: nat, attempts: nat, events: seq<Event>, k: nat)
    requires k in Reached(cfg, requirements, scope, deadline, attempts, events).workers
    ensures
      var p := Reached(cfg, requirements, scope, deadline, attempts, events).workers[k];
      && (p.Failing? ==> p.code == ActionInvalid || p.code == AlreadyRunning
                         || (p.code == CheckpointInvalid && p.s.next == None))
      && (p.Committing? ==> Allowed(p.commit.node, p.commit.next) && p.s.next == Some(p.commit.node))
  {
    ReachedOk(cfg, requirements, scope, deadline, attempts, events);
    var w := Reached(cfg, requirements, scope, deadline, attempts, events);
    assert WorkerOk(cfg, requirements, w.db, w.tools, w.workers[k]);
  }

  // The "evidence targets another requirement" error is dead code too: a verifier answer is refused
  // only for a forged source or an interval that leaves its item.
  lemma VerifierIsRefusedOnlyForForgery(cfg: Settings, requirements: seq<Requirement>, scope: set<RequirementId>,
                                        deadline: nat, attempts: nat, events: seq<Event>, k: nat,
                                        drafts: seq<Draft>, call: nat)
    requires k in Reached(cfg, requirements, scope, deadline, attempts, events).workers
    requires var p := Reached(cfg, requirements, scope, deadline, attempts, events).workers[k];
             p.Awaiting? && p.key.node == Verify
    ensures
      var s := Reached(cfg, requirements, scope, deadline, attempts, events).workers[k].s;
      && s.pending.Some?
      && (ValidateEvidence(s.selected, s.pending.value.requirementId, drafts, call).None? <==>
            exists d :: d in drafts && var item := FindItem(s.selected, d.sourceRef);
              item.None? || d.start < item.value.found.start || item.value.found.end < d.end)
  {
    ReachedOk(cfg, requirements, scope, deadline, attempts, events);
    var w := Reached(cfg, requirements, scope, deadline, attempts, events);
    assert WorkerOk(cfg, requirements, w.db, w.tools, w.workers[k]);
    var s := w.workers[k].s;
    var id := s.pending.value.requirementId;
    if ValidateEvidence(s.selected, id, drafts, call).None? {
      var d :| d in drafts && !DraftFits(s.selected, id, d);
      var item := FindItem(s.selected, d.sourceRef);
      assert item.None? || d.start < item.value.found.start || item.value.found.end < d.end;
    }
  }

  // A proposal stands if and only if it is conclusive on the evidence and within every budget.
  lemma ProposalStandsExactly(cfg: Settings, late: bool, table: EvidenceTable, s: State, proposed: Decision)
    requires forall id :: id in s.evidenceIds ==> id in table
    requires proposed.verdict != NeedsHumanReview
    ensures
      (Enforce(cfg, late, table, s, proposed).Some?
       && Enforce(cfg, late, table, s, proposed).value.decision.verdict != NeedsHumanReview)
      <==>
      (!late
       && proposed.evidenceIds != []
       && (forall id :: id in proposed.evidenceIds ==> id in s.evidenceIds)
       && s.missing == []
       && (forall a, b :: a in s.evidenceIds && b in s.evidenceIds && a.requirementId == b.requirementId ==>
             !(a.stance == Support && b.stance == Contradict))
       && !(s.iteration >= cfg.maxIterations && (s.next == Some(Plan) || s.next == Some(Decide)))
       && s.vlmCalls < cfg.maxVlmCalls
       && s.consecutiveFailures < cfg.maxToolFailures
       && s.stagnant < cfg.maxStagnant)
  {
    SummaryKeys(table, s.evidenceIds);
    var ids := set id | id in s.evidenceIds;
    NoConflicts(ids);
  }

  // Some requirement is both supported and contradicted by the evidence the run holds.
  ghost predicate Disputed(s: State, id: RequirementId) {
    exists a, b :: a in s.evidenceIds && b in s.evidenceIds && a.requirementId == id && b.requirementId == id
                   && a.stance == Support && b.stance == Contradict
  }

  // The one reason why a proposal on known evidence does not stand; ProvisionalDecision when it does.
  ghost predicate Stands(cfg: Settings, late: bool, s: State, proposed: Decision, reason: StopReason) {
    var conclusive := proposed.verdict == Approve || proposed.verdict == Reject;
    var spent := s.iteration >= cfg.maxIterations && (s.next == Some(Plan) || s.next == Some(Decide));
    match reason
    case ContradictoryEvidence => exists id :: Disputed(s, id)
    case DecisionEvidenceMissing => (forall id :: !Disputed(s, id)) && conclusive && proposed.evidenceIds == []
    case _ =>
      && (forall id :: !Disputed(s, id))
      && !(conclusive && proposed.evidenceIds == [])
      && (reason == BudgetTime <==> late)
      && (reason == BudgetIteration <==> !late && spent)
      && (reason == BudgetVlm <==> !late && !spent && s.vlmCalls >= cfg.maxVlmCalls)
      && (reason == ToolFailureLimit <==>
            !late && !spent && s.vlmCalls < cfg.maxVlmCalls && s.consecutiveFailures >= cfg.maxToolFailures)
      && (reason == StagnationLimit <==>
            !late && !spent && s.vlmCalls < cfg.maxVlmCalls && s.consecutiveFailures < cfg.maxToolFailures
            && s.stagnant >= cfg.maxStagnant)
      && (reason == RequiredEvidenceMissing <==> Affordable(cfg, late, s) && s.missing != [])
      && (reason == ProvisionalDecision <==> Affordable(cfg, late, s) && s.missing == [])
      && reason in {BudgetTime, BudgetIteration, BudgetVlm, ToolFailureLimit, StagnationLimit, RequiredEvidenceMissing,
                    ProvisionalDecision}
  }

  ghost predicate Affordable(cfg: Settings, late: bool, s: State) {
    && !late
    && !(s.iteration >= cfg.maxIterations && (s.next == Some(Plan) || s.next == Some(Decide)))
    && s.vlmCalls < cfg.maxVlmCalls && s.consecutiveFailures < cfg.maxToolFailures && s.stagnant < cfg.maxStagnant
  }

  lemma DisputesAreConflicts(table: EvidenceTable, s: State)
    requires forall id :: id in s.evidenceIds ==> id in table
    ensures forall id :: id in Conflicts(Summary(table, s.evidenceIds).Keys) <==> Disputed(s, id)
  {
    SummaryKeys(table, s.evidenceIds);
    var ids := set id | id in s.evidenceIds;
    forall id
      ensures id in Conflicts(ids) <==> Disputed(s, id)
    {
      if Disputed(s, id) {
        var a, b :| a in s.evidenceIds && b in s.evidenceIds && a.requirementId == id && b.requirementId == id
                    && a.stance == Support && b.stance == Contradict;
        assert a in ids && b in ids && Conflicted(ids, a.requirementId);
      }
    }
  }

  // What becomes of a proposal. One that cites unknown evidence is refused. One that stands is the decision,
  // word for word; any other turns into a review on all the evidence, for exactly one reason; and a dispute
  // replaces the requirements marked contradictory.
  lemma EnforcementIsExact(cfg: Settings, late: bool, table: EvidenceTable, s: State, proposed: Decision)
    requires forall id :: id in s.evidenceIds ==> id in table
    ensures
      var r := Enforce(cfg, late, table, s, proposed);
      && (r.None? <==> exists id :: id in proposed.evidenceIds && id !in s.evidenceIds)
      && (r.Some? ==>
            && Stands(cfg, late, s, proposed, r.value.reason)
            && r.value.decision == (if r.value.reason == ProvisionalDecision then proposed
                                    else Decision(NeedsHumanReview, Runtime(r.value.reason), s.evidenceIds))
            && (forall id :: id in r.value.contradictory <==>
                  if r.value.reason == ContradictoryEvidence then Disputed(s, id) else id in s.contradictory))
  {
    DisputesAreConflicts(table, s);
    var conflicts := Conflicts(Summary(table, s.evidenceIds).Keys);
    assert conflicts != {} ==> exists id :: id in conflicts;
    hide Conflicts, Summary, Disputed;
  }

  // No two reasons fit one proposal.
  lemma OneReasonStands(cfg: Settings, late: bool, s: State, proposed: Decision, r: StopReason, r': StopReason)
    requires Stands(cfg, late, s, proposed, r) && Stands(cfg, late, s, proposed, r')
    ensures r == r'
  {
  }

  lemma NoConflicts(ids: set<EvidenceId>)
    ensures Conflicts(ids) == {} <==>
      forall a, b :: a in ids && b in ids && a.requirementId == b.requirementId ==>
        !(a.stance == Support && b.stance == Contradict)
  {
    if a, b :| a in ids && b in ids && a.requirementId == b.requirementId
               && a.stance == Support && b.stance == Contradict {
      assert Conflicted(ids, a.requirementId) && a.requirementId in Conflicts(ids);
    }
    if r :| r in Conflicts(ids) {
      var a :| a in ids && a.requirementId == r && a.stance == Support;
      var b :| b in ids && b.requirementId == r && b.stance == Contradict;
    }
  }

  // After CHALLENGE another round is planned exactly when the model asks for one and every budget allows it,
  // with the stagnation of this round counted; otherwise DECIDE follows.
  lemma AnotherRoundExactly(cfg: Settings, late: bool, s: State, reports: seq<ToolSummary>, plan: ChallengePlan)
    requires s.next == Some(Challenge)
    ensures
      var c := FinishTools(cfg, late, s, reports, Some(plan)).commit;
      var grown := |s.evidenceIds| != s.lastEvidenceCount;
      && c.node == Challenge
      && (c.next == Some(Plan) <==>
            && plan.continues && !late
            && s.vlmCalls < cfg.maxVlmCalls && s.consecutiveFailures < cfg.maxToolFailures
            && (if grown then 0 else s.stagnant + 1) < cfg.maxStagnant)
      && (c.next != Some(Plan) ==> c.next == Some(Decide))
  {
  }

  // ---- recorded tools and ended runs -----------------------------------------------------

  lemma StepKeepsTools(cfg: Settings, requirements: seq<Requirement>, w: World, e: Event)
    requires Inv(cfg, requirements, w)
    ensures ToolsGrow(w.tools, Step(cfg, w, e).tools)
  {
    if e.WorkOn? && e.worker in w.workers {
      MoveKeeps(cfg, requirements, w, w.workers[e.worker], e.arrival);
      hide DbOk, WorkerOk, Move;
    }
  }

  // A finished tool run is final: one row per request, and no later claim, retry or lost worker changes it.
  lemma {:induction false} ToolAnswersAreFinal(cfg: Settings, requirements: seq<Requirement>, w: World,
                                               later: seq<Event>, key: ToolKey)
    requires Inv(cfg, requirements, w) && key in w.tools && w.tools[key].ToolDone?
    ensures key in Run(cfg, w, later).tools && Run(cfg, w, later).tools[key] == w.tools[key]
    decreases |later|
  {
    if later != [] {
      var before := later[..|later| - 1];
      ToolAnswersAreFinal(cfg, requirements, w, before, key);
      RunKeeps(cfg, requirements, w, before);
      StepKeepsTools(cfg, requirements, Run(cfg, w, before), later[|later| - 1]);
      hide Inv, Step;
    }
  }

  // ---- leases ----------------------------------------------------------------------------

  // Along the run, no lease ever runs out while the run is RUNNING.
  ghost predicate LeasesKept(cfg: Settings, w: World, events: seq<Event>)
    decreases |events|
  {
    && (events != [] ==> LeasesKept(cfg, w, events[..|events| - 1]))
    && var reached := Run(cfg, w, events);
       reached.db.run.status == RunRunning ==> Held(reached.db.run.lease, reached.now)
  }

  ghost predicate Exclusive(w: World) {
    && (forall a, b :: a in w.workers && b in w.workers ==> a == b)
    && (forall k :: k in w.workers ==> w.db.run.status == RunRunning && w.workers[k].s.version == w.db.run.version)
  }

  // A lease that is kept is exclusive: one worker at most, and its checkpoints are never refused.
  lemma {:induction false} KeptLeasesAreExclusive(cfg: Settings, requirements: seq<Requirement>,
                                                  scope: set<RequirementId>, deadline: nat, attempts: nat,
                                                  events: seq<Event>)
    requires LeasesKept(cfg, Start(requirements, scope, deadline, attempts), events)
    ensures Exclusive(Reached(cfg, requirements, scope, deadline, attempts, events))
    decreases |events|
  {
    if events != [] {
      var before := events[..|events| - 1];
      KeptLeasesAreExclusive(cfg, requirements, scope, deadline, attempts, before);
      ReachedOk(cfg, requirements, scope, deadline, attempts, before);
      ExclusiveStep(cfg, Reached(cfg, requirements, scope, deadline, attempts, before), events[|events| - 1]);
    }
  }

  lemma ExclusiveStep(cfg: Settings, w: World, e: Event)
    requires Exclusive(w) && w.db.run.snapshot.version == w.db.run.version
    requires w.db.run.status == RunRunning ==> Held(w.db.run.lease, w.now)
    ensures Exclusive(Step(cfg, w, e))
  {
    if e.WorkOn? && e.worker in w.workers {
      OwnerMoves(cfg, w, w.workers[e.worker], e.arrival);
    }
  }

  // The owner of the run stays at the committed version until it is done.
  lemma OwnerMoves(cfg: Settings, w: World, p: Worker, arrival: Arrival)
    requires w.db.run.status == RunRunning && p.s.version == w.db.run.version
    ensures
      var m := Move(cfg, w, p, arrival);
      m.worker.Some? ==> m.db.run.status == RunRunning && m.worker.value.s.version == m.db.run.version
  {
    hide Begin, Resume, StoreEvidence, InvalidRequest, RefusedCall, BudgetStop, Allowed;
    match p
    case Looping(s) => AgentProgress.BeginGoesOn(cfg, Late(s, w.now), w.db.evidence, s);
    case Asking(s, key) =>
      if key in w.calls && w.calls[key].CallDone? {
        AgentProgress.ResumeGoesOn(cfg, Late(s, w.now), w.db.evidence, s, key.node,
                                   Reply(w.calls[key].call, w.calls[key].answer));
      }
    case Awaiting(s, key, call) =>
      if arrival.ModelAnswers? {
        AgentProgress.ResumeGoesOn(cfg, Late(s, w.now), w.db.evidence, s, key.node, Reply(call, arrival.answer));
      }
    case Tooling(_, _, _, _) => ToolOwnerMoves(cfg, w, p, arrival);
    case Executing(_, _, _, _, _, _) => ToolOwnerMoves(cfg, w, p, arrival);
    case _ =>
      hide ClaimCall, StartTool, AfterTool, FinishTools;
  }

  lemma ToolOwnerMoves(cfg: Settings, w: World, p: Worker, arrival: Arrival)
    requires p.Tooling? || p.Executing?
    ensures
      var m := Move(cfg, w, p, arrival);
      m.db == w.db && m.worker.Some? && m.worker.value.s.version == p.s.version
  {
    hide InvalidRequest, RefusedCall, KeyOf, BudgetStop, Recorded;
  }
}
