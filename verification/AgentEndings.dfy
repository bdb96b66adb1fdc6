/** How records and runs end: which recorded answers are final, when a run is closed for good, and what a
    repeated `prepare` finds. */
module AgentEndings {
  import opened Common
  import opened AgentTypes
  import opened AgentGraph
  import opened AgentCalls
  import opened AgentStore
  import opened AgentMachine
  import opened AgentGuarantees

  // ---- recorded answers ------------------------------------------------------------------

  // Some worker holds the call of the key and will end it.
  ghost predicate Awaited(w: World, key: ModelKey) {
    exists k :: k in w.workers && w.workers[k].Awaiting? && w.workers[k].key == key
  }

  ghost predicate Answers(calls: CallTable, key: ModelKey, row: CallRow) {
    key in calls && calls[key] == row
  }

  lemma MoveSparesAnswer(cfg: Settings, w: World, p: Worker, arrival: Arrival, key: ModelKey, row: CallRow)
    requires row.CallDone? && Answers(w.calls, key, row) && !(p.Awaiting? && p.key == key)
    ensures var m := Move(cfg, w, p, arrival);
            Answers(m.calls, key, row) && !(m.worker.Some? && m.worker.value.Awaiting? && m.worker.value.key == key)
  {
    hide Checkpoint, Complete, Fail, DeferRetry, StartTool, Enter, BudgetStop, ValidAction, Enforce,
      ValidateEvidence, AppendIds, StillMissing, CountResult, Select, Refs;
  }

  lemma AnswerStaysUnawaited(cfg: Settings, w: World, e: Event, key: ModelKey, row: CallRow)
    requires row.CallDone? && Answers(w.calls, key, row) && !Awaited(w, key)
    ensures Answers(Step(cfg, w, e).calls, key, row) && !Awaited(Step(cfg, w, e), key)
  {
    hide Move, Answers;
    if e.WorkOn? && e.worker in w.workers {
      MoveSparesAnswer(cfg, w, w.workers[e.worker], e.arrival, key, row);
    }
  }

  lemma {:induction false} UnawaitedAnswersStand(cfg: Settings, w: World, later: seq<Event>, key: ModelKey,
                                                 row: CallRow)
    requires row.CallDone? && Answers(w.calls, key, row) && !Awaited(w, key)
    ensures Answers(Run(cfg, w, later).calls, key, row) && !Awaited(Run(cfg, w, later), key)
    decreases |later|
  {
    if later != [] {
      var before := later[..|later| - 1];
      hide Step, Awaited, Answers;
      UnawaitedAnswersStand(cfg, w, before, key, row);
      AnswerStaysUnawaited(cfg, Run(cfg, w, before), later[|later| - 1], key, row);
    }
  }

  // A recorded answer stands in every later run if and only if no worker still waits for an answer under
  // its key: both endings of a call overwrite the record.
  lemma AnswersAreFinalExactly(cfg: Settings, w: World, key: ModelKey)
    requires key in w.calls && w.calls[key].CallDone?
    ensures (forall later :: Answers(Run(cfg, w, later).calls, key, w.calls[key])) <==> !Awaited(w, key)
  {
    if !Awaited(w, key) {
      forall later
        ensures Answers(Run(cfg, w, later).calls, key, w.calls[key])
      {
        UnawaitedAnswersStand(cfg, w, later, key, w.calls[key]);
      }
    } else {
      var k :| k in w.workers && w.workers[k].Awaiting? && w.workers[k].key == key;
      var lost := [WorkOn(k, ModelFails("", false))];
      LastStep(cfg, w, [], WorkOn(k, ModelFails("", false)));
      assert [] + lost == lost;
      assert !Answers(Run(cfg, w, lost).calls, key, w.calls[key]);
    }
  }

  // Until then every claim of the key, whenever it comes, replays the answer.
  lemma FinalAnswersAreReplayed(cfg: Settings, w: World, key: ModelKey, later: seq<Event>, id: nat)
    requires key in w.calls && w.calls[key].CallDone? && !Awaited(w, key)
    ensures var u := Run(cfg, w, later);
            ClaimCall(u.calls, key, u.now, cfg.callLease, id)
            == Replay(Reply(w.calls[key].call, w.calls[key].answer))
  {
    UnawaitedAnswersStand(cfg, w, later, key, w.calls[key]);
  }

  ghost predicate RowsHeld(w: World) {
    forall k :: k in w.workers && w.workers[k].Awaiting? ==>
      w.workers[k].key in w.calls && w.calls[w.workers[k].key].CallRunning?
  }

  lemma MoveHolds(cfg: Settings, w: World, p: Worker, arrival: Arrival)
    requires p.Awaiting? ==> p.key in w.calls && w.calls[p.key].CallRunning?
    ensures var m := Move(cfg, w, p, arrival);
            m.worker.Some? && m.worker.value.Awaiting? ==>
              m.worker.value.key in m.calls && m.calls[m.worker.value.key].CallRunning?
  {
    hide Checkpoint, Complete, Fail, DeferRetry, StartTool, Enter, BudgetStop, ValidAction, Enforce,
      ValidateEvidence, AppendIds, StillMissing, CountResult, Select, Refs;
  }

  lemma HoldingStep(cfg: Settings, w: World, e: Event)
    requires Exclusive(w) && RowsHeld(w)
    ensures RowsHeld(Step(cfg, w, e))
  {
    hide Move;
    if e.WorkOn? && e.worker in w.workers {
      MoveHolds(cfg, w, w.workers[e.worker], e.arrival);
    }
  }

  lemma {:induction false} KeptLeasesHoldRows(cfg: Settings, requirements: seq<Requirement>, scope: set<RequirementId>,
                                              deadline: nat, attempts: nat, events: seq<Event>)
    requires LeasesKept(cfg, Start(requirements, scope, deadline, attempts), events)
    ensures RowsHeld(Reached(cfg, requirements, scope, deadline, attempts, events))
    decreases |events|
  {
    if events != [] {
      var before := events[..|events| - 1];
      KeptLeasesHoldRows(cfg, requirements, scope, deadline, attempts, before);
      KeptLeasesAreExclusive(cfg, requirements, scope, deadline, attempts, before);
      HoldingStep(cfg, Reached(cfg, requirements, scope, deadline, attempts, before), events[|events| - 1]);
    }
  }

  // What is recorded while leases are kept is final, even if leases are lost later.
  lemma KeptLeasesKeepAnswers(cfg: Settings, requirements: seq<Requirement>, scope: set<RequirementId>,
                              deadline: nat, attempts: nat, events: seq<Event>, key: ModelKey, later: seq<Event>)
    requires LeasesKept(cfg, Start(requirements, scope, deadline, attempts), events)
    requires var w := Reached(cfg, requirements, scope, deadline, attempts, events);
             key in w.calls && w.calls[key].CallDone?
    ensures var w := Reached(cfg, requirements, scope, deadline, attempts, events);
            Answers(Run(cfg, w, later).calls, key, w.calls[key])
  {
    hide LeasesKept, Run;
    KeptLeasesHoldRows(cfg, requirements, scope, deadline, attempts, events);
    var w := Reached(cfg, requirements, scope, deadline, attempts, events);
    UnawaitedAnswersStand(cfg, w, later, key, w.calls[key]);
  }

  // ---- an answer that is lost ------------------------------------------------------------

  function Planning(requirements: seq<Requirement>, deadline: nat): Worker {
    var s := InitialState(requirements, deadline);
    Asking(s.(iteration := 1), ModelKey(Plan, 0, PlanPrompt(1, requirements, [], s.missing)))
  }

  function ClaimAndAsk(k: nat): seq<Event> {
    [ClaimBy(k), WorkOn(k, Nothing), WorkOn(k, Nothing)]
  }

  // A worker that claims a run nobody has advanced asks for a plan.
  lemma ClaimingPlans(cfg: Settings, requirements: seq<Requirement>, deadline: nat, w: World, k: nat)
    requires cfg.maxIterations > 0 && cfg.maxVlmCalls > 0 && cfg.maxToolFailures > 0 && cfg.maxStagnant > 0
    requires k !in w.workers && w.now < deadline && w.db.run.snapshot == InitialState(requirements, deadline)
    requires ClaimRun(cfg, w.now, w.db).Claimed?
    ensures Step(cfg, Step(cfg, w, ClaimBy(k)), WorkOn(k, Nothing))
            == w.(db := ClaimRun(cfg, w.now, w.db).db, workers := w.workers[k := Planning(requirements, deadline)])
  {
    var p := Planning(requirements, deadline);
    assert Begin(cfg, false, w.db.evidence, w.db.run.snapshot) == p;
    var w1 := Step(cfg, w, ClaimBy(k));
    hide Begin;
    var w2 := Step(cfg, w1, WorkOn(k, Nothing));
    assert w2.workers == w.workers[k := p];
  }

  lemma AskingWaits(cfg: Settings, w: World, k: nat)
    requires k in w.workers && w.workers[k].Asking?
    requires ClaimCall(w.calls, w.workers[k].key, w.now, cfg.callLease, w.issued).Ask?
    ensures
      var p := w.workers[k];
      var claim := ClaimCall(w.calls, p.key, w.now, cfg.callLease, w.issued);
      Step(cfg, w, WorkOn(k, Nothing))
      == w.(calls := claim.calls, issued := w.issued + 1, workers := w.workers[k := Awaiting(p.s, p.key, claim.call)])
  {
    hide ClaimCall, Resume;
  }

  // Whoever claims it before the plan is answered waits for the same answer.
  lemma ClaimingAsks(cfg: Settings, requirements: seq<Requirement>, deadline: nat, w: World, k: nat)
    requires cfg.maxIterations > 0 && cfg.maxVlmCalls > 0 && cfg.maxToolFailures > 0 && cfg.maxStagnant > 0
    requires k !in w.workers && w.now < deadline && w.db.run.snapshot == InitialState(requirements, deadline)
    requires ClaimRun(cfg, w.now, w.db).Claimed?
    requires ClaimCall(w.calls, Planning(requirements, deadline).key, w.now, cfg.callLease, w.issued).Ask?
    ensures
      var p := Planning(requirements, deadline);
      var claim := ClaimCall(w.calls, p.key, w.now, cfg.callLease, w.issued);
      Run(cfg, w, ClaimAndAsk(k))
      == World(ClaimRun(cfg, w.now, w.db).db, w.now, claim.calls, w.tools, w.issued + 1,
               w.workers[k := Awaiting(p.s, p.key, claim.call)])
  {
    hide Step;
    ClaimingPlans(cfg, requirements, deadline, w, k);
    var p := Planning(requirements, deadline);
    var w2 := w.(db := ClaimRun(cfg, w.now, w.db).db, workers := w.workers[k := p]);
    AskingWaits(cfg, w2, k);
    ThreeSteps(cfg, w, ClaimBy(k), WorkOn(k, Nothing), WorkOn(k, Nothing));
    hide Planning, ClaimRun, ClaimCall;
    var claim := ClaimCall(w.calls, p.key, w.now, cfg.callLease, w.issued);
    var q := Awaiting(p.s, p.key, claim.call);
    assert w2.workers[k := q] == w.workers[k := q];
  }

  // Two workers in the same call, after the first has lost its lease.
  function Overlap(cfg: Settings): seq<Event> {
    ClaimAndAsk(0) + [Tick(cfg.jobLease + cfg.callLease)] + ClaimAndAsk(1)
  }

  lemma OverlapIsReached(cfg: Settings, requirements: seq<Requirement>, scope: set<RequirementId>,
                         deadline: nat, attempts: nat)
    requires cfg.maxIterations > 0 && cfg.maxVlmCalls > 0 && cfg.maxToolFailures > 0 && cfg.maxStagnant > 0
    requires cfg.jobLease + cfg.callLease < deadline
    ensures
      var p := Planning(requirements, deadline);
      var w := Reached(cfg, requirements, scope, deadline, attempts, Overlap(cfg));
      && w.workers == map[0 := Awaiting(p.s, p.key, 0), 1 := Awaiting(p.s, p.key, 0)]
      && w.calls.Keys == {p.key} && w.now < deadline
  {
    var w0 := Start(requirements, scope, deadline, attempts);
    hide Run, ClaimAndAsk;
    ClaimingAsks(cfg, requirements, deadline, w0, 0);
    var w1 := Run(cfg, w0, ClaimAndAsk(0));
    var tick := Tick(cfg.jobLease + cfg.callLease);
    LastStep(cfg, w0, ClaimAndAsk(0), tick);
    var w2 := Step(cfg, w1, tick);
    ClaimingAsks(cfg, requirements, deadline, w2, 1);
    RunsInTurn(cfg, w0, ClaimAndAsk(0) + [tick], ClaimAndAsk(1));
  }

  // The first worker is answered; then the second fails in the same call and takes the answer away for good.
  lemma AnswersCanBeLost(cfg: Settings, requirements: seq<Requirement>, scope: set<RequirementId>,
                         deadline: nat, attempts: nat, answer: Answer, code: string)
    requires cfg.maxIterations > 0 && cfg.maxVlmCalls > 0 && cfg.maxToolFailures > 0 && cfg.maxStagnant > 0
    requires cfg.jobLease + cfg.callLease < deadline && answer.PlanAnswer?
    ensures
      var key := Planning(requirements, deadline).key;
      var answered := Reached(cfg, requirements, scope, deadline, attempts,
                              Overlap(cfg) + [WorkOn(0, ModelAnswers(answer))]);
      var failed := Step(cfg, answered, WorkOn(1, ModelFails(code, false)));
      && key in answered.calls && answered.calls[key].CallDone? && answered.calls[key].answer == answer
      && key in failed.calls && failed.calls[key].CallFailed?
  {
    OverlapIsReached(cfg, requirements, scope, deadline, attempts);
    var p := Planning(requirements, deadline);
    var w0 := Start(requirements, scope, deadline, attempts);
    var w := Reached(cfg, requirements, scope, deadline, attempts, Overlap(cfg));
    LastStep(cfg, w0, Overlap(cfg), WorkOn(0, ModelAnswers(answer)));
    hide Run, Overlap, Resume, Planning;
    var answered := Step(cfg, w, WorkOn(0, ModelAnswers(answer)));
    assert answered.workers[1] == Awaiting(p.s, p.key, 0);
  }

  // ---- closed runs -----------------------------------------------------------------------

  // The case has left the investigation.
  predicate Closed(db: Db) {
    db.caseStatus != CaseReady && db.caseStatus != CaseInvestigating && db.run.status != RunRunning
  }

  // How the three statuses go together.
  ghost predicate Lifecycle(db: Db) {
    && (db.run.status == RunRunning ==> db.job.status == JobRunning && db.caseStatus == CaseInvestigating)
    && (db.caseStatus == CaseReady || db.caseStatus == CaseInvestigating ==>
          (db.run.status == RunPending || db.run.status == RunRunning) && Startable(db.job.status))
  }

  // The log, the evidence and the version stay as they are.
  ghost predicate Untouched(db: Db, db': Db) {
    db'.steps == db.steps && db'.evidence == db.evidence && db'.run.version == db.run.version
  }

  predicate Claimable(cfg: Settings, w: World) {
    ClaimRun(cfg, w.now, w.db).Claimed?
  }

  lemma MoveLivesOn(cfg: Settings, w: World, p: Worker, arrival: Arrival)
    requires Lifecycle(w.db)
    ensures var m := Move(cfg, w, p, arrival);
            Lifecycle(m.db) && (Closed(w.db) ==> Closed(m.db) && Untouched(w.db, m.db))
  {
    hide Begin, Resume, ClaimCall, StartTool, AfterTool, FinishTools, StoreEvidence, RefusedCall, Allowed;
  }

  lemma StepLivesOn(cfg: Settings, w: World, e: Event)
    requires Lifecycle(w.db)
    ensures Lifecycle(Step(cfg, w, e).db)
    ensures Closed(w.db) ==> Closed(Step(cfg, w, e).db) && Untouched(w.db, Step(cfg, w, e).db)
  {
    hide Move;
    if e.WorkOn? && e.worker in w.workers {
      MoveLivesOn(cfg, w, w.workers[e.worker], e.arrival);
    }
  }

  lemma {:induction false} RunLivesOn(cfg: Settings, w: World, later: seq<Event>)
    requires Lifecycle(w.db)
    ensures Lifecycle(Run(cfg, w, later).db)
    ensures Closed(w.db) ==> Closed(Run(cfg, w, later).db) && Untouched(w.db, Run(cfg, w, later).db)
    decreases |later|
  {
    if later != [] {
      hide Step, Lifecycle, Closed;
      RunLivesOn(cfg, w, later[..|later| - 1]);
      StepLivesOn(cfg, Run(cfg, w, later[..|later| - 1]), later[|later| - 1]);
    }
  }

  lemma ReachedLivesOn(cfg: Settings, requirements: seq<Requirement>, scope: set<RequirementId>, deadline: nat,
                       attempts: nat, events: seq<Event>)
    ensures Lifecycle(Reached(cfg, requirements, scope, deadline, attempts, events).db)
  {
    RunLivesOn(cfg, Start(requirements, scope, deadline, attempts), events);
  }

  lemma OpenRunsAreClaimable(cfg: Settings, w: World)
    requires Lifecycle(w.db) && !Closed(w.db)
    ensures exists later :: Claimable(cfg, Run(cfg, w, later))
  {
    hide Run;
    var run := if w.db.run.lease.Some? then w.db.run.lease.value else 0;
    var job := if w.db.job.lease.Some? then w.db.job.lease.value else 0;
    var wait := Tick(run + job);
    WaitingOpens(cfg, w, run + job);
    LastStep(cfg, w, [], wait);
    NothingRuns(cfg, w);
    assert Claimable(cfg, Run(cfg, w, [] + [wait]));
  }

  lemma NothingRuns(cfg: Settings, w: World)
    ensures Run(cfg, w, []) == w
  {
  }

  // Once both leases have run out, an open run can be claimed.
  lemma WaitingOpens(cfg: Settings, w: World, delta: nat)
    requires Lifecycle(w.db) && !Closed(w.db)
    requires w.db.run.lease.Some? ==> w.db.run.lease.value <= delta
    requires w.db.job.lease.Some? ==> w.db.job.lease.value <= delta
    ensures Claimable(cfg, Step(cfg, w, Tick(delta)))
  {
  }

  // Once closed, always closed: nothing is committed any more, whatever workers are left, and nobody
  // claims the run. Until then somebody can claim it, once the leases have run out.
  lemma ClosedExactlyWhenNeverClaimed(cfg: Settings, requirements: seq<Requirement>, scope: set<RequirementId>,
                                      deadline: nat, attempts: nat, events: seq<Event>)
    ensures
      var w := Reached(cfg, requirements, scope, deadline, attempts, events);
      && (Closed(w.db) <==> forall later :: !Claimable(cfg, Run(cfg, w, later)))
      && (Closed(w.db) ==> forall later :: Closed(Run(cfg, w, later).db) && Untouched(w.db, Run(cfg, w, later).db))
  {
    ReachedLivesOn(cfg, requirements, scope, deadline, attempts, events);
    var w := Reached(cfg, requirements, scope, deadline, attempts, events);
    hide Reached, Run;
    if Closed(w.db) {
      forall later
        ensures Closed(Run(cfg, w, later).db) && Untouched(w.db, Run(cfg, w, later).db)
        ensures !Claimable(cfg, Run(cfg, w, later))
      {
        RunLivesOn(cfg, w, later);
      }
    } else {
      OpenRunsAreClaimable(cfg, w);
    }
  }

  // Every ending closes the run, except one that comes too late and a retry while attempts remain.
  lemma EndingStepCloses(cfg: Settings, w: World, k: nat, arrival: Arrival)
    requires Lifecycle(w.db) && k in w.workers
    ensures
      var p := w.workers[k];
      var db := Step(cfg, w, WorkOn(k, arrival)).db;
      && (p.Failing? ==> Closed(db))
      && (p.Deciding? || p.Stopping? ==> if p.s.version == w.db.run.version then Closed(db) else db == w.db)
      && (p.Deferring? && w.db.run.status == RunRunning ==>
            (Closed(db) <==> w.db.job.attempt >= w.db.job.maxAttempts))
  {
    hide Begin, Resume, ClaimCall, StartTool, AfterTool, FinishTools, Checkpoint, RefusedCall;
  }

  // What a worker's ending means for everything that follows: a failure, a completion at the current version
  // and a retry with no attempt left end the work on the run for good, whatever happens later.
  lemma EndingsClose(cfg: Settings, requirements: seq<Requirement>, scope: set<RequirementId>, deadline: nat,
                     attempts: nat, events: seq<Event>, k: nat, arrival: Arrival, later: seq<Event>)
    requires k in Reached(cfg, requirements, scope, deadline, attempts, events).workers
    ensures
      var w := Reached(cfg, requirements, scope, deadline, attempts, events);
      var p := w.workers[k];
      var after := Run(cfg, w, [WorkOn(k, arrival)] + later);
      p.Failing?
      || ((p.Deciding? || p.Stopping?) && p.s.version == w.db.run.version)
      || (p.Deferring? && w.db.run.status == RunRunning && w.db.job.attempt >= w.db.job.maxAttempts) ==>
        Closed(after.db) && Untouched(w.db, after.db) && !Claimable(cfg, after)
  {
    var w := Reached(cfg, requirements, scope, deadline, attempts, events);
    ReachedLivesOn(cfg, requirements, scope, deadline, attempts, events);
    EndingStepCloses(cfg, w, k, arrival);
    EndingStepCommitsNothing(cfg, w, k, arrival);
    var ended := Step(cfg, w, WorkOn(k, arrival));
    hide Run, Step, Lifecycle;
    RunsOn(cfg, w, WorkOn(k, arrival), later);
    if Closed(ended.db) {
      StepLivesOn(cfg, w, WorkOn(k, arrival));
      RunLivesOn(cfg, ended, later);
    }
  }

  lemma EndingStepCommitsNothing(cfg: Settings, w: World, k: nat, arrival: Arrival)
    requires k in w.workers
    ensures
      var p := w.workers[k];
      p.Failing? || p.Deciding? || p.Stopping? || p.Deferring? ==>
        Untouched(w.db, Step(cfg, w, WorkOn(k, arrival)).db)
  {
    hide Begin, Resume, ClaimCall, StartTool, AfterTool, FinishTools, Checkpoint, RefusedCall;
  }

  // With no worker left a closed run keeps its status, whatever it is.
  lemma {:induction false} ClosedRunsRest(cfg: Settings, w: World, later: seq<Event>)
    requires w.workers == map[] && Closed(w.db)
    ensures Run(cfg, w, later).db == w.db && Run(cfg, w, later).workers == map[]
    decreases |later|
  {
    hide Move;
    if later != [] {
      ClosedRunsRest(cfg, w, later[..|later| - 1]);
    }
  }

  // ---- asking again ----------------------------------------------------------------------

  lemma MoveKeepsScope(cfg: Settings, w: World, p: Worker, arrival: Arrival)
    ensures Move(cfg, w, p, arrival).db.run.scope == w.db.run.scope
  {
    hide Begin, Resume, ClaimCall, StartTool, AfterTool, FinishTools, StoreEvidence, RefusedCall, Allowed;
  }

  lemma {:induction false} RunKeepsScope(cfg: Settings, w: World, events: seq<Event>)
    ensures Run(cfg, w, events).db.run.scope == w.db.run.scope
    decreases |events|
  {
    if events != [] {
      var before := events[..|events| - 1];
      RunKeepsScope(cfg, w, before);
      var u := Run(cfg, w, before);
      var e := events[|events| - 1];
      hide Move, Run;
      if e.WorkOn? && e.worker in u.workers {
        MoveKeepsScope(cfg, u, u.workers[e.worker], e.arrival);
      }
    }
  }

  // Whatever has happened to a prepared run since, asking for it again gives it back as it stands, exactly
  // when it has not failed and the scope it was prepared for is not contradicted.
  lemma PreparingAgainFindsTheRun(cfg: Settings, caseStatus: CaseStatus, requirements: seq<Requirement>,
                                  scope: set<RequirementId>, now: nat, timeout: nat, attempts: nat,
                                  events: seq<Event>, caseStatus': CaseStatus, requirements': seq<Requirement>,
                                  scope': set<RequirementId>, now': nat, timeout': nat, attempts': nat)
    requires Prepare(None, caseStatus, requirements, scope, now, timeout, attempts).Ok?
    ensures
      var prepared := Prepare(None, caseStatus, requirements, scope, now, timeout, attempts).value;
      var db := Run(cfg, World(prepared, now, map[], map[], 0, map[]), events).db;
      var again := Prepare(Some(db), caseStatus', requirements', scope', now', timeout', attempts');
      if scope' == {} || scope' == scope then again == (if Dead(db.run.status) then Err(NotResumable) else Ok(db))
      else again == Err(ScopeConflict)
  {
    var prepared := Prepare(None, caseStatus, requirements, scope, now, timeout, attempts).value;
    RunKeepsScope(cfg, World(prepared, now, map[], map[], 0, map[]), events);
    hide Run;
  }
}
