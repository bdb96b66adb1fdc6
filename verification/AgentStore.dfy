/** The transactions of the investigation service on one run: its run, job and case rows, its step log
    and its evidence. Each function is one committed session; the class performs them in place. */
module AgentStore {
  import opened Common
  import opened AgentTypes
  import opened AgentGraph

  datatype RunStatus = RunPending | RunRunning | RunCompleted | RunNeedsReview | RunFailed | RunCancelled
  datatype JobStatus = JobPending | JobRunning | JobSucceeded | JobRetryWait | JobFailed | JobCancelled
  datatype CaseStatus =
    CaseReady | CaseInvestigating | CaseInvestigated | CaseNeedsReview | CaseDecided | CaseCancelled

  datatype RunRow = RunRow(
    status: RunStatus,
    scope: set<RequirementId>,
    snapshot: State,
    version: nat,
    next: Option<Node>,
    lease: Option<nat>,
    stopReason: Option<StopReason>,
    result: Option<Decision>)

  datatype JobRow = JobRow(
    status: JobStatus,
    attempt: nat,
    maxAttempts: nat,
    lease: Option<nat>,
    retryable: bool)

  datatype Db = Db(
    run: RunRow,
    job: JobRow,
    caseStatus: CaseStatus,
    steps: seq<StepRow>,
    evidence: EvidenceTable)

  predicate Terminal(status: RunStatus) {
    status == RunCompleted || status == RunNeedsReview
  }

  predicate Dead(status: RunStatus) {
    status == RunFailed || status == RunCancelled
  }

  predicate Startable(status: JobStatus) {
    status == JobPending || status == JobRunning || status == JobRetryWait
  }

  predicate Held(lease: Option<nat>, now: nat) {
    lease.Some? && lease.value > now
  }

  // ---- prepare ---------------------------------------------------------------------------

  function RequiredIds(requirements: seq<Requirement>): (r: seq<RequirementId>)
    ensures forall id :: id in r <==>
      exists q :: q in requirements && q.id == id && q.required && q.kind == Ordinary
  {
    if requirements == [] then []
    else
      (if requirements[0].required && requirements[0].kind == Ordinary then [requirements[0].id] else [])
      + RequiredIds(requirements[1..])
  }

  function InScope(requirements: seq<Requirement>, scope: set<RequirementId>): (r: seq<Requirement>)
    ensures forall q :: q in r <==> q in requirements && q.id in scope
  {
    if requirements == [] then []
    else (if requirements[0].id in scope then [requirements[0]] else []) + InScope(requirements[1..], scope)
  }

  // No scope means every requirement of the case.
  function Chosen(requirements: seq<Requirement>, scope: set<RequirementId>): seq<Requirement> {
    if scope == {} then requirements else InScope(requirements, scope)
  }

  function InitialState(requirements: seq<Requirement>, deadline: nat): State {
    State(requirements, [], [], [], RequiredIds(requirements), {}, None, 0, 0, 0, 0, 0, 0,
          Some(Plan), 0, deadline, None, None)
  }

  function InitialDb(requirements: seq<Requirement>, scope: set<RequirementId>, deadline: nat,
                     maxAttempts: nat): Db {
    Db(RunRow(RunPending, scope, InitialState(requirements, deadline), 0, Some(Plan), None, None, None),
       JobRow(JobPending, 0, maxAttempts, None, false),
       CaseReady, [], map[])
  }

  // A case has at most one investigation; asking again for it returns the one there is.
  function Prepare(existing: Option<Db>, caseStatus: CaseStatus, requirements: seq<Requirement>,
                   scope: set<RequirementId>, now: nat, timeout: nat, maxAttempts: nat)
    : Result<Db, ErrorCode>
  {
    match existing
    case Some(db) =>
      if scope != {} && scope != db.run.scope then Err(ScopeConflict)
      else if Dead(db.run.status) then Err(NotResumable)
      else Ok(db)
    case None =>
      if caseStatus != CaseReady then Err(CaseNotReady)
      else if exists id :: id in scope && forall q :: q in requirements ==> q.id != id
      then Err(ActionInvalid)
      else
        var chosen := Chosen(requirements, scope);
        if chosen == [] then Err(CaseNotReady)
        else Ok(InitialDb(chosen, scope, now + timeout, maxAttempts))
  }

  // ---- claim -----------------------------------------------------------------------------

  datatype ClaimResult = Claimed(db: Db, s: State) | Finished | Rejected(code: ErrorCode)

  function ClaimRun(cfg: Settings, now: nat, db: Db): ClaimResult {
    if Terminal(db.run.status) then Finished
    else if Dead(db.run.status) then Rejected(NotResumable)
    else if db.run.status == RunRunning && Held(db.run.lease, now) then Rejected(AlreadyRunning)
    else if db.job.status == JobRunning && Held(db.job.lease, now) then Rejected(AlreadyRunning)
    else if !Startable(db.job.status) then Rejected(NotResumable)
    else if db.caseStatus != CaseReady && db.caseStatus != CaseInvestigating then Rejected(CaseNotReady)
    else
      var lease := Some(now + cfg.jobLease);
      Claimed(db.(run := db.run.(status := RunRunning, lease := lease),
                  job := db.job.(status := JobRunning, attempt := db.job.attempt + 1, lease := lease),
                  caseStatus := CaseInvestigating),
              db.run.snapshot)
  }

  // ---- checkpoint ------------------------------------------------------------------------

  datatype SaveResult = Saved(db: Db, s: State) | Refused(code: ErrorCode)

  function Advance(s: State, next: Option<Node>): State {
    s.(next := next, version := s.version + 1)
  }

  function Checkpoint(cfg: Settings, now: nat, db: Db, s: State, c: Commit): SaveResult {
    if !Allowed(c.node, c.next) then Refused(TransitionInvalid)
    else if s.next != Some(c.node) then Refused(TransitionInvalid)
    else if db.run.version != s.version || db.run.status != RunRunning then Refused(StateConflict)
    else
      var s' := Advance(s, c.next);
      var lease := Some(now + cfg.jobLease);
      Saved(db.(run := db.run.(next := c.next, snapshot := s', version := s'.version, lease := lease),
                job := db.job.(lease := lease),
                evidence := StoreEvidence(db.evidence, c.evidence),
                steps := db.steps + [StepRow(c.node, s.iteration, s'.version, c.output)]),
            s')
  }

  // ---- terminal updates ------------------------------------------------------------------

  function Complete(db: Db, s: State, decision: Decision, reason: StopReason): Result<Db, ErrorCode> {
    if db.run.version != s.version then Err(StateConflict)
    else
      var review := decision.verdict == NeedsHumanReview;
      var s' := s.(next := None, decision := Some(decision), stopReason := Some(reason));
      Ok(db.(run := db.run.(status := if review then RunNeedsReview else RunCompleted,
                            next := None, snapshot := s', lease := None,
                            stopReason := Some(reason), result := Some(decision)),
             job := db.job.(status := JobSucceeded, lease := None),
             caseStatus := if review then CaseNeedsReview else CaseInvestigated))
  }

  function Fail(db: Db, code: ErrorCode): Db {
    db.(run := db.run.(status := RunFailed, stopReason := Some(Failure(code)), lease := None),
        job := db.job.(status := JobFailed, lease := None),
        caseStatus := CaseNeedsReview)
  }

  function DeferRetry(db: Db, code: ErrorCode): Db {
    if db.job.attempt >= db.job.maxAttempts then
      db.(run := db.run.(status := RunFailed, stopReason := Some(Failure(code)), lease := None),
          job := db.job.(status := JobFailed, retryable := false, lease := None),
          caseStatus := CaseNeedsReview)
    else
      db.(run := db.run.(status := RunPending, stopReason := Some(Failure(code)), lease := None),
          job := db.job.(status := JobRetryWait, retryable := true, lease := None))
  }

  // ---- the same sessions, in place -------------------------------------------------------

  /** The private state of a worker. */
  class Investigation {
    const requirements: seq<Requirement>
    const deadline: nat
    var selected: seq<Item>
    var observations: seq<Observation>
    var evidenceIds: seq<EvidenceId>
    var missing: seq<RequirementId>
    var contradictory: set<RequirementId>
    var pending: Option<Action>
    var iteration: nat
    var vlmCalls: nat
    var consecutiveFailures: nat
    var totalFailures: nat
    var stagnant: nat
    var lastEvidenceCount: nat
    var next: Option<Node>
    var version: nat
    var decision: Option<Decision>
    var stopReason: Option<StopReason>

    constructor (s: State)
      ensures View() == s
    {
      requirements, deadline := s.requirements, s.deadline;
      selected, observations, evidenceIds := s.selected, s.observations, s.evidenceIds;
      missing, contradictory, pending := s.missing, s.contradictory, s.pending;
      iteration, vlmCalls := s.iteration, s.vlmCalls;
      consecutiveFailures, totalFailures := s.consecutiveFailures, s.totalFailures;
      stagnant, lastEvidenceCount := s.stagnant, s.lastEvidenceCount;
      next, version, decision, stopReason := s.next, s.version, s.decision, s.stopReason;
    }

    function View(): State
      reads this
    {
      State(requirements, selected, observations, evidenceIds, missing, contradictory, pending,
            iteration, vlmCalls, consecutiveFailures, totalFailures, stagnant, lastEvidenceCount,
            next, version, deadline, decision, stopReason)
    }
  }

  class InvestigationService {
    const cfg: Settings
    var run: RunRow
    var job: JobRow
    var caseStatus: CaseStatus
    var steps: seq<StepRow>
    var evidence: EvidenceTable

    constructor (cfg: Settings, db: Db)
      ensures View() == db && this.cfg == cfg
    {
      this.cfg := cfg;
      run, job, caseStatus, steps, evidence := db.run, db.job, db.caseStatus, db.steps, db.evidence;
    }

    function View(): Db
      reads this
    {
      Db(run, job, caseStatus, steps, evidence)
    }

    method ClaimState(now: nat) returns (r: Result<State, ErrorCode>, finished: bool)
      modifies this
      ensures match ClaimRun(cfg, now, old(View()))
              case Claimed(db, s) => !finished && r == Ok(s) && View() == db
              case Finished => finished && View() == old(View())
              case Rejected(code) => !finished && r == Err(code) && View() == old(View())
    {
      finished := false;
      if Terminal(run.status) {
        return Ok(run.snapshot), true;
      }
      if Dead(run.status) {
        return Err(NotResumable), false;
      }
      if run.status == RunRunning && Held(run.lease, now) {
        return Err(AlreadyRunning), false;
      }
      if job.status == JobRunning && Held(job.lease, now) {
        return Err(AlreadyRunning), false;
      }
      if !Startable(job.status) {
        return Err(NotResumable), false;
      }
      if caseStatus != CaseReady && caseStatus != CaseInvestigating {
        return Err(CaseNotReady), false;
      }
      var lease := Some(now + cfg.jobLease);
      job := job.(status := JobRunning, attempt := job.attempt + 1, lease := lease);
      run := run.(status := RunRunning, lease := lease);
      caseStatus := CaseInvestigating;
      r := Ok(run.snapshot);
    }

    // Rows whose identity is already stored stay as they are.
    method AppendPending(rows: seq<EvidenceRow>)
      modifies this`evidence
      ensures evidence == StoreEvidence(old(evidence), rows)
    {
      var i := 0;
      while i < |rows|
        invariant 0 <= i <= |rows|
        invariant StoreEvidence(evidence, rows[i..]) == StoreEvidence(old(evidence), rows)
      {
        assert rows[i..][1..] == rows[i + 1..];
        if rows[i].id !in evidence {
          evidence := evidence[rows[i].id := rows[i]];
        }
        i := i + 1;
      }
    }

    // A refused checkpoint leaves the tables alone; the caller's state may already have moved.
    method Save(now: nat, state: Investigation, c: Commit) returns (r: Result<(), ErrorCode>)
      modifies this, state
      ensures match Checkpoint(cfg, now, old(View()), old(state.View()), c)
              case Saved(db, s) => r == Ok(()) && View() == db && state.View() == s
              case Refused(code) => r == Err(code) && View() == old(View())
    {
      if !Allowed(c.node, c.next) {
        return Err(TransitionInvalid);
      }
      if state.next != Some(c.node) {
        return Err(TransitionInvalid);
      }
      var previous := state.version;
      state.next := c.next;
      state.version := state.version + 1;
      if run.version != previous || run.status != RunRunning {
        return Err(StateConflict);
      }
      var lease := Some(now + cfg.jobLease);
      run := run.(next := c.next, snapshot := state.View(), version := state.version, lease := lease);
      job := job.(lease := lease);
      AppendPending(c.evidence);
      steps := steps + [StepRow(c.node, state.iteration, state.version, c.output)];
      r := Ok(());
    }

    method Finish(state: Investigation, decision: Decision, reason: StopReason) returns (r: Result<(), ErrorCode>)
      modifies this, state
      ensures match Complete(old(View()), old(state.View()), decision, reason)
              case Ok(db) => r == Ok(()) && View() == db && state.View() == db.run.snapshot
              case Err(code) => r == Err(code) && View() == old(View())
    {
      var review := decision.verdict == NeedsHumanReview;
      state.decision := Some(decision);
      state.stopReason := Some(reason);
      state.next := None;
      ghost var ended := old(state.View()).(next := None, decision := Some(decision), stopReason := Some(reason));
      assert state.View() == ended;
      if run.version != state.version {
        return Err(StateConflict);
      }
      run := run.(status := if review then RunNeedsReview else RunCompleted, next := None,
                  snapshot := state.View(), lease := None, stopReason := Some(reason),
                  result := Some(decision));
      job := job.(status := JobSucceeded, lease := None);
      caseStatus := if review then CaseNeedsReview else CaseInvestigated;
      r := Ok(());
    }

    method FailRun(code: ErrorCode)
      modifies this
      ensures View() == Fail(old(View()), code)
    {
      run := run.(status := RunFailed, stopReason := Some(Failure(code)), lease := None);
      job := job.(status := JobFailed, lease := None);
      caseStatus := CaseNeedsReview;
    }

    method Defer(code: ErrorCode)
      modifies this
      ensures View() == DeferRetry(old(View()), code)
    {
      if job.attempt >= job.maxAttempts {
        run := run.(status := RunFailed, stopReason := Some(Failure(code)), lease := None);
        job := job.(status := JobFailed, retryable := false, lease := None);
        caseStatus := CaseNeedsReview;
      } else {
        run := run.(status := RunPending, stopReason := Some(Failure(code)), lease := None);
        job := job.(status := JobRetryWait, retryable := true, lease := None);
      }
    }
  }
}
