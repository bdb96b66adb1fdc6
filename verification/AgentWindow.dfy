/** The window between the DECIDE step and the end of a run, in which a claim does harm: it loses the
    decision of a crashed worker, and it can fail a run that completes meanwhile. */
module AgentWindow {
  import opened Common
  import opened AgentTypes
  import opened AgentGraph
  import opened AgentCalls
  import opened AgentStore
  import opened AgentMachine
  import opened AgentSafety
  import opened AgentGuarantees
  import opened AgentEndings

  // ---- the window after DECIDE -----------------------------------------------------------

  // No lease reaches further than one lease time from now.
  ghost predicate LeasesNear(cfg: Settings, w: World) {
    && (w.db.run.lease.Some? ==> w.db.run.lease.value <= w.now + cfg.jobLease)
    && (w.db.job.lease.Some? ==> w.db.job.lease.value <= w.now + cfg.jobLease)
  }

  lemma MoveKeepsLeasesNear(cfg: Settings, w: World, p: Worker, arrival: Arrival)
    requires LeasesNear(cfg, w)
    ensures LeasesNear(cfg, w.(db := Move(cfg, w, p, arrival).db))
  {
    hide Begin, Resume, ClaimCall, StartTool, AfterTool, FinishTools, StoreEvidence, RefusedCall, Allowed;
  }

  lemma StepKeepsLeasesNear(cfg: Settings, w: World, e: Event)
    requires LeasesNear(cfg, w)
    ensures LeasesNear(cfg, Step(cfg, w, e))
  {
    hide Move;
    if e.WorkOn? && e.worker in w.workers {
      MoveKeepsLeasesNear(cfg, w, w.workers[e.worker], e.arrival);
    }
  }

  lemma {:induction false} RunKeepsLeasesNear(cfg: Settings, w: World, events: seq<Event>)
    requires LeasesNear(cfg, w)
    ensures LeasesNear(cfg, Run(cfg, w, events))
    decreases |events|
  {
    if events != [] {
      hide Step, LeasesNear;
      RunKeepsLeasesNear(cfg, w, events[..|events| - 1]);
      StepKeepsLeasesNear(cfg, Run(cfg, w, events[..|events| - 1]), events[|events| - 1]);
    }
  }

  // The DECIDE step is the last of the log, and the snapshot has no next node.
  lemma DecidingIsLast(cfg: Settings, requirements: seq<Requirement>, w: World, k: nat)
    requires Inv(cfg, requirements, w) && k in w.workers && w.workers[k].Deciding?
    ensures w.workers[k].s.version == w.db.run.version && w.db.run.snapshot.next == None
  {
    hide HeadOk, AllSourced, Knows, AllGrounded, CompletedOk, DecisionOk;
    var p := w.workers[k];
    assert WorkerOk(cfg, requirements, w.db, w.tools, p);
    assert p.s.version < |w.db.steps| ==> Allowed(w.db.steps[p.s.version - 1].node, Some(w.db.steps[p.s.version].node));
    assert Follows(w.db.steps, w.db.run.snapshot.version, w.db.run.snapshot.next) by {
      hide *;
      SnapshotFollows(cfg, requirements, w);
    }
  }

  lemma SnapshotFollows(cfg: Settings, requirements: seq<Requirement>, w: World)
    requires Inv(cfg, requirements, w)
    ensures w.db.run.snapshot.version == |w.db.steps|
            && Follows(w.db.steps, w.db.run.snapshot.version, w.db.run.snapshot.next)
  {
  }

  function Takeover(cfg: Settings, j: nat): seq<Event> {
    [Tick(cfg.jobLease), ClaimBy(j), WorkOn(j, Nothing), WorkOn(j, Nothing)]
  }

  // Whoever claims a run without a next node fails it.
  lemma ClaimWithoutNextFails(cfg: Settings, w: World, j: nat)
    requires j !in w.workers && w.db.run.snapshot.next == None && Claimable(cfg, w)
    ensures var u := Run(cfg, w, [ClaimBy(j), WorkOn(j, Nothing), WorkOn(j, Nothing)]);
            u.db.run.status == RunFailed && Closed(u.db) && u.db.steps == w.db.steps && u.workers == w.workers
  {
    ThreeSteps(cfg, w, ClaimBy(j), WorkOn(j, Nothing), WorkOn(j, Nothing));
    var s := w.db.run.snapshot;
    var w1 := Step(cfg, w, ClaimBy(j));
    assert w1.workers == w.workers[j := Looping(s)];
    var w2 := Step(cfg, w1, WorkOn(j, Nothing));
    assert w2.workers == w.workers[j := Failing(s, CheckpointInvalid)];
    assert w2.workers - {j} == w.workers;
  }

  lemma TakeoverFails(cfg: Settings, w: World, j: nat)
    requires w.workers == map[] && w.db.run.status == RunRunning && w.db.run.snapshot.next == None
    requires Lifecycle(w.db) && LeasesNear(cfg, w)
    ensures var u := Run(cfg, w, Takeover(cfg, j));
            u.db.run.status == RunFailed && Closed(u.db) && u.db.steps == w.db.steps && u.workers == map[]
  {
    hide Run;
    var waited := Step(cfg, w, Tick(cfg.jobLease));
    var claim := [ClaimBy(j), WorkOn(j, Nothing), WorkOn(j, Nothing)];
    ClaimWithoutNextFails(cfg, waited, j);
    RunsOn(cfg, w, Tick(cfg.jobLease), claim);
    assert [Tick(cfg.jobLease)] + claim == Takeover(cfg, j);
  }

  // The DECIDE step is committed and its worker, the only one, has not ended the run yet.
  ghost predicate InWindow(w: World, k: nat) {
    w.workers.Keys == {k} && w.workers[k].Deciding? && w.db.run.status == RunRunning
  }

  // If the last worker crashes after the DECIDE step and before the end, the next claim after the lease
  // fails the run, and then nothing can change it any more: the committed decision is lost.
  lemma CrashAfterDecideLosesTheDecision(cfg: Settings, requirements: seq<Requirement>, scope: set<RequirementId>,
                                         deadline: nat, attempts: nat, events: seq<Event>, k: nat, j: nat,
                                         later: seq<Event>)
    requires InWindow(Reached(cfg, requirements, scope, deadline, attempts, events), k)
    ensures
      var w := Reached(cfg, requirements, scope, deadline, attempts, events);
      var db := Reached(cfg, requirements, scope, deadline, attempts,
                        events + [CrashOf(k)] + Takeover(cfg, j) + later).db;
      db.run.status == RunFailed && db.steps == w.db.steps
  {
    var w0 := Start(requirements, scope, deadline, attempts);
    var w := Reached(cfg, requirements, scope, deadline, attempts, events);
    ReachedOk(cfg, requirements, scope, deadline, attempts, events);
    ReachedLivesOn(cfg, requirements, scope, deadline, attempts, events);
    RunKeepsLeasesNear(cfg, w0, events);
    DecidingIsLast(cfg, requirements, w, k);
    hide Inv, Run;
    LastStep(cfg, w0, events, CrashOf(k));
    var crashed := Step(cfg, w, CrashOf(k));
    assert crashed.workers == map[];
    hide Step;
    TakeoverFails(cfg, crashed, j);
    RunsInTurn(cfg, w0, events + [CrashOf(k)], Takeover(cfg, j));
    RunsInTurn(cfg, w0, events + [CrashOf(k)] + Takeover(cfg, j), later);
    ClosedRunsRest(cfg, Run(cfg, crashed, Takeover(cfg, j)), later);
  }

  // ---- a completed run that fails --------------------------------------------------------

  // The lease runs out, another worker claims and finds no next node, and the first worker ends the run.
  function Overtake(cfg: Settings, k: nat, j: nat): seq<Event> {
    [Tick(cfg.jobLease)] + [ClaimBy(j), WorkOn(j, Nothing), WorkOn(k, Nothing)]
  }

  lemma OvertakenEnds(cfg: Settings, w: World, k: nat, j: nat)
    requires InWindow(w, k) && j != k && w.db.run.snapshot.next == None
    requires w.workers[k].s.version == w.db.run.version && Claimable(cfg, w)
    ensures
      var u := Run(cfg, w, [ClaimBy(j), WorkOn(j, Nothing), WorkOn(k, Nothing)]);
      && u.db.run.status == (if w.workers[k].decision.verdict == NeedsHumanReview then RunNeedsReview else RunCompleted)
      && u.db.run.result == Some(w.workers[k].decision)
      && u.workers == map[j := Failing(w.db.run.snapshot, CheckpointInvalid)]
      && u.db.steps == w.db.steps
  {
    ThreeSteps(cfg, w, ClaimBy(j), WorkOn(j, Nothing), WorkOn(k, Nothing));
    var s := w.db.run.snapshot;
    var w1 := Step(cfg, w, ClaimBy(j));
    assert w1.workers == w.workers[j := Looping(s)];
    var w2 := Step(cfg, w1, WorkOn(j, Nothing));
    assert w2.workers == w.workers[j := Failing(s, CheckpointInvalid)];
    assert w2.workers - {k} == map[j := Failing(s, CheckpointInvalid)];
  }

  lemma LeftoverFails(cfg: Settings, w: World, j: nat)
    requires w.workers.Keys == {j} && w.workers[j].Failing?
    ensures
      var u := Step(cfg, w, WorkOn(j, Nothing));
      u.db.run.status == RunFailed && Closed(u.db) && u.db.steps == w.db.steps && u.workers == map[]
  {
  }

  // A claim in the window can also undo a completion: the first worker still ends the run with its decision,
  // and then the second one, which found no next node, fails it. From then on it stays failed.
  lemma ClaimAfterDecideFailsTheEndedRun(cfg: Settings, requirements: seq<Requirement>, scope: set<RequirementId>,
                                         deadline: nat, attempts: nat, events: seq<Event>, k: nat, j: nat,
                                         later: seq<Event>)
    requires j != k && InWindow(Reached(cfg, requirements, scope, deadline, attempts, events), k)
    ensures
      var w := Reached(cfg, requirements, scope, deadline, attempts, events);
      var decision := w.workers[k].decision;
      var ended := Reached(cfg, requirements, scope, deadline, attempts, events + Overtake(cfg, k, j)).db;
      var after := Reached(cfg, requirements, scope, deadline, attempts,
                           events + Overtake(cfg, k, j) + [WorkOn(j, Nothing)] + later).db;
      && ended.run.status == (if decision.verdict == NeedsHumanReview then RunNeedsReview else RunCompleted)
      && ended.run.result == Some(decision)
      && after.run.status == RunFailed && after.steps == w.db.steps
  {
    var w0 := Start(requirements, scope, deadline, attempts);
    var w := Reached(cfg, requirements, scope, deadline, attempts, events);
    ReachedOk(cfg, requirements, scope, deadline, attempts, events);
    ReachedLivesOn(cfg, requirements, scope, deadline, attempts, events);
    RunKeepsLeasesNear(cfg, w0, events);
    DecidingIsLast(cfg, requirements, w, k);
    hide Inv, Run;
    OvertakeEnds(cfg, w, k, j);
    RunsInTurn(cfg, w0, events, Overtake(cfg, k, j));
    var ended := Run(cfg, w, Overtake(cfg, k, j));
    LeftoverFails(cfg, ended, j);
    hide Step;
    LastStep(cfg, w0, events + Overtake(cfg, k, j), WorkOn(j, Nothing));
    RunsInTurn(cfg, w0, events + Overtake(cfg, k, j) + [WorkOn(j, Nothing)], later);
    ClosedRunsRest(cfg, Step(cfg, ended, WorkOn(j, Nothing)), later);
  }

  lemma OvertakeEnds(cfg: Settings, w: World, k: nat, j: nat)
    requires InWindow(w, k) && j != k && w.db.run.snapshot.next == None
    requires w.workers[k].s.version == w.db.run.version && Lifecycle(w.db) && LeasesNear(cfg, w)
    ensures
      var u := Run(cfg, w, Overtake(cfg, k, j));
      && u.db.run.status == (if w.workers[k].decision.verdict == NeedsHumanReview then RunNeedsReview else RunCompleted)
      && u.db.run.result == Some(w.workers[k].decision)
      && u.workers.Keys == {j} && u.workers[j].Failing?
      && u.db.steps == w.db.steps
  {
    hide Run;
    var waited := Step(cfg, w, Tick(cfg.jobLease));
    var claim := [ClaimBy(j), WorkOn(j, Nothing), WorkOn(k, Nothing)];
    OvertakenEnds(cfg, waited, k, j);
    RunsOn(cfg, w, Tick(cfg.jobLease), claim);
  }
}
