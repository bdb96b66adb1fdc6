/** What a deferred retry achieves: the failed call stays recorded under the very key that the next claim
    asks, so the retry is refused and the run ends in review at the version where it stood. */
module AgentRetry {
  import opened Common
  import opened AgentTypes
  import opened AgentGraph
  import opened AgentCalls
  import opened AgentStore
  import opened AgentMachine
  import opened AgentSafety
  import opened AgentGuarantees
  import opened AgentEndings

  // ---- who asks what ---------------------------------------------------------------------

  // The request an undisturbed worker makes from the stored snapshot.
  ghost predicate AsksFrom(cfg: Settings, table: EvidenceTable, head: State, s: State, key: ModelKey) {
    && head.next.Some? && CounterStop(cfg, head).None?
    && Enter(table, head, head.next.value) == Asking(s, key)
  }

  // At the committed version a worker works from the stored snapshot.
  ghost predicate AtHead(cfg: Settings, db: Db, p: Worker) {
    p.s.version == db.run.version ==>
      match p
      case Looping(s) => s == db.run.snapshot
      case Asking(s, key) => AsksFrom(cfg, db.evidence, db.run.snapshot, s, key)
      case Awaiting(s, key, _) => AsksFrom(cfg, db.evidence, db.run.snapshot, s, key)
      case _ => true
  }

  ghost predicate AllAtHead(cfg: Settings, w: World) {
    !Closed(w.db) ==> forall k :: k in w.workers ==> AtHead(cfg, w.db, w.workers[k])
  }

  lemma BeginAsks(cfg: Settings, late: bool, table: EvidenceTable, s: State)
    ensures
      var p := Begin(cfg, late, table, s);
      && !p.Looping? && !p.Awaiting? && p.s.version == s.version
      && (p.Asking? ==> AsksFrom(cfg, table, s, p.s, p.key))
  {
    hide Summary;
  }

  // A move leaves its own worker at the head, and the others unless it commits or ends the run.
  ghost predicate HeadKept(cfg: Settings, db: Db, m: Moved) {
    && (m.worker.Some? ==> AtHead(cfg, m.db, m.worker.value))
    && (|| m.db.run.version > db.run.version
        || (m.db.run.version == db.run.version && m.db.run.snapshot == db.run.snapshot && m.db.evidence == db.evidence))
  }

  lemma MoveKeepsHead(cfg: Settings, w: World, p: Worker, arrival: Arrival)
    requires AtHead(cfg, w.db, p)
    ensures var m := Move(cfg, w, p, arrival); Closed(m.db) || HeadKept(cfg, w.db, m)
  {
    hide Begin, Enter, Resume, Checkpoint, StartTool, AfterTool, FinishTools, RefusedCall, CounterStop;
    match p
    case Looping(s) => BeginAsks(cfg, Late(s, w.now), w.db.evidence, s);
    case Asking(s, key) =>
      if key in w.calls && w.calls[key].CallDone? {
        ResumeWorksOn(cfg, Late(s, w.now), w.db.evidence, s, key.node, Reply(w.calls[key].call, w.calls[key].answer));
      }
    case Awaiting(s, key, call) =>
      if arrival.ModelAnswers? {
        ResumeWorksOn(cfg, Late(s, w.now), w.db.evidence, s, key.node, Reply(call, arrival.answer));
      }
    case Tooling(_, _, _, _) => ToolKeepsHead(cfg, w, p, arrival);
    case Executing(_, _, _, _, _, _) => ToolKeepsHead(cfg, w, p, arrival);
    case Committing(_, _) => CommitKeepsHead(cfg, w, p, arrival);
    case _ =>
  }

  lemma ResumeWorksOn(cfg: Settings, late: bool, table: EvidenceTable, s: State, node: Node, reply: Reply)
    ensures var p := Resume(cfg, late, table, s, node, reply); p.Tooling? || p.Committing? || p.Failing?
  {
  }

  lemma ToolKeepsHead(cfg: Settings, w: World, p: Worker, arrival: Arrival)
    requires p.Tooling? || p.Executing?
    ensures HeadKept(cfg, w.db, Move(cfg, w, p, arrival))
  {
    hide InvalidRequest, RefusedCall, KeyOf, BudgetStop, Recorded, CountResult, Select, Refs;
  }

  lemma CommitKeepsHead(cfg: Settings, w: World, p: Worker, arrival: Arrival)
    requires p.Committing?
    ensures HeadKept(cfg, w.db, Move(cfg, w, p, arrival))
  {
    hide StoreEvidence, Allowed;
  }

  lemma StepKeepsHead(cfg: Settings, requirements: seq<Requirement>, w: World, e: Event)
    requires Inv(cfg, requirements, w) && Lifecycle(w.db) && AllAtHead(cfg, w)
    ensures AllAtHead(cfg, Step(cfg, w, e))
  {
    VersionsAgree(cfg, requirements, w);
    hide Inv, Move, AsksFrom;
    StepLivesOn(cfg, w, e);
    if e.WorkOn? && e.worker in w.workers && !Closed(w.db) {
      MoveKeepsHead(cfg, w, w.workers[e.worker], e.arrival);
    }
  }

  lemma VersionsAgree(cfg: Settings, requirements: seq<Requirement>, w: World)
    requires Inv(cfg, requirements, w)
    ensures w.db.run.snapshot.version == w.db.run.version
    ensures forall k :: k in w.workers ==> w.workers[k].s.version <= w.db.run.version
  {
    forall k | k in w.workers
      ensures w.workers[k].s.version <= w.db.run.version
    {
      assert WorkerOk(cfg, requirements, w.db, w.tools, w.workers[k]);
    }
  }

  lemma {:induction false} ReachedAtHead(cfg: Settings, requirements: seq<Requirement>, scope: set<RequirementId>,
                                         deadline: nat, attempts: nat, events: seq<Event>)
    ensures AllAtHead(cfg, Reached(cfg, requirements, scope, deadline, attempts, events))
    decreases |events|
  {
    hide Inv, Step, AllAtHead, Lifecycle;
    if events == [] {
      StartAtHead(cfg, requirements, scope, deadline, attempts);
    } else {
      var before := events[..|events| - 1];
      ReachedAtHead(cfg, requirements, scope, deadline, attempts, before);
      ReachedOk(cfg, requirements, scope, deadline, attempts, before);
      ReachedLivesOn(cfg, requirements, scope, deadline, attempts, before);
      StepKeepsHead(cfg, requirements, Reached(cfg, requirements, scope, deadline, attempts, before),
                    events[|events| - 1]);
    }
  }

  lemma StartAtHead(cfg: Settings, requirements: seq<Requirement>, scope: set<RequirementId>, deadline: nat,
                    attempts: nat)
    ensures AllAtHead(cfg, Start(requirements, scope, deadline, attempts))
  {
  }

  // ---- a barred request ------------------------------------------------------------------

  // The request everybody makes from here on has failed; nobody waits for it, and nothing else goes on.
  ghost predicate Barred(cfg: Settings, w: World, head: State, s: State, key: ModelKey) {
    && key in w.calls && w.calls[key].CallFailed?
    && AsksFrom(cfg, w.db.evidence, head, s, key) && s.version == head.version == w.db.run.version
    && (Closed(w.db) || w.db.run.snapshot == head)
    && (w.db.run.status == RunPending || w.db.run.status == RunRunning || Reviewed(w.db))
    && (Closed(w.db) ==> Reviewed(w.db))
    && forall k :: k in w.workers ==> Hopeless(head, s, key, w.workers[k])
  }

  ghost predicate Reviewed(db: Db) {
    db.run.status == RunNeedsReview
    && (db.run.stopReason == Some(AgentModelFailed) || db.run.stopReason == Some(BudgetTime))
  }

  ghost predicate Hopeless(head: State, s: State, key: ModelKey, p: Worker) {
    p == Looping(head) || p == Asking(s, key) || p == Stopping(head, BudgetTime) || p == Stopping(s, AgentModelFailed)
  }

  lemma BeginIsBarred(cfg: Settings, late: bool, table: EvidenceTable, head: State, s: State, key: ModelKey)
    requires AsksFrom(cfg, table, head, s, key)
    ensures Begin(cfg, late, table, head) == if late then Stopping(head, BudgetTime) else Asking(s, key)
  {
    hide Enter;
  }

  lemma BarredMove(cfg: Settings, w: World, head: State, s: State, key: ModelKey, p: Worker, arrival: Arrival)
    requires Barred(cfg, w, head, s, key) && Hopeless(head, s, key, p)
    ensures
      var m := Move(cfg, w, p, arrival);
      && m.calls == w.calls && m.db.steps == w.db.steps && m.db.evidence == w.db.evidence
      && m.db.run.version == w.db.run.version
      && (m.worker.Some? ==> Hopeless(head, s, key, m.worker.value) && m.db == w.db)
      && (m.worker.None? ==> Reviewed(m.db) && Closed(m.db))
  {
    hide Begin, Resume, AsksFrom, StartTool, AfterTool, FinishTools, Checkpoint, RefusedCall;
    if p == Looping(head) {
      BeginIsBarred(cfg, Late(head, w.now), w.db.evidence, head, s, key);
    }
  }

  lemma BarredStep(cfg: Settings, w: World, e: Event, head: State, s: State, key: ModelKey)
    requires Lifecycle(w.db) && Barred(cfg, w, head, s, key)
    ensures
      var u := Step(cfg, w, e);
      && Barred(cfg, u, head, s, key) && u.db.steps == w.db.steps && u.db.evidence == w.db.evidence
  {
    hide Move, AsksFrom;
    if e.WorkOn? && e.worker in w.workers {
      BarredMove(cfg, w, head, s, key, w.workers[e.worker], e.arrival);
    }
  }

  lemma {:induction false} BarredRun(cfg: Settings, w: World, later: seq<Event>, head: State, s: State, key: ModelKey)
    requires Lifecycle(w.db) && Barred(cfg, w, head, s, key)
    ensures
      var u := Run(cfg, w, later);
      && Barred(cfg, u, head, s, key) && u.db.steps == w.db.steps && u.db.evidence == w.db.evidence
    decreases |later|
  {
    hide Step, Lifecycle, Barred;
    if later != [] {
      var before := later[..|later| - 1];
      BarredRun(cfg, w, before, head, s, key);
      RunLivesOn(cfg, w, before);
      BarredStep(cfg, Run(cfg, w, before), later[|later| - 1], head, s, key);
    }
  }

  // ---- the deferred retry ----------------------------------------------------------------

  // A worker waits for a model at the committed version, alone, while the run is its own.
  ghost predicate AwaitsAlone(w: World, k: nat) {
    && w.workers.Keys == {k} && w.workers[k].Awaiting?
    && w.db.run.status == RunRunning && w.workers[k].s.version == w.db.run.version
  }

  lemma DeferringBars(cfg: Settings, w: World, k: nat, code: string)
    requires AwaitsAlone(w, k) && Lifecycle(w.db) && AtHead(cfg, w.db, w.workers[k])
    requires w.db.run.snapshot.version == w.db.run.version && w.db.job.attempt < w.db.job.maxAttempts
    ensures
      var u := Run(cfg, w, [WorkOn(k, ModelFails(code, true)), WorkOn(k, Nothing)]);
      && Barred(cfg, u, w.db.run.snapshot, w.workers[k].s, w.workers[k].key)
      && u.workers == map[] && u.now == w.now && u.db.run.status == RunPending && Claimable(cfg, u)
      && u.db.steps == w.db.steps && u.db.evidence == w.db.evidence && u.db.run.snapshot == w.db.run.snapshot
  {
    hide AsksFrom;
    var p := w.workers[k];
    var w1 := Step(cfg, w, WorkOn(k, ModelFails(code, true)));
    assert w1.workers == w.workers[k := Deferring(p.s, code)];
    var w2 := Step(cfg, w1, WorkOn(k, Nothing));
    assert w2.workers == map[];
    LastStep(cfg, w, [], WorkOn(k, ModelFails(code, true)));
    LastStep(cfg, w, [WorkOn(k, ModelFails(code, true))], WorkOn(k, Nothing));
    assert [] + [WorkOn(k, ModelFails(code, true))] == [WorkOn(k, ModelFails(code, true))];
    assert [WorkOn(k, ModelFails(code, true))] + [WorkOn(k, Nothing)]
           == [WorkOn(k, ModelFails(code, true)), WorkOn(k, Nothing)];
  }

  // A retryable model failure defers the run, but the retry cannot repeat the call: whoever claims the run
  // afterwards, however often, nothing is committed any more, and if it ends at all it ends in review,
  // because its model call has failed or because its time is up.
  lemma RetriesAchieveNothing(cfg: Settings, requirements: seq<Requirement>, scope: set<RequirementId>, deadline: nat,
                              attempts: nat, events: seq<Event>, k: nat, code: string, later: seq<Event>)
    requires var w := Reached(cfg, requirements, scope, deadline, attempts, events);
             AwaitsAlone(w, k) && w.db.job.attempt < w.db.job.maxAttempts
    ensures
      var w := Reached(cfg, requirements, scope, deadline, attempts, events);
      var deferred := [WorkOn(k, ModelFails(code, true)), WorkOn(k, Nothing)];
      var u := Reached(cfg, requirements, scope, deadline, attempts, events + deferred + later);
      && u.db.steps == w.db.steps && u.db.evidence == w.db.evidence
      && (u.db.run.status == RunPending || u.db.run.status == RunRunning || Reviewed(u.db))
      && (forall j :: j in u.workers ==> !u.workers[j].Awaiting?)
  {
    var w0 := Start(requirements, scope, deadline, attempts);
    var w := Reached(cfg, requirements, scope, deadline, attempts, events);
    var deferred := [WorkOn(k, ModelFails(code, true)), WorkOn(k, Nothing)];
    ReachedLivesOn(cfg, requirements, scope, deadline, attempts, events);
    ReachedAtHead(cfg, requirements, scope, deadline, attempts, events);
    ReachedOk(cfg, requirements, scope, deadline, attempts, events);
    VersionsAgree(cfg, requirements, w);
    hide Inv, Run, AsksFrom;
    DeferringBars(cfg, w, k, code);
    RunLivesOn(cfg, w, deferred);
    BarredRun(cfg, Run(cfg, w, deferred), later, w.db.run.snapshot, w.workers[k].s, w.workers[k].key);
    RunsInTurn(cfg, w0, events, deferred);
    RunsInTurn(cfg, w0, events + deferred, later);
  }

  // And a claim that works on does end it: refused by its record, with the failure of the model as reason.
  lemma TheRetryIsRefused(cfg: Settings, requirements: seq<Requirement>, scope: set<RequirementId>, deadline: nat,
                          attempts: nat, events: seq<Event>, k: nat, code: string, j: nat)
    requires var w := Reached(cfg, requirements, scope, deadline, attempts, events);
             AwaitsAlone(w, k) && w.db.job.attempt < w.db.job.maxAttempts && !Late(w.db.run.snapshot, w.now)
    ensures
      var deferred := [WorkOn(k, ModelFails(code, true)), WorkOn(k, Nothing)];
      var retry := [ClaimBy(j)] + [WorkOn(j, Nothing), WorkOn(j, Nothing), WorkOn(j, Nothing)];
      var u := Reached(cfg, requirements, scope, deadline, attempts, events + deferred + retry);
      u.db.run.status == RunNeedsReview && u.db.run.stopReason == Some(AgentModelFailed)
  {
    var w0 := Start(requirements, scope, deadline, attempts);
    var w := Reached(cfg, requirements, scope, deadline, attempts, events);
    var deferred := [WorkOn(k, ModelFails(code, true)), WorkOn(k, Nothing)];
    var moves := [WorkOn(j, Nothing), WorkOn(j, Nothing), WorkOn(j, Nothing)];
    ReachedLivesOn(cfg, requirements, scope, deadline, attempts, events);
    ReachedAtHead(cfg, requirements, scope, deadline, attempts, events);
    ReachedOk(cfg, requirements, scope, deadline, attempts, events);
    VersionsAgree(cfg, requirements, w);
    hide Inv, Run, AsksFrom;
    DeferringBars(cfg, w, k, code);
    var u := Run(cfg, w, deferred);
    RefusedInThree(cfg, u, w.db.run.snapshot, w.workers[k].s, w.workers[k].key, j);
    RunsOn(cfg, u, ClaimBy(j), moves);
    RunsInTurn(cfg, w0, events, deferred);
    RunsInTurn(cfg, w0, events + deferred, [ClaimBy(j)] + moves);
  }

  lemma RefusedInThree(cfg: Settings, w: World, head: State, s: State, key: ModelKey, j: nat)
    requires Barred(cfg, w, head, s, key) && w.workers == map[] && Claimable(cfg, w)
    requires w.db.run.snapshot == head && !Late(head, w.now)
    ensures
      var u := Run(cfg, Step(cfg, w, ClaimBy(j)), [WorkOn(j, Nothing), WorkOn(j, Nothing), WorkOn(j, Nothing)]);
      u.db.run.status == RunNeedsReview && u.db.run.stopReason == Some(AgentModelFailed)
  {
    hide Begin, Resume, AsksFrom;
    var w1 := Step(cfg, w, ClaimBy(j));
    assert w1.workers == map[j := Looping(head)];
    BeginIsBarred(cfg, false, w1.db.evidence, head, s, key);
    var w2 := Step(cfg, w1, WorkOn(j, Nothing));
    assert w2.workers == map[j := Asking(s, key)];
    var w3 := Step(cfg, w2, WorkOn(j, Nothing));
    assert w3.workers == map[j := Stopping(s, AgentModelFailed)];
    ThreeSteps(cfg, w1, WorkOn(j, Nothing), WorkOn(j, Nothing), WorkOn(j, Nothing));
  }
}
