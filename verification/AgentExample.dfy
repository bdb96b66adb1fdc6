/** One run of a single worker from the start to the DECIDE step: the window after it is reached. */
module AgentExample {
  import opened Common
  import opened AgentTypes
  import opened AgentGraph
  import opened AgentStore
  import opened AgentMachine
  import opened AgentGuarantees
  import opened AgentWindow

  // The first worker is alone at the head of the loop, and nothing it asks from here on was asked before.
  ghost predicate Alone(cfg: Settings, w: World, s: State) {
    && w.workers == map[0 := Looping(s)]
    && w.db.run.status == RunRunning && w.db.run.version == s.version
    && !Late(s, w.now) && CounterStop(cfg, s).None?
    && forall key :: key in w.calls ==> key.version < s.version
  }

  ghost function Only(w: World, p: Worker): World {
    w.(workers := map[0 := p])
  }

  lemma OneMove(cfg: Settings, w: World, p: Worker, arrival: Arrival)
    requires w.workers == map[0 := p] && Move(cfg, w, p, arrival).worker.Some?
    ensures
      var m := Move(cfg, w, p, arrival);
      Step(cfg, w, WorkOn(0, arrival)) == World(m.db, w.now, m.calls, m.tools, m.issued, map[0 := m.worker.value])
  {
    hide Move;
    var q := Move(cfg, w, p, arrival).worker.value;
    assert w.workers[0 := q] == map[0 := q];
  }

  // From a loop head the first move reaches the point `Begin` names.
  lemma Begins(cfg: Settings, w: World, s: State)
    requires Alone(cfg, w, s)
    ensures Step(cfg, w, WorkOn(0, Nothing)) == Only(w, Begin(cfg, false, w.db.evidence, s))
  {
    hide Begin;
    OneMove(cfg, w, Looping(s), Nothing);
  }

  // A model call that nobody asked before is asked and answered.
  lemma Asks(cfg: Settings, w: World, s: State, key: ModelKey, answer: Answer)
    requires w.workers == map[0 := Asking(s, key)] && key !in w.calls && !Late(s, w.now) && Fits(key.node, answer)
    ensures
      var u := Run(cfg, w, [WorkOn(0, Nothing), WorkOn(0, ModelAnswers(answer))]);
      && u == World(w.db, w.now, u.calls, w.tools, u.issued,
                    map[0 := Resume(cfg, false, w.db.evidence, s, key.node, Reply(w.issued, answer))])
      && u.calls.Keys == w.calls.Keys + {key}
  {
    hide Resume;
    var asked := World(w.db, w.now, w.calls[key := CallRunning(w.issued, w.now + cfg.callLease, 1)], w.tools,
                       w.issued + 1,
                       map[0 := Awaiting(s, key, w.issued)]);
    OneMove(cfg, w, Asking(s, key), Nothing);
    assert Step(cfg, w, WorkOn(0, Nothing)) == asked;
    OneMove(cfg, asked, Awaiting(s, key, w.issued), ModelAnswers(answer));
    TwoSteps(cfg, w, WorkOn(0, Nothing), WorkOn(0, ModelAnswers(answer)));
    hide Step;
  }

  lemma TwoSteps(cfg: Settings, w: World, a: Event, b: Event)
    ensures Run(cfg, w, [a]) == Step(cfg, w, a)
    ensures Run(cfg, w, [a, b]) == Step(cfg, Step(cfg, w, a), b)
  {
    hide Step;
    LastStep(cfg, w, [], a);
    LastStep(cfg, w, [a], b);
    assert [] + [a] == [a] && [a] + [b] == [a, b];
  }

  // A worker at its checkpoint commits the node.
  lemma Commits(cfg: Settings, w: World, s: State, c: Commit)
    requires w.workers == map[0 := Committing(s, c)] && s.next == Some(c.node) && Allowed(c.node, c.next)
    requires w.db.run.status == RunRunning && w.db.run.version == s.version
    ensures
      var u := Step(cfg, w, WorkOn(0, Nothing));
      var s' := Advance(s, c.next);
      && u == World(u.db, w.now, w.calls, w.tools, w.issued,
                    map[0 := if c.output.DecideOut? then Deciding(s', c.output.decision, c.output.reason)
                        else Looping(s')])
      && u.db.run.status == RunRunning && u.db.run.version == s'.version
      && u.db.evidence == StoreEvidence(w.db.evidence, c.evidence)
  {
    hide StoreEvidence;
    OneMove(cfg, w, Committing(s, c), Nothing);
  }

  // ---- the six nodes ---------------------------------------------------------------------

  // A node without a call: it commits at once.
  lemma QuietNode(cfg: Settings, w: World, s: State, s': State, c: Commit)
    requires Alone(cfg, w, s) && Begin(cfg, false, w.db.evidence, s) == Committing(s', c) && !c.output.DecideOut?
    requires s'.next == Some(c.node) && Allowed(c.node, c.next) && s'.version == s.version && s'.deadline == s.deadline
    requires CounterStop(cfg, Advance(s', c.next)).None?
    ensures
      var u := Run(cfg, w, [WorkOn(0, Nothing), WorkOn(0, Nothing)]);
      Alone(cfg, u, Advance(s', c.next)) && u.tools == w.tools
  {
    Begins(cfg, w, s);
    Commits(cfg, Only(w, Committing(s', c)), s', c);
    TwoSteps(cfg, w, WorkOn(0, Nothing), WorkOn(0, Nothing));
    hide Step, Begin, CounterStop;
  }

  // A node that asks a model and commits its answer.
  function ModelEvents(answer: Answer): seq<Event> {
    [WorkOn(0, Nothing)] + [WorkOn(0, Nothing), WorkOn(0, ModelAnswers(answer))] + [WorkOn(0, Nothing)]
  }

  lemma ModelNode(cfg: Settings, w: World, s: State, asked: State, key: ModelKey, answer: Answer, s': State, c: Commit)
    requires Alone(cfg, w, s) && Begin(cfg, false, w.db.evidence, s) == Asking(asked, key)
    requires key.version == s.version && asked.deadline == s.deadline && Fits(key.node, answer)
    requires Resume(cfg, false, w.db.evidence, asked, key.node, Reply(w.issued, answer)) == Committing(s', c)
    requires s'.next == Some(c.node) && Allowed(c.node, c.next) && s'.version == s.version && s'.deadline == s.deadline
    ensures
      var u := Run(cfg, w, ModelEvents(answer));
      var after := Advance(s', c.next);
      && u.workers == map[0 := if c.output.DecideOut? then Deciding(after, c.output.decision, c.output.reason)
                               else Looping(after)]
      && u.db.run.status == RunRunning && u.db.run.version == after.version && u.now == w.now && u.tools == w.tools
      && forall key :: key in u.calls ==> key.version < after.version
  {
    hide Run, Step, Begin, Resume, CounterStop;
    Begins(cfg, w, s);
    var begun := Only(w, Asking(asked, key));
    Asks(cfg, begun, asked, key, answer);
    var answered := Run(cfg, begun, [WorkOn(0, Nothing), WorkOn(0, ModelAnswers(answer))]);
    Commits(cfg, answered, s', c);
    LastStep(cfg, w, [WorkOn(0, Nothing)] + [WorkOn(0, Nothing), WorkOn(0, ModelAnswers(answer))], WorkOn(0, Nothing));
    RunsOn(cfg, w, WorkOn(0, Nothing), [WorkOn(0, Nothing), WorkOn(0, ModelAnswers(answer))]);
  }

  // The tools have answered: the last one found nothing.
  lemma Finishes(cfg: Settings, w: World, s: State, done: seq<ToolSummary>, plan: Option<ChallengePlan>)
    requires w.workers == map[0 := Tooling(s, [], done, plan)] && !Late(s, w.now)
    ensures Step(cfg, w, WorkOn(0, Nothing)) == Only(w, FinishTools(cfg, false, s, done, plan))
  {
    hide FinishTools;
    OneMove(cfg, w, Tooling(s, [], done, plan), Nothing);
  }

  lemma FinishesAndCommits(cfg: Settings, w: World, s: State, done: seq<ToolSummary>, plan: Option<ChallengePlan>,
                           s': State, c: Commit)
    requires w.workers == map[0 := Tooling(s, [], done, plan)] && !Late(s, w.now)
    requires FinishTools(cfg, false, s, done, plan) == Committing(s', c) && !c.output.DecideOut?
    requires s'.next == Some(c.node) && Allowed(c.node, c.next)
    requires w.db.run.status == RunRunning && w.db.run.version == s'.version
    ensures
      var u := Run(cfg, w, [WorkOn(0, Nothing), WorkOn(0, Nothing)]);
      && u.workers == map[0 := Looping(Advance(s', c.next))] && u.calls == w.calls && u.now == w.now
      && u.db.run.status == RunRunning && u.db.run.version == s'.version + 1
  {
    hide Run, Step, FinishTools;
    Finishes(cfg, w, s, done, plan);
    Commits(cfg, Only(w, Committing(s', c)), s', c);
    TwoSteps(cfg, w, WorkOn(0, Nothing), WorkOn(0, Nothing));
  }

  const Empty: ToolOutput := ToolOutput(Success, [])

  // One tool that runs for the first time and finds nothing.
  lemma RunsTool(cfg: Settings, w: World, s: State, action: Action)
    requires w.workers == map[0 := Tooling(s, [ToolCall(action, false)], [], None)]
    requires w.tools == map[] && !InvalidRequest(cfg, s, action)
    ensures
      var u := Run(cfg, w, [WorkOn(0, Nothing), WorkOn(0, ToolAnswers(Empty))]);
      u == World(w.db, w.now, w.calls, u.tools, u.issued,
                 map[0 := AfterTool(s, [ToolCall(action, false)], [], None, ToolResult(Some(w.issued), Empty))])
  {
    hide InvalidRequest, AfterTool;
    var todo := [ToolCall(action, false)];
    var key := KeyOf(cfg, action);
    var running := World(w.db, w.now, w.calls, map[key := ToolRunning(w.issued)], w.issued + 1,
                         map[0 := Executing(s, todo, [], None, key, w.issued)]);
    OneMove(cfg, w, Tooling(s, todo, [], None), Nothing);
    assert Step(cfg, w, WorkOn(0, Nothing)) == running;
    OneMove(cfg, running, Executing(s, todo, [], None, key, w.issued), ToolAnswers(Empty));
    TwoSteps(cfg, w, WorkOn(0, Nothing), WorkOn(0, ToolAnswers(Empty)));
    hide Step;
  }

  const ToolEvents: seq<Event> :=
    [WorkOn(0, Nothing)] + [WorkOn(0, Nothing), WorkOn(0, ToolAnswers(Empty))] + [WorkOn(0, Nothing),
                                                                                  WorkOn(0, Nothing)]

  lemma RetrieveComputes(cfg: Settings, table: EvidenceTable, s: State, run: nat)
    requires s.next == Some(Retrieve) && s.pending.Some? && CounterStop(cfg, s).None?
    ensures
      var todo := [ToolCall(s.pending.value, false)];
      var s' := s.(consecutiveFailures := 0, selected := []);
      var done := [ToolSummary(Some(run), Success, [])];
      && Begin(cfg, false, table, s) == Tooling(s, todo, [], None)
      && AfterTool(s, todo, [], None, ToolResult(Some(run), Empty)) == Tooling(s', [], done, None)
      && FinishTools(cfg, false, s', done, None)
         == Committing(s', Commit(Retrieve, Some(Inspect), RetrieveOut(done[0]), []))
      && CounterStop(cfg, Advance(s', Some(Inspect))).None?
  {
    var todo := [ToolCall(s.pending.value, false)];
    assert Select([], Some(run), s.pending.value.requirementId) == [] && Refs([]) == [];
    assert todo[1..] == [];
    assert cfg.maxToolFailures > 0;
  }

  // RETRIEVE, when its tool finds nothing.
  lemma RetrieveNode(cfg: Settings, w: World, s: State)
    requires Alone(cfg, w, s) && s.next == Some(Retrieve) && s.pending.Some? && w.tools == map[]
    requires !InvalidRequest(cfg, s, s.pending.value)
    ensures Alone(cfg, Run(cfg, w, ToolEvents), s.(next := Some(Inspect), version := s.version + 1,
                                                   consecutiveFailures := 0, selected := []))
  {
    hide Run, Step, Begin, InvalidRequest, AfterTool, FinishTools, CounterStop;
    RetrieveComputes(cfg, w.db.evidence, s, w.issued);
    var todo := [ToolCall(s.pending.value, false)];
    var s' := s.(consecutiveFailures := 0, selected := []);
    var done := [ToolSummary(Some(w.issued), Success, [])];
    var begun := Only(w, Tooling(s, todo, [], None));
    var tool := [WorkOn(0, Nothing), WorkOn(0, ToolAnswers(Empty))];
    Begins(cfg, w, s);
    RunsTool(cfg, begun, s, s.pending.value);
    FinishesAndCommits(cfg, Run(cfg, begun, tool), s', done, None, s',
                       Commit(Retrieve, Some(Inspect), RetrieveOut(done[0]), []));
    RunsOn(cfg, w, WorkOn(0, Nothing), tool);
    RunsInTurn(cfg, w, [WorkOn(0, Nothing)] + tool, [WorkOn(0, Nothing), WorkOn(0, Nothing)]);
  }

  const Settled: ChallengePlan := ChallengePlan([], false, false)

  const ChallengeEvents: seq<Event> :=
    [WorkOn(0, Nothing)] + [WorkOn(0, Nothing), WorkOn(0, ModelAnswers(ChallengeAnswer(Settled)))]
    + [WorkOn(0, Nothing), WorkOn(0, Nothing)]

  lemma ChallengeComputes(cfg: Settings, table: EvidenceTable, s: State, call: nat)
    requires s.next == Some(Challenge) && s.selected == [] && s.evidenceIds == [] && s.lastEvidenceCount == 0
    requires CounterStop(cfg, s).None? && s.stagnant + 1 < cfg.maxStagnant && s.iteration < cfg.maxIterations
    ensures
      var key := ModelKey(Challenge, s.version, EvidencePrompt(s.requirements, Summary(table, s.evidenceIds)));
      var s' := s.(stagnant := s.stagnant + 1);
      && Begin(cfg, false, table, s) == Asking(s, key)
      && Resume(cfg, false, table, s, Challenge, Reply(call, ChallengeAnswer(Settled)))
         == Tooling(s, [], [], Some(Settled))
      && FinishTools(cfg, false, s, [], Some(Settled))
         == Committing(s', Commit(Challenge, Some(Decide), ChallengeOut(Settled, []), []))
      && CounterStop(cfg, Advance(s', Some(Decide))).None?
  {
    assert ChallengeCalls(s, Settled) == [];
  }

  // CHALLENGE, when nothing was selected and the model has no objection: DECIDE follows.
  lemma ChallengeNode(cfg: Settings, w: World, s: State)
    requires Alone(cfg, w, s) && s.next == Some(Challenge) && s.selected == [] && s.evidenceIds == []
    requires s.lastEvidenceCount == 0 && s.stagnant + 1 < cfg.maxStagnant && s.iteration < cfg.maxIterations
    ensures Alone(cfg, Run(cfg, w, ChallengeEvents), s.(next := Some(Decide), version := s.version + 1,
                                                        stagnant := s.stagnant + 1))
  {
    hide Run, Step, Begin, Resume, FinishTools, CounterStop, Summary;
    var key := ModelKey(Challenge, s.version, EvidencePrompt(s.requirements, Summary(w.db.evidence, s.evidenceIds)));
    ChallengeComputes(cfg, w.db.evidence, s, w.issued);
    var model := [WorkOn(0, Nothing), WorkOn(0, ModelAnswers(ChallengeAnswer(Settled)))];
    var begun := Only(w, Asking(s, key));
    Begins(cfg, w, s);
    Asks(cfg, begun, s, key, ChallengeAnswer(Settled));
    FinishesAndCommits(cfg, Run(cfg, begun, model), s, [], Some(Settled), s.(stagnant := s.stagnant + 1),
                       Commit(Challenge, Some(Decide), ChallengeOut(Settled, []), []));
    RunsOn(cfg, w, WorkOn(0, Nothing), model);
    RunsInTurn(cfg, w, [WorkOn(0, Nothing)] + model, [WorkOn(0, Nothing), WorkOn(0, Nothing)]);
  }

  // ---- the whole run ---------------------------------------------------------------------

  // Settings, a requirement set and an action for which a first round is possible.
  ghost predicate Possible(cfg: Settings, requirements: seq<Requirement>, deadline: nat, action: Action) {
    && cfg.maxIterations > 1 && cfg.maxVlmCalls > 0 && cfg.maxToolFailures > 0 && cfg.maxStagnant > 1 && deadline > 0
    && ValidAction(cfg, InitialState(requirements, deadline), action)
    && !InvalidRequest(cfg, InitialState(requirements, deadline), action)
  }

  function Proposal(): Decision {
    Decision(NeedsHumanReview, FromModel(""), [])
  }

  const QuietEvents: seq<Event> := [WorkOn(0, Nothing), WorkOn(0, Nothing)]

  function ToTheDecision(action: Action): seq<Event> {
    [ClaimBy(0)] + ModelEvents(PlanAnswer(action.requirementId, action)) + RestOfRound()
    + ModelEvents(DecideAnswer(Proposal()))
  }

  function Planned(requirements: seq<Requirement>, deadline: nat, action: Action): State {
    InitialState(requirements, deadline).(iteration := 1, pending := Some(action), next := Some(Retrieve), version := 1)
  }

  lemma PlanComputes(cfg: Settings, requirements: seq<Requirement>, deadline: nat, action: Action, table: EvidenceTable,
                     call: nat)
    requires Possible(cfg, requirements, deadline, action)
    ensures
      var s0 := InitialState(requirements, deadline);
      var asked := s0.(iteration := 1);
      var key := ModelKey(Plan, 0, PlanPrompt(1, requirements, [], s0.missing));
      var s' := asked.(pending := Some(action));
      && Begin(cfg, false, table, s0) == Asking(asked, key)
      && Resume(cfg, false, table, asked, Plan, Reply(call, PlanAnswer(action.requirementId, action)))
         == Committing(s', Commit(Plan, Some(Retrieve), PlanOut(action), []))
      && Advance(s', Some(Retrieve)) == Planned(requirements, deadline, action)
      && CounterStop(cfg, Planned(requirements, deadline, action)).None?
      && !InvalidRequest(cfg, Planned(requirements, deadline, action), action)
  {
  }

  lemma QuietComputes(cfg: Settings, table: EvidenceTable, s: State)
    requires s.selected == [] && CounterStop(cfg, s).None?
    ensures s.next == Some(Inspect) ==>
              Begin(cfg, false, table, s)
              == Committing(s.(observations := []), Commit(Inspect, Some(Verify), InspectOut([]), []))
    ensures s.next == Some(Verify) ==>
              Begin(cfg, false, table, s) == Committing(s, Commit(Verify, Some(Challenge), VerifyOut([]), []))
    ensures s.next == Some(Inspect) ==> CounterStop(cfg, Advance(s.(observations := []), Some(Verify))).None?
    ensures s.next == Some(Verify) ==> CounterStop(cfg, Advance(s, Some(Challenge))).None?
  {
  }

  lemma DecideComputes(cfg: Settings, table: EvidenceTable, s: State, call: nat)
    requires s.next == Some(Decide) && CounterStop(cfg, s).None?
    ensures
      var key := ModelKey(Decide, s.version, EvidencePrompt(s.requirements, Summary(table, s.evidenceIds)));
      && Begin(cfg, false, table, s) == Asking(s, key)
      && var p := Resume(cfg, false, table, s, Decide, Reply(call, DecideAnswer(Proposal())));
      && p.Committing? && p.commit.output.DecideOut? && p.commit.node == Decide && p.commit.next == None
      && p.s.next == s.next && p.s.version == s.version && p.s.deadline == s.deadline
  {
  }

  lemma PlansFirst(cfg: Settings, requirements: seq<Requirement>, scope: set<RequirementId>, deadline: nat,
                   attempts: nat, action: Action)
    requires Possible(cfg, requirements, deadline, action)
    ensures
      var u := Reached(cfg, requirements, scope, deadline, attempts,
                       [ClaimBy(0)] + ModelEvents(PlanAnswer(action.requirementId, action)));
      Alone(cfg, u, Planned(requirements, deadline, action)) && u.tools == map[]
  {
    var w := Start(requirements, scope, deadline, attempts);
    var s0 := InitialState(requirements, deadline);
    var claimed := Step(cfg, w, ClaimBy(0));
    assert claimed.workers == map[0 := Looping(s0)];
    PlanComputes(cfg, requirements, deadline, action, claimed.db.evidence, claimed.issued);
    assert Alone(cfg, claimed, s0);
    var asked := s0.(iteration := 1);
    hide Run, Step, Begin, Resume, CounterStop;
    ModelNode(cfg, claimed, s0, asked, ModelKey(Plan, 0, PlanPrompt(1, requirements, [], s0.missing)),
              PlanAnswer(action.requirementId, action), asked.(pending := Some(action)),
              Commit(Plan, Some(Retrieve), PlanOut(action), []));
    RunsOn(cfg, w, ClaimBy(0), ModelEvents(PlanAnswer(action.requirementId, action)));
  }

  lemma DecidesLast(cfg: Settings, w: World, s: State)
    requires Alone(cfg, w, s) && s.next == Some(Decide)
    ensures InWindow(Run(cfg, w, ModelEvents(DecideAnswer(Proposal()))), 0)
  {
    var key := ModelKey(Decide, s.version, EvidencePrompt(s.requirements, Summary(w.db.evidence, s.evidenceIds)));
    hide Run, Begin, Resume, CounterStop, Summary;
    DecideComputes(cfg, w.db.evidence, s, w.issued);
    var p := Resume(cfg, false, w.db.evidence, s, Decide, Reply(w.issued, DecideAnswer(Proposal())));
    ModelNode(cfg, w, s, s, key, DecideAnswer(Proposal()), p.s, p.commit);
  }

  // INSPECT and VERIFY, when nothing was selected.
  lemma InspectNode(cfg: Settings, w: World, s: State)
    requires Alone(cfg, w, s) && s.next == Some(Inspect) && s.selected == []
    ensures Alone(cfg, Run(cfg, w, QuietEvents), s.(observations := [], next := Some(Verify), version := s.version + 1))
  {
    hide Run, Begin, CounterStop;
    QuietComputes(cfg, w.db.evidence, s);
    QuietNode(cfg, w, s, s.(observations := []), Commit(Inspect, Some(Verify), InspectOut([]), []));
  }

  lemma VerifyNode(cfg: Settings, w: World, s: State)
    requires Alone(cfg, w, s) && s.next == Some(Verify) && s.selected == []
    ensures Alone(cfg, Run(cfg, w, QuietEvents), s.(next := Some(Challenge), version := s.version + 1))
  {
    hide Run, Begin, CounterStop;
    QuietComputes(cfg, w.db.evidence, s);
    QuietNode(cfg, w, s, s, Commit(Verify, Some(Challenge), VerifyOut([]), []));
  }

  function RestOfRound(): seq<Event> {
    ToolEvents + QuietEvents + QuietEvents + ChallengeEvents
  }

  lemma RoundEnds(cfg: Settings, w: World, s: State)
    requires Alone(cfg, w, s) && s.next == Some(Retrieve) && s.pending.Some? && w.tools == map[]
    requires !InvalidRequest(cfg, s, s.pending.value) && s.evidenceIds == [] && s.lastEvidenceCount == 0
    requires s.stagnant + 1 < cfg.maxStagnant && s.iteration < cfg.maxIterations
    ensures exists s' :: Alone(cfg, Run(cfg, w, RestOfRound()), s') && s'.next == Some(Decide)
  {
    hide Run, Alone, CounterStop, InvalidRequest;
    var s2 := s.(next := Some(Inspect), version := s.version + 1, consecutiveFailures := 0, selected := []);
    var s3 := s2.(observations := [], next := Some(Verify), version := s.version + 2);
    var s4 := s3.(next := Some(Challenge), version := s.version + 3);
    RetrieveNode(cfg, w, s);
    InspectNode(cfg, Run(cfg, w, ToolEvents), s2);
    RunsInTurn(cfg, w, ToolEvents, QuietEvents);
    VerifyNode(cfg, Run(cfg, w, ToolEvents + QuietEvents), s3);
    RunsInTurn(cfg, w, ToolEvents + QuietEvents, QuietEvents);
    ChallengeNode(cfg, Run(cfg, w, ToolEvents + QuietEvents + QuietEvents), s4);
    RunsInTurn(cfg, w, ToolEvents + QuietEvents + QuietEvents, ChallengeEvents);
  }

  // The window after the DECIDE step is reached: one worker, one round, a tool that finds nothing.
  lemma WindowIsReached(cfg: Settings, requirements: seq<Requirement>, scope: set<RequirementId>, deadline: nat,
                        attempts: nat, action: Action)
    requires Possible(cfg, requirements, deadline, action)
    ensures InWindow(Reached(cfg, requirements, scope, deadline, attempts, ToTheDecision(action)), 0)
  {
    var w := Start(requirements, scope, deadline, attempts);
    var plan := [ClaimBy(0)] + ModelEvents(PlanAnswer(action.requirementId, action));
    var decide := ModelEvents(DecideAnswer(Proposal()));
    hide Run, Alone, InWindow, ModelEvents, CounterStop, InvalidRequest, RestOfRound;
    PlanComputes(cfg, requirements, deadline, action, map[], 0);
    PlansFirst(cfg, requirements, scope, deadline, attempts, action);
    RoundEnds(cfg, Run(cfg, w, plan), Planned(requirements, deadline, action));
    RunsInTurn(cfg, w, plan, RestOfRound());
    var s :| Alone(cfg, Run(cfg, w, plan + RestOfRound()), s) && s.next == Some(Decide);
    DecidesLast(cfg, Run(cfg, w, plan + RestOfRound()), s);
    RunsInTurn(cfg, w, plan + RestOfRound(), decide);
  }
}
