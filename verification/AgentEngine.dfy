/** The run loop of one worker, statement by statement, with the handler around it, while other workers
    do what they like to the same tables between its transactions. Every run of it is a run of the
    machine, so the guarantees of the machine are guarantees of this code; and it ends. */
module AgentEngine {
  import opened Common
  import opened AgentTypes
  import opened AgentGraph
  import opened AgentCalls
  import opened AgentStore
  import opened AgentMachine
  import opened AgentSafety
  import AgentProgress

  // How a model request ends for its caller.
  datatype Generated = Answered(reply: Reply) | ModelRaised(code: string, retryable: bool) | CallBusy

  // How a node ends for the loop.
  datatype NodeEnd =
    | Continues
    | Decided(decision: Decision, reason: StopReason)
    | Raised(code: ErrorCode)
    | ModelFailed(error: string, retryable: bool)
    | Lost

  // How the run loop raises; a model error that is not retryable never leaves it.
  datatype RunError = RuntimeError(code: ErrorCode) | RetryableError(error: string)

  class Engine {
    const cfg: Settings
    const service: InvestigationService
    const state: Investigation
    const gateway: AuditedGateway
    const executor: ToolExecutor
    const provider: ModelKey -> Arrival    // what the model provider does with a request
    const toolbox: ToolKey -> ToolOutput   // what the tools return
    const crowd: nat -> seq<Event>         // what time and other workers do before a transaction
    var others: map<nat, Worker>
    var now: nat
    var pauses: nat
    var issued: nat                        // identifiers handed out

    ghost const origin: World
    ghost const me: nat
    ghost var trace: seq<Event>

    constructor (cfg: Settings, service: InvestigationService, state: Investigation, gateway: AuditedGateway,
                 executor: ToolExecutor, provider: ModelKey -> Arrival, toolbox: ToolKey -> ToolOutput,
                 crowd: nat -> seq<Event>, others: map<nat, Worker>, now: nat, issued: nat, ghost me: nat)
      requires service.cfg == cfg && gateway.lease == cfg.callLease && me !in others
      requires forall i :: AllForeign(me, crowd(i))
      ensures Wired() && At(Looping(state.View()))
      ensures this.cfg == cfg && this.service == service && this.state == state
      ensures this.gateway == gateway && this.executor == executor && trace == []
      ensures this.me == me
      ensures origin == World(service.View(), now, gateway.calls, executor.tools, issued,
                              others[me := Looping(state.View())])
    {
      this.cfg, this.service, this.state, this.gateway, this.executor := cfg, service, state, gateway, executor;
      this.provider, this.toolbox, this.crowd, this.others := provider, toolbox, crowd, others;
      this.now, this.pauses, this.issued, this.me := now, 0, issued, me;
      trace := [];
      origin := World(service.View(), now, gateway.calls, executor.tools, issued,
                      others[me := Looping(state.View())]);
    }

    ghost predicate Wired() {
      service.cfg == cfg && gateway.lease == cfg.callLease && forall i :: AllForeign(me, crowd(i))
    }

    // What the objects hold, with the given workers.
    ghost function Held(workers: map<nat, Worker>): World
      reads this, service, gateway, executor
    {
      World(service.View(), now, gateway.calls, executor.tools, issued, workers)
    }

    // The machine after `trace`, with this worker at `p`, is what the objects hold; the trace is work of
    // this worker and events it has no part in.
    ghost predicate At(p: Worker)
      reads this, service, gateway, executor
    {
      me !in others && AllAdmitted(me, trace) && AgentMachine.Run(cfg, origin, trace) == Held(others[me := p])
    }

    ghost predicate Done()
      reads this, service, gateway, executor
    {
      me !in others && AllAdmitted(me, trace) && AgentMachine.Run(cfg, origin, trace) == Held(others)
    }

    lemma Extend(e: Event)
      ensures AgentMachine.Run(cfg, origin, trace + [e]) == Step(cfg, AgentMachine.Run(cfg, origin, trace), e)
    {
      assert (trace + [e])[..|trace|] == trace;
    }

    // The move of this worker, as the machine sees it.
    ghost function Moving(p: Worker, arrival: Arrival): Moved
      reads this, service, gateway, executor
    {
      Move(cfg, Held(others[me := p]), p, arrival)
    }

    lemma Acts(p: Worker, arrival: Arrival)
      requires At(p)
      ensures AllAdmitted(me, trace + [WorkOn(me, arrival)])
      ensures
        var m := Moving(p, arrival);
        AgentMachine.Run(cfg, origin, trace + [WorkOn(me, arrival)])
        == World(m.db, now, m.calls, m.tools, m.issued, if m.worker.Some? then others[me := m.worker.value] else others)
    {
      hide Move;
      Extend(WorkOn(me, arrival));
      var m := Moving(p, arrival);
      var w := AgentMachine.Run(cfg, origin, trace);
      assert m.worker.Some? ==> w.workers[me := m.worker.value] == others[me := m.worker.value];
      assert w.workers - {me} == others;
    }

    // Time passes and other workers work on the tables; this one stays where it is.
    method Pause(ghost p: Worker)
      requires Wired() && At(p)
      modifies this, service, gateway, executor
      ensures At(p)
    {
      hide Step;
      var events := crowd(pauses);
      var here := World(service.View(), now, gateway.calls, executor.tools, issued, others);
      var there := AgentMachine.Run(cfg, here, events);
      ForeignRun(cfg, here, me, p, events);
      RunsInTurn(cfg, origin, trace, events);
      assert here.(workers := here.workers[me := p]) == Held(others[me := p]);
      hide AgentMachine.Run;
      trace := trace + events;
      service.run, service.job, service.caseStatus := there.db.run, there.db.job, there.db.caseStatus;
      service.steps, service.evidence := there.db.steps, there.db.evidence;
      gateway.calls, executor.tools := there.calls, there.tools;
      now, issued, others := there.now, there.issued, there.workers;
      pauses := pauses + 1;
    }

    // ---- model calls -----------------------------------------------------------------------

    // The provider answers in the schema of the node or raises.
    function Delivered(key: ModelKey): Arrival {
      var arrival := provider(key);
      if arrival.ModelFails? || (arrival.ModelAnswers? && Fits(key.node, arrival.answer)) then arrival
      else ModelFails("OUTPUT_INVALID", false)
    }

    method Generate(key: ModelKey) returns (r: Generated)
      requires Wired() && At(Asking(state.View(), key))
      modifies this, service, gateway, executor
      ensures match r
              case Answered(reply) =>
                At(Resume(cfg, Late(state.View(), now), service.evidence, state.View(), key.node, reply))
              case ModelRaised(code, retryable) =>
                At(if retryable then Deferring(state.View(), code) else Stopping(state.View(), AgentModelFailed))
              case CallBusy => At(Failing(state.View(), AlreadyRunning))
    {
      hide Resume, ClaimCall, AgentMachine.Run;
      Pause(Asking(state.View(), key));
      Acts(Asking(state.View(), key), Nothing);
      trace := trace + [WorkOn(me, Nothing)];
      var claim := gateway.Claim(key, now, issued);
      match claim {
        case Replay(reply) => r := Answered(reply);
        case ReplayFailure => r := ModelRaised("", false);
        case Busy => r := CallBusy;
        case Ask(_, call) =>
          issued := issued + 1;
          Pause(Awaiting(state.View(), key, call));
          r := Receive(key, call);
      }
    }

    method Receive(key: ModelKey, call: nat) returns (r: Generated)
      requires Wired() && At(Awaiting(state.View(), key, call))
      modifies this, service, gateway, executor
      ensures !r.CallBusy?
      ensures match r
              case Answered(reply) =>
                At(Resume(cfg, Late(state.View(), now), service.evidence, state.View(), key.node, reply))
              case ModelRaised(code, retryable) =>
                At(if retryable then Deferring(state.View(), code) else Stopping(state.View(), AgentModelFailed))
              case CallBusy => true
    {
      hide Resume, AgentMachine.Run;
      var arrival := Delivered(key);
      Acts(Awaiting(state.View(), key, call), arrival);
      trace := trace + [WorkOn(me, arrival)];
      if arrival.ModelAnswers? {
        gateway.FinishSuccess(key, call, arrival.answer);
        r := Answered(Reply(call, arrival.answer));
      } else {
        gateway.FinishError(key, call, arrival.code);
        r := ModelRaised(arrival.code, arrival.retryable);
      }
    }

    // ---- tools -----------------------------------------------------------------------------

    method Execute(ghost todo: seq<ToolCall>, ghost done: seq<ToolSummary>, ghost plan: Option<ChallengePlan>,
                   action: Action) returns (r: ToolResult)
      requires Wired() && At(Tooling(state.View(), todo, done, plan))
      requires todo != [] && todo[0].action == action && !RefusedCall(state.View(), todo[0])
      modifies this, service, gateway, executor
      ensures At(AfterTool(state.View(), todo, done, plan, r))
    {
      hide StartTool, AfterTool, RefusedCall, AgentMachine.Run;
      Pause(Tooling(state.View(), todo, done, plan));
      Acts(Tooling(state.View(), todo, done, plan), Nothing);
      trace := trace + [WorkOn(me, Nothing)];
      var start := executor.Start(cfg, state.View(), action, issued);
      match start {
        case Refuse => r := Refusal;
        case Reuse(result) => r := result;
        case Launch(key) =>
          var run := issued;
          issued := issued + 1;
          r := AwaitTool(todo, done, plan, key, run);
      }
    }

    method AwaitTool(ghost todo: seq<ToolCall>, ghost done: seq<ToolSummary>, ghost plan: Option<ChallengePlan>,
                     key: ToolKey, run: nat) returns (r: ToolResult)
      requires Wired() && todo != [] && At(Executing(state.View(), todo, done, plan, key, run))
      modifies this, service, gateway, executor
      ensures At(AfterTool(state.View(), todo, done, plan, r))
    {
      hide AfterTool, AgentMachine.Run;
      Pause(Executing(state.View(), todo, done, plan, key, run));
      var output := toolbox(key);
      Acts(Executing(state.View(), todo, done, plan, key, run), ToolAnswers(output));
      trace := trace + [WorkOn(me, ToolAnswers(output))];
      r := executor.Finish(key, run, output);
    }

    // ---- checkpoint ------------------------------------------------------------------------

    method SaveNode(c: Commit) returns (r: NodeEnd)
      requires Wired() && At(Committing(state.View(), c))
      modifies this, service, state, gateway, executor
      ensures Reports(r)
      ensures r.Continues? ==> state.version == old(state.version) + 1 && !c.output.DecideOut?
    {
      hide StoreEvidence, AgentMachine.Run, Allowed, Begin, Resume, ClaimCall, StartTool, AfterTool, FinishTools,
        Complete, Fail, DeferRetry;
      Pause(Committing(state.View(), c));
      Acts(Committing(state.View(), c), Nothing);
      trace := trace + [WorkOn(me, Nothing)];
      ghost var s := state.View();
      var saved := service.Save(now, state, c);
      if saved.Ok? {
        r := if c.output.DecideOut? then Decided(c.output.decision, c.output.reason) else Continues;
      } else if saved.error == StateConflict {
        r := Lost;
      } else {
        r := Raised(saved.error);
      }
    }

    // Where a node leaves the machine. A failing worker's private state is of no further use.
    ghost predicate Reports(r: NodeEnd)
      reads this, service, state, gateway, executor
    {
      match r
      case Continues => At(Looping(state.View()))
      case Decided(decision, reason) => At(Deciding(state.View(), decision, reason))
      case Raised(code) => code != StateConflict && exists s :: At(Failing(s, code))
      case ModelFailed(error, retryable) =>
        At(if retryable then Deferring(state.View(), error) else Stopping(state.View(), AgentModelFailed))
      case Lost => Done()
    }

    // ---- nodes -----------------------------------------------------------------------------

    method FindById(id: RequirementId) returns (r: Option<Requirement>)
      ensures r == FindRequirement(state.requirements, id)
    {
      var i := 0;
      while i < |state.requirements|
        invariant 0 <= i <= |state.requirements|
        invariant FindRequirement(state.requirements, id) == FindRequirement(state.requirements[i..], id)
      {
        if state.requirements[i].id == id {
          return Some(state.requirements[i]);
        }
        i := i + 1;
      }
      r := None;
    }

    method ValidateAction(action: Action) returns (ok: bool)
      ensures ok == ValidAction(cfg, state.View(), action)
    {
      var requirement := FindById(action.requirementId);
      if requirement.None? || action.tool !in requirement.value.tools || action.tool !in cfg.registry {
        return false;
      }
      if Searches(action.tool) && cfg.blank(action.query) {
        return false;
      }
      ok := !(NeedsRange(action.tool) && action.range.None?);
    }

    method PlanNode() returns (r: NodeEnd)
      requires Wired() && At(Enter(service.evidence, state.View(), Plan))
      modifies this, service, state, gateway, executor
      ensures Reports(r)
      ensures r.Continues? ==> state.version == old(state.version) + 1
    {
      hide AgentMachine.Run, ValidAction;
      state.iteration := state.iteration + 1;
      var key := ModelKey(Plan, state.version,
                          PlanPrompt(state.iteration, state.requirements, state.evidenceIds, state.missing));
      var generated := Generate(key);
      match generated {
        case CallBusy => r := Raised(AlreadyRunning);
        case ModelRaised(code, retryable) => r := ModelFailed(code, retryable);
        case Answered(Reply(call, PlanAnswer(hypothesisFor, action))) => r := PlanWith(call, hypothesisFor, action);
        case Answered(_) => r := Raised(CheckpointInvalid);
      }
    }

    method PlanWith(ghost call: nat, hypothesisFor: RequirementId, action: Action) returns (r: NodeEnd)
      requires Wired()
      requires At(Resume(cfg, Late(state.View(), now), service.evidence, state.View(), Plan,
                         Reply(call, PlanAnswer(hypothesisFor, action))))
      modifies this, service, state, gateway, executor
      ensures Reports(r)
      ensures r.Continues? ==> state.version == old(state.version) + 1
    {
      hide AgentMachine.Run, ValidAction;
      var ok := ValidateAction(action);
      if !ok || hypothesisFor != action.requirementId {
        return Raised(ActionInvalid);
      }
      state.pending := Some(action);
      r := SaveNode(Commit(Plan, Some(Retrieve), PlanOut(action), []));
    }

    method CountFailure(status: ToolStatus)
      modifies state
      ensures state.View() == CountResult(old(state.View()), status)
    {
      if status == Failed {
        state.consecutiveFailures := state.consecutiveFailures + 1;
        state.totalFailures := state.totalFailures + 1;
      } else {
        state.consecutiveFailures := 0;
      }
    }

    method RetrieveNode() returns (r: NodeEnd)
      requires Wired() && At(Enter(service.evidence, state.View(), Retrieve))
      modifies this, service, state, gateway, executor
      ensures Reports(r)
      ensures r.Continues? ==> state.version == old(state.version) + 1
    {
      hide AgentMachine.Run;
      if state.pending.None? {
        return Raised(CheckpointInvalid);
      }
      var action := state.pending.value;
      ghost var todo := [ToolCall(action, false)];
      var result := Execute(todo, [], None, action);
      assert todo[1..] == [];
      CountFailure(result.output.status);
      state.selected := Select(result.output.items, result.run, action.requirementId);
      var summary := ToolSummary(result.run, result.output.status, Refs(result.output.items));
      assert [] + [summary] == [summary];
      FinishNode([summary], None);
      r := SaveNode(Commit(Retrieve, Some(Inspect), RetrieveOut(summary), []));
    }

    // The last tool has answered: the worker goes on to its checkpoint.
    ghost method FinishNode(done: seq<ToolSummary>, plan: Option<ChallengePlan>)
      requires At(Tooling(state.View(), [], done, plan))
      modifies this`trace
      ensures At(FinishTools(cfg, Late(state.View(), now), state.View(), done, plan))
    {
      hide AgentMachine.Run, FinishTools;
      Acts(Tooling(state.View(), [], done, plan), Nothing);
      trace := trace + [WorkOn(me, Nothing)];
    }

    method InspectNode() returns (r: NodeEnd)
      requires Wired() && At(Enter(service.evidence, state.View(), Inspect))
      modifies this, service, state, gateway, executor
      ensures Reports(r)
      ensures r.Continues? ==> state.version == old(state.version) + 1
    {
      hide AgentMachine.Run;
      if state.selected == [] {
        state.observations := [];
        r := SaveNode(Commit(Inspect, Some(Verify), InspectOut([]), []));
        return;
      }
      var key := ModelKey(Inspect, state.version, InspectPrompt(Found(state.selected)));
      var generated := Generate(key);
      match generated {
        case CallBusy => r := Raised(AlreadyRunning);
        case ModelRaised(code, retryable) => r := ModelFailed(code, retryable);
        case Answered(Reply(call, InspectAnswer(observation))) => r := InspectWith(call, observation);
        case Answered(_) => r := Raised(CheckpointInvalid);
      }
    }

    method InspectWith(ghost call: nat, observation: Observation) returns (r: NodeEnd)
      requires Wired()
      requires At(Resume(cfg, Late(state.View(), now), service.evidence, state.View(), Inspect,
                         Reply(call, InspectAnswer(observation))))
      modifies this, service, state, gateway, executor
      ensures Reports(r)
      ensures r.Continues? ==> state.version == old(state.version) + 1
    {
      hide AgentMachine.Run;
      if FindItem(state.selected, observation.sourceRef).None? {
        return Raised(ActionInvalid);
      }
      state.observations := [observation];
      state.vlmCalls := state.vlmCalls + 1;
      r := SaveNode(Commit(Inspect, Some(Verify), InspectOut([observation]), []));
    }

    method CheckDrafts(requirementId: RequirementId, drafts: seq<Draft>, call: nat)
      returns (r: Option<seq<EvidenceRow>>)
      ensures r == ValidateEvidence(state.selected, requirementId, drafts, call)
    {
      var rows: seq<EvidenceRow> := [];
      for i := 0 to |drafts|
        invariant |rows| == i
        invariant forall k :: 0 <= k < i ==>
          && DraftFits(state.selected, requirementId, drafts[k])
          && rows[k] == RowOf(drafts[k], FindItem(state.selected, drafts[k].sourceRef).value, requirementId, call)
      {
        var item := FindItem(state.selected, drafts[i].sourceRef);
        assert drafts[i] in drafts;
        if item.None? {
          return None;
        }
        if drafts[i].start < item.value.found.start || drafts[i].end > item.value.found.end {
          return None;
        }
        if item.value.requirementId != requirementId {
          return None;
        }
        rows := rows + [RowOf(drafts[i], item.value, requirementId, call)];
      }
      r := Some(rows);
      assert rows == ValidateEvidence(state.selected, requirementId, drafts, call).value;
    }

    method RecordIds(rows: seq<EvidenceRow>)
      modifies state`evidenceIds
      ensures state.evidenceIds == AppendIds(old(state.evidenceIds), rows)
    {
      var i := 0;
      while i < |rows|
        invariant 0 <= i <= |rows|
        invariant AppendIds(state.evidenceIds, rows[i..]) == AppendIds(old(state.evidenceIds), rows)
      {
        assert rows[i..][1..] == rows[i + 1..];
        if rows[i].id !in state.evidenceIds {
          state.evidenceIds := state.evidenceIds + [rows[i].id];
        }
        i := i + 1;
      }
    }

    method VerifyNode() returns (r: NodeEnd)
      requires Wired() && At(Enter(service.evidence, state.View(), Verify))
      modifies this, service, state, gateway, executor
      ensures Reports(r)
      ensures r.Continues? ==> state.version == old(state.version) + 1
    {
      hide AgentMachine.Run, AppendIds, ValidateEvidence, StillMissing;
      if state.selected == [] {
        r := SaveNode(Commit(Verify, Some(Challenge), VerifyOut([]), []));
        return;
      }
      if state.pending.None? {
        return Raised(CheckpointInvalid);
      }
      var requirement := FindById(state.pending.value.requirementId);
      if requirement.None? {
        return Raised(ActionInvalid);
      }
      var key := ModelKey(Verify, state.version,
                          VerifyPrompt(requirement.value, Found(state.selected), state.observations));
      var generated := Generate(key);
      match generated {
        case CallBusy => r := Raised(AlreadyRunning);
        case ModelRaised(code, retryable) => r := ModelFailed(code, retryable);
        case Answered(Reply(call, VerifyAnswer(drafts))) => r := VerifyWith(call, drafts);
        case Answered(_) => r := Raised(CheckpointInvalid);
      }
    }

    method VerifyWith(call: nat, drafts: seq<Draft>) returns (r: NodeEnd)
      requires Wired() && state.pending.Some?
      requires At(Resume(cfg, Late(state.View(), now), service.evidence, state.View(), Verify,
                         Reply(call, VerifyAnswer(drafts))))
      modifies this, service, state, gateway, executor
      ensures Reports(r)
      ensures r.Continues? ==> state.version == old(state.version) + 1
    {
      hide AgentMachine.Run, AppendIds, ValidateEvidence, StillMissing;
      var pending := CheckDrafts(state.pending.value.requirementId, drafts, call);
      if pending.None? {
        return Raised(ActionInvalid);
      }
      RecordIds(pending.value);
      state.vlmCalls := state.vlmCalls + 1;
      state.missing := StillMissing(state.missing, pending.value);
      r := SaveNode(Commit(Verify, Some(Challenge), VerifyOut(Ids(pending.value)), pending.value));
    }

    method ChallengeNode() returns (r: NodeEnd)
      requires Wired() && At(Enter(service.evidence, state.View(), Challenge))
      modifies this, service, state, gateway, executor
      ensures Reports(r)
      ensures r.Continues? ==> state.version == old(state.version) + 1
    {
      hide AgentMachine.Run;
      var key := ModelKey(Challenge, state.version,
                          EvidencePrompt(state.requirements, Summary(service.evidence, state.evidenceIds)));
      var generated := Generate(key);
      match generated {
        case CallBusy => r := Raised(AlreadyRunning);
        case ModelRaised(code, retryable) => r := ModelFailed(code, retryable);
        case Answered(Reply(_, ChallengeAnswer(plan))) => r := ChallengeWith(plan);
        case Answered(_) => r := Raised(CheckpointInvalid);
      }
    }

    method ChallengeWith(plan: ChallengePlan) returns (r: NodeEnd)
      requires Wired() && At(Tooling(state.View(), ChallengeCalls(state.View(), plan), [], Some(plan)))
      modifies this, service, state, gateway, executor
      ensures Reports(r)
      ensures r.Continues? ==> state.version == old(state.version) + 1
    {
      hide AgentMachine.Run;
      var done, code := Counter(plan);
      if code.Some? {
        return Raised(code.value);
      }
      FinishNode(done, Some(plan));
      var next := CloseChallenge(plan, done);
      r := SaveNode(Commit(Challenge, Some(next), ChallengeOut(plan, done), []));
    }

    // Stagnation is counted before the budgets decide whether another round follows.
    method CloseChallenge(plan: ChallengePlan, ghost done: seq<ToolSummary>) returns (next: Node)
      modifies state
      ensures FinishTools(cfg, Late(old(state.View()), now), old(state.View()), done, Some(plan))
              == Committing(state.View(), Commit(Challenge, Some(next), ChallengeOut(plan, done), []))
      ensures state.version == old(state.version)
    {
      var late := now >= state.deadline;
      state.stagnant := if |state.evidenceIds| == state.lastEvidenceCount then state.stagnant + 1 else 0;
      state.lastEvidenceCount := |state.evidenceIds|;
      if plan.contradictory {
        state.contradictory := set q | q in state.requirements && q.required :: q.id;
      }
      next := if plan.continues && BudgetStop(cfg, state.View(), late).None? then Plan else Decide;
    }

    // The counter-evidence actions in turn, then the temporal context of the first selected item.
    method Counter(plan: ChallengePlan) returns (done: seq<ToolSummary>, code: Option<ErrorCode>)
      requires Wired() && At(Tooling(state.View(), ChallengeCalls(state.View(), plan), [], Some(plan)))
      modifies this, service, state, gateway, executor
      ensures match code
              case None => At(Tooling(state.View(), [], done, Some(plan)))
              case Some(code) => code == ActionInvalid && At(Failing(state.View(), code))
      ensures state.version == old(state.version)
    {
      hide AgentMachine.Run;
      ghost var todo := ChallengeCalls(state.View(), plan);
      done, code := [], None;
      var i := 0;
      while i < |plan.actions|
        invariant 0 <= i <= |plan.actions|
        invariant At(Tooling(state.View(), todo[i..], done, Some(plan)))
        invariant state.version == old(state.version) && state.selected == old(state.selected)
      {
        var action := plan.actions[i];
        assert todo[i..][0] == ToolCall(action, true) && todo[i..][1..] == todo[i + 1..];
        var requirement := FindById(action.requirementId);
        if action.tool != FindCounterEvidence || requirement.None? {
          Acts(Tooling(state.View(), todo[i..], done, Some(plan)), Nothing);
          trace := trace + [WorkOn(me, Nothing)];
          return done, Some(ActionInvalid);
        }
        done := RunTool(todo[i..], done, plan, action);
        i := i + 1;
      }
      if state.selected != [] {
        var action := ContextAction(state.selected[0]);
        assert todo[i..] == [ToolCall(action, false)];
        done := RunTool(todo[i..], done, plan, action);
        assert todo[i..][1..] == [];
      } else {
        assert todo[i..] == [];
      }
    }

    // One tool of the challenge: only the failure counters move.
    method RunTool(ghost todo: seq<ToolCall>, done: seq<ToolSummary>, plan: ChallengePlan, action: Action)
      returns (done': seq<ToolSummary>)
      requires Wired() && At(Tooling(state.View(), todo, done, Some(plan)))
      requires todo != [] && todo[0].action == action && !RefusedCall(state.View(), todo[0])
      modifies this, service, state, gateway, executor
      ensures At(Tooling(state.View(), todo[1..], done', Some(plan)))
      ensures state.version == old(state.version) && state.selected == old(state.selected)
    {
      hide AgentMachine.Run;
      var result := Execute(todo, done, Some(plan), action);
      CountFailure(result.output.status);
      done' := done + [ToolSummary(result.run, result.output.status, Refs(result.output.items))];
    }

    // None: the proposal cites evidence the run does not hold.
    method EnforceDecision(proposed: Decision) returns (r: Option<(Decision, StopReason)>)
      modifies state`contradictory
      ensures match Enforce(cfg, Late(old(state.View()), now), service.evidence, old(state.View()), proposed)
              case None => r == None && state.View() == old(state.View())
              case Some(e) => r == Some((e.decision, e.reason))
                              && state.View() == old(state.View()).(contradictory := e.contradictory)
    {
      if exists id :: id in proposed.evidenceIds && id !in state.evidenceIds {
        return None;
      }
      var stop := BudgetStop(cfg, state.View(), now >= state.deadline);
      if proposed.verdict != NeedsHumanReview && proposed.evidenceIds == [] {
        stop := Some(DecisionEvidenceMissing);
      }
      if stop.None? && state.missing != [] {
        stop := Some(RequiredEvidenceMissing);
      }
      var conflicts := Conflicts(Summary(service.evidence, state.evidenceIds).Keys);
      if conflicts != {} {
        state.contradictory := conflicts;
        stop := Some(ContradictoryEvidence);
      }
      if stop.Some? {
        return Some((ReviewDecision(state.View(), stop.value), stop.value));
      }
      r := Some((proposed, ProvisionalDecision));
    }

    method DecideWith(call: nat, proposed: Decision) returns (r: NodeEnd)
      requires Wired()
      requires At(Resume(cfg, Late(state.View(), now), service.evidence, state.View(), Decide,
                         Reply(call, DecideAnswer(proposed))))
      modifies this, service, state, gateway, executor
      ensures Reports(r)
      ensures !r.Continues?
    {
      hide AgentMachine.Run, Enforce;
      var enforced := EnforceDecision(proposed);
      if enforced.None? {
        return Raised(ActionInvalid);
      }
      state.decision := Some(enforced.value.0);
      state.stopReason := Some(enforced.value.1);
      r := SaveNode(Commit(Decide, None, DecideOut(enforced.value.0, enforced.value.1), []));
    }

    method DecideNode() returns (r: NodeEnd)
      requires Wired() && At(Enter(service.evidence, state.View(), Decide))
      modifies this, service, state, gateway, executor
      ensures Reports(r)
      ensures !r.Continues?
    {
      hide AgentMachine.Run, Enforce;
      var key := ModelKey(Decide, state.version,
                          EvidencePrompt(state.requirements, Summary(service.evidence, state.evidenceIds)));
      var generated := Generate(key);
      match generated {
        case CallBusy => r := Raised(AlreadyRunning);
        case ModelRaised(code, retryable) => r := ModelFailed(code, retryable);
        case Answered(Reply(call, DecideAnswer(proposed))) => r := DecideWith(call, proposed);
        case Answered(_) => r := Raised(CheckpointInvalid);
      }
    }

    // ---- the loop --------------------------------------------------------------------------

    method Dispatch(node: Node) returns (r: NodeEnd)
      requires Wired() && At(Enter(service.evidence, state.View(), node))
      modifies this, service, state, gateway, executor
      ensures Reports(r)
      ensures r.Continues? ==> state.version == old(state.version) + 1
    {
      hide Enter, Reports, At;
      match node {
        case Plan => r := PlanNode();
        case Retrieve => r := RetrieveNode();
        case Inspect => r := InspectNode();
        case Verify => r := VerifyNode();
        case Challenge => r := ChallengeNode();
        case Decide => r := DecideNode();
      }
    }

    // The decision is written, or the run has moved on without this worker.
    method Conclude(ghost p: Worker, decision: Decision, reason: StopReason) returns (r: Result<(), RunError>)
      requires Wired() && At(p)
      requires p == Deciding(state.View(), decision, reason)
               || (p == Stopping(state.View(), reason) && decision == ReviewDecision(state.View(), reason))
      modifies this, service, state, gateway, executor
      ensures Done()
      ensures r.Ok? || r == Err(RuntimeError(StateConflict))
    {
      hide AgentMachine.Run;
      Pause(p);
      Acts(p, Nothing);
      trace := trace + [WorkOn(me, Nothing)];
      var written := service.Finish(state, decision, reason);
      r := if written.Ok? then Ok(()) else Err(RuntimeError(StateConflict));
    }

    lemma StaysBounded(requirements: seq<Requirement>)
      requires Inv(cfg, requirements, origin) && At(Looping(state.View()))
      ensures state.version <= 5 * cfg.maxIterations
    {
      RunKeeps(cfg, requirements, origin, trace);
      hide AgentMachine.Run;
      var w := AgentMachine.Run(cfg, origin, trace);
      assert w.workers[me] == Looping(state.View());
      AgentProgress.VersionIsBounded(cfg, requirements, w.db, w.tools, w.workers[me]);
    }

    method Run(ghost requirements: seq<Requirement>) returns (r: Result<(), RunError>)
      requires Wired() && At(Looping(state.View())) && Inv(cfg, requirements, origin)
      modifies this, service, state, gateway, executor
      ensures Ends(r)
    {
      hide AgentMachine.Run, Inv, Enter, BudgetStop;
      while state.next.Some?
        invariant At(Looping(state.View()))
        decreases 5 * cfg.maxIterations + 1 - state.version
      {
        StaysBounded(requirements);
        Pause(Looping(state.View()));
        Acts(Looping(state.View()), Nothing);
        trace := trace + [WorkOn(me, Nothing)];
        var forced := BudgetStop(cfg, state.View(), now >= state.deadline);
        if forced.Some? {
          r := Conclude(Stopping(state.View(), forced.value), ReviewDecision(state.View(), forced.value), forced.value);
          return;
        }
        var end := Dispatch(state.next.value);
        if !end.Continues? {
          r := End(end);
          return;
        }
      }
      Acts(Looping(state.View()), Nothing);
      trace := trace + [WorkOn(me, Nothing)];
      r := Err(RuntimeError(CheckpointInvalid));
    }

    // A node that ends the loop: decided, raised, or stopped by its model.
    method End(end: NodeEnd) returns (r: Result<(), RunError>)
      requires Wired() && Reports(end) && !end.Continues?
      modifies this, service, state, gateway, executor
      ensures Ends(r)
    {
      hide AgentMachine.Run;
      match end {
        case Decided(decision, reason) => r := Conclude(Deciding(state.View(), decision, reason), decision, reason);
        case Raised(code) => return Err(RuntimeError(code));
        case Lost => return Err(RuntimeError(StateConflict));
        case ModelFailed(error, retryable) =>
          if retryable {
            return Err(RetryableError(error));
          }
          r := Conclude(Stopping(state.View(), AgentModelFailed), ReviewDecision(state.View(), AgentModelFailed),
                        AgentModelFailed);
      }
    }

    // What the loop leaves to the handler.
    ghost predicate Ends(r: Result<(), RunError>)
      reads this, service, state, gateway, executor
    {
      match r
      case Ok(_) => Done()
      case Err(RetryableError(error)) => At(Deferring(state.View(), error))
      case Err(RuntimeError(code)) => if code == StateConflict then Done() else exists s :: At(Failing(s, code))
    }

    method Compensate(r: Result<(), RunError>)
      requires Wired() && Ends(r)
      modifies this, service, gateway, executor
      ensures Done()
    {
      hide AgentMachine.Run;
      match r {
        case Ok(_) =>
        case Err(RetryableError(error)) =>
          Pause(Deferring(state.View(), error));
          Acts(Deferring(state.View(), error), Nothing);
          trace := trace + [WorkOn(me, Nothing)];
          service.Defer(ModelError(error));
        case Err(RuntimeError(code)) =>
          if code != StateConflict {
            ghost var s :| At(Failing(s, code));
            Pause(Failing(s, code));
            Acts(Failing(s, code), Nothing);
            trace := trace + [WorkOn(me, Nothing)];
            service.FailRun(code);
          }
      }
    }
  }

  // The job handler: claim, run, and undo the claim when the run raises. In every reached state, whatever the
  // provider and the tools answer and whatever other workers do between any two of its transactions, it
  // ends; and what happened meanwhile is a run of the machine that starts with its claim, if that succeeds,
  // and goes on with its work and theirs.
  method Handle(cfg: Settings, ghost requirements: seq<Requirement>, service: InvestigationService,
                gateway: AuditedGateway, executor: ToolExecutor, provider: ModelKey -> Arrival,
                toolbox: ToolKey -> ToolOutput, crowd: nat -> seq<Event>, others: map<nat, Worker>, now: nat,
                issued: nat, ghost me: nat)
    returns (later: nat, handed: nat, others': map<nat, Worker>, ghost events: seq<Event>)
    requires service.cfg == cfg && gateway.lease == cfg.callLease && me !in others
    requires forall i :: AllForeign(me, crowd(i))
    requires Inv(cfg, requirements, World(service.View(), now, gateway.calls, executor.tools, issued, others))
    modifies service, gateway, executor
    ensures me !in others'
    ensures events != [] <==> old(ClaimRun(cfg, now, service.View())).Claimed?
    ensures events != [] ==> events[0] == ClaimBy(me) && AllAdmitted(me, events[1..])
    ensures AgentMachine.Run(cfg, old(World(service.View(), now, gateway.calls, executor.tools, issued, others)),
                             events)
            == World(service.View(), later, gateway.calls, executor.tools, handed, others')
  {
    ghost var before := World(service.View(), now, gateway.calls, executor.tools, issued, others);
    later, handed, others', events := now, issued, others, [];
    var claimed, finished := service.ClaimState(now);
    if finished || claimed.Err? {
      return;
    }
    ClaimKeeps(cfg, requirements, before, me);
    ghost var start := Step(cfg, before, ClaimBy(me));
    hide Step;
    var state := new Investigation(claimed.value);
    assert start == World(service.View(), now, gateway.calls, executor.tools, issued,
                          others[me := Looping(claimed.value)]);
    var engine := new Engine(cfg, service, state, gateway, executor, provider, toolbox, crowd, others, now, issued, me);
    var r := engine.Run(requirements);
    engine.Compensate(r);
    later, handed, others' := engine.now, engine.issued, engine.others;
    events := [ClaimBy(me)] + engine.trace;
    RunsOn(cfg, before, ClaimBy(me), engine.trace);
  }
}
