/** Any number of workers on one run: claims, node work, model and tool calls, crashes and time, one
    transaction at a time and in any order. */
module AgentMachine {
  import opened Common
  import opened AgentTypes
  import opened AgentGraph
  import opened AgentCalls
  import opened AgentStore

  // ---- the machine -----------------------------------------------------------------------

  datatype World = World(
    db: Db,
    now: nat,
    calls: CallTable,
    tools: ToolTable,
    issued: nat,
    workers: map<nat, Worker>)

  // What the provider or the tool in flight answers, when the event lets it answer.
  datatype Arrival =
    | Nothing
    | ModelAnswers(answer: Answer)
    | ModelFails(code: string, retryable: bool)
    | ToolAnswers(output: ToolOutput)

  datatype Event =
    | ClaimBy(worker: nat)
    | WorkOn(worker: nat, arrival: Arrival)
    | CrashOf(worker: nat)
    | Tick(delta: nat)

  predicate Late(s: State, now: nat) {
    now >= s.deadline
  }

  // A provider only delivers answers of the schema its node asked for.
  predicate Fits(node: Node, answer: Answer) {
    match node
    case Plan => answer.PlanAnswer?
    case Inspect => answer.InspectAnswer?
    case Verify => answer.VerifyAnswer?
    case Challenge => answer.ChallengeAnswer?
    case Decide => answer.DecideAnswer?
    case Retrieve => false
  }

  // One transaction, or one stretch of private work, of a worker; None: the worker is done.
  datatype Moved = Moved(db: Db, calls: CallTable, tools: ToolTable, issued: nat, worker: Option<Worker>)

  function Move(cfg: Settings, w: World, p: Worker, arrival: Arrival): Moved {
    var late := Late(p.s, w.now);
    var stay := Moved(w.db, w.calls, w.tools, w.issued, Some(p));
    match p
    case Looping(s) => stay.(worker := Some(Begin(cfg, late, w.db.evidence, s)))
    case Asking(s, key) =>
      (match ClaimCall(w.calls, key, w.now, cfg.callLease, w.issued)
        case Ask(calls, call) =>
          stay.(calls := calls, issued := w.issued + 1, worker := Some(Awaiting(s, key, call)))
        case Replay(reply) =>
          stay.(worker := Some(Resume(cfg, late, w.db.evidence, s, key.node, reply)))
        case ReplayFailure => stay.(worker := Some(Stopping(s, AgentModelFailed)))
        case Busy => stay.(worker := Some(Failing(s, AlreadyRunning))))
    case Awaiting(s, key, call) =>
      (match arrival
        case ModelAnswers(answer) =>
          if !Fits(key.node, answer) then stay
          else stay.(calls := EndCall(w.calls, key, CallDone(call, answer, Attempt(w.calls, key))),
                     worker := Some(Resume(cfg, late, w.db.evidence, s, key.node, Reply(call, answer))))
        case ModelFails(code, retryable) =>
          stay.(calls := EndCall(w.calls, key, CallFailed(call, code, Attempt(w.calls, key))),
                worker := Some(if retryable then Deferring(s, code) else Stopping(s, AgentModelFailed)))
        case _ => stay)
    case Tooling(s, todo, done, plan) =>
      if todo == [] then stay.(worker := Some(FinishTools(cfg, late, s, done, plan)))
      else if RefusedCall(s, todo[0]) then stay.(worker := Some(Failing(s, ActionInvalid)))
      else (match StartTool(cfg, s, w.tools, todo[0].action)
        case Refuse => stay.(worker := Some(AfterTool(s, todo, done, plan, Refusal)))
        case Reuse(result) => stay.(worker := Some(AfterTool(s, todo, done, plan, result)))
        case Launch(key) =>
          stay.(tools := w.tools[key := ToolRunning(w.issued)], issued := w.issued + 1,
                worker := Some(Executing(s, todo, done, plan, key, w.issued))))
    case Executing(s, todo, done, plan, key, run) =>
      if arrival.ToolAnswers? && todo != [] then
        var row := ToolDone(run, arrival.output);
        stay.(tools := w.tools[key := row], worker := Some(AfterTool(s, todo, done, plan, Recorded(row))))
      else stay
    case Committing(s, c) =>
      (match Checkpoint(cfg, w.now, w.db, s, c)
        case Saved(db, s') =>
          stay.(db := db, worker := Some(if c.output.DecideOut?
                                         then Deciding(s', c.output.decision, c.output.reason)
                                         else Looping(s')))
        case Refused(StateConflict) => stay.(worker := None)
        case Refused(code) => stay.(worker := Some(Failing(s, code))))
    case Deciding(s, decision, reason) => Ended(stay, Complete(w.db, s, decision, reason))
    case Stopping(s, reason) => Ended(stay, Complete(w.db, s, ReviewDecision(s, reason), reason))
    case Failing(s, code) => stay.(db := Fail(w.db, code), worker := None)
    case Deferring(s, code) => stay.(db := DeferRetry(w.db, ModelError(code)), worker := None)
  }

  function Ended(stay: Moved, r: Result<Db, ErrorCode>): Moved {
    match r
    case Ok(db) => stay.(db := db, worker := None)
    case Err(_) => stay.(worker := None)
  }

  function Step(cfg: Settings, w: World, e: Event): World {
    match e
    case Tick(delta) => w.(now := w.now + delta)
    case CrashOf(worker) => w.(workers := w.workers - {worker})
    case ClaimBy(worker) =>
      if worker in w.workers then w
      else (match ClaimRun(cfg, w.now, w.db)
        case Claimed(db, s) => w.(db := db, workers := w.workers[worker := Looping(s)])
        case _ => w)
    case WorkOn(worker, arrival) =>
      if worker !in w.workers then w
      else
        var m := Move(cfg, w, w.workers[worker], arrival);
        World(m.db, w.now, m.calls, m.tools, m.issued,
              if m.worker.Some? then w.workers[worker := m.worker.value] else w.workers - {worker})
  }

  function Run(cfg: Settings, w: World, events: seq<Event>): World
    decreases |events|
  {
    if events == [] then w
    else Step(cfg, Run(cfg, w, events[..|events| - 1]), events[|events| - 1])
  }

  function Start(requirements: seq<Requirement>, scope: set<RequirementId>, deadline: nat, attempts: nat): World {
    World(InitialDb(requirements, scope, deadline, attempts), 0, map[], map[], 0, map[])
  }

  lemma LastStep(cfg: Settings, w: World, events: seq<Event>, e: Event)
    ensures Run(cfg, w, events + [e]) == Step(cfg, Run(cfg, w, events), e)
  {
    assert (events + [e])[..|events|] == events;
  }

  lemma ThreeSteps(cfg: Settings, w: World, a: Event, b: Event, c: Event)
    ensures Run(cfg, w, [a, b, c]) == Step(cfg, Step(cfg, Step(cfg, w, a), b), c)
  {
    hide Step;
    LastStep(cfg, w, [], a);
    LastStep(cfg, w, [a], b);
    LastStep(cfg, w, [a, b], c);
    assert [] + [a] == [a] && [a] + [b] == [a, b] && [a, b] + [c] == [a, b, c];
  }

  lemma {:induction false} RunsOn(cfg: Settings, w: World, e: Event, events: seq<Event>)
    ensures Run(cfg, w, [e] + events) == Run(cfg, Step(cfg, w, e), events)
    decreases |events|
  {
    hide Step;
    if events == [] {
      assert ([e] + events)[..0] == [];
      assert [e] + events == [e];
    } else {
      var n := |events| - 1;
      RunsOn(cfg, w, e, events[..n]);
      assert ([e] + events)[..n + 1] == [e] + events[..n];
    }
  }

  lemma {:induction false} RunsInTurn(cfg: Settings, w: World, first: seq<Event>, second: seq<Event>)
    ensures Run(cfg, w, first + second) == Run(cfg, Run(cfg, w, first), second)
    decreases |second|
  {
    hide Step;
    if second == [] {
      assert first + second == first;
    } else {
      var n := |second| - 1;
      RunsInTurn(cfg, w, first, second[..n]);
      assert (first + second)[..|first| + n] == first + second[..n];
    }
  }

  // ---- what the others do ----------------------------------------------------------------

  predicate Foreign(k: nat, e: Event) {
    match e
    case Tick(_) => true
    case ClaimBy(worker) => worker != k
    case WorkOn(worker, _) => worker != k
    case CrashOf(worker) => worker != k
  }

  ghost predicate AllForeign(k: nat, events: seq<Event>) {
    forall e :: e in events ==> Foreign(k, e)
  }

  // Work of worker `k`, or something it has no part in: neither its claim nor its crash.
  predicate Admitted(k: nat, e: Event) {
    Foreign(k, e) || (e.WorkOn? && e.worker == k)
  }

  ghost predicate AllAdmitted(k: nat, events: seq<Event>) {
    forall e :: e in events ==> Admitted(k, e)
  }

  lemma ForeignStep(cfg: Settings, w: World, k: nat, p: Worker, e: Event)
    requires Foreign(k, e) && k !in w.workers
    ensures k !in Step(cfg, w, e).workers
    ensures Step(cfg, w.(workers := w.workers[k := p]), e)
            == Step(cfg, w, e).(workers := Step(cfg, w, e).workers[k := p])
  {
    var here := w.(workers := w.workers[k := p]);
    hide Move, ClaimRun;
    if e.WorkOn? && e.worker in w.workers {
      SameMove(cfg, here, w, w.workers[e.worker], e.arrival);
      assert Step(cfg, here, e).workers == Step(cfg, w, e).workers[k := p];
    } else {
      assert Step(cfg, here, e).workers == Step(cfg, w, e).workers[k := p];
    }
  }

  lemma SameMove(cfg: Settings, w: World, w': World, p: Worker, arrival: Arrival)
    requires w' == w.(workers := w'.workers)
    ensures Move(cfg, w, p, arrival) == Move(cfg, w', p, arrival)
  {
  }

  // Others neither see nor move a worker that is not theirs.
  lemma {:induction false} ForeignRun(cfg: Settings, w: World, k: nat, p: Worker, events: seq<Event>)
    requires AllForeign(k, events) && k !in w.workers
    ensures k !in Run(cfg, w, events).workers
    ensures Run(cfg, w.(workers := w.workers[k := p]), events)
            == Run(cfg, w, events).(workers := Run(cfg, w, events).workers[k := p])
    decreases |events|
  {
    if events != [] {
      var before := events[..|events| - 1];
      hide Step, Foreign;
      ForeignRun(cfg, w, k, p, before);
      ForeignStep(cfg, Run(cfg, w, before), k, p, events[|events| - 1]);
    }
  }
}
