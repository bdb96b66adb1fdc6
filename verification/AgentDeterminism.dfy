/** Crash and reclaim do not change the log. Given the answers the run has recorded, the committed
    steps and evidence of every clean schedule are a prefix of the one crash-free run, and a finished
    schedule ends as the crash-free run ends. */
module AgentDeterminism {
  import opened Common
  import opened AgentTypes
  import opened AgentGraph
  import opened AgentCalls
  import opened AgentStore
  import opened AgentMachine
  import opened AgentSafety
  import opened AgentGuarantees

  datatype ToolReply = ToolReply(run: nat, output: ToolOutput)

  // The answer of every request, recorded or still to be recorded.
  datatype Oracle = Oracle(model: ModelKey -> Reply, tool: ToolKey -> ToolReply)

  ghost predicate Covers(o: Oracle, calls: CallTable, tools: ToolTable) {
    && (forall k :: k in calls && calls[k].CallDone? ==> o.model(k) == Reply(calls[k].call, calls[k].answer))
    && (forall k :: k in tools && tools[k].ToolDone? ==> o.tool(k) == ToolReply(tools[k].run, tools[k].output))
  }

  // ---- the crash-free run ----------------------------------------------------------------

  predicate Resting(p: Worker) {
    p.Committing? || p.Deciding? || p.Stopping? || p.Failing? || p.Deferring?
  }

  function Rank(p: Worker): nat {
    match p
    case Looping(_) => 3
    case Asking(_, _) => 2
    case Awaiting(_, _, _) => 2
    case Tooling(_, _, _, _) => 1
    case Executing(_, _, _, _, _, _) => 1
    case _ => 0
  }

  function Todo(p: Worker): nat {
    if p.Tooling? || p.Executing? then |p.todo| else 0
  }

  function OracleStep(cfg: Settings, o: Oracle, table: EvidenceTable, p: Worker): (p': Worker)
    requires !Resting(p)
    ensures Rank(p') < Rank(p) || (Rank(p') == Rank(p) && Todo(p') < Todo(p))
  {
    match p
    case Looping(s) => Begin(cfg, false, table, s)
    case Asking(s, key) => Resume(cfg, false, table, s, key.node, o.model(key))
    case Awaiting(s, key, _) => Resume(cfg, false, table, s, key.node, o.model(key))
    case Tooling(s, todo, done, plan) =>
      if todo == [] then FinishTools(cfg, false, s, done, plan)
      else if RefusedCall(s, todo[0]) then Failing(s, ActionInvalid)
      else if InvalidRequest(cfg, s, todo[0].action) then AfterTool(s, todo, done, plan, Refusal)
      else AfterTool(s, todo, done, plan, Answer(o.tool(KeyOf(cfg, todo[0].action))))
    case Executing(s, todo, done, plan, key, _) =>
      if todo == [] then Failing(s, CheckpointInvalid)
      else AfterTool(s, todo, done, plan, Answer(o.tool(key)))
  }

  function Answer(r: ToolReply): ToolResult {
    ToolResult(Some(r.run), r.output)
  }

  // Where the node in progress ends if nothing interrupts it.
  function Future(cfg: Settings, o: Oracle, table: EvidenceTable, p: Worker): (p': Worker)
    ensures Resting(p')
    decreases Rank(p), Todo(p)
  {
    if Resting(p) then p else Future(cfg, o, table, OracleStep(cfg, o, table, p))
  }

  datatype Committed = Committed(s: State, steps: seq<StepRow>, evidence: EvidenceTable)

  function After(cfg: Settings, o: Oracle, c: Committed): Committed {
    match Future(cfg, o, c.evidence, Looping(c.s))
    case Committing(s, commit) =>
      Committed(Advance(s, commit.next),
                c.steps + [StepRow(commit.node, s.iteration, s.version + 1, commit.output)],
                StoreEvidence(c.evidence, commit.evidence))
    case _ => c
  }

  // The committed rows after `n` nodes, one worker and no crash.
  function CrashFree(cfg: Settings, o: Oracle, s: State, n: nat): Committed {
    if n == 0 then Committed(s, [], map[]) else After(cfg, o, CrashFree(cfg, o, s, n - 1))
  }

  datatype Outcome = Running | Concluded(decision: Decision, reason: StopReason) | FailedWith(code: ErrorCode)

  function OutcomeOf(cfg: Settings, o: Oracle, c: Committed): Outcome {
    if c.s.next.None? then
      (match (c.s.decision, c.s.stopReason)
       case (Some(decision), Some(reason)) => Concluded(decision, reason)
       case _ => FailedWith(CheckpointInvalid))
    else
      match Future(cfg, o, c.evidence, Looping(c.s))
      case Stopping(s, reason) => Concluded(ReviewDecision(s, reason), reason)
      case Failing(_, code) => FailedWith(code)
      case _ => Running
  }

  // ---- clean schedules -------------------------------------------------------------------

  predicate InFlight(p: Worker) {
    p.Awaiting? || p.Executing?
  }

  // No crash inside a call, no meeting of somebody else's call, no failed model call, no deadline,
  // and nobody claims between the DECIDE checkpoint and the end.
  predicate Clean(cfg: Settings, w: World, e: Event) {
    match e
    case Tick(_) => true
    case ClaimBy(_) => ClaimRun(cfg, w.now, w.db).Claimed? ==> w.db.run.snapshot.next.Some?
    case CrashOf(k) => k in w.workers ==> !InFlight(w.workers[k])
    case WorkOn(k, arrival) =>
      k in w.workers ==>
        var p := w.workers[k];
        && !Late(p.s, w.now)
        && (p.Asking? && p.key in w.calls ==> w.calls[p.key].CallDone?)
        && (p.Awaiting? ==> !arrival.ModelFails?)
        && (p.Tooling? && p.todo != [] && KeyOf(cfg, p.todo[0].action) in w.tools ==>
              w.tools[KeyOf(cfg, p.todo[0].action)].ToolDone?)
  }

  predicate CleanRun(cfg: Settings, w: World, events: seq<Event>)
    decreases |events|
  {
    events != [] ==>
      var before := events[..|events| - 1];
      CleanRun(cfg, w, before) && Clean(cfg, Run(cfg, w, before), events[|events| - 1])
  }

  // ---- facts about the crash-free run ----------------------------------------------------

  ghost predicate Extends(table: EvidenceTable, table': EvidenceTable) {
    forall id :: id in table ==> id in table' && table'[id] == table[id]
  }

  lemma AfterExtends(cfg: Settings, o: Oracle, c: Committed)
    ensures Extends(c.evidence, After(cfg, o, c).evidence)
    ensures |After(cfg, o, c).steps| <= |c.steps| + 1
  {
    hide Future;
  }

  lemma AfterTheEnd(cfg: Settings, o: Oracle, c: Committed)
    requires OutcomeOf(cfg, o, c) != Running
    ensures After(cfg, o, c) == c
  {
    if c.s.next.None? {
      var p := OracleStep(cfg, o, c.evidence, Looping(c.s));
      assert p == Failing(c.s, CheckpointInvalid) && Future(cfg, o, c.evidence, p) == p;
    }
  }

  lemma {:induction false} EvidenceOnlyGrows(cfg: Settings, o: Oracle, s: State, u: nat, v: nat)
    requires u <= v
    ensures Extends(CrashFree(cfg, o, s, u).evidence, CrashFree(cfg, o, s, v).evidence)
    decreases v
  {
    hide After;
    if u < v {
      EvidenceOnlyGrows(cfg, o, s, u, v - 1);
      AfterExtends(cfg, o, CrashFree(cfg, o, s, v - 1));
    }
  }

  lemma {:induction false} StepsAtMost(cfg: Settings, o: Oracle, s: State, n: nat)
    ensures |CrashFree(cfg, o, s, n).steps| <= n
  {
    hide After;
    if n > 0 {
      StepsAtMost(cfg, o, s, n - 1);
      AfterExtends(cfg, o, CrashFree(cfg, o, s, n - 1));
    }
  }

  // A run that has ended commits nothing more.
  lemma {:induction false} EndedStays(cfg: Settings, o: Oracle, s: State, u: nat, v: nat)
    requires u <= v && OutcomeOf(cfg, o, CrashFree(cfg, o, s, u)) != Running
    ensures CrashFree(cfg, o, s, v) == CrashFree(cfg, o, s, u)
    decreases v
  {
    hide After, OutcomeOf;
    if u < v {
      EndedStays(cfg, o, s, u, v - 1);
      AfterTheEnd(cfg, o, CrashFree(cfg, o, s, v - 1));
    }
  }

  // Until it commits, a node leaves the evidence list alone; its commit names every new identity.
  ghost predicate IdsKept(ids: seq<EvidenceId>, p: Worker) {
    if p.Committing?
    then forall id :: id in p.s.evidenceIds ==> id in ids || exists row :: row in p.commit.evidence && row.id == id
    else p.s.evidenceIds == ids
  }

  lemma {:induction false} FutureKeepsIds(cfg: Settings, o: Oracle, table: EvidenceTable, ids: seq<EvidenceId>,
                                          p: Worker)
    requires IdsKept(ids, p)
    ensures IdsKept(ids, Future(cfg, o, table, p))
    decreases Rank(p), Todo(p)
  {
    if !Resting(p) {
      var p' := OracleStep(cfg, o, table, p);
      assert IdsKept(ids, p') by {
        hide Summary, ValidAction, Enforce;
      }
      FutureKeepsIds(cfg, o, table, ids, p');
    }
  }

  ghost predicate IdsHeld(c: Committed) {
    forall id :: id in c.s.evidenceIds ==> id in c.evidence
  }

  lemma {:induction false} CrashFreeHoldsIds(cfg: Settings, o: Oracle, s: State, n: nat)
    requires s.evidenceIds == []
    ensures IdsHeld(CrashFree(cfg, o, s, n))
  {
    if n > 0 {
      CrashFreeHoldsIds(cfg, o, s, n - 1);
      var c := CrashFree(cfg, o, s, n - 1);
      FutureKeepsIds(cfg, o, c.evidence, c.s.evidenceIds, Looping(c.s));
    }
  }

  lemma SameSummary(table: EvidenceTable, table': EvidenceTable, ids: seq<EvidenceId>)
    requires Extends(table, table') && forall id :: id in ids ==> id in table
    ensures Summary(table, ids) == Summary(table', ids)
  {
  }

  // ---- following the crash-free run ------------------------------------------------------

  // The worker is on its way to where the crash-free run goes from the same version.
  ghost predicate OnTrack(cfg: Settings, o: Oracle, s0: State, p: Worker) {
    var c := CrashFree(cfg, o, s0, p.s.version);
    if p.Deciding? then p.s == c.s
    else
      && c.s.next.Some?
      && !p.Deferring?
      && (!Resting(p) ==> p.s.evidenceIds == c.s.evidenceIds)
      && Future(cfg, o, c.evidence, p) == Future(cfg, o, c.evidence, Looping(c.s))
  }

  ghost predicate Mirrors(cfg: Settings, o: Oracle, s0: State, db: Db) {
    var c := CrashFree(cfg, o, s0, db.run.version);
    && db.steps == c.steps
    && db.evidence == c.evidence
    && db.run.status != RunCancelled
    && (db.run.status == RunPending || db.run.status == RunRunning ==> db.run.snapshot == c.s)
    && (Terminal(db.run.status) ==>
          && db.run.result.Some? && db.run.stopReason.Some?
          && OutcomeOf(cfg, o, c) == Concluded(db.run.result.value, db.run.stopReason.value)
          && (db.run.status == RunCompleted <==> db.run.result.value.verdict != NeedsHumanReview))
    && (db.run.status == RunFailed ==>
          && db.run.stopReason.Some? && db.run.stopReason.value.Failure?
          && OutcomeOf(cfg, o, c) == FailedWith(db.run.stopReason.value.code))
  }

  ghost predicate Tracked(cfg: Settings, o: Oracle, s0: State, w: World) {
    && Mirrors(cfg, o, s0, w.db)
    && forall k :: k in w.workers ==> OnTrack(cfg, o, s0, w.workers[k])
  }

  // A call in flight has its row to itself.
  ghost predicate CallsHeld(w: World) {
    && (forall k :: k in w.workers && w.workers[k].Awaiting? ==>
          var p := w.workers[k];
          p.key in w.calls && w.calls[p.key].CallRunning? && w.calls[p.key].call == p.call)
    && (forall a, b :: a in w.workers && b in w.workers && a != b ==>
          w.workers[a].Awaiting? && w.workers[b].Awaiting? ==> w.workers[a].key != w.workers[b].key)
  }

  // The tables a worker reads hold, for its identities, what they held at its own version.
  lemma OwnTable(cfg: Settings, o: Oracle, s0: State, w: World, p: Worker)
    requires s0.evidenceIds == [] && Tracked(cfg, o, s0, w)
    requires p.s.version <= w.db.run.version && !Resting(p) && OnTrack(cfg, o, s0, p)
    ensures
      var table := CrashFree(cfg, o, s0, p.s.version).evidence;
      Summary(w.db.evidence, p.s.evidenceIds) == Summary(table, p.s.evidenceIds)
  {
    CrashFreeHoldsIds(cfg, o, s0, p.s.version);
    EvidenceOnlyGrows(cfg, o, s0, p.s.version, w.db.run.version);
    SameSummary(CrashFree(cfg, o, s0, p.s.version).evidence, w.db.evidence, p.s.evidenceIds);
  }

  lemma SameBegin(cfg: Settings, table: EvidenceTable, table': EvidenceTable, s: State)
    requires Summary(table, s.evidenceIds) == Summary(table', s.evidenceIds)
    ensures Begin(cfg, false, table, s) == Begin(cfg, false, table', s)
  {
  }

  lemma SameResume(cfg: Settings, table: EvidenceTable, table': EvidenceTable, s: State, node: Node, reply: Reply)
    requires Summary(table, s.evidenceIds) == Summary(table', s.evidenceIds)
    ensures Resume(cfg, false, table, s, node, reply) == Resume(cfg, false, table', s, node, reply)
  {
  }

  // A stretch of private work or a finished call keeps the worker on track.
  ghost predicate SameTrack(cfg: Settings, o: Oracle, table: EvidenceTable, p: Worker, p': Worker) {
    && p'.s.version == p.s.version
    && !p'.Deciding? && !p'.Deferring?
    && (!Resting(p') ==> p'.s.evidenceIds == p.s.evidenceIds)
    && Future(cfg, o, table, p') == Future(cfg, o, table, p)
  }

  lemma OracleStepTracks(cfg: Settings, o: Oracle, table: EvidenceTable, p: Worker)
    requires !Resting(p)
    ensures SameTrack(cfg, o, table, p, OracleStep(cfg, o, table, p))
  {
    hide Summary, ValidAction, Enforce, ValidateEvidence;
    var p' := OracleStep(cfg, o, table, p);
    assert Future(cfg, o, table, p) == Future(cfg, o, table, p') by { hide OracleStep; }
  }

  // What a clean move of an unrested worker leaves behind.
  ghost predicate Moves(cfg: Settings, o: Oracle, w: World, table: EvidenceTable, p: Worker, m: Moved) {
    && m.db == w.db
    && m.worker.Some?
    && var p' := m.worker.value;
       p' == p || SameTrack(cfg, o, table, p, p')
  }

  lemma CleanMove(cfg: Settings, o: Oracle, s0: State, w: World, k: nat, arrival: Arrival)
    requires s0.evidenceIds == [] && Tracked(cfg, o, s0, w) && CallsHeld(w)
    requires k in w.workers && w.workers[k].s.version <= w.db.run.version && !Resting(w.workers[k])
    requires w.workers[k].Executing? ==> w.workers[k].todo != []
    requires Clean(cfg, w, WorkOn(k, arrival))
    requires var m := Move(cfg, w, w.workers[k], arrival); Covers(o, m.calls, m.tools)
    ensures Moves(cfg, o, w, CrashFree(cfg, o, s0, w.workers[k].s.version).evidence, w.workers[k],
                  Move(cfg, w, w.workers[k], arrival))
  {
    var p := w.workers[k];
    OwnTable(cfg, o, s0, w, p);
    var table := CrashFree(cfg, o, s0, p.s.version).evidence;
    assert p.Awaiting? ==> p.key in w.calls && w.calls[p.key].CallRunning? && w.calls[p.key].call == p.call;
    hide Tracked, CrashFree, Moves, Move, Covers;
    if p.Looping? {
      CleanLoop(cfg, o, w, table, p, arrival);
    } else if p.Asking? || p.Awaiting? {
      CleanCall(cfg, o, w, table, p, arrival);
    } else {
      CleanTool(cfg, o, w, table, p, arrival);
    }
  }

  lemma CleanLoop(cfg: Settings, o: Oracle, w: World, table: EvidenceTable, p: Worker, arrival: Arrival)
    requires p.Looping? && !Late(p.s, w.now)
    requires Summary(w.db.evidence, p.s.evidenceIds) == Summary(table, p.s.evidenceIds)
    ensures Moves(cfg, o, w, table, p, Move(cfg, w, p, arrival))
  {
    SameBegin(cfg, w.db.evidence, table, p.s);
    OracleStepTracks(cfg, o, table, p);
    hide SameTrack, Begin, Future;
  }

  lemma CleanCall(cfg: Settings, o: Oracle, w: World, table: EvidenceTable, p: Worker, arrival: Arrival)
    requires (p.Asking? || p.Awaiting?) && !Late(p.s, w.now)
    requires p.Asking? && p.key in w.calls ==> w.calls[p.key].CallDone?
    requires p.Awaiting? ==>
      !arrival.ModelFails? && p.key in w.calls && w.calls[p.key].CallRunning? && w.calls[p.key].call == p.call
    requires Summary(w.db.evidence, p.s.evidenceIds) == Summary(table, p.s.evidenceIds)
    requires var m := Move(cfg, w, p, arrival); Covers(o, m.calls, m.tools)
    ensures Moves(cfg, o, w, table, p, Move(cfg, w, p, arrival))
  {
    SameResume(cfg, w.db.evidence, table, p.s, p.key.node, o.model(p.key));
    OracleStepTracks(cfg, o, table, p);
    var m := Move(cfg, w, p, arrival);
    if m.worker.value.Awaiting? {
      OracleStepTracks(cfg, o, table, m.worker.value);
    }
    hide Resume, Future, Summary;
  }

  lemma CleanTool(cfg: Settings, o: Oracle, w: World, table: EvidenceTable, p: Worker, arrival: Arrival)
    requires (p.Tooling? || (p.Executing? && p.todo != [])) && !Late(p.s, w.now)
    requires p.Tooling? && p.todo != [] && KeyOf(cfg, p.todo[0].action) in w.tools ==>
      w.tools[KeyOf(cfg, p.todo[0].action)].ToolDone?
    requires var m := Move(cfg, w, p, arrival); Covers(o, m.calls, m.tools)
    ensures Moves(cfg, o, w, table, p, Move(cfg, w, p, arrival))
  {
    OracleStepTracks(cfg, o, table, p);
    if p.Executing? {
      hide AfterTool, Future;
    } else if p.todo != [] && StartTool(cfg, p.s, w.tools, p.todo[0].action).Launch? && !RefusedCall(p.s, p.todo[0]) {
      CleanLaunch(cfg, o, w, table, p, arrival);
    } else {
      hide AfterTool, FinishTools, Future, InvalidRequest, RefusedCall;
    }
  }

  lemma CleanLaunch(cfg: Settings, o: Oracle, w: World, table: EvidenceTable, p: Worker, arrival: Arrival)
    requires p.Tooling? && p.todo != [] && !RefusedCall(p.s, p.todo[0])
    requires StartTool(cfg, p.s, w.tools, p.todo[0].action).Launch?
    ensures Moves(cfg, o, w, table, p, Move(cfg, w, p, arrival))
  {
    OracleStepTracks(cfg, o, table, p);
    var m := Move(cfg, w, p, arrival);
    OracleStepTracks(cfg, o, table, m.worker.value);
    hide AfterTool, FinishTools, Future;
  }

  // ---- moves that commit or end the run --------------------------------------------------

  // What the safety invariant says about a worker, as far as it is needed here.
  ghost predicate Sound(w: World, p: Worker) {
    && w.db.run.version == |w.db.steps|
    && p.s.version <= w.db.run.version
    && (p.Executing? ==> p.todo != [])
    && (p.Committing? ==>
          && p.s.next == Some(p.commit.node)
          && Allowed(p.commit.node, p.commit.next)
          && (p.commit.node == Decide <==> p.commit.output.DecideOut?)
          && (p.commit.node == Decide ==>
                p.s.decision == Some(p.commit.output.decision) && p.s.stopReason == Some(p.commit.output.reason)))
    && (p.Deciding? ==> p.s.next == None && p.s.decision == Some(p.decision) && p.s.stopReason == Some(p.reason))
  }

  lemma SoundWorkers(cfg: Settings, requirements: seq<Requirement>, w: World, k: nat)
    requires Inv(cfg, requirements, w) && k in w.workers
    ensures Sound(w, w.workers[k])
  {
    hide Bounded, Counted, Wired, LogOk, AllGrounded, CompletedOk, Distinct, Answered, Knows, AllSourced;
    var p := w.workers[k];
    assert WorkerOk(cfg, requirements, w.db, w.tools, p);
  }

  lemma SavedFollows(cfg: Settings, o: Oracle, s0: State, w: World, p: Worker)
    requires Mirrors(cfg, o, s0, w.db) && OnTrack(cfg, o, s0, p) && Sound(w, p) && p.Committing?
    requires Checkpoint(cfg, w.now, w.db, p.s, p.commit).Saved?
    ensures
      var saved := Checkpoint(cfg, w.now, w.db, p.s, p.commit);
      && Mirrors(cfg, o, s0, saved.db)
      && OnTrack(cfg, o, s0,
                 if p.commit.output.DecideOut?
                 then Deciding(saved.s, p.commit.output.decision, p.commit.output.reason) else Looping(saved.s))
  {
    var c := CrashFree(cfg, o, s0, w.db.run.version);
    assert After(cfg, o, c) == CrashFree(cfg, o, s0, w.db.run.version + 1);
    assert Future(cfg, o, c.evidence, p) == p;
    hide Future, OutcomeOf;
  }

  // A version whose crash-free continuation ends is the last one.
  lemma EndIsLast(cfg: Settings, o: Oracle, s0: State, db: Db, u: nat)
    requires Mirrors(cfg, o, s0, db) && db.run.version == |db.steps|
    requires u <= db.run.version && OutcomeOf(cfg, o, CrashFree(cfg, o, s0, u)) != Running
    ensures u == db.run.version
  {
    hide CrashFree, OutcomeOf;
    EndedStays(cfg, o, s0, u, db.run.version);
    StepsAtMost(cfg, o, s0, u);
  }

  // How the crash-free run ends where an ending worker stands.
  lemma EndOutcome(cfg: Settings, o: Oracle, s0: State, w: World, p: Worker)
    requires OnTrack(cfg, o, s0, p) && Sound(w, p)
    requires p.Deciding? || p.Stopping? || p.Failing?
    ensures
      OutcomeOf(cfg, o, CrashFree(cfg, o, s0, p.s.version)) ==
      match p
      case Deciding(_, decision, reason) => Concluded(decision, reason)
      case Stopping(s, reason) => Concluded(ReviewDecision(s, reason), reason)
      case Failing(_, code) => FailedWith(code)
      case _ => Running
  {
    hide CrashFree;
    var c := CrashFree(cfg, o, s0, p.s.version);
    assert Future(cfg, o, c.evidence, p) == p;
    assert !p.Deciding? ==> Future(cfg, o, c.evidence, Looping(c.s)) == p;
    hide Future;
  }

  lemma EndFollows(cfg: Settings, o: Oracle, s0: State, w: World, p: Worker, arrival: Arrival)
    requires Mirrors(cfg, o, s0, w.db) && OnTrack(cfg, o, s0, p) && Sound(w, p)
    requires p.Deciding? || p.Stopping? || p.Failing?
    ensures Mirrors(cfg, o, s0, Move(cfg, w, p, arrival).db)
  {
    EndOutcome(cfg, o, s0, w, p);
    EndIsLast(cfg, o, s0, w.db, p.s.version);
    hide OnTrack, CrashFree, OutcomeOf;
  }

  // ---- every clean schedule --------------------------------------------------------------

  lemma CleanStep(cfg: Settings, o: Oracle, requirements: seq<Requirement>, s0: State, w: World, e: Event)
    requires s0.evidenceIds == [] && Inv(cfg, requirements, w) && Tracked(cfg, o, s0, w) && CallsHeld(w)
    requires Clean(cfg, w, e) && Covers(o, Step(cfg, w, e).calls, Step(cfg, w, e).tools)
    ensures Tracked(cfg, o, s0, Step(cfg, w, e))
  {
    match e
    case Tick(_) =>
    case CrashOf(_) =>
    case ClaimBy(k) => ClaimStays(cfg, o, s0, w, k);
    case WorkOn(k, arrival) =>
      if k in w.workers {
        SoundWorkers(cfg, requirements, w, k);
        MoverStays(cfg, o, s0, w, k, arrival);
        hide Move, OnTrack, Covers, Mirrors, Clean, Sound, Inv;
      }
  }

  lemma ClaimStays(cfg: Settings, o: Oracle, s0: State, w: World, k: nat)
    requires Tracked(cfg, o, s0, w) && Clean(cfg, w, ClaimBy(k)) && w.db.run.snapshot.version == w.db.run.version
    ensures Tracked(cfg, o, s0, Step(cfg, w, ClaimBy(k)))
  {
    hide Future, CrashFree, OutcomeOf;
  }

  lemma MoverStays(cfg: Settings, o: Oracle, s0: State, w: World, k: nat, arrival: Arrival)
    requires s0.evidenceIds == [] && Tracked(cfg, o, s0, w) && CallsHeld(w)
    requires k in w.workers && Sound(w, w.workers[k]) && Clean(cfg, w, WorkOn(k, arrival))
    requires var m := Move(cfg, w, w.workers[k], arrival); Covers(o, m.calls, m.tools)
    ensures
      var m := Move(cfg, w, w.workers[k], arrival);
      && Mirrors(cfg, o, s0, m.db)
      && (m.worker.Some? ==> OnTrack(cfg, o, s0, m.worker.value))
  {
    var p := w.workers[k];
    assert OnTrack(cfg, o, s0, p);
    if Resting(p) {
      RestingMove(cfg, o, s0, w, p, arrival);
    } else {
      CleanMove(cfg, o, s0, w, k, arrival);
    }
    hide Future, CrashFree, Move, Mirrors, Clean, Covers;
  }

  lemma RestingMove(cfg: Settings, o: Oracle, s0: State, w: World, p: Worker, arrival: Arrival)
    requires Mirrors(cfg, o, s0, w.db) && OnTrack(cfg, o, s0, p) && Sound(w, p) && Resting(p)
    ensures
      var m := Move(cfg, w, p, arrival);
      && Mirrors(cfg, o, s0, m.db)
      && (m.worker.Some? ==> OnTrack(cfg, o, s0, m.worker.value))
  {
    if p.Committing? {
      if Checkpoint(cfg, w.now, w.db, p.s, p.commit).Saved? {
        SavedFollows(cfg, o, s0, w, p);
      }
    } else {
      assert !p.Deferring?;
      EndFollows(cfg, o, s0, w, p, arrival);
    }
    hide Mirrors, Future, CrashFree, OutcomeOf;
  }

  lemma HeldStep(cfg: Settings, w: World, e: Event)
    requires CallsHeld(w) && Clean(cfg, w, e)
    ensures CallsHeld(Step(cfg, w, e))
  {
    if e.WorkOn? && e.worker in w.workers {
      CallMoves(cfg, w, w.workers[e.worker], e.arrival);
      hide Move;
    }
  }

  // Only a new request or the call's own end touches the call table.
  lemma CallMoves(cfg: Settings, w: World, p: Worker, arrival: Arrival)
    requires p.Asking? && p.key in w.calls ==> w.calls[p.key].CallDone?
    requires p.Awaiting? ==> p.key in w.calls && w.calls[p.key].CallRunning? && w.calls[p.key].call == p.call
    ensures
      var m := Move(cfg, w, p, arrival);
      && (m.worker.Some? && m.worker.value.Awaiting? ==>
            var p' := m.worker.value;
            && p'.key in m.calls && m.calls[p'.key].CallRunning? && m.calls[p'.key].call == p'.call
            && (p' == p || (p.Asking? && p'.key == p.key && p.key !in w.calls)))
      && (forall k :: k in w.calls && !(p.Awaiting? && k == p.key) ==> k in m.calls && m.calls[k] == w.calls[k])
  {
    hide Enter, Enforce, ValidAction, ValidateEvidence, Checkpoint, Complete, InvalidRequest, RefusedCall;
  }

  // A recorded answer stays recorded.
  lemma AnswersStay(cfg: Settings, o: Oracle, requirements: seq<Requirement>, w: World, e: Event)
    requires Inv(cfg, requirements, w) && CallsHeld(w) && Clean(cfg, w, e)
    requires Covers(o, Step(cfg, w, e).calls, Step(cfg, w, e).tools)
    ensures Covers(o, w.calls, w.tools)
  {
    if e.WorkOn? && e.worker in w.workers {
      var p := w.workers[e.worker];
      CallMoves(cfg, w, p, e.arrival);
      MoveKeeps(cfg, requirements, w, p, e.arrival);
      hide Move, Inv, DbOk, WorkerOk;
    }
  }

  lemma {:induction false} CleanRunsAreTracked(cfg: Settings, o: Oracle, requirements: seq<Requirement>,
                                               scope: set<RequirementId>, deadline: nat, attempts: nat,
                                               events: seq<Event>)
    requires CleanRun(cfg, Start(requirements, scope, deadline, attempts), events)
    requires var w := Reached(cfg, requirements, scope, deadline, attempts, events); Covers(o, w.calls, w.tools)
    ensures var w := Reached(cfg, requirements, scope, deadline, attempts, events);
            Tracked(cfg, o, InitialState(requirements, deadline), w)
    decreases |events|
  {
    if events != [] {
      var before := events[..|events| - 1];
      var w := Reached(cfg, requirements, scope, deadline, attempts, before);
      ReachedOk(cfg, requirements, scope, deadline, attempts, before);
      CleanRunsHold(cfg, requirements, scope, deadline, attempts, before);
      AnswersStay(cfg, o, requirements, w, events[|events| - 1]);
      CleanRunsAreTracked(cfg, o, requirements, scope, deadline, attempts, before);
      CleanStep(cfg, o, requirements, InitialState(requirements, deadline), w, events[|events| - 1]);
    }
  }

  lemma {:induction false} CleanRunsHold(cfg: Settings, requirements: seq<Requirement>, scope: set<RequirementId>,
                                         deadline: nat, attempts: nat, events: seq<Event>)
    requires CleanRun(cfg, Start(requirements, scope, deadline, attempts), events)
    ensures CallsHeld(Reached(cfg, requirements, scope, deadline, attempts, events))
    decreases |events|
  {
    if events != [] {
      var before := events[..|events| - 1];
      CleanRunsHold(cfg, requirements, scope, deadline, attempts, before);
      HeldStep(cfg, Reached(cfg, requirements, scope, deadline, attempts, before), events[|events| - 1]);
    }
  }

  // ---- results ---------------------------------------------------------------------------

  // Whatever the crashes, claims and overlaps of a clean schedule, what it has committed is what one
  // uninterrupted worker commits with the same answers, and if it has ended it ended the same way.
  lemma CrashesDoNotChangeTheLog(cfg: Settings, o: Oracle, requirements: seq<Requirement>,
                                 scope: set<RequirementId>, deadline: nat, attempts: nat, events: seq<Event>)
    requires CleanRun(cfg, Start(requirements, scope, deadline, attempts), events)
    requires var w := Reached(cfg, requirements, scope, deadline, attempts, events); Covers(o, w.calls, w.tools)
    ensures
      var db := Reached(cfg, requirements, scope, deadline, attempts, events).db;
      var alone := CrashFree(cfg, o, InitialState(requirements, deadline), |db.steps|);
      && db.steps == alone.steps
      && db.evidence == alone.evidence
      && (Terminal(db.run.status) ==>
            && db.run.result.Some? && db.run.stopReason.Some?
            && OutcomeOf(cfg, o, alone) == Concluded(db.run.result.value, db.run.stopReason.value))
      && (db.run.status == RunFailed ==>
            && db.run.stopReason.Some? && db.run.stopReason.value.Failure?
            && OutcomeOf(cfg, o, alone) == FailedWith(db.run.stopReason.value.code))
  {
    CleanRunsAreTracked(cfg, o, requirements, scope, deadline, attempts, events);
    LogIsOnePath(cfg, requirements, scope, deadline, attempts, events);
    hide Reached, CrashFree, OutcomeOf;
  }

  ghost predicate Ended(db: Db) {
    Terminal(db.run.status) || db.run.status == RunFailed
  }

  // Two schedules that end with the same recorded answers leave the same log, evidence and decision.
  lemma SchedulesAgree(cfg: Settings, o: Oracle, requirements: seq<Requirement>, scope: set<RequirementId>,
                       deadline: nat, attempts: nat, events: seq<Event>, events': seq<Event>)
    requires CleanRun(cfg, Start(requirements, scope, deadline, attempts), events)
    requires CleanRun(cfg, Start(requirements, scope, deadline, attempts), events')
    requires var w := Reached(cfg, requirements, scope, deadline, attempts, events);
             Covers(o, w.calls, w.tools) && Ended(w.db)
    requires var w := Reached(cfg, requirements, scope, deadline, attempts, events');
             Covers(o, w.calls, w.tools) && Ended(w.db)
    ensures
      var db := Reached(cfg, requirements, scope, deadline, attempts, events).db;
      var db' := Reached(cfg, requirements, scope, deadline, attempts, events').db;
      && db.steps == db'.steps
      && db.evidence == db'.evidence
      && db.run.status == db'.run.status
      && db.run.stopReason == db'.run.stopReason
      && (Terminal(db.run.status) ==> db.run.result == db'.run.result)
  {
    var s0 := InitialState(requirements, deadline);
    CleanRunsAreTracked(cfg, o, requirements, scope, deadline, attempts, events);
    CleanRunsAreTracked(cfg, o, requirements, scope, deadline, attempts, events');
    LogIsOnePath(cfg, requirements, scope, deadline, attempts, events);
    LogIsOnePath(cfg, requirements, scope, deadline, attempts, events');
    var db := Reached(cfg, requirements, scope, deadline, attempts, events).db;
    var db' := Reached(cfg, requirements, scope, deadline, attempts, events').db;
    hide Reached, CrashFree, OutcomeOf, Covers, CleanRun;
    if |db.steps| <= |db'.steps| {
      EndIsLast(cfg, o, s0, db', |db.steps|);
    } else {
      EndIsLast(cfg, o, s0, db, |db'.steps|);
    }
  }
}
