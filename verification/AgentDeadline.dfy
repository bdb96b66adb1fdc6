/** The time budget: a run that completes proposed its decision before the deadline, after CHALLENGE. */
module AgentDeadline {
  import opened Common
  import opened AgentTypes
  import opened AgentGraph
  import opened AgentCalls
  import opened AgentStore
  import opened AgentMachine
  import opened AgentSafety
  import opened AgentGuarantees

  // ---- the time budget -------------------------------------------------------------------

  // At some point of the run before the deadline the log held `version` steps, or already more.
  ghost predicate InTime(cfg: Settings, w: World, events: seq<Event>, deadline: nat, version: nat) {
    exists n :: 0 <= n <= |events| && EarlyAt(Run(cfg, w, events[..n]), deadline, version)
  }

  ghost predicate EarlyAt(u: World, deadline: nat, version: nat) {
    u.now < deadline && version <= |u.db.steps|
  }

  // At some point of the run before the deadline the log held exactly `version` steps.
  ghost predicate JustInTime(cfg: Settings, w: World, events: seq<Event>, deadline: nat, version: nat) {
    exists n :: 0 <= n <= |events| && EarlyWith(Run(cfg, w, events[..n]), deadline, version)
  }

  ghost predicate EarlyWith(u: World, deadline: nat, version: nat) {
    u.now < deadline && version == |u.db.steps|
  }

  predicate Settles(output: Output) {
    output.DecideOut? && output.decision.verdict != NeedsHumanReview
  }

  // `u` keeps the deadline, and what it holds of a decision was proposed in time along `events`.
  ghost predicate Timely(cfg: Settings, w: World, events: seq<Event>, deadline: nat, u: World) {
    && u.db.run.snapshot.deadline == deadline
    && (forall k :: k in u.workers ==> WorkerTimely(cfg, w, events, deadline, u.workers[k]))
    && (u.db.steps != [] && Settles(u.db.steps[|u.db.steps| - 1].output) ==>
          JustInTime(cfg, w, events, deadline, |u.db.steps| - 1))
  }

  ghost predicate WorkerTimely(cfg: Settings, w: World, events: seq<Event>, deadline: nat, p: Worker) {
    && p.s.deadline == deadline
    && (p.Committing? && Settles(p.commit.output) ==> InTime(cfg, w, events, deadline, p.s.version))
  }

  // A decision is only proposed before the deadline; a commit writes the output it carries.
  ghost predicate DeadlineKept(w: World, p: Worker, m: Moved) {
    && (m.db.run.snapshot.deadline == w.db.run.snapshot.deadline || m.db.run.snapshot.deadline == p.s.deadline)
    && (m.db.steps == w.db.steps
        || (p.Committing? && |w.db.steps| == |m.db.steps| - 1 && w.db.run.version == p.s.version
            && m.db.steps[|w.db.steps|].output == p.commit.output))
    && (m.worker.Some? ==>
          && m.worker.value.s.deadline == p.s.deadline
          && (m.worker.value.Committing? && Settles(m.worker.value.commit.output) ==>
                m.worker.value.s.version == p.s.version && (m.worker.value == p || !Late(p.s, w.now))))
  }

  lemma BeginKeepsDeadline(cfg: Settings, late: bool, table: EvidenceTable, s: State)
    ensures
      var p := Begin(cfg, late, table, s);
      p.s.deadline == s.deadline && !(p.Committing? && Settles(p.commit.output))
  {
    hide BudgetStop, Summary, FindRequirement;
  }

  lemma ResumeKeepsDeadline(cfg: Settings, late: bool, table: EvidenceTable, s: State, node: Node, reply: Reply)
    ensures
      var p := Resume(cfg, late, table, s, node, reply);
      && p.s.deadline == s.deadline
      && (p.Committing? && Settles(p.commit.output) ==> p.s.version == s.version && !late)
  {
    hide ValidAction, ValidateEvidence, AppendIds, StillMissing, Conflicts, Summary, CounterStop;
  }

  lemma MoveKeepsDeadline(cfg: Settings, w: World, p: Worker, arrival: Arrival)
    ensures DeadlineKept(w, p, Move(cfg, w, p, arrival))
  {
    hide Begin, Resume, BudgetStop;
    var late := Late(p.s, w.now);
    match p
    case Looping(s) => BeginKeepsDeadline(cfg, late, w.db.evidence, s);
    case Asking(s, key) =>
      if key in w.calls && w.calls[key].CallDone? {
        ResumeKeepsDeadline(cfg, late, w.db.evidence, s, key.node, Reply(w.calls[key].call, w.calls[key].answer));
      }
    case Awaiting(s, key, call) =>
      if arrival.ModelAnswers? {
        ResumeKeepsDeadline(cfg, late, w.db.evidence, s, key.node, Reply(call, arrival.answer));
      }
    case Tooling(_, _, _, _) => ToolKeepsDeadline(cfg, w, p, arrival);
    case Executing(_, _, _, _, _, _) => ToolKeepsDeadline(cfg, w, p, arrival);
    case Committing(_, _) => CommitKeepsDeadline(cfg, w, p, arrival);
    case _ =>
      hide Checkpoint, StartTool, ClaimCall, AfterTool, FinishTools;
  }

  lemma ToolKeepsDeadline(cfg: Settings, w: World, p: Worker, arrival: Arrival)
    requires p.Tooling? || p.Executing?
    ensures DeadlineKept(w, p, Move(cfg, w, p, arrival))
  {
    hide InvalidRequest, RefusedCall, KeyOf, BudgetStop, Recorded;
  }

  lemma CommitKeepsDeadline(cfg: Settings, w: World, p: Worker, arrival: Arrival)
    requires p.Committing?
    ensures DeadlineKept(w, p, Move(cfg, w, p, arrival))
  {
    hide StoreEvidence, Allowed;
  }

  // ---- the log only grows ----------------------------------------------------------------

  lemma {:induction false} LogGrows(cfg: Settings, requirements: seq<Requirement>, w: World, events: seq<Event>, n: nat)
    requires Inv(cfg, requirements, w) && n <= |events|
    ensures Run(cfg, w, events[..n]).db.steps <= Run(cfg, w, events).db.steps
    decreases |events|
  {
    if n == |events| {
      assert events[..n] == events;
    } else {
      var before := events[..|events| - 1];
      assert before[..n] == events[..n];
      hide Inv, Step;
      LogGrows(cfg, requirements, w, before, n);
      RunKeeps(cfg, requirements, w, before);
      StepGrows(cfg, requirements, Run(cfg, w, before), events[|events| - 1]);
    }
  }

  lemma StepGrows(cfg: Settings, requirements: seq<Requirement>, w: World, e: Event)
    requires Inv(cfg, requirements, w)
    ensures w.db.steps <= Step(cfg, w, e).db.steps
  {
    if e.WorkOn? && e.worker in w.workers {
      MoveKeeps(cfg, requirements, w, w.workers[e.worker], e.arrival);
      hide DbOk, WorkerOk, Move;
    }
  }

  // ---- along a run -----------------------------------------------------------------------

  lemma InTimeLater(cfg: Settings, w: World, events: seq<Event>, e: Event, deadline: nat, version: nat)
    requires InTime(cfg, w, events, deadline, version)
    ensures InTime(cfg, w, events + [e], deadline, version)
  {
    hide Run, EarlyAt;
    var n :| 0 <= n <= |events| && EarlyAt(Run(cfg, w, events[..n]), deadline, version);
    assert (events + [e])[..n] == events[..n];
  }

  lemma JustInTimeLater(cfg: Settings, w: World, events: seq<Event>, e: Event, deadline: nat, version: nat)
    requires JustInTime(cfg, w, events, deadline, version)
    ensures JustInTime(cfg, w, events + [e], deadline, version)
  {
    hide Run, EarlyWith;
    var n :| 0 <= n <= |events| && EarlyWith(Run(cfg, w, events[..n]), deadline, version);
    assert (events + [e])[..n] == events[..n];
  }

  // If the log holds `version` steps now, it never held more.
  lemma InTimeIsJust(cfg: Settings, requirements: seq<Requirement>, w: World, events: seq<Event>, deadline: nat,
                     version: nat)
    requires Inv(cfg, requirements, w) && version == |Run(cfg, w, events).db.steps|
    requires InTime(cfg, w, events, deadline, version)
    ensures JustInTime(cfg, w, events, deadline, version)
  {
    hide Run, Inv;
    var n :| 0 <= n <= |events| && EarlyAt(Run(cfg, w, events[..n]), deadline, version);
    LogGrows(cfg, requirements, w, events, n);
    assert EarlyWith(Run(cfg, w, events[..n]), deadline, version);
  }

  lemma TimelyLater(cfg: Settings, w: World, events: seq<Event>, e: Event, deadline: nat, u: World)
    requires Timely(cfg, w, events, deadline, u)
    ensures Timely(cfg, w, events + [e], deadline, u)
  {
    hide InTime, JustInTime;
    forall version: nat | InTime(cfg, w, events, deadline, version)
      ensures InTime(cfg, w, events + [e], deadline, version)
    {
      InTimeLater(cfg, w, events, e, deadline, version);
    }
    forall version: nat | JustInTime(cfg, w, events, deadline, version)
      ensures JustInTime(cfg, w, events + [e], deadline, version)
    {
      JustInTimeLater(cfg, w, events, e, deadline, version);
    }
  }

  // A worker that is not late has the log it was proposed on now.
  lemma NowIsInTime(cfg: Settings, requirements: seq<Requirement>, w: World, events: seq<Event>, k: nat, deadline: nat)
    requires var u := Run(cfg, w, events);
             Inv(cfg, requirements, u) && k in u.workers && !Late(u.workers[k].s, u.now)
               && u.workers[k].s.deadline == deadline
    ensures InTime(cfg, w, events, deadline, Run(cfg, w, events).workers[k].s.version)
  {
    var u := Run(cfg, w, events);
    assert events[..|events|] == events;
    hide Run;
    WorkersAreBehind(cfg, requirements, u, k);
    assert EarlyAt(Run(cfg, w, events[..|events|]), deadline, u.workers[k].s.version);
  }

  lemma WorkersAreBehind(cfg: Settings, requirements: seq<Requirement>, u: World, k: nat)
    requires Inv(cfg, requirements, u) && k in u.workers
    ensures u.workers[k].s.version <= |u.db.steps|
  {
    assert WorkerOk(cfg, requirements, u.db, u.tools, u.workers[k]);
  }

  lemma WorkKeepsTimely(cfg: Settings, w: World, events: seq<Event>, deadline: nat, u: World, k: nat, arrival: Arrival)
    requires Timely(cfg, w, events, deadline, u) && k in u.workers
    requires u.workers[k].s.version <= u.db.run.version == |u.db.steps|
    requires !Late(u.workers[k].s, u.now) ==> InTime(cfg, w, events, deadline, u.workers[k].s.version)
    requires InTime(cfg, w, events, deadline, |u.db.steps|) ==> JustInTime(cfg, w, events, deadline, |u.db.steps|)
    ensures Timely(cfg, w, events, deadline, Step(cfg, u, WorkOn(k, arrival)))
  {
    hide InTime, JustInTime, Move, Settles, Late;
    MoveKeepsDeadline(cfg, u, u.workers[k], arrival);
  }

  lemma StepKeepsTimely(cfg: Settings, w: World, events: seq<Event>, deadline: nat, u: World, e: Event)
    requires Timely(cfg, w, events, deadline, u)
    requires u.db.run.version == |u.db.steps|
    requires forall k :: k in u.workers ==>
      u.workers[k].s.version <= u.db.run.version
      && (!Late(u.workers[k].s, u.now) ==> InTime(cfg, w, events, deadline, u.workers[k].s.version))
    requires InTime(cfg, w, events, deadline, |u.db.steps|) ==> JustInTime(cfg, w, events, deadline, |u.db.steps|)
    ensures Timely(cfg, w, events, deadline, Step(cfg, u, e))
  {
    hide InTime, JustInTime, Settles, Late;
    if e.WorkOn? && e.worker in u.workers {
      WorkKeepsTimely(cfg, w, events, deadline, u, e.worker, e.arrival);
    }
  }

  lemma {:induction false} RunsAreTimely(cfg: Settings, requirements: seq<Requirement>, scope: set<RequirementId>,
                                         deadline: nat, attempts: nat, events: seq<Event>)
    ensures Timely(cfg, Start(requirements, scope, deadline, attempts), events, deadline,
                   Reached(cfg, requirements, scope, deadline, attempts, events))
    decreases |events|
  {
    if events == [] {
      assert Reached(cfg, requirements, scope, deadline, attempts, [])
        == Start(requirements, scope, deadline, attempts);
      hide InTime, JustInTime;
    } else {
      var before := events[..|events| - 1];
      hide Run, Inv, Timely, Start;
      RunsAreTimely(cfg, requirements, scope, deadline, attempts, before);
      StartOk(cfg, requirements, scope, deadline, attempts);
      TimelyAfter(cfg, requirements, Start(requirements, scope, deadline, attempts), before, events[|events| - 1],
                  deadline);
      assert before + [events[|events| - 1]] == events;
    }
  }

  lemma TimelyAfter(cfg: Settings, requirements: seq<Requirement>, w: World, before: seq<Event>, e: Event,
                    deadline: nat)
    requires Inv(cfg, requirements, w) && Timely(cfg, w, before, deadline, Run(cfg, w, before))
    ensures Timely(cfg, w, before + [e], deadline, Run(cfg, w, before + [e]))
  {
    var u := Run(cfg, w, before);
    LastStep(cfg, w, before, e);
    RunKeeps(cfg, requirements, w, before);
    assert u.db.run.version == |u.db.steps|;
    hide Run, Inv, InTime, JustInTime, Late, Step;
    if InTime(cfg, w, before, deadline, |u.db.steps|) {
      InTimeIsJust(cfg, requirements, w, before, deadline, |u.db.steps|);
    }
    forall k | k in u.workers
      ensures u.workers[k].s.version <= u.db.run.version
      ensures !Late(u.workers[k].s, u.now) ==> InTime(cfg, w, before, deadline, u.workers[k].s.version)
    {
      WorkersAreBehind(cfg, requirements, u, k);
      if !Late(u.workers[k].s, u.now) {
        NowIsInTime(cfg, requirements, w, before, k, deadline);
      }
    }
    StepKeepsTimely(cfg, w, before, deadline, u, e);
    TimelyLater(cfg, w, before, e, deadline, Step(cfg, u, e));
  }

  // ---- result ----------------------------------------------------------------------------

  // COMPLETED means that the decision was proposed before the deadline: at some point of the run the log
  // ended with the CHALLENGE step that DECIDE follows, and time had not run out.
  lemma CompletedInTime(cfg: Settings, requirements: seq<Requirement>, scope: set<RequirementId>,
                        deadline: nat, attempts: nat, events: seq<Event>)
    requires Reached(cfg, requirements, scope, deadline, attempts, events).db.run.status == RunCompleted
    ensures
      var steps := Reached(cfg, requirements, scope, deadline, attempts, events).db.steps;
      && |steps| >= 2
      && steps[|steps| - 2].node == Challenge
      && steps[|steps| - 1].node == Decide
      && exists n :: 0 <= n <= |events|
           && var u := Reached(cfg, requirements, scope, deadline, attempts, events[..n]);
              u.now < deadline && u.db.steps == steps[..|steps| - 1]
  {
    var w := Start(requirements, scope, deadline, attempts);
    var db := Reached(cfg, requirements, scope, deadline, attempts, events).db;
    RunsAreTimely(cfg, requirements, scope, deadline, attempts, events);
    StartOk(cfg, requirements, scope, deadline, attempts);
    LogIsOnePath(cfg, requirements, scope, deadline, attempts, events);
    CompletedIsConclusive(cfg, requirements, scope, deadline, attempts, events);
    hide Run, Inv, Start;
    var last := |db.steps| - 1;
    assert Settles(db.steps[last].output);
    var n :| 0 <= n <= |events| && EarlyWith(Run(cfg, w, events[..n]), deadline, last);
    LogGrows(cfg, requirements, w, events, n);
    var u := Reached(cfg, requirements, scope, deadline, attempts, events[..n]);
    assert db.steps[last].node == Decide && db.steps[0].node == Plan;
    assert Allowed(db.steps[last - 1].node, Some(db.steps[last].node));
    assert u.db.steps == db.steps[..last];
  }
}
