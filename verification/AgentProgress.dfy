/** Every worker makes boundedly many moves after a claim, whatever the others do: the run loop ends in
    every interleaving. */
module AgentProgress {
  import opened Common
  import opened AgentTypes
  import opened AgentGraph
  import opened AgentCalls
  import opened AgentStore
  import opened AgentMachine
  import opened AgentSafety

  // ---- what is left of a worker ----------------------------------------------------------

  // Moves left within a node; a node takes fewer than thirty.
  function MovesLeft(p: Worker): nat {
    match p
    case Looping(_) => 25
    case Asking(_, _) => 24
    case Awaiting(_, _, _) => 23
    case Tooling(_, todo, _, _) => 2 * |todo| + 3
    case Executing(_, todo, _, _, _, _) => 2 * |todo| + 2
    case Committing(_, _) => 2
    case _ => 1
  }

  function Left(cfg: Settings, p: Worker): int {
    30 * (5 * cfg.maxIterations + 2 - p.s.version) + MovesLeft(p)
  }

  function Remaining(cfg: Settings, w: World, k: nat): int {
    if k in w.workers then Left(cfg, w.workers[k]) else 0
  }

  // More moves than one claim ever leads to.
  function Budget(cfg: Settings): nat {
    30 * (5 * cfg.maxIterations + 2) + 25
  }

  // The provider or the tool has not answered yet.
  predicate Waits(p: Worker, arrival: Arrival) {
    || (p.Awaiting? && !arrival.ModelFails? && !(arrival.ModelAnswers? && Fits(p.key.node, arrival.answer)))
    || (p.Executing? && !arrival.ToolAnswers?)
  }

  predicate MovesOn(w: World, e: Event, k: nat) {
    e.WorkOn? && e.worker == k && k in w.workers && !Waits(w.workers[k], e.arrival)
  }

  predicate Claims(cfg: Settings, w: World, e: Event, k: nat) {
    e == ClaimBy(k) && k !in w.workers && ClaimRun(cfg, w.now, w.db).Claimed?
  }

  function MovesIn(cfg: Settings, w: World, events: seq<Event>, k: nat): nat
    decreases |events|
  {
    if events == [] then 0
    else
      var before := events[..|events| - 1];
      MovesIn(cfg, w, before, k) + if MovesOn(Run(cfg, w, before), events[|events| - 1], k) then 1 else 0
  }

  function ClaimsIn(cfg: Settings, w: World, events: seq<Event>, k: nat): nat
    decreases |events|
  {
    if events == [] then 0
    else
      var before := events[..|events| - 1];
      ClaimsIn(cfg, w, before, k) + if Claims(cfg, Run(cfg, w, before), events[|events| - 1], k) then 1 else 0
  }

  // ---- one move --------------------------------------------------------------------------

  // The log bounds the version of every worker.
  lemma VersionIsBounded(cfg: Settings, requirements: seq<Requirement>, db: Db, tools: ToolTable, p: Worker)
    requires DbOk(cfg, requirements, db, tools) && WorkerOk(cfg, requirements, db, tools, p)
    ensures p.s.version <= |db.steps| <= 5 * cfg.maxIterations
  {
    if db.steps != [] {
      assert Timed(cfg, db.steps[|db.steps| - 1]);
    }
  }

  lemma BeginGoesOn(cfg: Settings, late: bool, table: EvidenceTable, s: State)
    ensures var p := Begin(cfg, late, table, s); p.s.version == s.version && MovesLeft(p) < 25
  {
    hide BudgetStop, Summary;
  }

  lemma ResumeGoesOn(cfg: Settings, late: bool, table: EvidenceTable, s: State, node: Node, reply: Reply)
    ensures var p := Resume(cfg, late, table, s, node, reply); p.s.version == s.version && MovesLeft(p) < 23
  {
    hide ValidAction, Enforce, ValidateEvidence, AppendIds, StillMissing;
  }

  // A worker that does not wait comes closer to its end.
  lemma MoveGoesOn(cfg: Settings, w: World, p: Worker, arrival: Arrival)
    requires !Waits(p, arrival) && (p.Executing? ==> p.todo != [])
    ensures var m := Move(cfg, w, p, arrival); m.worker.Some? ==> Left(cfg, m.worker.value) < Left(cfg, p)
  {
    hide Begin, Resume, Checkpoint, AfterTool, StartTool, RefusedCall, Complete, Fail, DeferRetry;
    match p
    case Looping(s) => BeginGoesOn(cfg, Late(s, w.now), w.db.evidence, s);
    case Asking(s, key) =>
      if key in w.calls && w.calls[key].CallDone? {
        ResumeGoesOn(cfg, Late(s, w.now), w.db.evidence, s, key.node, Reply(w.calls[key].call, w.calls[key].answer));
      }
    case Awaiting(s, key, call) =>
      if arrival.ModelAnswers? {
        ResumeGoesOn(cfg, Late(s, w.now), w.db.evidence, s, key.node, Reply(call, arrival.answer));
      }
    case Tooling(_, _, _, _) => ToolGoesOn(cfg, w, p, arrival);
    case Executing(_, _, _, _, _, _) => ToolGoesOn(cfg, w, p, arrival);
    case Committing(s, c) => CommitGoesOn(cfg, w, p, arrival);
    case _ =>
  }

  lemma ToolGoesOn(cfg: Settings, w: World, p: Worker, arrival: Arrival)
    requires !Waits(p, arrival) && (p.Tooling? || (p.Executing? && p.todo != []))
    ensures var m := Move(cfg, w, p, arrival); m.worker.Some? ==> Left(cfg, m.worker.value) < Left(cfg, p)
  {
    hide InvalidRequest, RefusedCall, KeyOf, BudgetStop, Recorded;
  }

  lemma CommitGoesOn(cfg: Settings, w: World, p: Worker, arrival: Arrival)
    requires p.Committing?
    ensures var m := Move(cfg, w, p, arrival); m.worker.Some? ==> Left(cfg, m.worker.value) < Left(cfg, p)
  {
    hide StoreEvidence, Allowed;
  }

  lemma StepGoesOn(cfg: Settings, requirements: seq<Requirement>, w: World, e: Event, k: nat)
    requires Inv(cfg, requirements, w)
    ensures Remaining(cfg, Step(cfg, w, e), k) + (if MovesOn(w, e, k) then 1 else 0)
            <= Remaining(cfg, w, k) + (if Claims(cfg, w, e, k) then Budget(cfg) else 0)
  {
    if k in w.workers {
      var p := w.workers[k];
      assert WorkerOk(cfg, requirements, w.db, w.tools, p);
      LeftIsPositive(cfg, requirements, w, k);
      assert p.Executing? ==> p.todo != [];
      hide Inv, WorkerOk, Move, Left, ClaimRun;
      if MovesOn(w, e, k) {
        MoveGoesOn(cfg, w, p, e.arrival);
      } else if e.WorkOn? && e.worker == k {
        WaitingStays(cfg, w, p, e.arrival);
      }
    } else {
      hide Inv;
    }
  }

  lemma WaitingStays(cfg: Settings, w: World, p: Worker, arrival: Arrival)
    requires Waits(p, arrival)
    ensures Move(cfg, w, p, arrival).worker == Some(p)
  {
  }

  lemma LeftIsPositive(cfg: Settings, requirements: seq<Requirement>, w: World, k: nat)
    requires Inv(cfg, requirements, w) && k in w.workers
    ensures 0 < Left(cfg, w.workers[k]) <= Budget(cfg)
  {
    VersionIsBounded(cfg, requirements, w.db, w.tools, w.workers[k]);
    var p := w.workers[k];
    assert MovesLeft(p) <= 25 by {
      assert p.Tooling? || p.Executing? ==> |p.todo| <= 9;
    }
  }

  // ---- every interleaving ----------------------------------------------------------------

  // What a worker still has to do pays for every move it makes; only a claim of its own adds to it.
  lemma {:induction false} MovesArePaid(cfg: Settings, requirements: seq<Requirement>, w: World,
                                        events: seq<Event>, k: nat)
    requires Inv(cfg, requirements, w)
    ensures MovesIn(cfg, w, events, k) + Remaining(cfg, Run(cfg, w, events), k)
            <= Remaining(cfg, w, k) + ClaimsIn(cfg, w, events, k) * Budget(cfg)
    decreases |events|
  {
    hide Inv, Run, Step, Remaining, Budget, MovesOn, Claims, MovesIn, ClaimsIn;
    if events == [] {
      NothingCounts(cfg, w, k);
    } else {
      var before := events[..|events| - 1];
      var last := events[|events| - 1];
      assert before + [last] == events;
      MovesArePaid(cfg, requirements, w, before, k);
      RunKeeps(cfg, requirements, w, before);
      LastStep(cfg, w, before, last);
      LastCounts(cfg, w, before, last, k);
      StepGoesOn(cfg, requirements, Run(cfg, w, before), last, k);
      OneMore(ClaimsIn(cfg, w, before, k), Budget(cfg));
    }
  }

  lemma NothingCounts(cfg: Settings, w: World, k: nat)
    ensures MovesIn(cfg, w, [], k) == 0 && ClaimsIn(cfg, w, [], k) == 0 && Run(cfg, w, []) == w
  {
  }

  lemma LastCounts(cfg: Settings, w: World, before: seq<Event>, last: Event, k: nat)
    ensures MovesIn(cfg, w, before + [last], k)
            == MovesIn(cfg, w, before, k) + if MovesOn(Run(cfg, w, before), last, k) then 1 else 0
    ensures ClaimsIn(cfg, w, before + [last], k)
            == ClaimsIn(cfg, w, before, k) + if Claims(cfg, Run(cfg, w, before), last, k) then 1 else 0
  {
    hide Run, MovesOn, Claims;
    assert (before + [last])[..|before|] == before;
  }

  lemma OneMore(n: nat, b: nat)
    ensures (n + 1) * b == n * b + b
  {
  }

  // Between two claims of its own a worker makes a bounded number of moves, and one that was answered
  // that often is done, in any interleaving with the others.
  lemma WorkersFinish(cfg: Settings, requirements: seq<Requirement>, w: World, events: seq<Event>, k: nat)
    requires Inv(cfg, requirements, w) && k in w.workers
    requires forall n :: 0 <= n < |events| ==> !Claims(cfg, Run(cfg, w, events[..n]), events[n], k)
    ensures MovesIn(cfg, w, events, k) <= Left(cfg, w.workers[k]) <= Budget(cfg)
    ensures MovesIn(cfg, w, events, k) == Left(cfg, w.workers[k]) ==> k !in Run(cfg, w, events).workers
  {
    hide Inv, Run, MovesIn, ClaimsIn, Claims, Left, Budget;
    MovesArePaid(cfg, requirements, w, events, k);
    NoClaims(cfg, w, events, k);
    RunKeeps(cfg, requirements, w, events);
    LeftIsPositive(cfg, requirements, w, k);
    if k in Run(cfg, w, events).workers {
      LeftIsPositive(cfg, requirements, Run(cfg, w, events), k);
    }
  }

  lemma {:induction false} NoClaims(cfg: Settings, w: World, events: seq<Event>, k: nat)
    requires forall n :: 0 <= n < |events| ==> !Claims(cfg, Run(cfg, w, events[..n]), events[n], k)
    ensures ClaimsIn(cfg, w, events, k) == 0
    decreases |events|
  {
    if events != [] {
      var before := events[..|events| - 1];
      forall n | 0 <= n < |before|
        ensures !Claims(cfg, Run(cfg, w, before[..n]), before[n], k)
      {
        assert before[..n] == events[..n];
      }
      NoClaims(cfg, w, before, k);
    }
  }
}
