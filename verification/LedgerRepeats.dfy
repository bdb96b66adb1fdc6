/** Finalizing again: when a finalization goes through over a human decision, and how repeating one on the
    same basis takes the human decision out of force. */
module LedgerRepeats {
  import opened Common
  import opened Policy
  import opened EvidenceStore
  import opened Aggregation
  import opened Rules
  import opened Ledger
  import opened LedgerHistory

  // ---- when a finalization goes through --------------------------------------------------

  predicate OverHuman(s: Store, caseId: nat)
    requires caseId in s.cases
  {
    var current := s.cases[caseId].current;
    current.Some? && current.value < |s.decisions| && s.decisions[current.value].source == Human
  }

  ghost predicate KeysMatch(s: Store, caseId: nat)
    requires Linked(s) && caseId in s.cases && s.cases[caseId].policy in s.policies
  {
    multiset(RequirementKeys(s.requirements, s.cases[caseId].requirements))
    == multiset(TemplateKeys(s.policies[s.cases[caseId].policy].compiled.requirements))
  }

  // A ready case that matches its policy is always finalized, unless a human decision is in force: then
  // exactly when a machine decision on the evaluated input is already in the ledger.
  lemma FinalizationGoesThroughExactly(s: Store, caseId: nat, allow: bool, origins: map<string, ResultKey>,
                                       item: Option<nat>)
    requires LedgerOk(s)
    ensures
      Finalize(s, caseId, allow, origins, item).Committed? <==>
        && Ready(s, caseId, allow).None?
        && KeysMatch(s, caseId)
        && EvaluationOf(s, caseId, origins, item).Some?
        && (OverHuman(s, caseId) ==>
              FindMachine(s.decisions, caseId, EvaluationOf(s, caseId, origins, item).value.input).Some?)
    ensures Ready(s, caseId, allow).None? && KeysMatch(s, caseId) ==> EvaluationOf(s, caseId, origins, item).Some?
  {
    hide AggregateAll, Evaluate, FindMachine, LastDecision, RequirementKeys, TemplateKeys, Chained, Supported, Owned,
      Honest, Numbered;
    if Ready(s, caseId, allow).None? && KeysMatch(s, caseId) {
      MatchedCaseIsEvaluated(s, caseId, allow, origins, item);
    }
  }

  // ---- the same basis --------------------------------------------------------------------

  // Everything the evaluation of a case reads is the same in both stores.
  ghost predicate SameBasis(s: Store, s': Store, caseId: nat) {
    && caseId in s.cases && caseId in s'.cases
    && var c, c' := s.cases[caseId], s'.cases[caseId];
    && c'.policy == c.policy && c'.requirements == c.requirements
    && c.policy in s.policies && c.policy in s'.policies
    && s'.policies[c.policy].compiled == s.policies[c.policy].compiled
    && InvestigationOf(s', caseId) == InvestigationOf(s, caseId)
    && forall id :: id in c.requirements ==>
         && id in s.requirements && id in s'.requirements && Same(s.requirements[id], s'.requirements[id])
         && ItemsOf(s'.tables, s'.requirements[id]) == ItemsOf(s.tables, s.requirements[id])
  }

  lemma SameAfresh(t: Tables, q: RequirementRow, t': Tables, q': RequirementRow, config: AggregationConfig)
    requires Same(q, q') && ItemsOf(t', q') == ItemsOf(t, q)
    ensures Afresh(t', q', config) == Afresh(t, q, config)
  {
  }

  // The same basis gives the same evaluation, whatever is cached and whoever asks.
  lemma SameBasisSameEvaluation(s: Store, s': Store, caseId: nat, origins: map<string, ResultKey>, item: Option<nat>,
                                origins': map<string, ResultKey>, item': Option<nat>)
    requires LedgerOk(s) && LedgerOk(s') && SameBasis(s, s', caseId)
    ensures EvaluationOf(s', caseId, origins', item') == EvaluationOf(s, caseId, origins, item)
  {
    var ids := s.cases[caseId].requirements;
    var config := s.policies[s.cases[caseId].policy].compiled.aggregation;
    assert Known(s.requirements, ids) && Known(s'.requirements, ids);
    AggregateAllIsFresh(s.results, s.requirements, s.tables, ids, config, origins, item);
    AggregateAllIsFresh(s'.results, s'.requirements, s'.tables, ids, config, origins', item');
    var a := AggregateAll(s.results, s.requirements, s.tables, ids, config, origins, item).outcomes;
    var b := AggregateAll(s'.results, s'.requirements, s'.tables, ids, config, origins', item').outcomes;
    hide AggregateAll, Evaluate, LedgerOk, Afresh, ItemsOf;
    forall k | 0 <= k < |ids|
      ensures a[k] == b[k]
    {
      SameAfresh(s.tables, s.requirements[ids[k]], s'.tables, s'.requirements[ids[k]], config);
      assert SaysOf(a[k], s.tables, s.requirements[ids[k]], config);
      assert SaysOf(b[k], s'.tables, s'.requirements[ids[k]], config);
    }
    assert a == b;
  }

  // ---- machine decisions stay findable ---------------------------------------------------

  lemma FoundAfterAppend(decisions: seq<DecisionRow>, row: DecisionRow, caseId: nat, input: EvaluationInput)
    requires !(row.caseId == caseId && row.source == Machine && row.basis == Evaluated(input))
    ensures FindMachine(decisions + [row], caseId, input) == FindMachine(decisions, caseId, input)
  {
    assert (decisions + [row])[..|decisions|] == decisions;
  }

  lemma AppendedIsFound(decisions: seq<DecisionRow>, row: DecisionRow, input: EvaluationInput)
    requires row.source == Machine && row.basis == Evaluated(input)
    ensures FindMachine(decisions + [row], row.caseId, input) == Some(|decisions|)
  {
  }

  // A finalization appends a machine decision only on an input that has none.
  lemma FinalizeKeepsFound(s: Store, caseId: nat, allow: bool, origins: map<string, ResultKey>, item: Option<nat>,
                           c: nat, input: EvaluationInput, id: nat)
    requires Linked(s) && Finalize(s, caseId, allow, origins, item).Committed?
    requires FindMachine(s.decisions, c, input) == Some(id)
    ensures FindMachine(Finalize(s, caseId, allow, origins, item).store.decisions, c, input) == Some(id)
  {
    hide AggregateAll, Evaluate, FindMachine, LastDecision, RequirementKeys, TemplateKeys;
    var after := Finalize(s, caseId, allow, origins, item).store.decisions;
    if |after| > |s.decisions| {
      FoundAfterAppend(s.decisions, after[|s.decisions|], c, input);
    }
  }

  lemma ReviewKeepsFound(blank: string -> bool, s: Store, caseId: nat, r: Request, key: RequestKey, c: nat,
                         input: EvaluationInput)
    requires Linked(s) && caseId in s.cases && CreateReview(blank, s, caseId, r, key).Committed?
    ensures FindMachine(CreateReview(blank, s, caseId, r, key).store.decisions, c, input)
            == FindMachine(s.decisions, c, input)
  {
    hide FindMachine, LastDecision, CurrentResults, Selected;
    var after := CreateReview(blank, s, caseId, r, key).store.decisions;
    FoundAfterAppend(s.decisions, after[|s.decisions|], c, input);
  }

  lemma StepKeepsFound(blank: string -> bool, s: Store, op: Operation, c: nat, input: EvaluationInput, id: nat)
    requires FindMachine(s.decisions, c, input) == Some(id)
    ensures FindMachine(Step(blank, s, op).decisions, c, input) == Some(id)
  {
    hide FindMachine, Finalize, CreateReview, FindReview, FindAppeal;
    if Linked(s) && Do(blank, s, op).Committed? {
      match op
      case Finalizing(caseId, allow, origins, item) =>
        FinalizeKeepsFound(s, caseId, allow, origins, item, c, input, id);
      case Reviewing(caseId, r) =>
        if FindReview(s.reviews, ReviewKey(caseId, r)).None? {
          ReviewKeepsFound(blank, s, caseId, r, ReviewKey(caseId, r), c, input);
        }
      case Resolving(appeal, r) =>
        if FindReview(s.reviews, ResolutionKey(appeal, r)).None? {
          ReviewKeepsFound(blank, s, s.appeals[appeal].caseId, r, ResolutionKey(appeal, r), c, input);
        }
      case _ =>
    }
  }

  lemma {:induction false} RunKeepsFound(blank: string -> bool, s: Store, ops: seq<Operation>, c: nat,
                                         input: EvaluationInput, id: nat)
    requires FindMachine(s.decisions, c, input) == Some(id)
    ensures FindMachine(Run(blank, s, ops).decisions, c, input) == Some(id)
    decreases |ops|
  {
    hide FindMachine, Step;
    if ops != [] {
      RunKeepsFound(blank, s, ops[..|ops| - 1], c, input, id);
      StepKeepsFound(blank, Run(blank, s, ops[..|ops| - 1]), ops[|ops| - 1], c, input, id);
    }
  }

  // The decision a finalization gives is the one its input finds from then on.
  lemma FinalizedIsFound(s: Store, caseId: nat, allow: bool, origins: map<string, ResultKey>, item: Option<nat>)
    requires LedgerOk(s) && Finalize(s, caseId, allow, origins, item).Committed?
    ensures EvaluationOf(s, caseId, origins, item).Some?
    ensures
      var done := Finalize(s, caseId, allow, origins, item);
      && FindMachine(done.store.decisions, caseId, EvaluationOf(s, caseId, origins, item).value.input) == Some(done.id)
      && SameBasis(s, done.store, caseId)
  {
    hide AggregateAll, Evaluate, FindMachine, LastDecision, RequirementKeys, TemplateKeys, ItemsOf, Chained, Supported,
      Owned, Honest, Numbered;
    var done := Finalize(s, caseId, allow, origins, item);
    var input := EvaluationOf(s, caseId, origins, item).value.input;
    if FindMachine(s.decisions, caseId, input).None? {
      AppendedIsFound(s.decisions, done.store.decisions[|s.decisions|], input);
    }
    forall id | id in s.cases[caseId].requirements
      ensures ItemsOf(done.store.tables, done.store.requirements[id]) == ItemsOf(s.tables, s.requirements[id])
    {
      SameItems(s.tables, s.requirements[id], done.store.requirements[id]);
    }
  }

  lemma SameItems(t: Tables, q: RequirementRow, q': RequirementRow)
    requires Same(q, q')
    ensures ItemsOf(t, q') == ItemsOf(t, q)
  {
  }

  // ---- results ---------------------------------------------------------------------------

  lemma BasisKeepsKeys(s: Store, s': Store, caseId: nat)
    requires LedgerOk(s) && LedgerOk(s') && SameBasis(s, s', caseId) && KeysMatch(s, caseId)
    ensures KeysMatch(s', caseId)
  {
    var ids := s.cases[caseId].requirements;
    assert RequirementKeys(s'.requirements, ids) == RequirementKeys(s.requirements, ids);
    hide RequirementKeys, TemplateKeys, ItemsOf;
  }

  // Once a case has been finalized, then after any later history of finalizations, reviews, appeals and
  // resolutions, a finalization on the same basis goes through, adds no decision, and puts the decision of
  // the first one back in force, whatever human decision was in force.
  lemma FinalizingAgainRestores(blank: string -> bool, s: Store, caseId: nat, allow: bool,
                                origins: map<string, ResultKey>, item: Option<nat>, later: seq<Operation>,
                                allow': bool, origins': map<string, ResultKey>, item': Option<nat>)
    requires LedgerOk(s) && Finalize(s, caseId, allow, origins, item).Committed?
    requires
      var now := Run(blank, Finalize(s, caseId, allow, origins, item).store, later);
      SameBasis(s, now, caseId) && Ready(now, caseId, allow').None?
    ensures
      var first := Finalize(s, caseId, allow, origins, item);
      var now := Run(blank, first.store, later);
      && Linked(now)
      && var again := Finalize(now, caseId, allow', origins', item');
      && again.Committed? && again.id == first.id
      && again.store.decisions == now.decisions
      && again.store.cases == now.cases[caseId := now.cases[caseId].(current := Some(first.id))]
      && first.id < |now.decisions| && now.decisions[first.id].source == Machine
  {
    var first := Finalize(s, caseId, allow, origins, item);
    var now := Run(blank, first.store, later);
    FinalizeKeeps(s, caseId, allow, origins, item);
    RunKeeps(blank, first.store, later);
    FinalizedIsFound(s, caseId, allow, origins, item);
    FinalizationGoesThroughExactly(s, caseId, allow, origins, item);
    SameBasisSameEvaluation(s, now, caseId, origins, item, origins', item');
    RunKeepsFound(blank, first.store, later, caseId, EvaluationOf(s, caseId, origins, item).value.input, first.id);
    BasisKeepsKeys(s, now, caseId);
    FoundIsRestored(now, caseId, allow', origins', item', first.id);
  }

  lemma FoundIsRestored(s: Store, caseId: nat, allow: bool, origins: map<string, ResultKey>, item: Option<nat>, id: nat)
    requires LedgerOk(s) && Ready(s, caseId, allow).None? && KeysMatch(s, caseId)
    requires EvaluationOf(s, caseId, origins, item).Some?
    requires FindMachine(s.decisions, caseId, EvaluationOf(s, caseId, origins, item).value.input) == Some(id)
    ensures
      var again := Finalize(s, caseId, allow, origins, item);
      && again.Committed? && again.id == id && again.store.decisions == s.decisions
      && again.store.cases == s.cases[caseId := s.cases[caseId].(current := Some(id))]
      && id < |s.decisions| && s.decisions[id].source == Machine
  {
    hide AggregateAll, Evaluate, LastDecision, RequirementKeys, TemplateKeys, Chained, Supported, Owned, Honest,
      Numbered;
  }

  // A review of a finalized case does not stay in force: finalizing once more undoes it.
  lemma RepeatingUndoesTheReview(blank: string -> bool, s: Store, caseId: nat, allow: bool,
                                 origins: map<string, ResultKey>, item: Option<nat>, request: Request)
    requires LedgerOk(s) && Finalize(s, caseId, allow, origins, item).Committed?
    requires
      var first := Finalize(s, caseId, allow, origins, item).store;
      |Step(blank, first, Reviewing(caseId, request)).reviews| > |first.reviews|
    ensures
      var first := Finalize(s, caseId, allow, origins, item);
      var reviewed := Run(blank, s, [Finalizing(caseId, allow, origins, item), Reviewing(caseId, request)]);
      var last := Run(blank, s, [Finalizing(caseId, allow, origins, item), Reviewing(caseId, request),
                                 Finalizing(caseId, allow, origins, item)]);
      && caseId in reviewed.cases && OverHuman(reviewed, caseId)
      && reviewed.decisions[reviewed.cases[caseId].current.value].verdict == request.verdict
      && last.decisions == reviewed.decisions
      && last.cases == reviewed.cases[caseId := reviewed.cases[caseId].(current := Some(first.id))]
      && !OverHuman(last, caseId)
  {
    hide Finalize, SubmitReview, SameBasis, Run, Step, OverHuman, EvaluationOf, Linked, Chained, PointersOk,
      Supported, Owned, Honest, Numbered;
    var first := Finalize(s, caseId, allow, origins, item);
    var f, r := Finalizing(caseId, allow, origins, item), Reviewing(caseId, request);
    FinalizeKeeps(s, caseId, allow, origins, item);
    FinalizedIsFound(s, caseId, allow, origins, item);
    FinalizeChangesNoCase(s, caseId, allow, origins, item);
    ReviewTakesOver(blank, s, first.store, caseId, allow, request);
    var reviewed := Step(blank, first.store, r);
    OneAfter(blank, first.store, [], r);
    assert [] + [r] == [r];
    FinalizingAgainRestores(blank, s, caseId, allow, origins, item, [r], allow, origins, item);
    OneAfter(blank, s, [], f);
    OneAfter(blank, s, [f], r);
    OneAfter(blank, s, [f, r], f);
    assert [] + [f] == [f] && [f] + [r] == [f, r] && [f, r] + [f] == [f, r, f];
    FinalizingSteps(blank, s, caseId, allow, origins, item);
    FinalizingSteps(blank, reviewed, caseId, allow, origins, item);
    MachineInForce(Step(blank, reviewed, f), caseId, first.id);
  }

  lemma FinalizingSteps(blank: string -> bool, s: Store, caseId: nat, allow: bool, origins: map<string, ResultKey>,
                        item: Option<nat>)
    requires Linked(s) && Finalize(s, caseId, allow, origins, item).Committed?
    ensures Step(blank, s, Finalizing(caseId, allow, origins, item)) == Finalize(s, caseId, allow, origins, item).store
  {
    hide Finalize;
  }

  lemma MachineInForce(s: Store, caseId: nat, id: nat)
    requires caseId in s.cases && s.cases[caseId].current == Some(id)
    requires id < |s.decisions| && s.decisions[id].source == Machine
    ensures !OverHuman(s, caseId)
  {
  }

  // A new review leaves the basis alone and puts its human decision in force.
  lemma ReviewTakesOver(blank: string -> bool, s: Store, s': Store, caseId: nat, allow: bool, request: Request)
    requires LedgerOk(s') && SameBasis(s, s', caseId) && Ready(s', caseId, allow).None?
    requires |Step(blank, s', Reviewing(caseId, request)).reviews| > |s'.reviews|
    ensures
      var reviewed := Step(blank, s', Reviewing(caseId, request));
      && SameBasis(s, reviewed, caseId) && Ready(reviewed, caseId, allow).None?
      && OverHuman(reviewed, caseId)
      && reviewed.decisions[reviewed.cases[caseId].current.value].verdict == request.verdict
  {
    assert Linked(s');
    hide LedgerOk, SameBasis, SubmitReview, Ready;
    ReviewKeepsBasis(blank, s, s', caseId, allow, request);
    HumanDecisionTakesForce(blank, s', Reviewing(caseId, request));
  }

  lemma OneAfter(blank: string -> bool, s: Store, ops: seq<Operation>, op: Operation)
    ensures Run(blank, s, []) == s
    ensures Run(blank, s, ops + [op]) == Step(blank, Run(blank, s, ops), op)
  {
    assert (ops + [op])[..|ops|] == ops;
  }

  // A finalization changes neither what makes the case ready nor anything but its pointer and status.
  lemma FinalizeChangesNoCase(s: Store, caseId: nat, allow: bool, origins: map<string, ResultKey>, item: Option<nat>)
    requires Linked(s) && Finalize(s, caseId, allow, origins, item).Committed?
    ensures Ready(s, caseId, allow).None?
    ensures Ready(Finalize(s, caseId, allow, origins, item).store, caseId, allow).None?
  {
    hide AggregateAll, Evaluate, FindMachine, LastDecision, RequirementKeys, TemplateKeys;
  }

  lemma ReviewKeepsBasis(blank: string -> bool, s: Store, s': Store, caseId: nat, allow: bool, r: Request)
    requires LedgerOk(s') && SameBasis(s, s', caseId) && Ready(s', caseId, allow).None?
    requires SubmitReview(blank, s', caseId, r).Committed?
    ensures
      var reviewed := SubmitReview(blank, s', caseId, r).store;
      SameBasis(s, reviewed, caseId) && Ready(reviewed, caseId, allow).None?
  {
    hide FindReview, ItemsOf, LastDecision, CurrentResults, Selected;
  }
}
