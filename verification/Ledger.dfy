/** The decision ledger of a case: machine decisions, human reviews and appeals, each one transaction.
    Functions give the store after one transaction; the class performs it in place. */
module Ledger {
  import opened Common
  import opened AgentTypes
  import opened AgentStore
  import opened Policy
  import opened EvidenceStore
  import opened Aggregation
  import opened Rules

  // ---- rows ------------------------------------------------------------------------------

  datatype PolicyRef = PolicyRef(id: string, version: nat)
  datatype PolicyRow = PolicyRow(enabled: bool, published: bool, compiled: CompiledPolicy)

  datatype CaseRow = CaseRow(
    policy: PolicyRef,
    status: CaseStatus,
    requirements: seq<nat>,
    current: Option<nat>)             // the decision in force

  datatype DecisionSource = Machine | Human
  datatype Basis =
    | Evaluated(input: EvaluationInput)
    | Reviewed(reviewer: string, note: string, key: RequestKey)

  // A decision is identified by its place in the table.
  datatype DecisionRow = DecisionRow(
    caseId: nat,
    verdict: Verdict,
    source: DecisionSource,
    basis: Basis,
    sequence: nat,
    supersedes: Option<nat>,
    evidence: set<EvidenceKey>,
    results: set<ResultKey>,
    replayItem: Option<nat>)

  datatype RequestKey =
    | Given(text: string)
    | OfReview(caseId: nat, reviewer: string, verdict: Verdict, note: string, evidence: multiset<EvidenceKey>)
    | OfAppeal(caseId: nat, submitter: string, statement: string)
    | OfResolution(appeal: nat, reviewer: string, verdict: Verdict, note: string, evidence: multiset<EvidenceKey>)

  datatype ReviewRow =
    ReviewRow(caseId: nat, key: RequestKey, reviewer: string, reviewed: nat, decision: nat, note: string)

  datatype AppealStatus = Submitted | Resolved
  datatype AppealRow = AppealRow(
    caseId: nat, key: RequestKey, submitter: string, statement: string, challenged: nat,
    status: AppealStatus, resolution: Option<nat>)
  datatype AppealEvent =
    AppealEvent(appeal: nat, sequence: nat, kind: AppealStatus, actor: string, note: string, decision: nat)

  datatype Store = Store(
    cases: map<nat, CaseRow>,
    requirements: map<nat, RequirementRow>,
    policies: map<PolicyRef, PolicyRow>,
    investigations: map<nat, RunStatus>,
    tables: Tables,
    results: seq<ResultRow>,
    decisions: seq<DecisionRow>,
    reviews: seq<ReviewRow>,
    appeals: seq<AppealRow>,
    events: seq<AppealEvent>)

  datatype GovernanceError =
    | CaseNotFound
    | PolicyNotFound
    | PolicyDisabled
    | CaseNotReadyForEvaluation
    | DecisionInputInvalid
    | DecisionNotFound
    | ReviewInputInvalid
    | AppealNotFound
    | AppealAlreadyResolved

  // A refused transaction is rolled back, so only a committed one has a store.
  datatype Transaction = Committed(store: Store, id: nat) | RolledBack(error: GovernanceError)

  // Foreign keys of cases and requirements.
  ghost predicate Linked(s: Store) {
    && (forall id :: id in s.requirements ==> s.requirements[id].id == id)
    && (forall c, id :: c in s.cases && id in s.cases[c].requirements ==>
          id in s.requirements && s.requirements[id].caseId == c)
    && (forall c :: c in s.cases && s.cases[c].current.Some? ==> s.cases[c].current.value < |s.decisions|)
  }

  // ---- aggregation of a case -------------------------------------------------------------

  datatype Session = Session(results: seq<ResultRow>, requirements: map<nat, RequirementRow>, outcomes: seq<Outcome>)

  ghost predicate Known(requirements: map<nat, RequirementRow>, ids: seq<nat>) {
    forall id :: id in ids ==> id in requirements && requirements[id].id == id
  }

  function OriginOf(origins: map<string, ResultKey>, key: string): Option<ResultKey> {
    if key in origins then Some(origins[key]) else None
  }

  function AggregateAll(results: seq<ResultRow>, requirements: map<nat, RequirementRow>, t: Tables, ids: seq<nat>,
                        config: AggregationConfig, origins: map<string, ResultKey>, item: Option<nat>): (r: Session)
    requires Known(requirements, ids)
    ensures r.requirements.Keys == requirements.Keys
    ensures forall id :: id in requirements ==> Same(requirements[id], r.requirements[id])
    ensures |r.outcomes| == |ids|
  {
    if ids == [] then Session(results, requirements, [])
    else
      var n := |ids| - 1;
      AggregateNext(AggregateAll(results, requirements, t, ids[..n], config, origins, item), t, ids[n], config,
                    origins, item)
  }

  function AggregateNext(before: Session, t: Tables, id: nat, config: AggregationConfig,
                         origins: map<string, ResultKey>, item: Option<nat>): (r: Session)
    requires id in before.requirements
    ensures r.requirements.Keys == before.requirements.Keys
    ensures forall k :: k in before.requirements ==> Same(before.requirements[k], r.requirements[k])
    ensures |r.outcomes| == |before.outcomes| + 1
  {
    var q := before.requirements[id];
    var a := Aggregate(before.results, t, q, config, OriginOf(origins, q.template.key), item);
    Session(a.results, before.requirements[id := Point(q, a.row)], before.outcomes + [OutcomeOf(t, q, a.row)])
  }

  lemma AggregateNone(results: seq<ResultRow>, requirements: map<nat, RequirementRow>, t: Tables,
                      config: AggregationConfig, origins: map<string, ResultKey>, item: Option<nat>)
    ensures AggregateAll(results, requirements, t, [], config, origins, item) == Session(results, requirements, [])
  {
  }

  lemma AggregateOneMore(results: seq<ResultRow>, requirements: map<nat, RequirementRow>, t: Tables, ids: seq<nat>,
                         i: nat, config: AggregationConfig, origins: map<string, ResultKey>, item: Option<nat>)
    requires i < |ids| && Known(requirements, ids)
    ensures
      var before := AggregateAll(results, requirements, t, ids[..i], config, origins, item);
      && ids[i] in before.requirements
      && AggregateAll(results, requirements, t, ids[..i + 1], config, origins, item)
         == AggregateNext(before, t, ids[i], config, origins, item)
  {
    assert ids[..i + 1][..i] == ids[..i];
    hide AggregateNext;
  }

  // Aggregation touches only what a requirement row says about its latest result.
  predicate Same(q: RequirementRow, q': RequirementRow) {
    q' == q.(status := q'.status, current := q'.current)
  }

  // ---- machine decisions -----------------------------------------------------------------

  function TemplateKeys(templates: seq<Template>): (keys: seq<string>)
    ensures |keys| == |templates|
    ensures forall i :: 0 <= i < |templates| ==> keys[i] == templates[i].key
  {
    seq(|templates|, i requires 0 <= i < |templates| => templates[i].key)
  }

  function RequirementKeys(requirements: map<nat, RequirementRow>, ids: seq<nat>): (keys: seq<string>)
    requires forall id :: id in ids ==> id in requirements
    ensures |keys| == |ids|
    ensures forall i :: 0 <= i < |ids| ==> keys[i] == requirements[ids[i]].template.key
  {
    seq(|ids|, i requires 0 <= i < |ids| => requirements[ids[i]].template.key)
  }

  function FindMachine(decisions: seq<DecisionRow>, caseId: nat, input: EvaluationInput): (r: Option<nat>)
    ensures r.Some? ==> r.value < |decisions| && decisions[r.value].caseId == caseId
                        && decisions[r.value].source == Machine && decisions[r.value].basis == Evaluated(input)
  {
    if decisions == [] then None
    else
      var n := |decisions| - 1;
      if decisions[n].caseId == caseId && decisions[n].source == Machine && decisions[n].basis == Evaluated(input)
      then Some(n)
      else FindMachine(decisions[..n], caseId, input)
  }

  function LastDecision(decisions: seq<DecisionRow>, caseId: nat): nat {
    if decisions == [] then 0
    else
      var n := |decisions| - 1;
      var rest := LastDecision(decisions[..n], caseId);
      if decisions[n].caseId == caseId && decisions[n].sequence > rest then decisions[n].sequence else rest
  }

  function Settle(c: CaseRow, decision: nat, verdict: Verdict): CaseRow {
    c.(current := Some(decision), status := if verdict == NeedsHumanReview then CaseNeedsReview else CaseDecided)
  }

  function Ready(s: Store, caseId: nat, allow: bool): Option<GovernanceError> {
    if caseId !in s.cases then Some(CaseNotFound)
    else
      var c := s.cases[caseId];
      if c.policy !in s.policies then Some(PolicyNotFound)
      else if !s.policies[c.policy].enabled then Some(PolicyDisabled)
      else if caseId !in s.investigations && !allow then Some(CaseNotReadyForEvaluation)
      else if caseId in s.investigations && !Terminal(s.investigations[caseId]) then Some(CaseNotReadyForEvaluation)
      else None
  }

  function InvestigationOf(s: Store, caseId: nat): RunStatus {
    if caseId in s.investigations then s.investigations[caseId] else RunCompleted
  }

  function Finalize(s: Store, caseId: nat, allow: bool, origins: map<string, ResultKey>, item: Option<nat>): Transaction
    requires Linked(s)
  {
    match Ready(s, caseId, allow)
    case Some(error) => RolledBack(error)
    case None =>
      var c := s.cases[caseId];
      var p := s.policies[c.policy].compiled;
      if multiset(RequirementKeys(s.requirements, c.requirements)) != multiset(TemplateKeys(p.requirements))
      then RolledBack(DecisionInputInvalid)
      else
        var session := AggregateAll(s.results, s.requirements, s.tables, c.requirements, p.aggregation, origins, item);
        match Evaluate(p, session.outcomes, InvestigationOf(s, caseId))
        case None => RolledBack(DecisionInputInvalid)
        case Some(evaluation) =>
          var s' := s.(results := session.results, requirements := session.requirements);
          RecordMachine(s', caseId, evaluation, item)
  }

  function RecordMachine(s: Store, caseId: nat, evaluation: Evaluation, item: Option<nat>): Transaction
    requires caseId in s.cases
    requires s.cases[caseId].current.Some? ==> s.cases[caseId].current.value < |s.decisions|
  {
    var c := s.cases[caseId];
    match FindMachine(s.decisions, caseId, evaluation.input)
    case Some(existing) => Committed(s.(cases := s.cases[caseId := c.(current := Some(existing))]), existing)
    case None =>
      if c.current.Some? && s.decisions[c.current.value].source == Human then RolledBack(DecisionInputInvalid)
      else
        var row := DecisionRow(caseId, evaluation.verdict, Machine, Evaluated(evaluation.input),
                               LastDecision(s.decisions, caseId) + 1, c.current, evaluation.evidence,
                               evaluation.results, item);
        var id := |s.decisions|;
        var settled := Settle(c, id, evaluation.verdict);
        Committed(s.(decisions := s.decisions + [row], cases := s.cases[caseId := settled]), id)
  }

  // ---- human decisions -------------------------------------------------------------------

  // A request as the caller words it; `text` is the caller's own request key.
  datatype Request = Request(
    reviewer: string, verdict: Verdict, note: string, evidence: seq<EvidenceKey>, text: Option<string>)

  predicate Keyed(text: Option<string>) {
    text.Some? && text.value != ""
  }

  function ReviewKey(caseId: nat, r: Request): RequestKey {
    if Keyed(r.text) then Given(r.text.value)
    else OfReview(caseId, r.reviewer, r.verdict, r.note, multiset(r.evidence))
  }

  function ResolutionKey(appeal: nat, r: Request): RequestKey {
    if Keyed(r.text) then Given(r.text.value)
    else OfResolution(appeal, r.reviewer, r.verdict, r.note, multiset(r.evidence))
  }

  function AppealKey(caseId: nat, submitter: string, statement: string, text: Option<string>): RequestKey {
    if Keyed(text) then Given(text.value) else OfAppeal(caseId, submitter, statement)
  }

  function FindReview(reviews: seq<ReviewRow>, key: RequestKey): (r: Option<nat>)
    ensures r.Some? ==> r.value < |reviews| && reviews[r.value].key == key
    ensures r.None? ==> forall i :: 0 <= i < |reviews| ==> reviews[i].key != key
  {
    if reviews == [] then None
    else
      var rest := FindReview(reviews[..|reviews| - 1], key);
      if rest.Some? then rest
      else if reviews[|reviews| - 1].key == key then Some(|reviews| - 1) else None
  }

  function FindAppeal(appeals: seq<AppealRow>, key: RequestKey): (r: Option<nat>)
    ensures r.Some? ==> r.value < |appeals| && appeals[r.value].key == key
    ensures r.None? ==> forall i :: 0 <= i < |appeals| ==> appeals[i].key != key
  {
    if appeals == [] then None
    else
      var rest := FindAppeal(appeals[..|appeals| - 1], key);
      if rest.Some? then rest
      else if appeals[|appeals| - 1].key == key then Some(|appeals| - 1) else None
  }

  predicate BelongsTo(rows: seq<Evidence>, caseId: nat, id: EvidenceKey) {
    exists i :: 0 <= i < |rows| && rows[i].id == id && rows[i].caseId == caseId
  }

  function Selected(s: Store, caseId: nat, evidence: seq<EvidenceKey>): set<EvidenceKey>
    requires caseId in s.cases && s.cases[caseId].current.Some? && s.cases[caseId].current.value < |s.decisions|
  {
    if evidence == [] then s.decisions[s.cases[caseId].current.value].evidence else set id | id in evidence
  }

  function CurrentResults(s: Store, caseId: nat): set<ResultKey> {
    set id | id in s.requirements && s.requirements[id].caseId == caseId && s.requirements[id].current.Some?
      :: s.requirements[id].current.value
  }

  // The rows of one review and its decision; `blank` is the test for an empty reviewer or note.
  function CreateReview(blank: string -> bool, s: Store, caseId: nat, r: Request, key: RequestKey): Transaction
    requires caseId in s.cases && Linked(s)
  {
    var c := s.cases[caseId];
    if blank(r.reviewer) || blank(r.note) then RolledBack(ReviewInputInvalid)
    else if c.current.None? then RolledBack(DecisionNotFound)
    else
      var selected := Selected(s, caseId, r.evidence);
      if r.verdict != NeedsHumanReview && selected == {} then RolledBack(ReviewInputInvalid)
      else if exists id :: id in selected && !BelongsTo(s.tables.rows, caseId, id) then RolledBack(ReviewInputInvalid)
      else
        var decision := |s.decisions|;
        var row := DecisionRow(caseId, r.verdict, Human, Reviewed(r.reviewer, r.note, key),
                               LastDecision(s.decisions, caseId) + 1, c.current, selected,
                               CurrentResults(s, caseId), None);
        Committed(s.(decisions := s.decisions + [row],
                reviews := s.reviews + [ReviewRow(caseId, key, r.reviewer, c.current.value, decision, r.note)],
                cases := s.cases[caseId := Settle(c, decision, r.verdict)]),
             |s.reviews|)
  }

  function SubmitReview(blank: string -> bool, s: Store, caseId: nat, r: Request): Transaction
    requires Linked(s)
  {
    match FindReview(s.reviews, ReviewKey(caseId, r))
    case Some(review) => Committed(s, review)
    case None =>
      if caseId !in s.cases then RolledBack(CaseNotFound)
      else CreateReview(blank, s, caseId, r, ReviewKey(caseId, r))
  }

  function SubmitAppeal(s: Store, caseId: nat, submitter: string, statement: string, text: Option<string>)
    : Transaction
  {
    var key := AppealKey(caseId, submitter, statement, text);
    match FindAppeal(s.appeals, key)
    case Some(appeal) => Committed(s, appeal)
    case None =>
      if caseId !in s.cases then RolledBack(CaseNotFound)
      else
        var c := s.cases[caseId];
        if c.current.None? then RolledBack(DecisionNotFound)
        else
          var appeal := |s.appeals|;
          Committed(s.(appeals := s.appeals
                    + [AppealRow(caseId, key, submitter, statement, c.current.value, Submitted, None)],
                  events := s.events + [AppealEvent(appeal, 1, Submitted, submitter, statement, c.current.value)],
                  cases := s.cases[caseId := c.(status := CaseNeedsReview)]),
               appeal)
  }

  function ResolveAppeal(blank: string -> bool, s: Store, appeal: nat, r: Request): Transaction
    requires Linked(s)
  {
    var key := ResolutionKey(appeal, r);
    match FindReview(s.reviews, key)
    case Some(review) => Committed(s, review)
    case None =>
      if appeal >= |s.appeals| then RolledBack(AppealNotFound)
      else
        var row := s.appeals[appeal];
        if row.status == Resolved then RolledBack(AppealAlreadyResolved)
        else if row.caseId !in s.cases then RolledBack(CaseNotFound)
        else
          match CreateReview(blank, s, row.caseId, r, key)
          case RolledBack(error) => RolledBack(error)
          case Committed(s', review) =>
            Committed(s'.(appeals := s.appeals[appeal := row.(status := Resolved, resolution := Some(review))],
                     events := s.events
                       + [AppealEvent(appeal, 2, Resolved, r.reviewer, r.note, s'.reviews[review].decision)]),
                 review)
  }

  // ---- the same transactions, in place ---------------------------------------------------

  class GovernanceService {
    const blank: string -> bool
    var cases: map<nat, CaseRow>
    var requirements: map<nat, RequirementRow>
    var policies: map<PolicyRef, PolicyRow>
    var investigations: map<nat, RunStatus>
    var tables: Tables
    var results: seq<ResultRow>
    var decisions: seq<DecisionRow>
    var reviews: seq<ReviewRow>
    var appeals: seq<AppealRow>
    var events: seq<AppealEvent>

    constructor (blank: string -> bool, s: Store)
      ensures View() == s && this.blank == blank
    {
      this.blank := blank;
      cases, requirements, policies, investigations := s.cases, s.requirements, s.policies, s.investigations;
      tables, results, decisions := s.tables, s.results, s.decisions;
      reviews, appeals, events := s.reviews, s.appeals, s.events;
    }

    function View(): Store
      reads this
    {
      Store(cases, requirements, policies, investigations, tables, results, decisions, reviews, appeals, events)
    }

    method FinalizeCase(caseId: nat, allow: bool, origins: map<string, ResultKey>, item: Option<nat>)
      returns (r: Result<nat, GovernanceError>)
      requires Linked(View())
      modifies this
      ensures match Finalize(old(View()), caseId, allow, origins, item)
              case Committed(s, id) => r == Ok(id) && View() == s
              case RolledBack(error) => r == Err(error) && View() == old(View())
    {
      hide Aggregate, Evaluate, AggregateAll, Ready, RecordMachine;
      var unready := CheckReady(caseId, allow);
      if unready.Some? {
        return Err(unready.value);
      }
      var c := cases[caseId];
      var policy := policies[c.policy].compiled;
      if multiset(RequirementKeys(requirements, c.requirements)) != multiset(TemplateKeys(policy.requirements)) {
        return Err(DecisionInputInvalid);
      }
      // Writes of the open session; they are dropped when the transaction is refused.
      var session := new RequirementAggregator(results, requirements);
      var outcomes := AggregateInto(session, c.requirements, policy.aggregation, origins, item);
      var status := if caseId in investigations then investigations[caseId] else RunCompleted;
      var evaluation := Evaluate(policy, outcomes, status);
      if evaluation.None? {
        return Err(DecisionInputInvalid);
      }
      r := AppendDecision(session, caseId, evaluation.value, item);
    }

    method CheckReady(caseId: nat, allow: bool) returns (error: Option<GovernanceError>)
      ensures error == Ready(View(), caseId, allow)
      ensures error.None? ==> caseId in cases && cases[caseId].policy in policies
    {
      if caseId !in cases {
        return Some(CaseNotFound);
      }
      if cases[caseId].policy !in policies {
        return Some(PolicyNotFound);
      }
      if !policies[cases[caseId].policy].enabled {
        return Some(PolicyDisabled);
      }
      if caseId !in investigations && !allow {
        return Some(CaseNotReadyForEvaluation);
      }
      if caseId in investigations && !Terminal(investigations[caseId]) {
        return Some(CaseNotReadyForEvaluation);
      }
      error := None;
    }

    method AppendDecision(session: RequirementAggregator, caseId: nat, evaluation: Evaluation, item: Option<nat>)
      returns (r: Result<nat, GovernanceError>)
      requires Linked(View()) && caseId in cases
      modifies this
      ensures match RecordMachine(old(View()).(results := session.results, requirements := session.requirements),
                           caseId, evaluation, item)
              case Committed(s, id) => r == Ok(id) && View() == s
              case RolledBack(error) => r == Err(error) && View() == old(View())
    {
      var c := cases[caseId];
      var existing := FindMachine(decisions, caseId, evaluation.input);
      if existing.Some? {
        results, requirements := session.results, session.requirements;
        cases := cases[caseId := c.(current := existing)];
        return Ok(existing.value);
      }
      if c.current.Some? && decisions[c.current.value].source == Human {
        return Err(DecisionInputInvalid);
      }
      var sequence := LastDecision(decisions, caseId) + 1;
      var id := |decisions|;
      results, requirements := session.results, session.requirements;
      decisions := decisions + [DecisionRow(caseId, evaluation.verdict, Machine, Evaluated(evaluation.input), sequence,
                                            c.current, evaluation.evidence, evaluation.results, item)];
      cases := cases[caseId := Settle(c, id, evaluation.verdict)];
      r := Ok(id);
    }

    method AggregateOneInto(aggregator: RequirementAggregator, ghost before: seq<Outcome>, id: nat,
                            config: AggregationConfig, origins: map<string, ResultKey>, item: Option<nat>)
      returns (outcome: Outcome)
      requires id in aggregator.requirements && aggregator.requirements[id].id == id
      modifies aggregator
      ensures Session(aggregator.results, aggregator.requirements, before + [outcome])
              == AggregateNext(old(Session(aggregator.results, aggregator.requirements, before)), tables, id, config,
                               origins, item)
      ensures forall k :: k in old(aggregator.requirements) ==>
                k in aggregator.requirements && aggregator.requirements[k].id == old(aggregator.requirements)[k].id
    {
      hide Aggregate, OutcomeOf, Point, OriginOf;
      var key := aggregator.requirements[id].template.key;
      outcome := aggregator.AggregateOne(tables, id, config, OriginOf(origins, key), item);
    }

    method AggregateInto(aggregator: RequirementAggregator, ids: seq<nat>, config: AggregationConfig,
                         origins: map<string, ResultKey>, item: Option<nat>) returns (outcomes: seq<Outcome>)
      requires Known(aggregator.requirements, ids)
      modifies aggregator
      ensures Session(aggregator.results, aggregator.requirements, outcomes)
              == AggregateAll(old(aggregator.results), old(aggregator.requirements), tables, ids, config, origins, item)
    {
      hide AggregateNext, AggregateAll;
      outcomes := [];
      ghost var results, requirements := aggregator.results, aggregator.requirements;
      AggregateNone(results, requirements, tables, config, origins, item);
      for i := 0 to |ids|
        invariant Known(requirements, ids[..i]) && Known(aggregator.requirements, ids)
        invariant Session(aggregator.results, aggregator.requirements, outcomes)
                  == AggregateAll(results, requirements, tables, ids[..i], config, origins, item)
      {
        AggregateOneMore(results, requirements, tables, ids, i, config, origins, item);
        var outcome := AggregateOneInto(aggregator, outcomes, ids[i], config, origins, item);
        outcomes := outcomes + [outcome];
      }
      assert ids[..|ids|] == ids;
    }

    method Review(caseId: nat, request: Request) returns (r: Result<nat, GovernanceError>)
      requires Linked(View())
      modifies this
      ensures match SubmitReview(blank, old(View()), caseId, request)
              case Committed(s, id) => r == Ok(id) && View() == s
              case RolledBack(error) => r == Err(error) && View() == old(View())
    {
      var key := ReviewKey(caseId, request);
      var existing := FindReview(reviews, key);
      if existing.Some? {
        return Ok(existing.value);
      }
      if caseId !in cases {
        return Err(CaseNotFound);
      }
      r := AppendReview(caseId, request, key);
    }

    method AppendReview(caseId: nat, request: Request, key: RequestKey) returns (r: Result<nat, GovernanceError>)
      requires Linked(View()) && caseId in cases
      modifies this
      ensures match CreateReview(blank, old(View()), caseId, request, key)
              case Committed(s, id) => r == Ok(id) && View() == s
              case RolledBack(error) => r == Err(error) && View() == old(View())
    {
      if blank(request.reviewer) || blank(request.note) {
        return Err(ReviewInputInvalid);
      }
      var c := cases[caseId];
      if c.current.None? {
        return Err(DecisionNotFound);
      }
      var selected := if request.evidence == [] then decisions[c.current.value].evidence
                      else set id | id in request.evidence;
      if request.verdict != NeedsHumanReview && selected == {} {
        return Err(ReviewInputInvalid);
      }
      if exists id :: id in selected && !BelongsTo(tables.rows, caseId, id) {
        return Err(ReviewInputInvalid);
      }
      var sequence := LastDecision(decisions, caseId) + 1;
      var decision := |decisions|;
      decisions := decisions + [DecisionRow(caseId, request.verdict, Human,
                                            Reviewed(request.reviewer, request.note, key), sequence, c.current,
                                            selected, CurrentResults(View(), caseId), None)];
      r := Ok(|reviews|);
      reviews := reviews + [ReviewRow(caseId, key, request.reviewer, c.current.value, decision, request.note)];
      cases := cases[caseId := Settle(c, decision, request.verdict)];
    }

    method Appeal(caseId: nat, submitter: string, statement: string, text: Option<string>)
      returns (r: Result<nat, GovernanceError>)
      modifies this
      ensures match SubmitAppeal(old(View()), caseId, submitter, statement, text)
              case Committed(s, id) => r == Ok(id) && View() == s
              case RolledBack(error) => r == Err(error) && View() == old(View())
    {
      var key := AppealKey(caseId, submitter, statement, text);
      var existing := FindAppeal(appeals, key);
      if existing.Some? {
        return Ok(existing.value);
      }
      if caseId !in cases {
        return Err(CaseNotFound);
      }
      var c := cases[caseId];
      if c.current.None? {
        return Err(DecisionNotFound);
      }
      var appeal := |appeals|;
      appeals := appeals + [AppealRow(caseId, key, submitter, statement, c.current.value, Submitted, None)];
      events := events + [AppealEvent(appeal, 1, Submitted, submitter, statement, c.current.value)];
      cases := cases[caseId := c.(status := CaseNeedsReview)];
      r := Ok(appeal);
    }

    method Resolve(appeal: nat, request: Request) returns (r: Result<nat, GovernanceError>)
      requires Linked(View())
      modifies this
      ensures match ResolveAppeal(blank, old(View()), appeal, request)
              case Committed(s, id) => r == Ok(id) && View() == s
              case RolledBack(error) => r == Err(error) && View() == old(View())
    {
      hide LastDecision, CurrentResults;
      var key := ResolutionKey(appeal, request);
      var existing := FindReview(reviews, key);
      if existing.Some? {
        return Ok(existing.value);
      }
      if appeal >= |appeals| {
        return Err(AppealNotFound);
      }
      var row := appeals[appeal];
      if row.status == Resolved {
        return Err(AppealAlreadyResolved);
      }
      if row.caseId !in cases {
        return Err(CaseNotFound);
      }
      r := AppendReview(row.caseId, request, key);
      if r.Ok? {
        var review := r.value;
        appeals := appeals[appeal := row.(status := Resolved, resolution := Some(review))];
        events := events + [AppealEvent(appeal, 2, Resolved, request.reviewer, request.note, reviews[review].decision)];
      }
    }
  }
}
