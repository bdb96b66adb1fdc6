/** What every history of finalizations, reviews, appeals and resolutions leaves in the ledger, with any
    number of cases and with evidence, investigations and policies changing freely in between. */
module LedgerHistory {
  import opened Common
  import opened AgentTypes
  import opened AgentStore
  import opened Policy
  import opened EvidenceStore
  import opened Aggregation
  import opened Rules
  import opened Ledger

  // ---- histories -------------------------------------------------------------------------

  datatype Operation =
    | Finalizing(caseId: nat, allow: bool, origins: map<string, ResultKey>, item: Option<nat>)
    | Reviewing(caseId: nat, request: Request)
    | Appealing(caseId: nat, submitter: string, statement: string, text: Option<string>)
    | Resolving(appeal: nat, request: Request)
    | Outside(next: Store)              // anything the rest of the system does

  // The rest of the system opens cases, appends evidence and changes sources, investigations, policies and
  // statuses, but leaves the ledger alone.
  ghost predicate Evolves(s: Store, s': Store) {
    && Linked(s') && DistinctIds(s'.tables.rows)
    && s'.results == s.results && s'.decisions == s.decisions && s'.reviews == s.reviews
    && s'.appeals == s.appeals && s'.events == s.events
    && s.tables.rows <= s'.tables.rows
    && (forall c :: c in s.cases ==> c in s'.cases && s'.cases[c].current == s.cases[c].current)
    && (forall c :: c in s'.cases && c !in s.cases ==> s'.cases[c].current == None)
    && (forall id :: id in s.requirements ==> id in s'.requirements && s'.requirements[id] == s.requirements[id])
  }

  ghost function Do(blank: string -> bool, s: Store, op: Operation): Transaction
    requires Linked(s)
  {
    match op
    case Finalizing(caseId, allow, origins, item) => Finalize(s, caseId, allow, origins, item)
    case Reviewing(caseId, request) => SubmitReview(blank, s, caseId, request)
    case Appealing(caseId, submitter, statement, text) => SubmitAppeal(s, caseId, submitter, statement, text)
    case Resolving(appeal, request) => ResolveAppeal(blank, s, appeal, request)
    case Outside(next) => if Evolves(s, next) then Committed(next, 0) else Committed(s, 0)
  }

  ghost function Step(blank: string -> bool, s: Store, op: Operation): Store {
    if Linked(s) && Do(blank, s, op).Committed? then Do(blank, s, op).store else s
  }

  ghost function Run(blank: string -> bool, s: Store, ops: seq<Operation>): Store
    decreases |ops|
  {
    if ops == [] then s else Step(blank, Run(blank, s, ops[..|ops| - 1]), ops[|ops| - 1])
  }

  // A store in which nothing has been evaluated, decided, reviewed or appealed yet.
  ghost predicate Blank(s: Store) {
    && Linked(s) && DistinctIds(s.tables.rows)
    && s.results == [] && s.decisions == [] && s.reviews == [] && s.appeals == [] && s.events == []
    && forall c :: c in s.cases ==> s.cases[c].current == None
  }

  // ---- the shape of the ledger -----------------------------------------------------------

  ghost function OfCase(decisions: seq<DecisionRow>, caseId: nat): (r: seq<DecisionRow>)
    ensures forall row :: row in r <==> row in decisions && row.caseId == caseId
  {
    if decisions == [] then []
    else
      var rest := OfCase(decisions[..|decisions| - 1], caseId);
      var last := decisions[|decisions| - 1];
      if last.caseId == caseId then rest + [last] else rest
  }

  // The decisions of a case are numbered 1..n in the order they were taken.
  ghost predicate NumberedFor(decisions: seq<DecisionRow>, caseId: nat) {
    forall k :: 0 <= k < |OfCase(decisions, caseId)| ==> OfCase(decisions, caseId)[k].sequence == k + 1
  }

  // Only a first decision supersedes nothing; the others supersede an earlier decision of their case, and
  // a machine never supersedes a human.
  ghost predicate LinkOk(decisions: seq<DecisionRow>, i: nat)
    requires i < |decisions|
  {
    match decisions[i].supersedes
    case None => decisions[i].sequence == 1
    case Some(j) =>
      && j < i
      && decisions[j].caseId == decisions[i].caseId
      && 1 <= decisions[j].sequence < decisions[i].sequence
      && !(decisions[i].source == Machine && decisions[j].source == Human)
  }

  ghost predicate Chained(decisions: seq<DecisionRow>) {
    && (forall c: nat :: NumberedFor(decisions, c))
    && forall i :: 0 <= i < |decisions| ==> LinkOk(decisions, i)
  }

  // Evidence rows linked to a decision are rows of its case; a conclusive decision has some. A machine
  // decision carries the verdict of the evaluation it records.
  ghost predicate Supported(rows: seq<Evidence>, row: DecisionRow) {
    && (row.verdict != NeedsHumanReview ==> row.evidence != {})
    && (row.basis.Evaluated? ==> row.verdict == row.basis.input.verdict)
    && forall id :: id in row.evidence ==> BelongsTo(rows, row.caseId, id)
  }

  ghost predicate Owned(results: seq<ResultRow>, requirements: map<nat, RequirementRow>, rows: seq<Evidence>) {
    forall row :: row in results ==>
      && row.id.requirementId in requirements
      && forall id :: id in row.evidence ==> BelongsTo(rows, requirements[row.id.requirementId].caseId, id)
  }

  ghost predicate PointersOk(s: Store) {
    && (forall i :: 0 <= i < |s.decisions| ==> s.decisions[i].caseId in s.cases)
    && (forall c :: c in s.cases ==>
          match s.cases[c].current
          case None => OfCase(s.decisions, c) == []
          case Some(j) => j < |s.decisions| && s.decisions[j].caseId == c)
  }

  ghost predicate LedgerOk(s: Store) {
    && Linked(s) && DistinctIds(s.tables.rows)
    && Chained(s.decisions)
    && PointersOk(s)
    && (forall i :: 0 <= i < |s.decisions| ==> Supported(s.tables.rows, s.decisions[i]))
    && Owned(s.results, s.requirements, s.tables.rows)
    && Honest(s.results) && Numbered(s.results)
  }

  // ---- appending a decision --------------------------------------------------------------

  lemma {:induction false} LastDecisionIsCount(decisions: seq<DecisionRow>, caseId: nat)
    requires NumberedFor(decisions, caseId)
    ensures LastDecision(decisions, caseId) == |OfCase(decisions, caseId)|
  {
    if decisions != [] {
      var before := decisions[..|decisions| - 1];
      var rows, rest := OfCase(decisions, caseId), OfCase(before, caseId);
      assert forall k :: 0 <= k < |rest| ==> rest[k] == rows[k];
      LastDecisionIsCount(before, caseId);
      if decisions[|decisions| - 1].caseId == caseId {
        assert rows[|rest|] == decisions[|decisions| - 1];
      }
    }
  }

  lemma SequenceWithin(decisions: seq<DecisionRow>, i: nat)
    requires i < |decisions| && NumberedFor(decisions, decisions[i].caseId)
    ensures 1 <= decisions[i].sequence <= LastDecision(decisions, decisions[i].caseId)
  {
    LastDecisionIsCount(decisions, decisions[i].caseId);
    var rows := OfCase(decisions, decisions[i].caseId);
    assert decisions[i] in rows;
  }

  // The row continues the chain of its case.
  ghost predicate Continues(decisions: seq<DecisionRow>, row: DecisionRow) {
    && row.sequence == LastDecision(decisions, row.caseId) + 1
    && match row.supersedes
       case None => OfCase(decisions, row.caseId) == []
       case Some(j) =>
         && j < |decisions| && decisions[j].caseId == row.caseId
         && !(row.source == Machine && decisions[j].source == Human)
  }

  lemma ChainGrows(decisions: seq<DecisionRow>, row: DecisionRow)
    requires Chained(decisions) && Continues(decisions, row)
    ensures Chained(decisions + [row])
  {
    var after := decisions + [row];
    assert after[..|decisions|] == decisions;
    forall c: nat
      ensures NumberedFor(after, c)
    {
      LastDecisionIsCount(decisions, c);
    }
    forall i | 0 <= i < |after|
      ensures LinkOk(after, i)
    {
      if i < |decisions| {
        assert LinkOk(decisions, i);
      } else if row.supersedes.Some? {
        SequenceWithin(decisions, row.supersedes.value);
      } else {
        LastDecisionIsCount(decisions, row.caseId);
      }
    }
  }

  // A new decision takes over as the one in force.
  lemma DecisionTaken(s: Store, row: DecisionRow, status: CaseStatus, s': Store)
    requires LedgerOk(s) && row.caseId in s.cases && Continues(s.decisions, row)
    requires Supported(s.tables.rows, row)
    requires s'.decisions == s.decisions + [row]
    requires s'.cases == s.cases[row.caseId := s.cases[row.caseId].(current := Some(|s.decisions|), status := status)]
    requires s'.requirements == s.requirements && s'.tables == s.tables && s'.results == s.results
    ensures LedgerOk(s')
  {
    ChainGrows(s.decisions, row);
    hide Chained, Supported, Continues, Owned, BelongsTo, Honest, Numbered;
    assert s'.decisions[..|s.decisions|] == s.decisions;
  }

  // ---- each transaction keeps the shape --------------------------------------------------

  lemma StandingRowIsOwn(t: Tables, q: RequirementRow, id: EvidenceKey)
    requires id in Used(ItemsOf(t, q))
    ensures BelongsTo(t.rows, q.caseId, id)
  {
    var c :| c in ItemsOf(t, q) && c.valid && c.evidence.id == id;
    assert c.evidence in ListFor(t.rows, q.id);
    var i :| 0 <= i < |t.rows| && t.rows[i] == c.evidence;
  }

  lemma AggregateOwns(results: seq<ResultRow>, requirements: map<nat, RequirementRow>, t: Tables, q: RequirementRow,
                      config: AggregationConfig, origin: Option<ResultKey>, item: Option<nat>)
    requires Owned(results, requirements, t.rows) && q.id in requirements && requirements[q.id].caseId == q.caseId
    ensures
      var a := Aggregate(results, t, q, config, origin, item);
      && Owned(a.results, requirements, t.rows)
      && forall id :: id in a.row.evidence ==> BelongsTo(t.rows, q.caseId, id)
  {
    var a := Aggregate(results, t, q, config, origin, item);
    assert a.row in a.results && a.row.id.requirementId == q.id;
    forall id | id in Used(ItemsOf(t, q))
      ensures BelongsTo(t.rows, q.caseId, id)
    {
      StandingRowIsOwn(t, q, id);
    }
    hide ItemsOf, Used, BelongsTo;
  }

  lemma {:induction false} AggregateAllOwns(results: seq<ResultRow>, requirements: map<nat, RequirementRow>, t: Tables,
                                            caseId: nat, ids: seq<nat>, config: AggregationConfig,
                                            origins: map<string, ResultKey>, item: Option<nat>)
    requires Owned(results, requirements, t.rows) && Known(requirements, ids)
    requires forall id :: id in ids ==> requirements[id].caseId == caseId
    ensures
      var session := AggregateAll(results, requirements, t, ids, config, origins, item);
      && Owned(session.results, requirements, t.rows)
      && forall id :: id in EvidenceOf(session.outcomes) ==> BelongsTo(t.rows, caseId, id)
  {
    if ids != [] {
      var n := |ids| - 1;
      AggregateAllOwns(results, requirements, t, caseId, ids[..n], config, origins, item);
      var before := AggregateAll(results, requirements, t, ids[..n], config, origins, item);
      var q := before.requirements[ids[n]];
      AggregateOwns(before.results, requirements, t, q, config, OriginOf(origins, q.template.key), item);
      hide Owned, Aggregate, BelongsTo;
    }
  }

  // What computing a requirement afresh says.
  ghost function Afresh(t: Tables, q: RequirementRow, config: AggregationConfig): Outcome {
    var items := ItemsOf(t, q);
    Outcome(KeyOf(t, q, config), q.template.key, Find(config, items), Used(items),
            (set c | c in items :: c.evidence.id) - Used(items))
  }

  // What aggregating a case says of each requirement is what computing it afresh says.
  ghost predicate SaysOf(o: Outcome, t: Tables, q: RequirementRow, config: AggregationConfig) {
    o == Afresh(t, q, config)
  }

  lemma NextIsFresh(before: Session, t: Tables, id: nat, config: AggregationConfig, origins: map<string, ResultKey>,
                    item: Option<nat>)
    requires Honest(before.results) && Numbered(before.results) && DistinctIds(t.rows) && id in before.requirements
    ensures
      var after := AggregateNext(before, t, id, config, origins, item);
      && Honest(after.results) && Numbered(after.results)
      && after.outcomes[..|before.outcomes|] == before.outcomes
      && SaysOf(after.outcomes[|before.outcomes|], t, before.requirements[id], config)
  {
    var q := before.requirements[id];
    AggregateKeeps(before.results, Call(t, q, config, OriginOf(origins, q.template.key), item));
    ItemsAreDistinct(t, q);
    FindingIsOfTheInput(config, ItemsOf(t, q));
    hide Find, Used, ItemsOf, Numbered, NewResult;
  }

  lemma {:induction false} AggregateAllIsFresh(results: seq<ResultRow>, requirements: map<nat, RequirementRow>,
                                               t: Tables, ids: seq<nat>, config: AggregationConfig,
                                               origins: map<string, ResultKey>, item: Option<nat>)
    requires Honest(results) && Numbered(results) && DistinctIds(t.rows) && Known(requirements, ids)
    ensures
      var session := AggregateAll(results, requirements, t, ids, config, origins, item);
      && Honest(session.results) && Numbered(session.results)
      && forall k :: 0 <= k < |ids| ==> SaysOf(session.outcomes[k], t, requirements[ids[k]], config)
  {
    if ids != [] {
      var n := |ids| - 1;
      AggregateAllIsFresh(results, requirements, t, ids[..n], config, origins, item);
      var before := AggregateAll(results, requirements, t, ids[..n], config, origins, item);
      NextIsFresh(before, t, ids[n], config, origins, item);
      assert Same(requirements[ids[n]], before.requirements[ids[n]]);
      SameSays(t, requirements[ids[n]], before.requirements[ids[n]], config);
      hide SaysOf, Honest, Numbered, AggregateNext, Same;
      var after := AggregateAll(results, requirements, t, ids, config, origins, item);
      MoreSay(before.outcomes, after.outcomes, t, requirements, ids, config);
    }
  }

  lemma MoreSay(before: seq<Outcome>, after: seq<Outcome>, t: Tables, requirements: map<nat, RequirementRow>,
                ids: seq<nat>, config: AggregationConfig)
    requires Known(requirements, ids) && |after| == |ids| == |before| + 1 && after[..|before|] == before
    requires forall k :: 0 <= k < |before| ==> SaysOf(before[k], t, requirements[ids[..|before|][k]], config)
    requires SaysOf(after[|before|], t, requirements[ids[|before|]], config)
    ensures forall k :: 0 <= k < |ids| ==> SaysOf(after[k], t, requirements[ids[k]], config)
  {
    forall k | 0 <= k < |ids|
      ensures SaysOf(after[k], t, requirements[ids[k]], config)
    {
      if k < |before| {
        assert after[..|before|][k] == before[k] && ids[..|before|][k] == ids[k];
      }
    }
  }

  lemma SameSays(t: Tables, q: RequirementRow, q': RequirementRow, config: AggregationConfig)
    requires Same(q, q')
    ensures forall o :: SaysOf(o, t, q', config) ==> SaysOf(o, t, q, config)
  {
  }

  // The writes of an aggregation alone leave the ledger as it was.
  lemma AggregationKeeps(s: Store, results: seq<ResultRow>, requirements: map<nat, RequirementRow>)
    requires LedgerOk(s)
    requires requirements.Keys == s.requirements.Keys
    requires forall id :: id in requirements ==> Same(s.requirements[id], requirements[id])
    requires Owned(results, s.requirements, s.tables.rows) && Honest(results) && Numbered(results)
    ensures LedgerOk(s.(results := results, requirements := requirements))
  {
    hide Chained, Supported, BelongsTo, Honest, Numbered;
  }

  lemma FinalizeKeeps(s: Store, caseId: nat, allow: bool, origins: map<string, ResultKey>, item: Option<nat>)
    requires LedgerOk(s) && Finalize(s, caseId, allow, origins, item).Committed?
    ensures LedgerOk(Finalize(s, caseId, allow, origins, item).store)
  {
    var c := s.cases[caseId];
    var p := s.policies[c.policy].compiled;
    assert Known(s.requirements, c.requirements);
    var session := AggregateAll(s.results, s.requirements, s.tables, c.requirements, p.aggregation, origins, item);
    AggregateAllOwns(s.results, s.requirements, s.tables, caseId, c.requirements, p.aggregation, origins, item);
    AggregateAllIsFresh(s.results, s.requirements, s.tables, c.requirements, p.aggregation, origins, item);
    AggregationKeeps(s, session.results, session.requirements);
    hide AggregateAll, Evaluate, LedgerOk, RecordMachine, BelongsTo;
    var evaluation := Evaluate(p, session.outcomes, InvestigationOf(s, caseId)).value;
    ConclusiveHasEvidence(p, session.outcomes, InvestigationOf(s, caseId));
    RecordKeeps(s.(results := session.results, requirements := session.requirements), caseId, evaluation, item);
  }

  lemma ConclusiveHasEvidence(p: CompiledPolicy, outcomes: seq<Outcome>, investigation: RunStatus)
    requires Evaluate(p, outcomes, investigation).Some?
    ensures
      var e := Evaluate(p, outcomes, investigation).value;
      && e.evidence == EvidenceOf(outcomes) && e.verdict == e.input.verdict
      && (e.verdict != NeedsHumanReview ==> e.evidence != {})
  {
  }

  lemma RecordKeeps(s: Store, caseId: nat, evaluation: Evaluation, item: Option<nat>)
    requires LedgerOk(s) && caseId in s.cases
    requires evaluation.verdict != NeedsHumanReview ==> evaluation.evidence != {}
    requires evaluation.verdict == evaluation.input.verdict
    requires forall id :: id in evaluation.evidence ==> BelongsTo(s.tables.rows, caseId, id)
    requires RecordMachine(s, caseId, evaluation, item).Committed?
    ensures LedgerOk(RecordMachine(s, caseId, evaluation, item).store)
  {
    hide Honest, Numbered, Owned, Chained, BelongsTo, LastDecision, OfCase, NumberedFor;
    var after := RecordMachine(s, caseId, evaluation, item).store;
    var existing := FindMachine(s.decisions, caseId, evaluation.input);
    if existing.None? {
      var row := after.decisions[|s.decisions|];
      assert Continues(s.decisions, row);
      DecisionTaken(s, row, after.cases[caseId].status, after) by { hide LedgerOk; }
    } else {
      DecisionRestored(s, caseId, existing.value);
    }
  }

  // A stored decision of the case comes back into force.
  lemma DecisionRestored(s: Store, caseId: nat, id: nat)
    requires LedgerOk(s) && caseId in s.cases && id < |s.decisions| && s.decisions[id].caseId == caseId
    ensures LedgerOk(s.(cases := s.cases[caseId := s.cases[caseId].(current := Some(id))]))
  {
    hide Honest, Numbered, Owned, Chained, Supported;
  }

  lemma CreateReviewKeeps(blank: string -> bool, s: Store, caseId: nat, r: Request, key: RequestKey)
    requires LedgerOk(s) && caseId in s.cases && CreateReview(blank, s, caseId, r, key).Committed?
    ensures LedgerOk(CreateReview(blank, s, caseId, r, key).store)
  {
    var after := CreateReview(blank, s, caseId, r, key).store;
    var row := after.decisions[|s.decisions|];
    assert Continues(s.decisions, row) && Supported(s.tables.rows, row);
    DecisionTaken(s, row, after.cases[caseId].status, after) by { hide LedgerOk, CurrentResults; }
  }

  lemma NoneOfCase(decisions: seq<DecisionRow>, caseId: nat)
    requires forall i :: 0 <= i < |decisions| ==> decisions[i].caseId != caseId
    ensures OfCase(decisions, caseId) == []
  {
  }

  lemma EvolutionKeeps(s: Store, s': Store)
    requires LedgerOk(s) && Evolves(s, s')
    ensures LedgerOk(s')
  {
    hide Chained, Honest, Numbered;
    forall c: nat, id: EvidenceKey | BelongsTo(s.tables.rows, c, id)
      ensures BelongsTo(s'.tables.rows, c, id)
    {
      var i :| 0 <= i < |s.tables.rows| && s.tables.rows[i].id == id && s.tables.rows[i].caseId == c;
      assert s'.tables.rows[i] == s.tables.rows[i];
    }
    forall c | c in s'.cases && c !in s.cases
      ensures OfCase(s'.decisions, c) == []
    {
      NoneOfCase(s.decisions, c);
    }
    hide BelongsTo;
  }

  lemma AppealKeeps(s: Store, caseId: nat, submitter: string, statement: string, text: Option<string>)
    requires LedgerOk(s) && SubmitAppeal(s, caseId, submitter, statement, text).Committed?
    ensures LedgerOk(SubmitAppeal(s, caseId, submitter, statement, text).store)
  {
    hide Chained, Supported, Owned;
  }

  lemma ResolutionKeeps(blank: string -> bool, s: Store, appeal: nat, r: Request)
    requires LedgerOk(s) && ResolveAppeal(blank, s, appeal, r).Committed?
    ensures LedgerOk(ResolveAppeal(blank, s, appeal, r).store)
  {
    hide CreateReview, Chained, Supported, Owned;
    var key := ResolutionKey(appeal, r);
    if FindReview(s.reviews, key).None? {
      CreateReviewKeeps(blank, s, s.appeals[appeal].caseId, r, key);
    }
  }

  lemma StepKeeps(blank: string -> bool, s: Store, op: Operation)
    requires LedgerOk(s)
    ensures LedgerOk(Step(blank, s, op))
  {
    assert Linked(s);
    hide LedgerOk, Finalize, CreateReview, ResolveAppeal, SubmitAppeal, Evolves;
    if Do(blank, s, op).Committed? {
      match op
      case Finalizing(caseId, allow, origins, item) => FinalizeKeeps(s, caseId, allow, origins, item);
      case Reviewing(caseId, request) =>
        if FindReview(s.reviews, ReviewKey(caseId, request)).None? {
          CreateReviewKeeps(blank, s, caseId, request, ReviewKey(caseId, request));
        }
      case Appealing(caseId, submitter, statement, text) => AppealKeeps(s, caseId, submitter, statement, text);
      case Resolving(appeal, request) => ResolutionKeeps(blank, s, appeal, request);
      case Outside(next) =>
        if Evolves(s, next) {
          EvolutionKeeps(s, next);
        }
    }
  }

  lemma {:induction false} RunKeeps(blank: string -> bool, s: Store, ops: seq<Operation>)
    requires LedgerOk(s)
    ensures LedgerOk(Run(blank, s, ops))
    decreases |ops|
  {
    if ops != [] {
      RunKeeps(blank, s, ops[..|ops| - 1]);
      StepKeeps(blank, Run(blank, s, ops[..|ops| - 1]), ops[|ops| - 1]);
    }
  }

  // ---- results on decisions --------------------------------------------------------------

  lemma BlankIsOk(s: Store)
    requires Blank(s)
    ensures LedgerOk(s)
  {
  }

  lemma {:induction false} SequencesIncrease(decisions: seq<DecisionRow>, i: nat, j: nat)
    requires Chained(decisions) && i < j < |decisions| && decisions[i].caseId == decisions[j].caseId
    ensures decisions[i].sequence < decisions[j].sequence
  {
    assert NumberedFor(decisions, decisions[j].caseId);
    Placed(decisions, j);
    Placed(decisions, i);
    PrefixOfCase(decisions, i, j, decisions[j].caseId);
  }

  // The place of a decision among those of its case is how many of them came before it.
  lemma {:induction false} Placed(decisions: seq<DecisionRow>, i: nat)
    requires i < |decisions|
    ensures
      var c := decisions[i].caseId;
      var k := |OfCase(decisions[..i], c)|;
      k < |OfCase(decisions, c)| && OfCase(decisions, c)[k] == decisions[i]
  {
    var n := |decisions| - 1;
    if i < n {
      assert decisions[..n][..i] == decisions[..i];
      Placed(decisions[..n], i);
    }
  }

  lemma {:induction false} PrefixOfCase(decisions: seq<DecisionRow>, i: nat, j: nat, caseId: nat)
    requires i < j <= |decisions| && decisions[i].caseId == caseId
    ensures |OfCase(decisions[..i], caseId)| < |OfCase(decisions[..j], caseId)|
    decreases j
  {
    assert decisions[..j][..j - 1] == decisions[..j - 1];
    if i < j - 1 {
      PrefixOfCase(decisions, i, j - 1, caseId);
    }
  }

  // The decisions of a case form one chain from a single first decision, whoever took them.
  lemma DecisionsFormOneChain(blank: string -> bool, s: Store, ops: seq<Operation>, caseId: nat)
    requires Blank(s)
    ensures
      var decisions := Run(blank, s, ops).decisions;
      var own := OfCase(decisions, caseId);
      && (forall k :: 0 <= k < |own| ==> own[k].sequence == k + 1)
      && (own != [] ==> own[0].supersedes == None)
      && (forall k :: 0 < k < |own| ==> own[k].supersedes.Some?)
      && forall i :: 0 <= i < |decisions| && decisions[i].caseId == caseId && decisions[i].supersedes.Some? ==>
           var j := decisions[i].supersedes.value;
           && j < |decisions| && decisions[j].caseId == caseId && decisions[j].sequence < decisions[i].sequence
           && !(decisions[i].source == Machine && decisions[j].source == Human)
  {
    BlankIsOk(s);
    RunKeeps(blank, s, ops);
    var decisions := Run(blank, s, ops).decisions;
    var own := OfCase(decisions, caseId);
    assert NumberedFor(decisions, caseId);
    forall k | 0 <= k < |own|
      ensures own[k].supersedes == None <==> k == 0
    {
      assert own[k] in own;
      var i :| 0 <= i < |decisions| && decisions[i] == own[k];
      assert LinkOk(decisions, i);
    }
    forall i | 0 <= i < |decisions| && decisions[i].caseId == caseId && decisions[i].supersedes.Some?
      ensures LinkOk(decisions, i)
    {
    }
    hide OfCase;
  }

  // No two decisions of a case share a sequence number, so only one of them supersedes nothing.
  lemma OneDecisionIsFirst(blank: string -> bool, s: Store, ops: seq<Operation>)
    requires Blank(s)
    ensures
      var decisions := Run(blank, s, ops).decisions;
      forall i, j :: 0 <= i < j < |decisions| && decisions[i].caseId == decisions[j].caseId ==>
        decisions[i].sequence < decisions[j].sequence && decisions[j].supersedes.Some?
  {
    BlankIsOk(s);
    RunKeeps(blank, s, ops);
    var decisions := Run(blank, s, ops).decisions;
    forall i, j | 0 <= i < j < |decisions| && decisions[i].caseId == decisions[j].caseId
      ensures decisions[i].sequence < decisions[j].sequence && decisions[j].supersedes.Some?
    {
      SequencesIncrease(decisions, i, j);
      SequenceWithin(decisions, i);
      assert LinkOk(decisions, j);
    }
  }

  // APPROVE and REJECT, by rule or by hand, are linked to evidence, and every linked row is of the case.
  lemma ConclusiveDecisionsCiteTheirCase(blank: string -> bool, s: Store, ops: seq<Operation>, i: nat)
    requires Blank(s) && i < |Run(blank, s, ops).decisions|
    ensures
      var after := Run(blank, s, ops);
      var row := after.decisions[i];
      && (row.verdict == Approve || row.verdict == Reject ==> row.evidence != {})
      && forall id :: id in row.evidence ==>
           exists k :: 0 <= k < |after.tables.rows| && after.tables.rows[k].id == id
                       && after.tables.rows[k].caseId == row.caseId
  {
    BlankIsOk(s);
    RunKeeps(blank, s, ops);
    var after := Run(blank, s, ops);
    assert Supported(after.tables.rows, after.decisions[i]);
    forall id | id in after.decisions[i].evidence
      ensures exists k :: 0 <= k < |after.tables.rows| && after.tables.rows[k].id == id
                          && after.tables.rows[k].caseId == after.decisions[i].caseId
    {
      assert BelongsTo(after.tables.rows, after.decisions[i].caseId, id);
    }
  }

  // ---- results on appeals ----------------------------------------------------------------

  ghost function EventsOf(events: seq<AppealEvent>, appeal: nat): (r: seq<AppealEvent>) {
    if events == [] then []
    else
      var rest := EventsOf(events[..|events| - 1], appeal);
      var last := events[|events| - 1];
      if last.appeal == appeal then rest + [last] else rest
  }

  lemma NoEvents(events: seq<AppealEvent>, appeal: nat)
    requires forall i :: 0 <= i < |events| ==> events[i].appeal != appeal
    ensures EventsOf(events, appeal) == []
  {
  }

  lemma OneMoreEvent(events: seq<AppealEvent>, e: AppealEvent, appeal: nat)
    ensures EventsOf(events + [e], appeal) == EventsOf(events, appeal) + if e.appeal == appeal then [e] else []
  {
    assert (events + [e])[..|events|] == events;
  }

  function Opening(row: AppealRow, appeal: nat): AppealEvent {
    AppealEvent(appeal, 1, Submitted, row.submitter, row.statement, row.challenged)
  }

  function Closing(review: ReviewRow, appeal: nat): AppealEvent {
    AppealEvent(appeal, 2, Resolved, review.reviewer, review.note, review.decision)
  }

  // Open with its submission alone, or resolved once, by a review of its case whose decision the second
  // event names.
  ghost predicate AppealOk(s: Store, appeal: nat)
    requires appeal < |s.appeals|
  {
    var row := s.appeals[appeal];
    match row.status
    case Submitted => row.resolution == None && EventsOf(s.events, appeal) == [Opening(row, appeal)]
    case Resolved =>
      && row.resolution.Some? && row.resolution.value < |s.reviews|
      && var review := s.reviews[row.resolution.value];
      && review.caseId == row.caseId
      && EventsOf(s.events, appeal) == [Opening(row, appeal), Closing(review, appeal)]
  }

  ghost predicate ReviewOk(s: Store, review: nat)
    requires review < |s.reviews|
  {
    var row := s.reviews[review];
    && row.decision < |s.decisions|
    && s.decisions[row.decision].caseId == row.caseId
    && s.decisions[row.decision].source == Human
    && s.decisions[row.decision].supersedes == Some(row.reviewed)
  }

  ghost predicate AppealsOk(s: Store) {
    && (forall i :: 0 <= i < |s.events| ==> s.events[i].appeal < |s.appeals|)
    && (forall a :: 0 <= a < |s.appeals| ==> AppealOk(s, a))
    && (forall v :: 0 <= v < |s.reviews| ==> ReviewOk(s, v))
  }

  lemma CreateReviewKeepsAppeals(blank: string -> bool, s: Store, caseId: nat, r: Request, key: RequestKey)
    requires AppealsOk(s) && Linked(s) && caseId in s.cases && CreateReview(blank, s, caseId, r, key).Committed?
    ensures
      var done := CreateReview(blank, s, caseId, r, key);
      && AppealsOk(done.store) && done.store.appeals == s.appeals && done.store.events == s.events
      && done.id == |s.reviews| == |done.store.reviews| - 1
      && done.store.reviews[done.id].caseId == caseId
      && done.store.reviews[done.id].reviewer == r.reviewer && done.store.reviews[done.id].note == r.note
  {
    var after := CreateReview(blank, s, caseId, r, key).store;
    forall a | 0 <= a < |s.appeals|
      ensures AppealOk(after, a)
    {
      assert AppealOk(s, a);
    }
    forall v | 0 <= v < |after.reviews|
      ensures ReviewOk(after, v)
    {
      if v < |s.reviews| {
        assert ReviewOk(s, v);
      }
    }
  }

  lemma SubmissionKeepsAppeals(s: Store, caseId: nat, submitter: string, statement: string, text: Option<string>)
    requires AppealsOk(s) && SubmitAppeal(s, caseId, submitter, statement, text).Committed?
    ensures AppealsOk(SubmitAppeal(s, caseId, submitter, statement, text).store)
  {
    var after := SubmitAppeal(s, caseId, submitter, statement, text).store;
    if |after.appeals| > |s.appeals| {
      var e := after.events[|s.events|];
      NoEvents(s.events, |s.appeals|);
      forall a | 0 <= a < |after.appeals|
        ensures AppealOk(after, a)
      {
        OneMoreEvent(s.events, e, a);
        if a < |s.appeals| {
          assert AppealOk(s, a);
        }
      }
      forall v | 0 <= v < |after.reviews|
        ensures ReviewOk(after, v)
      {
        assert ReviewOk(s, v);
      }
    }
  }

  lemma ResolutionKeepsAppeals(blank: string -> bool, s: Store, appeal: nat, r: Request)
    requires AppealsOk(s) && Linked(s) && ResolveAppeal(blank, s, appeal, r).Committed?
    ensures AppealsOk(ResolveAppeal(blank, s, appeal, r).store)
  {
    hide CreateReview;
    var key := ResolutionKey(appeal, r);
    if FindReview(s.reviews, key).None? {
      var row := s.appeals[appeal];
      CreateReviewKeepsAppeals(blank, s, row.caseId, r, key);
      var reviewed := CreateReview(blank, s, row.caseId, r, key);
      var after := ResolveAppeal(blank, s, appeal, r).store;
      var e := after.events[|s.events|];
      forall a | 0 <= a < |after.appeals|
        ensures AppealOk(after, a)
      {
        OneMoreEvent(s.events, e, a);
        assert AppealOk(reviewed.store, a);
      }
      forall v | 0 <= v < |after.reviews|
        ensures ReviewOk(after, v)
      {
        assert ReviewOk(reviewed.store, v);
      }
    }
  }

  lemma FinalizeSparesAppeals(s: Store, caseId: nat, allow: bool, origins: map<string, ResultKey>, item: Option<nat>)
    requires Linked(s) && Finalize(s, caseId, allow, origins, item).Committed?
    ensures
      var after := Finalize(s, caseId, allow, origins, item).store;
      && after.appeals == s.appeals && after.events == s.events && after.reviews == s.reviews
      && s.decisions <= after.decisions
  {
    hide AggregateAll, Evaluate, FindMachine, LastDecision;
  }

  lemma AppealsAreFramed(s: Store, s': Store)
    requires AppealsOk(s) && s'.appeals == s.appeals && s'.events == s.events && s'.reviews == s.reviews
    requires s.decisions <= s'.decisions
    ensures AppealsOk(s')
  {
    forall a | 0 <= a < |s.appeals|
      ensures AppealOk(s', a)
    {
      assert AppealOk(s, a);
    }
    forall v | 0 <= v < |s.reviews|
      ensures ReviewOk(s', v)
    {
      assert ReviewOk(s, v);
    }
  }

  lemma StepKeepsAppeals(blank: string -> bool, s: Store, op: Operation)
    requires AppealsOk(s) && Linked(s)
    ensures AppealsOk(Step(blank, s, op))
  {
    hide Finalize, CreateReview, ResolveAppeal, SubmitAppeal;
    if Do(blank, s, op).Committed? {
      match op
      case Finalizing(caseId, allow, origins, item) =>
        FinalizeSparesAppeals(s, caseId, allow, origins, item);
        AppealsAreFramed(s, Step(blank, s, op));
      case Reviewing(caseId, request) =>
        if FindReview(s.reviews, ReviewKey(caseId, request)).None? {
          CreateReviewKeepsAppeals(blank, s, caseId, request, ReviewKey(caseId, request));
        }
      case Appealing(caseId, submitter, statement, text) =>
        SubmissionKeepsAppeals(s, caseId, submitter, statement, text);
      case Resolving(appeal, request) => ResolutionKeepsAppeals(blank, s, appeal, request);
      case Outside(next) => AppealsAreFramed(s, Step(blank, s, op));
    }
  }

  lemma {:induction false} RunKeepsAppeals(blank: string -> bool, s: Store, ops: seq<Operation>)
    requires LedgerOk(s) && AppealsOk(s)
    ensures AppealsOk(Run(blank, s, ops))
    decreases |ops|
  {
    if ops != [] {
      var before := ops[..|ops| - 1];
      RunKeepsAppeals(blank, s, before);
      RunKeeps(blank, s, before);
      StepKeepsAppeals(blank, Run(blank, s, before), ops[|ops| - 1]);
    }
  }

  // Every appeal is open with exactly its submission, or was resolved exactly once: its second and last
  // event names the human decision of the review that resolved it.
  lemma AppealsAreResolvedOnce(blank: string -> bool, s: Store, ops: seq<Operation>, appeal: nat)
    requires Blank(s) && appeal < |Run(blank, s, ops).appeals|
    ensures
      var after := Run(blank, s, ops);
      var row := after.appeals[appeal];
      var own := EventsOf(after.events, appeal);
      && |own| == (if row.status == Submitted then 1 else 2)
      && own[0] == AppealEvent(appeal, 1, Submitted, row.submitter, row.statement, row.challenged)
      && (row.status == Submitted ==> row.resolution == None)
      && (row.status == Resolved ==>
            && row.resolution.Some? && row.resolution.value < |after.reviews|
            && var review := after.reviews[row.resolution.value];
            && own[1] == AppealEvent(appeal, 2, Resolved, review.reviewer, review.note, review.decision)
            && review.decision < |after.decisions|
            && after.decisions[review.decision].source == Human
            && after.decisions[review.decision].caseId == row.caseId
            && after.decisions[review.decision].supersedes == Some(review.reviewed))
  {
    BlankIsOk(s);
    RunKeepsAppeals(blank, s, ops);
    var after := Run(blank, s, ops);
    assert AppealOk(after, appeal);
    var row := after.appeals[appeal];
    if row.status == Resolved {
      assert ReviewOk(after, row.resolution.value);
    }
    hide EventsOf, Run;
  }

  // ---- request keys ----------------------------------------------------------------------

  // The store already holds the row this request asks for.
  ghost predicate Remembers(s: Store, op: Operation, id: nat) {
    match op
    case Reviewing(caseId, request) => FindReview(s.reviews, ReviewKey(caseId, request)) == Some(id)
    case Resolving(appeal, request) => FindReview(s.reviews, ResolutionKey(appeal, request)) == Some(id)
    case Appealing(caseId, submitter, statement, text) =>
      FindAppeal(s.appeals, AppealKey(caseId, submitter, statement, text)) == Some(id)
    case _ => false
  }

  predicate ByHuman(op: Operation) {
    op.Reviewing? || op.Resolving? || op.Appealing?
  }

  lemma {:induction false} FoundReviewStays(reviews: seq<ReviewRow>, reviews': seq<ReviewRow>, key: RequestKey)
    requires reviews <= reviews' && FindReview(reviews, key).Some?
    ensures FindReview(reviews', key) == FindReview(reviews, key)
    decreases |reviews'|
  {
    if |reviews| < |reviews'| {
      FoundReviewStays(reviews, reviews'[..|reviews'| - 1], key);
    } else {
      assert reviews == reviews';
    }
  }

  ghost predicate KeysKept(appeals: seq<AppealRow>, appeals': seq<AppealRow>) {
    |appeals| <= |appeals'| && forall i :: 0 <= i < |appeals| ==> appeals'[i].key == appeals[i].key
  }

  lemma {:induction false} FoundAppealStays(appeals: seq<AppealRow>, appeals': seq<AppealRow>, key: RequestKey)
    requires KeysKept(appeals, appeals') && FindAppeal(appeals, key).Some?
    ensures FindAppeal(appeals', key) == FindAppeal(appeals, key)
    decreases |appeals'|
  {
    var n := |appeals'| - 1;
    if |appeals| <= n {
      FoundAppealStays(appeals, appeals'[..n], key);
    } else if FindAppeal(appeals[..n], key).Some? {
      FoundAppealStays(appeals[..n], appeals'[..n], key);
    } else {
      assert FindAppeal(appeals'[..n], key).None?;
    }
  }

  lemma StepOnlyAppends(blank: string -> bool, s: Store, op: Operation)
    ensures s.reviews <= Step(blank, s, op).reviews && KeysKept(s.appeals, Step(blank, s, op).appeals)
  {
    hide Finalize, LastDecision, CurrentResults, Selected;
    if Linked(s) && op.Finalizing? && Do(blank, s, op).Committed? {
      FinalizeSparesAppeals(s, op.caseId, op.allow, op.origins, op.item);
    }
  }

  lemma StepRemembers(blank: string -> bool, s: Store, op: Operation, id: nat, next: Operation)
    requires Remembers(s, op, id)
    ensures Remembers(Step(blank, s, next), op, id)
  {
    var after := Step(blank, s, next);
    StepOnlyAppends(blank, s, next);
    match op
    case Reviewing(caseId, request) => FoundReviewStays(s.reviews, after.reviews, ReviewKey(caseId, request));
    case Resolving(appeal, request) => FoundReviewStays(s.reviews, after.reviews, ResolutionKey(appeal, request));
    case Appealing(caseId, submitter, statement, text) =>
      FoundAppealStays(s.appeals, after.appeals, AppealKey(caseId, submitter, statement, text));
  }

  lemma {:induction false} RunRemembers(blank: string -> bool, s: Store, op: Operation, id: nat, later: seq<Operation>)
    requires Remembers(s, op, id)
    ensures Remembers(Run(blank, s, later), op, id)
    decreases |later|
  {
    hide Remembers, Step;
    if later != [] {
      RunRemembers(blank, s, op, id, later[..|later| - 1]);
      StepRemembers(blank, Run(blank, s, later[..|later| - 1]), op, id, later[|later| - 1]);
    }
  }

  lemma SuccessIsRemembered(blank: string -> bool, s: Store, op: Operation)
    requires Linked(s) && ByHuman(op) && Do(blank, s, op).Committed?
    ensures Remembers(Do(blank, s, op).store, op, Do(blank, s, op).id)
  {
    hide CreateReview, FindReview, FindAppeal;
    match op
    case Reviewing(caseId, request) =>
      var key := ReviewKey(caseId, request);
      if FindReview(s.reviews, key).None? && caseId in s.cases {
        CreatedIsFound(blank, s, caseId, request, key);
      }
    case Resolving(appeal, request) =>
      var key := ResolutionKey(appeal, request);
      if FindReview(s.reviews, key).None? {
        CreatedIsFound(blank, s, s.appeals[appeal].caseId, request, key);
      }
    case Appealing(caseId, submitter, statement, text) =>
      var key := AppealKey(caseId, submitter, statement, text);
      if FindAppeal(s.appeals, key).None? {
        NewAppealIsFound(s.appeals, Do(blank, s, op).store.appeals[|s.appeals|]);
      }
  }

  lemma CreatedIsFound(blank: string -> bool, s: Store, caseId: nat, r: Request, key: RequestKey)
    requires Linked(s) && caseId in s.cases && FindReview(s.reviews, key).None?
    ensures
      var created := CreateReview(blank, s, caseId, r, key);
      created.Committed? ==> FindReview(created.store.reviews, key) == Some(created.id)
  {
    hide LastDecision, CurrentResults, Selected;
    var created := CreateReview(blank, s, caseId, r, key);
    if created.Committed? {
      assert created.store.reviews[..|s.reviews|] == s.reviews;
    }
  }

  lemma NewAppealIsFound(appeals: seq<AppealRow>, row: AppealRow)
    requires FindAppeal(appeals, row.key).None?
    ensures FindAppeal(appeals + [row], row.key) == Some(|appeals|)
  {
    assert (appeals + [row])[..|appeals|] == appeals;
  }

  // A review, an appeal or a resolution that succeeded once succeeds again at any later point of any
  // history, with the same row and without a change.
  lemma RequestsAreIdempotent(blank: string -> bool, s: Store, ops: seq<Operation>, op: Operation,
                              later: seq<Operation>)
    requires Blank(s) && ByHuman(op)
    requires LedgerOk(Run(blank, s, ops)) && Do(blank, Run(blank, s, ops), op).Committed?
    ensures
      var first := Do(blank, Run(blank, s, ops), op);
      var now := Run(blank, first.store, later);
      Linked(now) && Do(blank, now, op) == Committed(now, first.id)
  {
    BlankIsOk(s);
    RunKeeps(blank, s, ops);
    var before := Run(blank, s, ops);
    var first := Do(blank, before, op);
    StepKeeps(blank, before, op);
    RunKeeps(blank, first.store, later);
    SuccessIsRemembered(blank, before, op);
    RunRemembers(blank, first.store, op, first.id, later);
    hide LedgerOk, Run;
  }

  // ---- evaluation ------------------------------------------------------------------------

  // A case whose requirements match its policy is always evaluated: the mismatch error is unreachable.
  lemma MatchedCaseIsEvaluated(s: Store, caseId: nat, allow: bool, origins: map<string, ResultKey>, item: Option<nat>)
    requires LedgerOk(s) && Ready(s, caseId, allow).None?
    requires multiset(RequirementKeys(s.requirements, s.cases[caseId].requirements))
             == multiset(TemplateKeys(s.policies[s.cases[caseId].policy].compiled.requirements))
    ensures
      var p := s.policies[s.cases[caseId].policy].compiled;
      var session := AggregateAll(s.results, s.requirements, s.tables, s.cases[caseId].requirements, p.aggregation,
                                  origins, item);
      Evaluate(p, session.outcomes, InvestigationOf(s, caseId)).Some?
  {
    var p := s.policies[s.cases[caseId].policy].compiled;
    var ids := s.cases[caseId].requirements;
    assert Known(s.requirements, ids);
    AggregateAllIsFresh(s.results, s.requirements, s.tables, ids, p.aggregation, origins, item);
    hide AggregateAll, Judge, LedgerOk, ValuesOf, Keys;
    var session := AggregateAll(s.results, s.requirements, s.tables, ids, p.aggregation, origins, item);
    SameKeys(session.outcomes, RequirementKeys(s.requirements, ids), p.requirements);
  }

  lemma {:induction false} SameKeys(outcomes: seq<Outcome>, keys: seq<string>, templates: seq<Template>)
    requires |outcomes| == |keys| && forall k :: 0 <= k < |keys| ==> outcomes[k].key == keys[k]
    requires multiset(keys) == multiset(TemplateKeys(templates))
    ensures ValuesOf(outcomes).Keys == Keys(templates)
  {
    var expected := TemplateKeys(templates);
    forall key
      ensures key in keys <==> key in expected
    {
      assert key in keys <==> key in multiset(keys);
      assert key in expected <==> key in multiset(expected);
    }
    forall key | key in ValuesOf(outcomes)
      ensures key in Keys(templates)
    {
      var i :| 0 <= i < |outcomes| && outcomes[i].key == key;
      assert key in keys;
      var k :| 0 <= k < |expected| && expected[k] == key;
      assert templates[k].key == key;
    }
    forall key | key in Keys(templates)
      ensures key in ValuesOf(outcomes)
    {
      var k :| 0 <= k < |templates| && templates[k].key == key;
      assert expected[k] in keys;
      var i :| 0 <= i < |keys| && keys[i] == key;
      assert outcomes[i].key == key;
    }
  }

  // The evaluation a finalization of the case computes.
  ghost function EvaluationOf(s: Store, caseId: nat, origins: map<string, ResultKey>, item: Option<nat>)
    : Option<Evaluation>
    requires Linked(s) && caseId in s.cases && s.cases[caseId].policy in s.policies
  {
    var p := s.policies[s.cases[caseId].policy].compiled;
    Evaluate(p, AggregateAll(s.results, s.requirements, s.tables, s.cases[caseId].requirements, p.aggregation,
                             origins, item).outcomes,
             InvestigationOf(s, caseId))
  }

  // A finalization that goes through decides what the evaluation says, and puts that decision in force.
  // Under a human decision it can only bring back an older machine decision.
  lemma FinalizationDecides(s: Store, caseId: nat, allow: bool, origins: map<string, ResultKey>, item: Option<nat>)
    requires LedgerOk(s) && Finalize(s, caseId, allow, origins, item).Committed?
    ensures
      var done := Finalize(s, caseId, allow, origins, item);
      && EvaluationOf(s, caseId, origins, item).Some?
      && done.id < |done.store.decisions|
      && done.store.decisions[done.id].verdict == EvaluationOf(s, caseId, origins, item).value.verdict
      && done.store.decisions[done.id].source == Machine
      && done.store.cases[caseId].current == Some(done.id)
      && (done.store.decisions != s.decisions ==>
            var verdict := EvaluationOf(s, caseId, origins, item).value.verdict;
            done.store.cases[caseId].status
            == if verdict == NeedsHumanReview then CaseNeedsReview else CaseDecided)
      && (s.cases[caseId].current.Some? && s.decisions[s.cases[caseId].current.value].source == Human ==>
            done.store.decisions == s.decisions)
  {
    hide AggregateAll, Judge, LastDecision, Chained, Owned, Honest, Numbered, BelongsTo;
    var done := Finalize(s, caseId, allow, origins, item);
    if done.store.decisions == s.decisions {
      assert Supported(s.tables.rows, s.decisions[done.id]);
    }
  }

  // A review takes force with the verdict its author gave: one human decision more, which supersedes the
  // one in force and rests on the evidence named or, when none is, on that of the superseded decision.
  lemma HumanDecisionTakesForce(blank: string -> bool, s: Store, op: Operation)
    requires LedgerOk(s) && (op.Reviewing? || op.Resolving?)
    requires Do(blank, s, op).Committed? && |Do(blank, s, op).store.reviews| > |s.reviews|
    ensures
      var done := Do(blank, s, op);
      && done.id == |s.reviews| && |done.store.decisions| == |s.decisions| + 1
      && s.decisions == done.store.decisions[..|s.decisions|]
      && var row := done.store.decisions[|s.decisions|];
      && row.source == Human && row.verdict == op.request.verdict
      && row.caseId in s.cases && row.supersedes.Some? && row.supersedes == s.cases[row.caseId].current
      && row.evidence == (if op.request.evidence == [] then s.decisions[row.supersedes.value].evidence
                          else set id | id in op.request.evidence)
      && done.store.cases == s.cases[row.caseId := s.cases[row.caseId].(
           current := Some(|s.decisions|),
           status := if row.verdict == NeedsHumanReview then CaseNeedsReview else CaseDecided)]
      && (op.Reviewing? ==> row.caseId == op.caseId)
      && (op.Resolving? ==> op.appeal < |s.appeals| && row.caseId == s.appeals[op.appeal].caseId)
  {
    hide Chained, PointersOk, Supported, Owned, Honest, Numbered, LastDecision, CurrentResults, FindReview;
  }
}
