/** What a finalization decides, read off the stored rows alone: the verdict and its reason from the findings
    of the requirements, what the decision links, what else changes, and when it is refused. */
module LedgerVerdicts {
  import opened Common
  import opened AgentTypes
  import opened AgentStore
  import opened Policy
  import opened EvidenceStore
  import opened Aggregation
  import opened Rules
  import opened Ledger
  import opened LedgerHistory

  // ---- the findings of a case ------------------------------------------------------------

  ghost predicate Stored(s: Store, caseId: nat) {
    Linked(s) && caseId in s.cases && s.cases[caseId].policy in s.policies
  }

  ghost function PolicyOf(s: Store, caseId: nat): CompiledPolicy
    requires Stored(s, caseId)
  {
    s.policies[s.cases[caseId].policy].compiled
  }

  ghost function EntriesIn(s: Store, id: nat): set<Entry>
    requires id in s.requirements
  {
    Entries(ItemsOf(s.tables, s.requirements[id]))
  }

  ghost function FindingIn(s: Store, caseId: nat, id: nat): Finding
    requires Stored(s, caseId) && id in s.cases[caseId].requirements
  {
    FindingOf(PolicyOf(s, caseId).aggregation, EntriesIn(s, id))
  }

  ghost function ResultIn(s: Store, caseId: nat, id: nat): ResultKey
    requires Stored(s, caseId) && id in s.cases[caseId].requirements
  {
    ResultKey(id, Input(s.requirements[id].template, PolicyOf(s, caseId).aggregation, EntriesIn(s, id)))
  }

  // The requirement of that key has that status.
  ghost predicate Says(s: Store, caseId: nat, key: string, status: Status)
    requires Stored(s, caseId)
  {
    exists id :: id in s.cases[caseId].requirements && s.requirements[id].template.key == key
                 && FindingIn(s, caseId, id).status == status
  }

  ghost predicate Unsettled(s: Store, caseId: nat, key: string)
    requires Stored(s, caseId)
  {
    Says(s, caseId, key, Unknown) || Says(s, caseId, key, Conflicted)
  }

  // ---- verdict and reason ----------------------------------------------------------------

  ghost predicate SomeExceptionOpen(s: Store, caseId: nat)
    requires Stored(s, caseId)
  {
    exists t :: t in PolicyOf(s, caseId).requirements && t.source == Exceptional && Unsettled(s, caseId, t.key)
  }

  ghost predicate SomeConflict(s: Store, caseId: nat)
    requires Stored(s, caseId)
  {
    exists key :: Says(s, caseId, key, Conflicted)
  }

  // A way to decide every open leaf that agrees with the findings and with the two reserved names.
  ghost predicate Resolves(c: string -> bool, s: Store, caseId: nat)
    requires Stored(s, caseId)
  {
    && (c("unresolved_exception") <==> SomeExceptionOpen(s, caseId))
    && (c("contradictory_evidence") <==> SomeConflict(s, caseId))
    && forall key :: key != "unresolved_exception" && key != "contradictory_evidence" ==>
         && (Says(s, caseId, key, Satisfied) ==> c(key))
         && (Says(s, caseId, key, NotSatisfied) ==> !c(key))
  }

  ghost predicate Always(e: Expression, s: Store, caseId: nat)
    requires Stored(s, caseId)
  {
    forall c :: Resolves(c, s, caseId) ==> Meaning(e, c)
  }

  ghost predicate Never(e: Expression, s: Store, caseId: nat)
    requires Stored(s, caseId)
  {
    forall c :: Resolves(c, s, caseId) ==> !Meaning(e, c)
  }

  ghost predicate Complete(s: Store, caseId: nat) {
    caseId in s.investigations ==> s.investigations[caseId] == RunCompleted
  }

  ghost predicate MandatoryOpen(s: Store, caseId: nat)
    requires Stored(s, caseId)
  {
    exists t :: t in PolicyOf(s, caseId).requirements && t.required && Unsettled(s, caseId, t.key)
  }

  ghost predicate MandatoryConflict(s: Store, caseId: nat)
    requires Stored(s, caseId)
  {
    exists t :: t in PolicyOf(s, caseId).requirements && t.required && Says(s, caseId, t.key, Conflicted)
  }

  ghost predicate Excepted(s: Store, caseId: nat)
    requires Stored(s, caseId)
  {
    exists t :: t in PolicyOf(s, caseId).requirements && t.source == Exceptional && Says(s, caseId, t.key, Satisfied)
  }

  // The identifiers of the rows that stand for some requirement of the case.
  ghost function StandingRows(s: Store, caseId: nat): (ids: set<EvidenceKey>)
    requires Stored(s, caseId)
  {
    set id, e | id in s.cases[caseId].requirements && e in EntriesIn(s, id) && e.valid :: e.id
  }

  // The investigation completed, all that is mandatory is decided, and nothing can escalate.
  ghost predicate Judgeable(s: Store, caseId: nat)
    requires Stored(s, caseId)
  {
    Complete(s, caseId) && !MandatoryOpen(s, caseId) && Never(PolicyOf(s, caseId).escalateWhen, s, caseId)
  }

  // What each reason says about the stored rows.
  ghost predicate ReasonHolds(s: Store, caseId: nat, reason: RuleReason)
    requires Stored(s, caseId)
  {
    var p := PolicyOf(s, caseId);
    var rejects, clears := Always(p.rejectWhen, s, caseId), Never(p.rejectWhen, s, caseId);
    var evidence := StandingRows(s, caseId) != {};
    match reason
    case InvestigationIncomplete => !Complete(s, caseId)
    case RuleEvidenceConflict => Complete(s, caseId) && MandatoryConflict(s, caseId)
    case RuleRequiredUnknown =>
      || (Complete(s, caseId) && MandatoryOpen(s, caseId) && !MandatoryConflict(s, caseId))
      || (Judgeable(s, caseId) && (rejects || clears) && !evidence)
    case RuleEscalationMatched => Complete(s, caseId) && !MandatoryOpen(s, caseId) && Always(p.escalateWhen, s, caseId)
    case RuleExpressionUnknown =>
      || (Complete(s, caseId) && !MandatoryOpen(s, caseId)
          && !Always(p.escalateWhen, s, caseId) && !Never(p.escalateWhen, s, caseId))
      || (Judgeable(s, caseId) && !rejects && !clears)
    case RuleRejectMatched => Judgeable(s, caseId) && evidence && rejects && !Excepted(s, caseId)
    case RuleExceptionApplied => Judgeable(s, caseId) && evidence && (rejects || clears) && Excepted(s, caseId)
    case RuleApproveNoRejectMatch => Judgeable(s, caseId) && evidence && clears && !Excepted(s, caseId)
  }

  // What a machine decides for each reason.
  ghost predicate VerdictFits(verdict: Verdict, reason: RuleReason) {
    && (verdict == Reject <==> reason == RuleRejectMatched)
    && (verdict == Approve <==> reason == RuleExceptionApplied || reason == RuleApproveNoRejectMatch)
  }

  // ---- the values of the evaluator are the findings --------------------------------------

  ghost predicate ValuesAgree(s: Store, caseId: nat, values: Values)
    requires Stored(s, caseId)
  {
    forall key, status :: Says(s, caseId, key, status) <==> key in values && values[key] == status
  }

  lemma {:induction false} ValueAt(outcomes: seq<Outcome>, i: nat)
    requires i < |outcomes| && forall j :: 0 <= j < |outcomes| && j != i ==> outcomes[j].key != outcomes[i].key
    ensures outcomes[i].key in ValuesOf(outcomes) && ValuesOf(outcomes)[outcomes[i].key] == outcomes[i].finding.status
  {
    var n := |outcomes| - 1;
    if i < n {
      ValueAt(outcomes[..n], i);
    }
  }

  // What aggregating the case says of each of its requirements.
  ghost predicate Reported(s: Store, caseId: nat, outcomes: seq<Outcome>)
    requires Stored(s, caseId)
  {
    var ids := s.cases[caseId].requirements;
    && |outcomes| == |ids|
    && forall k :: 0 <= k < |ids| ==> ReportedAt(s, caseId, outcomes[k], ids[k])
  }

  ghost predicate ReportedAt(s: Store, caseId: nat, o: Outcome, id: nat)
    requires Stored(s, caseId) && id in s.cases[caseId].requirements
  {
    && o.key == s.requirements[id].template.key
    && o.finding == FindingIn(s, caseId, id)
    && o.result == ResultIn(s, caseId, id)
    && o.evidence == ValidIds(EntriesIn(s, id))
  }

  lemma SaidIsReported(s: Store, caseId: nat, o: Outcome, id: nat)
    requires Stored(s, caseId) && id in s.cases[caseId].requirements && DistinctIds(s.tables.rows)
    requires SaysOf(o, s.tables, s.requirements[id], PolicyOf(s, caseId).aggregation)
    ensures ReportedAt(s, caseId, o, id)
  {
    hide Find, Used, ItemsOf, FindingOf, ValidIds, Entries;
    ItemsAreDistinct(s.tables, s.requirements[id]);
    FindingIsOfTheInput(PolicyOf(s, caseId).aggregation, ItemsOf(s.tables, s.requirements[id]));
  }

  lemma OutcomesAreReported(s: Store, caseId: nat, origins: map<string, ResultKey>, item: Option<nat>)
    requires LedgerOk(s) && Stored(s, caseId)
    ensures Reported(s, caseId, AggregateAll(s.results, s.requirements, s.tables, s.cases[caseId].requirements,
                                             PolicyOf(s, caseId).aggregation, origins, item).outcomes)
  {
    hide AggregateAll, ReportedAt, SaysOf, PolicyOf, Chained, PointersOk, Supported, Owned, Honest, Numbered,
      DistinctIds;
    var ids := s.cases[caseId].requirements;
    var config := PolicyOf(s, caseId).aggregation;
    AggregateAllIsFresh(s.results, s.requirements, s.tables, ids, config, origins, item);
    var outcomes := AggregateAll(s.results, s.requirements, s.tables, ids, config, origins, item).outcomes;
    forall k | 0 <= k < |ids|
      ensures ReportedAt(s, caseId, outcomes[k], ids[k])
    {
      SaidIsReported(s, caseId, outcomes[k], ids[k]);
    }
  }

  // The requirements of the case match its policy, each key once.
  ghost predicate OneEach(s: Store, caseId: nat)
    requires Stored(s, caseId)
  {
    && multiset(RequirementKeys(s.requirements, s.cases[caseId].requirements))
       == multiset(TemplateKeys(PolicyOf(s, caseId).requirements))
    && UniqueKeys(PolicyOf(s, caseId).requirements)
  }

  lemma KeysAreOnce(keys: seq<string>, templates: seq<Template>)
    requires multiset(keys) == multiset(TemplateKeys(templates)) && UniqueKeys(templates)
    ensures forall i, j :: 0 <= i < j < |keys| ==> keys[i] != keys[j]
    ensures forall key :: key in keys <==> key in Keys(templates)
  {
    var expected := TemplateKeys(templates);
    OnceEach(expected);
    AtMostOnce(keys);
    forall key
      ensures key in keys <==> key in Keys(templates)
    {
      assert key in keys <==> key in multiset(keys);
      assert key in expected <==> key in multiset(expected);
      if key in expected {
        var k :| 0 <= k < |expected| && expected[k] == key;
        assert templates[k].key == key;
      }
      if key in Keys(templates) {
        var k :| 0 <= k < |templates| && templates[k].key == key;
        assert expected[k] == key;
      }
    }
  }

  lemma {:induction false} OnceEach(keys: seq<string>)
    requires forall i, j :: 0 <= i < j < |keys| ==> keys[i] != keys[j]
    ensures forall key :: multiset(keys)[key] <= 1
  {
    if keys != [] {
      var n := |keys| - 1;
      OnceEach(keys[..n]);
      assert keys == keys[..n] + [keys[n]];
      assert keys[n] !in keys[..n];
      assert keys[n] !in multiset(keys[..n]);
    }
  }

  lemma Twice(keys: seq<string>, i: nat, j: nat)
    requires i < j < |keys| && keys[i] == keys[j]
    ensures multiset(keys)[keys[i]] >= 2
  {
    assert keys == keys[..j] + [keys[j]] + keys[j + 1..];
    assert keys[..j][i] == keys[i];
    assert keys[i] in multiset(keys[..j]);
  }

  lemma AtMostOnce(keys: seq<string>)
    requires forall key :: multiset(keys)[key] <= 1
    ensures forall i, j :: 0 <= i < j < |keys| ==> keys[i] != keys[j]
  {
    forall i, j | 0 <= i < j < |keys|
      ensures keys[i] == keys[j] ==> multiset(keys)[keys[i]] >= 2
    {
      if keys[i] == keys[j] {
        Twice(keys, i, j);
      }
    }
  }

  // The status of every requirement is the value of its key.
  lemma ValuesAtKeys(s: Store, caseId: nat, outcomes: seq<Outcome>)
    requires Stored(s, caseId) && OneEach(s, caseId) && Reported(s, caseId, outcomes)
    ensures forall k :: 0 <= k < |outcomes| ==>
              var id := s.cases[caseId].requirements[k];
              && outcomes[k].key == s.requirements[id].template.key
              && outcomes[k].key in ValuesOf(outcomes)
              && ValuesOf(outcomes)[outcomes[k].key] == FindingIn(s, caseId, id).status
    ensures ValuesOf(outcomes).Keys == Keys(PolicyOf(s, caseId).requirements)
  {
    hide FindingIn, ResultIn, ValidIds, EntriesIn, TemplateKeys, UniqueKeys, ValuesOf, Keys;
    var ids := s.cases[caseId].requirements;
    var keys := RequirementKeys(s.requirements, ids);
    KeysAreOnce(keys, PolicyOf(s, caseId).requirements);
    var values := ValuesOf(outcomes);
    assert forall k :: 0 <= k < |ids| ==> outcomes[k].key == keys[k];
    forall k | 0 <= k < |ids|
      ensures keys[k] in values && values[keys[k]] == FindingIn(s, caseId, ids[k]).status
    {
      ValueAt(outcomes, k);
    }
    forall key
      ensures key in values <==> key in keys
    {
      if key in values {
        var k :| 0 <= k < |outcomes| && outcomes[k].key == key;
        assert keys[k] == key;
      }
    }
  }

  lemma ValuesAreFindings(s: Store, caseId: nat, outcomes: seq<Outcome>)
    requires Stored(s, caseId) && OneEach(s, caseId) && Reported(s, caseId, outcomes)
    ensures ValuesAgree(s, caseId, ValuesOf(outcomes))
    ensures ValuesOf(outcomes).Keys == Keys(PolicyOf(s, caseId).requirements)
  {
    ValuesAtKeys(s, caseId, outcomes);
    hide FindingIn, ResultIn, ValidIds, EntriesIn, OneEach, Linked, ValuesOf, Keys, PolicyOf;
    var ids := s.cases[caseId].requirements;
    var values := ValuesOf(outcomes);
    forall key, status
      ensures Says(s, caseId, key, status) <==> key in values && values[key] == status
    {
      if Says(s, caseId, key, status) {
        var id :| id in ids && s.requirements[id].template.key == key && FindingIn(s, caseId, id).status == status;
        var k :| 0 <= k < |ids| && ids[k] == id;
        assert outcomes[k].key == key;
      }
      if key in values && values[key] == status {
        var k :| 0 <= k < |outcomes| && outcomes[k].key == key;
        assert ids[k] in ids;
      }
    }
  }

  // ---- the judgement is of the findings --------------------------------------------------

  lemma OpenAsStored(s: Store, caseId: nat, values: Values)
    requires Stored(s, caseId) && ValuesAgree(s, caseId, values)
    requires values.Keys == Keys(PolicyOf(s, caseId).requirements)
    ensures
      var templates := PolicyOf(s, caseId).requirements;
      && (RequiredOpen(templates, values) <==> MandatoryOpen(s, caseId))
      && (RequiredConflict(templates, values) <==> MandatoryConflict(s, caseId))
      && (ExceptionSatisfied(templates, values) <==> Excepted(s, caseId))
      && (ExceptionOpen(templates, values) <==> SomeExceptionOpen(s, caseId))
  {
    hide Says, PolicyOf;
    var templates := PolicyOf(s, caseId).requirements;
    forall i | 0 <= i < |templates|
      ensures templates[i].key in values
      ensures forall status :: Says(s, caseId, templates[i].key, status) <==> Value(templates, values, i) == status
      ensures Unsettled(s, caseId, templates[i].key) <==> Open(Value(templates, values, i))
    {
      assert templates[i].key in Keys(templates);
    }
    hide Keys;
    forall t | t in templates
      ensures exists i :: 0 <= i < |templates| && templates[i] == t
    {
    }
  }

  lemma LeafAsStored(s: Store, caseId: nat, values: Values, key: string)
    requires Stored(s, caseId) && ValuesAgree(s, caseId, values)
    requires values.Keys == Keys(PolicyOf(s, caseId).requirements)
    ensures
      var v := LeafValue(key, values, SentinelsOf(PolicyOf(s, caseId).requirements, values));
      && (v == True <==>
            if key == "unresolved_exception" then SomeExceptionOpen(s, caseId)
            else if key == "contradictory_evidence" then SomeConflict(s, caseId)
            else Says(s, caseId, key, Satisfied))
      && (v == False <==>
            if key == "unresolved_exception" then !SomeExceptionOpen(s, caseId)
            else if key == "contradictory_evidence" then !SomeConflict(s, caseId)
            else Says(s, caseId, key, NotSatisfied))
  {
    hide Says, PolicyOf, Keys, ExceptionOpen, RequiredOpen, RequiredConflict, ExceptionSatisfied, Unsettled;
    OpenAsStored(s, caseId, values);
    assert forall key :: Says(s, caseId, key, Conflicted) <==> key in values && values[key] == Conflicted;
    assert UNRESOLVED_EXCEPTION != CONTRADICTORY_EVIDENCE;
  }

  lemma ResolvesCompletes(s: Store, caseId: nat, values: Values, c: string -> bool)
    requires Stored(s, caseId) && ValuesAgree(s, caseId, values)
    requires values.Keys == Keys(PolicyOf(s, caseId).requirements)
    ensures Completes(c, values, SentinelsOf(PolicyOf(s, caseId).requirements, values)) <==> Resolves(c, s, caseId)
  {
    hide Says, PolicyOf, Keys, Unsettled, SentinelsOf, LeafValue, ValuesAgree, SomeExceptionOpen, SomeConflict;
    var sentinels := SentinelsOf(PolicyOf(s, caseId).requirements, values);
    assert "unresolved_exception"[0] != "contradictory_evidence"[0];
    forall key
      ensures LeafValue(key, values, sentinels) == True <==>
        if key == "unresolved_exception" then SomeExceptionOpen(s, caseId)
        else if key == "contradictory_evidence" then SomeConflict(s, caseId)
        else Says(s, caseId, key, Satisfied)
      ensures LeafValue(key, values, sentinels) == False <==>
        if key == "unresolved_exception" then !SomeExceptionOpen(s, caseId)
        else if key == "contradictory_evidence" then !SomeConflict(s, caseId)
        else Says(s, caseId, key, NotSatisfied)
    {
      LeafAsStored(s, caseId, values, key);
    }
  }

  lemma ExpressionAsStored(s: Store, caseId: nat, values: Values, e: Expression)
    requires Stored(s, caseId) && ValuesAgree(s, caseId, values)
    requires values.Keys == Keys(PolicyOf(s, caseId).requirements)
    ensures
      var v := EvaluateExpression(e, values, SentinelsOf(PolicyOf(s, caseId).requirements, values));
      (v == True <==> Always(e, s, caseId)) && (v == False <==> Never(e, s, caseId))
  {
    hide EvaluateExpression, Meaning, Completes, SentinelsOf, Resolves, PolicyOf, ValuesAgree, Keys;
    var sentinels := SentinelsOf(PolicyOf(s, caseId).requirements, values);
    EvaluationIsExact(e, values, sentinels);
    forall c: string -> bool
      ensures Completes(c, values, sentinels) <==> Resolves(c, s, caseId)
    {
      ResolvesCompletes(s, caseId, values, c);
    }
  }

  lemma JudgementHolds(s: Store, caseId: nat, values: Values)
    requires Stored(s, caseId) && ValuesAgree(s, caseId, values)
    requires values.Keys == Keys(PolicyOf(s, caseId).requirements)
    ensures
      var judged := Judge(PolicyOf(s, caseId), values, InvestigationOf(s, caseId), StandingRows(s, caseId) != {});
      ReasonHolds(s, caseId, judged.reason) && VerdictFits(judged.verdict, judged.reason)
  {
    hide EvaluateExpression, Always, Never, SentinelsOf, PolicyOf, ValuesAgree, Keys, MandatoryOpen, MandatoryConflict,
      Excepted, RequiredOpen, RequiredConflict, ExceptionSatisfied, StandingRows;
    var p := PolicyOf(s, caseId);
    OpenAsStored(s, caseId, values);
    ExpressionAsStored(s, caseId, values, p.escalateWhen);
    ExpressionAsStored(s, caseId, values, p.rejectWhen);
  }

  // The values an evaluation of the case works on.
  lemma ValuesOfCase(s: Store, caseId: nat) returns (values: Values)
    requires Stored(s, caseId) && OneEach(s, caseId) && LedgerOk(s)
    ensures ValuesAgree(s, caseId, values) && values.Keys == Keys(PolicyOf(s, caseId).requirements)
  {
    hide LedgerOk, OneEach, Reported, ValuesAgree, Keys, AggregateAll, ValuesOf;
    OutcomesAreReported(s, caseId, map[], None);
    var outcomes := AggregateAll(s.results, s.requirements, s.tables, s.cases[caseId].requirements,
                                 PolicyOf(s, caseId).aggregation, map[], None).outcomes;
    ValuesAreFindings(s, caseId, outcomes);
    values := ValuesOf(outcomes);
  }

  // Some resolution of the open leaves exists, so no expression is both always and never true.
  lemma NotBoth(s: Store, caseId: nat, e: Expression)
    requires Stored(s, caseId) && OneEach(s, caseId) && LedgerOk(s)
    ensures !(Always(e, s, caseId) && Never(e, s, caseId))
  {
    hide LedgerOk, OneEach, Always, Never, SentinelsOf, EvaluateExpression, ValuesAgree, Keys, PolicyOf, Linked;
    var values := ValuesOfCase(s, caseId);
    ExpressionAsStored(s, caseId, values, e);
  }

  // One reason holds of the stored rows at most, so the reason given is the reason there is.
  lemma OneReasonHolds(s: Store, caseId: nat, a: RuleReason, b: RuleReason)
    requires LedgerOk(s) && Stored(s, caseId) && OneEach(s, caseId)
    requires ReasonHolds(s, caseId, a) && ReasonHolds(s, caseId, b)
    ensures a == b
  {
    hide Always, Never, PolicyOf, Says, Excepted, LedgerOk, OneEach, StandingRows, Linked;
    var p := PolicyOf(s, caseId);
    NotBoth(s, caseId, p.escalateWhen);
    NotBoth(s, caseId, p.rejectWhen);
  }

  // ---- what decisions record -------------------------------------------------------------

  // A machine decision links the results its input names, and the rows standing in them.
  ghost predicate Recorded(row: DecisionRow) {
    row.basis.Evaluated? ==>
      && row.results == (set r | r in row.basis.input.results :: r.0)
      && row.evidence == (set r, e | r in row.basis.input.results && e in r.0.input.entries && e.valid :: e.id)
  }

  ghost predicate AllRecorded(s: Store) {
    forall i :: 0 <= i < |s.decisions| ==> Recorded(s.decisions[i])
  }

  ghost function NamedResults(s: Store, caseId: nat): set<(ResultKey, Status)>
    requires Stored(s, caseId)
  {
    set id | id in s.cases[caseId].requirements ::
      (ResultIn(s, caseId, id), FindingIn(s, caseId, id).status)
  }

  lemma EvaluationAsStored(s: Store, caseId: nat, origins: map<string, ResultKey>, item: Option<nat>)
    requires LedgerOk(s) && Stored(s, caseId) && OneEach(s, caseId)
    requires EvaluationOf(s, caseId, origins, item).Some?
    ensures
      var e := EvaluationOf(s, caseId, origins, item).value;
      && ReasonHolds(s, caseId, e.reason) && VerdictFits(e.verdict, e.reason)
      && e.evidence == StandingRows(s, caseId)
      && e.results == (set id | id in s.cases[caseId].requirements :: ResultIn(s, caseId, id))
      && e.input == EvaluationInput(PolicyOf(s, caseId), e.verdict, e.reason, NamedResults(s, caseId))
  {
    hide AggregateAll, Judge, ReasonHolds, VerdictFits, LedgerOk, OneEach, ValuesOf, Reported, ValuesAgree,
      StandingRows, EvidenceOf, NamedResults, ResultIn, Keys;
    OutcomesAreReported(s, caseId, origins, item);
    var outcomes := AggregateAll(s.results, s.requirements, s.tables, s.cases[caseId].requirements,
                                 PolicyOf(s, caseId).aggregation, origins, item).outcomes;
    ValuesAreFindings(s, caseId, outcomes);
    LinksAsStored(s, caseId, outcomes);
    JudgementHolds(s, caseId, ValuesOf(outcomes));
  }

  // Outcomes and requirements pair up.
  lemma PairedUp(s: Store, caseId: nat, outcomes: seq<Outcome>)
    requires Stored(s, caseId) && Reported(s, caseId, outcomes)
    ensures forall o :: o in outcomes ==>
      exists id :: id in s.cases[caseId].requirements && ReportedAt(s, caseId, o, id)
    ensures forall id :: id in s.cases[caseId].requirements ==>
      exists o :: o in outcomes && ReportedAt(s, caseId, o, id)
  {
    hide ReportedAt, Linked;
    var ids := s.cases[caseId].requirements;
    forall o | o in outcomes
      ensures exists id :: id in ids && ReportedAt(s, caseId, o, id)
    {
      var k :| 0 <= k < |outcomes| && outcomes[k] == o;
      assert ids[k] in ids;
    }
    forall id | id in ids
      ensures exists o :: o in outcomes && ReportedAt(s, caseId, o, id)
    {
      var k :| 0 <= k < |ids| && ids[k] == id;
      assert outcomes[k] in outcomes;
    }
  }

  lemma UsedIsStanding(s: Store, caseId: nat, o: Outcome, id: nat)
    requires Stored(s, caseId) && id in s.cases[caseId].requirements && ReportedAt(s, caseId, o, id)
    ensures forall e :: e in o.evidence ==> e in StandingRows(s, caseId)
    ensures forall entry :: entry in EntriesIn(s, id) && entry.valid ==> entry.id in o.evidence
  {
    hide FindingIn, ResultIn, EntriesIn;
  }

  lemma EvidenceAsStored(s: Store, caseId: nat, outcomes: seq<Outcome>)
    requires Stored(s, caseId) && Reported(s, caseId, outcomes)
    ensures EvidenceOf(outcomes) == StandingRows(s, caseId)
  {
    hide ReportedAt, EntriesIn, Reported;
    PairedUp(s, caseId, outcomes);
    forall o | o in outcomes
      ensures forall e :: e in o.evidence ==> e in StandingRows(s, caseId)
    {
      var id :| id in s.cases[caseId].requirements && ReportedAt(s, caseId, o, id);
      UsedIsStanding(s, caseId, o, id);
    }
    forall id | id in s.cases[caseId].requirements
      ensures forall entry :: entry in EntriesIn(s, id) && entry.valid ==> entry.id in EvidenceOf(outcomes)
    {
      var o :| o in outcomes && ReportedAt(s, caseId, o, id);
      UsedIsStanding(s, caseId, o, id);
    }
  }

  lemma LinksAsStored(s: Store, caseId: nat, outcomes: seq<Outcome>)
    requires Stored(s, caseId) && Reported(s, caseId, outcomes)
    ensures EvidenceOf(outcomes) == StandingRows(s, caseId)
    ensures (set o | o in outcomes :: o.result)
      == set id | id in s.cases[caseId].requirements :: ResultIn(s, caseId, id)
    ensures (set o | o in outcomes :: (o.result, o.finding.status)) == NamedResults(s, caseId)
  {
    hide FindingIn, ResultIn, EntriesIn, Linked, Reported, EvidenceOf, StandingRows, ValidIds;
    PairedUp(s, caseId, outcomes);
    EvidenceAsStored(s, caseId, outcomes);
  }

  lemma NamedIsRecorded(s: Store, caseId: nat)
    requires Stored(s, caseId)
    ensures (set r | r in NamedResults(s, caseId) :: r.0)
            == set id | id in s.cases[caseId].requirements :: ResultIn(s, caseId, id)
    ensures (set r, e | r in NamedResults(s, caseId) && e in r.0.input.entries && e.valid :: e.id)
            == StandingRows(s, caseId)
  {
    hide FindingIn, EntriesIn, PolicyOf;
    var named := NamedResults(s, caseId);
    forall id | id in s.cases[caseId].requirements
      ensures exists r :: r in named && r.0 == ResultIn(s, caseId, id)
    {
      assert (ResultIn(s, caseId, id), FindingIn(s, caseId, id).status) in named;
    }
  }

  lemma FinalizeRecords(s: Store, caseId: nat, allow: bool, origins: map<string, ResultKey>, item: Option<nat>)
    requires LedgerOk(s) && AllRecorded(s) && Finalize(s, caseId, allow, origins, item).Committed?
    ensures AllRecorded(Finalize(s, caseId, allow, origins, item).store)
  {
    hide AggregateAll, Judge, Recorded, EvidenceOf, StandingRows, NamedResults, ResultIn, Reported, FindMachine,
      LastDecision, RequirementKeys, TemplateKeys, Settle, ValuesOf, Keys, Chained, Supported, Owned, Honest, Numbered;
    var after := Finalize(s, caseId, allow, origins, item).store;
    if |after.decisions| > |s.decisions| {
      OutcomesAreReported(s, caseId, origins, item);
      LinksAsStored(s, caseId, AggregateAll(s.results, s.requirements, s.tables, s.cases[caseId].requirements,
                                            PolicyOf(s, caseId).aggregation, origins, item).outcomes);
      RowIsRecorded(s, caseId, after.decisions[|s.decisions|]);
    }
  }

  lemma RowIsRecorded(s: Store, caseId: nat, row: DecisionRow)
    requires Stored(s, caseId) && row.basis.Evaluated? && row.basis.input.results == NamedResults(s, caseId)
    requires row.results == set id | id in s.cases[caseId].requirements :: ResultIn(s, caseId, id)
    requires row.evidence == StandingRows(s, caseId)
    ensures Recorded(row)
  {
    hide StandingRows, NamedResults, ResultIn;
    NamedIsRecorded(s, caseId);
  }

  lemma StepRecords(blank: string -> bool, s: Store, op: Operation)
    requires LedgerOk(s) && AllRecorded(s)
    ensures AllRecorded(Step(blank, s, op))
  {
    hide Chained, PointersOk, Supported, Owned, Honest, Numbered, Finalize, FindReview, FindAppeal, LastDecision,
      CurrentResults, Selected, BelongsTo;
    if op.Finalizing? && Do(blank, s, op).Committed? {
      FinalizeRecords(s, op.caseId, op.allow, op.origins, op.item);
    }
  }

  lemma {:induction false} RunRecords(blank: string -> bool, s: Store, ops: seq<Operation>)
    requires Blank(s)
    ensures LedgerOk(Run(blank, s, ops)) && AllRecorded(Run(blank, s, ops))
    decreases |ops|
  {
    BlankIsOk(s);
    RunKeeps(blank, s, ops);
    if ops != [] {
      RunRecords(blank, s, ops[..|ops| - 1]);
      hide LedgerOk, Step, AllRecorded;
      StepRecords(blank, Run(blank, s, ops[..|ops| - 1]), ops[|ops| - 1]);
    }
  }

  // ---- the decision of a finalization ----------------------------------------------------

  // After any history, the machine decision a finalization puts in force, newly taken or found again, is
  // that of the rows as they stand: its reason holds, its verdict is the one for that reason, and it links
  // the result of every requirement and every standing row of the case.
  lemma DecisionIsOfTheStore(blank: string -> bool, start: Store, ops: seq<Operation>, caseId: nat, allow: bool,
                             origins: map<string, ResultKey>, item: Option<nat>)
    requires Blank(start)
    requires
      var s := Run(blank, start, ops);
      && LedgerOk(s) && Finalize(s, caseId, allow, origins, item).Committed?
      && Stored(s, caseId) && UniqueKeys(PolicyOf(s, caseId).requirements)
    ensures
      var s := Run(blank, start, ops);
      var done := Finalize(s, caseId, allow, origins, item);
      && done.store.cases[caseId].current == Some(done.id) && done.id < |done.store.decisions|
      && var row := done.store.decisions[done.id];
      && row.caseId == caseId && row.source == Machine && row.basis.Evaluated?
      && row.basis.input.policy == PolicyOf(s, caseId)
      && ReasonHolds(s, caseId, row.basis.input.reason)
      && (row.verdict == Reject <==> row.basis.input.reason == RuleRejectMatched)
      && (row.verdict == Approve <==>
            row.basis.input.reason == RuleExceptionApplied || row.basis.input.reason == RuleApproveNoRejectMatch)
      && row.results == (set id | id in s.cases[caseId].requirements :: ResultIn(s, caseId, id))
      && row.evidence == StandingRows(s, caseId)
  {
    var s := Run(blank, start, ops);
    RunRecords(blank, start, ops);
    DecisionAsStored(s, caseId, allow, origins, item);
  }

  lemma DecisionAsStored(s: Store, caseId: nat, allow: bool, origins: map<string, ResultKey>, item: Option<nat>)
    requires LedgerOk(s) && AllRecorded(s) && Finalize(s, caseId, allow, origins, item).Committed?
    requires Stored(s, caseId) && UniqueKeys(PolicyOf(s, caseId).requirements)
    ensures
      var done := Finalize(s, caseId, allow, origins, item);
      && caseId in done.store.cases
      && done.store.cases[caseId].current == Some(done.id) && done.id < |done.store.decisions|
      && var row := done.store.decisions[done.id];
      && row.caseId == caseId && row.source == Machine && row.basis.Evaluated?
      && row.basis.input.policy == PolicyOf(s, caseId)
      && ReasonHolds(s, caseId, row.basis.input.reason) && VerdictFits(row.verdict, row.basis.input.reason)
      && row.results == (set id | id in s.cases[caseId].requirements :: ResultIn(s, caseId, id))
      && row.evidence == StandingRows(s, caseId)
  {
    hide AggregateAll, Evaluate, LastDecision, RequirementKeys, TemplateKeys, Chained, Owned, Honest, Numbered,
      BelongsTo, ReasonHolds, VerdictFits, StandingRows, NamedResults, ResultIn, UniqueKeys;
    var done := Finalize(s, caseId, allow, origins, item);
    EvaluationAsStored(s, caseId, origins, item);
    NamedIsRecorded(s, caseId);
    if done.store.decisions == s.decisions {
      assert Supported(s.tables.rows, s.decisions[done.id]) && Recorded(s.decisions[done.id]);
    }
  }

  // ---- what else a finalization writes ---------------------------------------------------

  // A requirement row that points to its own fresh finding.
  ghost predicate PointsToFinding(s: Store, caseId: nat, id: nat, q: RequirementRow)
    requires Stored(s, caseId) && id in s.cases[caseId].requirements
  {
    q == s.requirements[id].(status := Some(FindingIn(s, caseId, id).status), current := Some(ResultIn(s, caseId, id)))
  }

  // After aggregating, the listed requirements point to their findings and the others are as they were.
  ghost predicate Repointed(s: Store, caseId: nat, ids: seq<nat>, after: map<nat, RequirementRow>)
    requires Stored(s, caseId) && forall id :: id in ids ==> id in s.cases[caseId].requirements
  {
    && after.Keys == s.requirements.Keys
    && forall id :: id in after ==>
         if id in ids then PointsToFinding(s, caseId, id, after[id]) else after[id] == s.requirements[id]
  }

  // Rows are only added: each is the fresh result of a listed requirement and says who asked for it.
  ghost predicate AddedFor(s: Store, caseId: nat, ids: seq<nat>, after: seq<ResultRow>, origins: map<string, ResultKey>,
                           item: Option<nat>)
    requires Stored(s, caseId) && forall id :: id in ids ==> id in s.cases[caseId].requirements
  {
    && s.results <= after
    && forall k :: |s.results| <= k < |after| ==>
         && after[k].id.requirementId in ids
         && var q := s.requirements[after[k].id.requirementId];
         && after[k].id == ResultIn(s, caseId, q.id) && after[k].finding == FindingIn(s, caseId, q.id)
         && after[k].replayItem == item
         && after[k].origin == if q.template.key in origins then Some(origins[q.template.key]) else None
  }

  lemma AggregateAppends(results: seq<ResultRow>, t: Tables, q: RequirementRow, config: AggregationConfig,
                         origin: Option<ResultKey>, item: Option<nat>)
    ensures
      var a := Aggregate(results, t, q, config, origin, item);
      && (a.results == results
          || (a.results == results + [a.row] && a.row.origin == origin && a.row.replayItem == item))
      && a.row.id.requirementId == q.id
  {
    hide ItemsOf, Find, Used, LastSequence;
  }

  lemma {:induction false} AllRepointed(s: Store, caseId: nat, ids: seq<nat>, origins: map<string, ResultKey>,
                                        item: Option<nat>)
    requires LedgerOk(s) && Stored(s, caseId) && forall id :: id in ids ==> id in s.cases[caseId].requirements
    ensures
      var config := PolicyOf(s, caseId).aggregation;
      && Known(s.requirements, ids)
      && var session := AggregateAll(s.results, s.requirements, s.tables, ids, config, origins, item);
      && Repointed(s, caseId, ids, session.requirements) && AddedFor(s, caseId, ids, session.results, origins, item)
      && Honest(session.results) && Numbered(session.results)
  {
    var config := PolicyOf(s, caseId).aggregation;
    AggregateAllIsFresh(s.results, s.requirements, s.tables, ids, config, origins, item);
    if ids != [] {
      var n := |ids| - 1;
      AllRepointed(s, caseId, ids[..n], origins, item);
      var before := AggregateAll(s.results, s.requirements, s.tables, ids[..n], config, origins, item);
      OneRepointed(s, caseId, ids, before, origins, item);
    }
  }

  lemma OneRepointed(s: Store, caseId: nat, ids: seq<nat>, before: Session, origins: map<string, ResultKey>,
                     item: Option<nat>)
    requires ids != [] && LedgerOk(s) && Stored(s, caseId)
    requires forall id :: id in ids ==> id in s.cases[caseId].requirements
    requires Repointed(s, caseId, ids[..|ids| - 1], before.requirements)
    requires AddedFor(s, caseId, ids[..|ids| - 1], before.results, origins, item)
    requires Honest(before.results) && Numbered(before.results)
    ensures
      var id := ids[|ids| - 1];
      && id in before.requirements
      && var after := AggregateNext(before, s.tables, id, PolicyOf(s, caseId).aggregation, origins, item);
      && Repointed(s, caseId, ids, after.requirements) && AddedFor(s, caseId, ids, after.results, origins, item)
  {
    hide Find, Used, ItemsOf, Entries, FindingOf, ValidIds, LastSequence, Honest, Numbered, Aggregate, OutcomeOf,
      Chained, PointersOk, Supported, Owned, PolicyOf, FindingIn, ResultIn;
    var n := |ids| - 1;
    var id := ids[n];
    var config := PolicyOf(s, caseId).aggregation;
    var q := before.requirements[id];
    var origin := OriginOf(origins, q.template.key);
    AggregateAppends(before.results, s.tables, q, config, origin, item);
    AggregatedRow(s, caseId, id, q, before.results, origin, item);
    assert forall k :: k in ids <==> k == id || k in ids[..n];
  }

  lemma AggregatedRow(s: Store, caseId: nat, id: nat, q: RequirementRow, results: seq<ResultRow>,
                      origin: Option<ResultKey>, item: Option<nat>)
    requires LedgerOk(s) && Stored(s, caseId) && id in s.cases[caseId].requirements
    requires Honest(results) && Numbered(results) && Same(s.requirements[id], q)
    ensures
      var row := Aggregate(results, s.tables, q, PolicyOf(s, caseId).aggregation, origin, item).row;
      row.id == ResultIn(s, caseId, id) && row.finding == FindingIn(s, caseId, id)
  {
    hide Find, Used, FindingOf, ValidIds, LastSequence, Numbered, Chained, PointersOk, Supported, Owned;
    var config := PolicyOf(s, caseId).aggregation;
    AggregateKeeps(results, Call(s.tables, q, config, origin, item));
  }

  // A finalization points every requirement of the case to its fresh finding, adds the results that were not
  // yet stored, puts its decision in force and changes nothing else. A decision taken anew supersedes the one
  // in force, which no human took, and settles the case; one found again leaves the case's status as it was.
  lemma FinalizationWritesExactly(s: Store, caseId: nat, allow: bool, origins: map<string, ResultKey>,
                                  item: Option<nat>)
    requires LedgerOk(s) && Finalize(s, caseId, allow, origins, item).Committed?
    ensures
      var done := Finalize(s, caseId, allow, origins, item);
      var after := done.store;
      && Stored(s, caseId) && caseId in after.cases && done.id < |after.decisions|
      && var c := s.cases[caseId];
      && var row := after.decisions[done.id];
      && Repointed(s, caseId, c.requirements, after.requirements)
      && AddedFor(s, caseId, c.requirements, after.results, origins, item)
      && after == s.(requirements := after.requirements, results := after.results, decisions := after.decisions,
                     cases := s.cases[caseId := c.(current := Some(done.id), status := after.cases[caseId].status)])
      && (if done.id == |s.decisions| then
            && after.decisions == s.decisions + [row]
            && row.sequence == |OfCase(s.decisions, caseId)| + 1
            && row.supersedes == c.current && row.replayItem == item
            && (c.current.Some? ==> s.decisions[c.current.value].source != Human)
            && after.cases[caseId].status == (if row.verdict == NeedsHumanReview then CaseNeedsReview else CaseDecided)
          else
            after.decisions == s.decisions && after.cases[caseId].status == c.status)
  {
    hide AggregateAll, Evaluate, LastDecision, RequirementKeys, TemplateKeys, Supported, Owned, Honest, Numbered,
      Repointed, AddedFor, OfCase, NumberedFor, LinkOk;
    AllRepointed(s, caseId, s.cases[caseId].requirements, origins, item);
    assert NumberedFor(s.decisions, caseId);
    LastDecisionIsCount(s.decisions, caseId);
  }

  // ---- when a finalization is refused ----------------------------------------------------

  // A machine decision on the rows as they stand is in the ledger.
  ghost predicate AlreadyDecided(s: Store, caseId: nat)
    requires Stored(s, caseId)
  {
    exists i :: 0 <= i < |s.decisions| && DecidesAsStored(s, caseId, s.decisions[i])
  }

  ghost predicate DecidesAsStored(s: Store, caseId: nat, row: DecisionRow)
    requires Stored(s, caseId)
  {
    && row.caseId == caseId && row.source == Machine && row.basis.Evaluated?
    && row.basis.input.policy == PolicyOf(s, caseId)
    && row.basis.input.results == NamedResults(s, caseId)
    && ReasonHolds(s, caseId, row.basis.input.reason)
    && VerdictFits(row.basis.input.verdict, row.basis.input.reason)
  }

  ghost predicate Investigated(s: Store, caseId: nat, allow: bool) {
    if caseId in s.investigations then
      s.investigations[caseId] == RunCompleted || s.investigations[caseId] == RunNeedsReview
    else allow
  }

  // The error of a finalization, in the order the conditions are met; it commits when there is none.
  lemma FinalizationIsRefusedExactly(s: Store, caseId: nat, allow: bool, origins: map<string, ResultKey>,
                                     item: Option<nat>)
    requires LedgerOk(s)
    requires Stored(s, caseId) ==> UniqueKeys(PolicyOf(s, caseId).requirements)
    ensures
      var done := Finalize(s, caseId, allow, origins, item);
      if caseId !in s.cases then done == RolledBack(CaseNotFound)
      else if s.cases[caseId].policy !in s.policies then done == RolledBack(PolicyNotFound)
      else if !s.policies[s.cases[caseId].policy].enabled then done == RolledBack(PolicyDisabled)
      else if !Investigated(s, caseId, allow) then done == RolledBack(CaseNotReadyForEvaluation)
      else
        var c := s.cases[caseId];
        var human := c.current.Some? && s.decisions[c.current.value].source == Human;
        if OneEach(s, caseId) && (human ==> AlreadyDecided(s, caseId)) then done.Committed?
        else done == RolledBack(DecisionInputInvalid)
  {
    hide AggregateAll, Evaluate, LastDecision, RequirementKeys, TemplateKeys, Chained, Supported, Owned, Honest,
      Numbered, AlreadyDecided, UniqueKeys, FindMachine;
    if Stored(s, caseId) && Ready(s, caseId, allow).None? && OneEach(s, caseId) {
      MatchedCaseIsEvaluated(s, caseId, allow, origins, item);
      FoundAsStored(s, caseId, origins, item);
    }
  }

  lemma FoundAsStored(s: Store, caseId: nat, origins: map<string, ResultKey>, item: Option<nat>)
    requires LedgerOk(s) && Stored(s, caseId) && OneEach(s, caseId)
    requires EvaluationOf(s, caseId, origins, item).Some?
    ensures FindMachine(s.decisions, caseId, EvaluationOf(s, caseId, origins, item).value.input).Some?
            <==> AlreadyDecided(s, caseId)
  {
    hide AggregateAll, Evaluate, Chained, PointersOk, Supported, Owned, Honest, Numbered, ReasonHolds, VerdictFits,
      NamedResults, ResultIn, StandingRows, OneEach, EvaluationOf, PolicyOf;
    EvaluationAsStored(s, caseId, origins, item);
    var input := EvaluationOf(s, caseId, origins, item).value.input;
    FoundWhenThere(s.decisions, caseId, input);
    forall i | 0 <= i < |s.decisions|
      ensures DecidesAsStored(s, caseId, s.decisions[i]) <==>
        s.decisions[i].caseId == caseId && s.decisions[i].source == Machine && s.decisions[i].basis == Evaluated(input)
    {
      if DecidesAsStored(s, caseId, s.decisions[i]) {
        OneReasonHolds(s, caseId, s.decisions[i].basis.input.reason, input.reason);
        OneVerdictFits(s.decisions[i].basis.input.verdict, input.verdict, input.reason);
      }
    }
  }

  lemma OneVerdictFits(a: Verdict, b: Verdict, reason: RuleReason)
    requires VerdictFits(a, reason) && VerdictFits(b, reason)
    ensures a == b
  {
  }

  lemma {:induction false} FoundWhenThere(decisions: seq<DecisionRow>, caseId: nat, input: EvaluationInput)
    ensures FindMachine(decisions, caseId, input).Some? <==>
              exists i :: 0 <= i < |decisions| && decisions[i].caseId == caseId && decisions[i].source == Machine
                          && decisions[i].basis == Evaluated(input)
  {
    if decisions != [] {
      FoundWhenThere(decisions[..|decisions| - 1], caseId, input);
    }
  }
}

