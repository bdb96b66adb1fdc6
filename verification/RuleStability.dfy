/** Stability of verdicts: which of them survive when open optional requirements are decided later. */
module RuleStability {
  import opened AgentTypes
  import opened Policy
  import opened Aggregation
  import opened AgentStore
  import opened Rules

  // ---- resolving what is open ------------------------------------------------------------

  // Some open optional requirements have been decided one way or the other; nothing else moved.
  ghost predicate Resolves(templates: seq<Template>, values: Values, values': Values)
    requires values.Keys == Keys(templates)
  {
    && values'.Keys == values.Keys
    && forall i :: 0 <= i < |templates| && Value(templates, values', i) != Value(templates, values, i) ==>
         && !templates[i].required
         && Open(Value(templates, values, i))
         && !Open(Value(templates, values', i))
  }

  // Settling a leaf, or lowering a sentinel, keeps what was already decided.
  lemma {:induction false} DecidedStaysDecided(e: Expression, values: Values, sentinels: Sentinels,
                                               values': Values, sentinels': Sentinels)
    requires forall key :: Mentions(e, key) && LeafValue(key, values, sentinels) == False ==>
      LeafValue(key, values', sentinels') == False
    ensures EvaluateExpression(e, values, sentinels) == False ==> EvaluateExpression(e, values', sentinels') == False
    ensures (forall key :: Mentions(e, key) && LeafValue(key, values, sentinels) == True ==>
               LeafValue(key, values', sentinels') == True)
            && EvaluateExpression(e, values, sentinels) == True
            ==> EvaluateExpression(e, values', sentinels') == True
  {
    ExtremesDecide(e, values, sentinels);
    ExtremesDecide(e, values', sentinels');
    if Meaning(e, Highest(values', sentinels')) {
      MeaningIsMonotone(e, Highest(values', sentinels'), Highest(values, sentinels));
    }
    if Meaning(e, Lowest(values, sentinels))
       && forall key :: Mentions(e, key) && LeafValue(key, values, sentinels) == True ==>
            LeafValue(key, values', sentinels') == True {
      MeaningIsMonotone(e, Lowest(values, sentinels), Lowest(values', sentinels'));
    }
  }

  lemma KeyResolves(templates: seq<Template>, values: Values, values': Values)
    requires values.Keys == Keys(templates) && Resolves(templates, values, values')
    ensures forall key :: key in values ==>
      values'[key] == values[key] || (Open(values[key]) && !Open(values'[key]))
  {
    forall key | key in values
      ensures values'[key] == values[key] || (Open(values[key]) && !Open(values'[key]))
    {
      var i :| 0 <= i < |templates| && templates[i].key == key;
      assert Value(templates, values, i) == values[key] && Value(templates, values', i) == values'[key];
    }
  }

  // What resolution does to one leaf.
  lemma ResolvedLeaf(templates: seq<Template>, values: Values, values': Values, key: string)
    requires values.Keys == Keys(templates) && Resolves(templates, values, values')
    requires ExceptionsRequired(templates) && !RequiredOpen(templates, values)
    ensures
      var before := LeafValue(key, values, SentinelsOf(templates, values));
      var after := LeafValue(key, values', SentinelsOf(templates, values'));
      && (before == False ==> after == False)
      && (key != CONTRADICTORY_EVIDENCE && before == True ==> after == True)
  {
    assert !ExceptionOpen(templates, values);
    assert !ExceptionOpen(templates, values') by {
      forall i | 0 <= i < |templates| && templates[i].source == Exceptional
        ensures !Open(Value(templates, values', i))
      {
        assert templates[i].required;
      }
    }
    KeyResolves(templates, values, values');
  }

  // Conclusive verdicts are stable: with the same evidence, deciding open optional requirements either
  // way gives the same verdict for every policy whose rejection does not lean on the
  // contradictory-evidence sentinel.
  lemma ConclusiveVerdictsAreStable(p: CompiledPolicy, values: Values, values': Values,
                                    investigation: RunStatus, anyEvidence: bool)
    requires WellFormed(p) && values.Keys == Keys(p.requirements)
    requires Resolves(p.requirements, values, values')
    requires !Mentions(p.rejectWhen, CONTRADICTORY_EVIDENCE)
    requires Judge(p, values, investigation, anyEvidence).verdict != NeedsHumanReview
    ensures Judge(p, values', investigation, anyEvidence) == Judge(p, values, investigation, anyEvidence)
  {
    var templates := p.requirements;
    var sentinels, sentinels' := SentinelsOf(templates, values), SentinelsOf(templates, values');
    forall key
      ensures LeafValue(key, values, sentinels) == False ==> LeafValue(key, values', sentinels') == False
      ensures key != CONTRADICTORY_EVIDENCE && LeafValue(key, values, sentinels) == True ==>
                LeafValue(key, values', sentinels') == True
    {
      ResolvedLeaf(templates, values, values', key);
    }
    DecidedStaysDecided(p.escalateWhen, values, sentinels, values', sentinels');
    DecidedStaysDecided(p.rejectWhen, values, sentinels, values', sentinels');
    MandatoryStay(templates, values, values');
    hide EvaluateExpression, SentinelsOf, LeafValue;
  }

  // Without that proviso a rejection is stable exactly when it also stands with the sentinel lowered.
  lemma RejectionIsStableExactly(p: CompiledPolicy, values: Values, investigation: RunStatus, anyEvidence: bool)
    requires WellFormed(p) && values.Keys == Keys(p.requirements)
    requires Judge(p, values, investigation, anyEvidence).verdict == Reject
    ensures
      (forall values': Values :: Resolves(p.requirements, values, values') ==>
         Judge(p, values', investigation, anyEvidence).verdict == Reject)
      <==> EvaluateExpression(p.rejectWhen, values, Lowered(p.requirements, values)) == True
  {
    hide WellFormed, SentinelsOf, Lowered, EvaluateExpression, RequiredConflict, ExceptionSatisfied;
    if EvaluateExpression(p.rejectWhen, values, Lowered(p.requirements, values)) == True {
      forall values': Values | Resolves(p.requirements, values, values')
        ensures Judge(p, values', investigation, anyEvidence).verdict == Reject
      {
        LoweredRejectionStands(p, values, values', investigation, anyEvidence);
      }
    } else {
      LoweredRejectionFalls(p, values, investigation, anyEvidence);
    }
  }

  lemma LoweredRejectionFalls(p: CompiledPolicy, values: Values, investigation: RunStatus, anyEvidence: bool)
    requires WellFormed(p) && values.Keys == Keys(p.requirements) && !RequiredOpen(p.requirements, values)
    requires EvaluateExpression(p.rejectWhen, values, Lowered(p.requirements, values)) != True
    ensures exists values': Values :: Resolves(p.requirements, values, values')
              && Judge(p, values', investigation, anyEvidence).verdict != Reject
  {
    hide WellFormed, SentinelsOf, Lowered, EvaluateExpression, RequiredConflict, ExceptionSatisfied, AllRefuted;
    var worst := AllRefuted(values);
    WorstCase(p, values);
    assert Judge(p, worst, investigation, anyEvidence).verdict != Reject;
  }

  ghost function Lowered(templates: seq<Template>, values: Values): Sentinels
    requires Keys(templates) <= values.Keys
  {
    SentinelsOf(templates, values)[CONTRADICTORY_EVIDENCE := False]
  }

  ghost function AllRefuted(values: Values): Values {
    map key | key in values :: if Open(values[key]) then NotSatisfied else values[key]
  }

  lemma LoweredRejectionStands(p: CompiledPolicy, values: Values, values': Values,
                               investigation: RunStatus, anyEvidence: bool)
    requires WellFormed(p) && values.Keys == Keys(p.requirements) && Resolves(p.requirements, values, values')
    requires Judge(p, values, investigation, anyEvidence).verdict == Reject
    requires EvaluateExpression(p.rejectWhen, values, Lowered(p.requirements, values)) == True
    ensures Judge(p, values', investigation, anyEvidence).verdict == Reject
  {
    hide EvaluateExpression, SentinelsOf, LeafValue, Meaning, Lowered, Mentions, Filled, WellConfigured;
    var templates := p.requirements;
    var lowered := Lowered(templates, values);
    var sentinels, sentinels' := SentinelsOf(templates, values), SentinelsOf(templates, values');
    LoweredLeaves(templates, values, values');
    DecidedStaysDecided(p.escalateWhen, values, sentinels, values', sentinels');
    ExtremesDecide(p.rejectWhen, values, lowered);
    ExtremesDecide(p.rejectWhen, values', sentinels');
    MeaningIsMonotone(p.rejectWhen, Lowest(values, lowered), Lowest(values', sentinels'));
    MandatoryStay(templates, values, values');
  }

  lemma MandatoryStay(templates: seq<Template>, values: Values, values': Values)
    requires values.Keys == Keys(templates) && Resolves(templates, values, values')
    requires ExceptionsRequired(templates)
    ensures RequiredOpen(templates, values') == RequiredOpen(templates, values)
    ensures RequiredConflict(templates, values') == RequiredConflict(templates, values)
    ensures ExceptionSatisfied(templates, values') == ExceptionSatisfied(templates, values)
  {
    forall i | 0 <= i < |templates| && (templates[i].required || templates[i].source == Exceptional)
      ensures Value(templates, values', i) == Value(templates, values, i)
    {
    }
  }

  lemma LoweredLeaves(templates: seq<Template>, values: Values, values': Values)
    requires values.Keys == Keys(templates) && Resolves(templates, values, values')
    requires ExceptionsRequired(templates) && !RequiredOpen(templates, values)
    ensures forall key ::
      LeafValue(key, values, SentinelsOf(templates, values)) == False ==>
        LeafValue(key, values', SentinelsOf(templates, values')) == False
    ensures forall key ::
      LeafValue(key, values, Lowered(templates, values)) == True ==>
        LeafValue(key, values', SentinelsOf(templates, values')) == True
  {
    forall key
      ensures LeafValue(key, values, SentinelsOf(templates, values)) == False ==>
                LeafValue(key, values', SentinelsOf(templates, values')) == False
      ensures LeafValue(key, values, Lowered(templates, values)) == True ==>
                LeafValue(key, values', SentinelsOf(templates, values')) == True
    {
      ResolvedLeaf(templates, values, values', key);
      if LeafValue(key, values, Lowered(templates, values)) == True {
        assert key != CONTRADICTORY_EVIDENCE;
      }
    }
  }

  // Deciding every open requirement against the rule leaves only what stood with the sentinel lowered.
  lemma WorstCase(p: CompiledPolicy, values: Values)
    requires WellFormed(p) && values.Keys == Keys(p.requirements) && !RequiredOpen(p.requirements, values)
    requires EvaluateExpression(p.rejectWhen, values, Lowered(p.requirements, values)) != True
    ensures
      var worst := AllRefuted(values);
      && Resolves(p.requirements, values, worst)
      && EvaluateExpression(p.rejectWhen, worst, SentinelsOf(p.requirements, worst)) != True
  {
    hide WellFormed, SentinelsOf, LeafValue, AllRefuted, Lowered;
    var worst := AllRefuted(values);
    RefutingResolves(p.requirements, values);
    var lowered, sentinels' := Lowered(p.requirements, values), SentinelsOf(p.requirements, worst);
    hide Resolves;
    ExtremesDecide(p.rejectWhen, values, lowered);
    ExtremesDecide(p.rejectWhen, worst, sentinels');
    if Meaning(p.rejectWhen, Lowest(worst, sentinels')) {
      MeaningIsMonotone(p.rejectWhen, Lowest(worst, sentinels'), Lowest(values, lowered));
    }
  }

  lemma RefutingResolves(templates: seq<Template>, values: Values)
    requires values.Keys == Keys(templates) && !RequiredOpen(templates, values)
    ensures
      var worst := AllRefuted(values);
      && Resolves(templates, values, worst)
      && forall key :: LeafValue(key, worst, SentinelsOf(templates, worst)) == True ==>
           LeafValue(key, values, Lowered(templates, values)) == True
  {
    var worst := AllRefuted(values);
    forall i | 0 <= i < |templates| && Value(templates, worst, i) != Value(templates, values, i)
      ensures !templates[i].required && Open(Value(templates, values, i)) && !Open(Value(templates, worst, i))
    {
      assert Open(Value(templates, values, i));
    }
    assert !ExceptionOpen(templates, worst);
  }

  // ---- approvals -------------------------------------------------------------------------

  // However the conflicted requirements are decided, the unknown ones do not matter.
  ghost predicate ConflictsDecide(e: Expression, values: Values, sentinels: Sentinels) {
    forall c, d :: Completes(c, values, sentinels) && Completes(d, values, sentinels) ==>
      AgreeOnConflicts(values, c, d) ==> Meaning(e, c) == Meaning(e, d)
  }

  ghost predicate AgreeOnConflicts(values: Values, c: string -> bool, d: string -> bool) {
    forall key :: key in values && values[key] == Conflicted ==> c(key) == d(key)
  }

  // The conflicted requirements decided as `c` says.
  ghost function Settle(values: Values, c: string -> bool): Values {
    map key | key in values ::
      if values[key] != Conflicted then values[key] else if c(key) then Satisfied else NotSatisfied
  }

  ghost predicate NoConflict(values: Values) {
    forall key :: key in values ==> values[key] != Conflicted
  }

  // Deciding the conflicted requirements alone is a resolution, and lowers the sentinel.
  lemma SettlingResolves(templates: seq<Template>, values: Values, c: string -> bool)
    requires values.Keys == Keys(templates) && !RequiredOpen(templates, values)
    ensures Resolves(templates, values, Settle(values, c))
    ensures NoConflict(Settle(values, c))
  {
    var values' := Settle(values, c);
    forall i | 0 <= i < |templates| && Value(templates, values', i) != Value(templates, values, i)
      ensures !templates[i].required
    {
      assert Open(Value(templates, values, i));
    }
  }

  lemma SettlingCompletes(templates: seq<Template>, values: Values, c: string -> bool, d: string -> bool)
    requires values.Keys == Keys(templates) && !RequiredOpen(templates, values) && ExceptionsRequired(templates)
    requires Completes(d, values, Lowered(templates, values)) && AgreeOnConflicts(values, c, d)
    ensures var values' := Settle(values, c); Completes(d, values', SentinelsOf(templates, values'))
  {
    var values' := Settle(values, c);
    SettlingResolves(templates, values, c);
    SentinelsAfter(templates, values, values');
    var lowered, sentinels' := Lowered(templates, values), SentinelsOf(templates, values');
    hide SentinelsOf, Lowered, Resolves;
    forall key
      ensures LeafValue(key, values', sentinels') == True ==> d(key)
      ensures LeafValue(key, values', sentinels') == False ==> !d(key)
    {
      if key !in lowered && key in values && values[key] == Conflicted {
        assert c(key) == d(key);
      } else {
        assert LeafValue(key, values, lowered) == LeafValue(key, values', sentinels');
      }
    }
  }

  // Resolving leaves the exception sentinel down; the other is down exactly when no conflict is left.
  lemma SentinelsAfter(templates: seq<Template>, values: Values, values': Values)
    requires values.Keys == Keys(templates) && Resolves(templates, values, values')
    requires ExceptionsRequired(templates) && !RequiredOpen(templates, values)
    ensures SentinelsOf(templates, values')
            == map[UNRESOLVED_EXCEPTION := False, CONTRADICTORY_EVIDENCE := Flag(!NoConflict(values'))]
    ensures SentinelsOf(templates, values)
            == map[UNRESOLVED_EXCEPTION := False, CONTRADICTORY_EVIDENCE := Flag(!NoConflict(values))]
    ensures NoConflict(values) ==> NoConflict(values')
    ensures NoConflict(values') ==> SentinelsOf(templates, values') == Lowered(templates, values)
  {
    assert !ExceptionOpen(templates, values);
    forall i | 0 <= i < |templates| && templates[i].source == Exceptional
      ensures !Open(Value(templates, values', i))
    {
      assert templates[i].required;
    }
    KeyResolves(templates, values, values');
  }

  // While a conflict is left, nothing that was decided moves.
  lemma ConflictLeftKeeps(p: CompiledPolicy, values: Values, values': Values)
    requires values.Keys == Keys(p.requirements) && Resolves(p.requirements, values, values')
    requires ExceptionsRequired(p.requirements) && !RequiredOpen(p.requirements, values)
    requires NoConflict(values') ==> NoConflict(values)
    requires EvaluateExpression(p.rejectWhen, values, SentinelsOf(p.requirements, values)) == True
    ensures EvaluateExpression(p.rejectWhen, values', SentinelsOf(p.requirements, values')) == True
  {
    var templates := p.requirements;
    var sentinels, sentinels' := SentinelsOf(templates, values), SentinelsOf(templates, values');
    SentinelsAfter(templates, values, values');
    assert sentinels == sentinels';
    forall key
      ensures LeafValue(key, values, sentinels) == False ==> LeafValue(key, values', sentinels') == False
      ensures LeafValue(key, values, sentinels) == True ==> LeafValue(key, values', sentinels') == True
    {
      ResolvedLeaf(templates, values, values', key);
    }
    hide EvaluateExpression, SentinelsOf, LeafValue;
    DecidedStaysDecided(p.rejectWhen, values, sentinels, values', sentinels');
  }

  // Deciding the conflicts decides their leaves, and what was decided stays.
  lemma SettledLeaf(values: Values, values': Values, sentinels: Sentinels, key: string)
    requires values'.Keys == values.Keys && NoConflict(values')
    requires key in sentinels ==> sentinels[key] != Undetermined
    requires key in values ==> values'[key] == values[key] || (Open(values[key]) && !Open(values'[key]))
    ensures
      var before, after := LeafValue(key, values, sentinels), LeafValue(key, values', sentinels);
      && (before != Undetermined ==> after == before)
      && (key in values && values[key] == Conflicted ==> after != Undetermined)
  {
  }

  // Once no conflict is left, the extreme completions differ on what is still unknown only.
  lemma ExtremesComplete(templates: seq<Template>, values: Values, values': Values)
    requires values.Keys == Keys(templates) && Resolves(templates, values, values') && NoConflict(values')
    requires ExceptionsRequired(templates) && !RequiredOpen(templates, values)
    ensures
      var lowered, sentinels' := Lowered(templates, values), SentinelsOf(templates, values');
      var low, high := Lowest(values', sentinels'), Highest(values', sentinels');
      Completes(low, values, lowered) && Completes(high, values, lowered) && AgreeOnConflicts(values, low, high)
  {
    SentinelsAfter(templates, values, values');
    KeyResolves(templates, values, values');
    hide SentinelsOf, Lowered, Resolves, Keys, RequiredOpen, ExceptionsRequired, LeafValue, NoConflict;
    var lowered := Lowered(templates, values);
    var low, high := Lowest(values', lowered), Highest(values', lowered);
    forall key: string
      ensures LeafValue(key, values, lowered) == True ==> low(key) && high(key)
      ensures LeafValue(key, values, lowered) == False ==> !low(key) && !high(key)
      ensures key in values && values[key] == Conflicted ==> low(key) == high(key)
    {
      SettledLeaf(values, values', lowered, key);
    }
    assert AgreeOnConflicts(values, low, high);
  }

  // So what is still open cannot matter.
  lemma ConflictsGoneDecide(p: CompiledPolicy, values: Values, values': Values)
    requires values.Keys == Keys(p.requirements) && Resolves(p.requirements, values, values') && NoConflict(values')
    requires ExceptionsRequired(p.requirements) && !RequiredOpen(p.requirements, values)
    requires ConflictsDecide(p.rejectWhen, values, Lowered(p.requirements, values))
    ensures EvaluateExpression(p.rejectWhen, values', SentinelsOf(p.requirements, values')) != Undetermined
  {
    hide LeafValue, EvaluateExpression, SentinelsOf, Lowered, Lowest, Highest, Completes, AgreeOnConflicts, Meaning;
    ExtremesComplete(p.requirements, values, values');
    ExtremesDecide(p.rejectWhen, values', SentinelsOf(p.requirements, values'));
  }

  lemma DecidedApprovalsStand(p: CompiledPolicy, values: Values, values': Values, investigation: RunStatus,
                              anyEvidence: bool)
    requires WellFormed(p) && values.Keys == Keys(p.requirements) && Resolves(p.requirements, values, values')
    requires Judge(p, values, investigation, anyEvidence).verdict == Approve
    requires ConflictsDecide(p.rejectWhen, values, Lowered(p.requirements, values))
    ensures Judge(p, values', investigation, anyEvidence).verdict == Approve
  {
    hide Filled, WellConfigured, Mentions, ConflictsDecide, Lowered, SentinelsOf, EvaluateExpression, LeafValue;
    var templates := p.requirements;
    var sentinels, sentinels' := SentinelsOf(templates, values), SentinelsOf(templates, values');
    LoweredLeaves(templates, values, values');
    DecidedStaysDecided(p.escalateWhen, values, sentinels, values', sentinels');
    DecidedStaysDecided(p.rejectWhen, values, sentinels, values', sentinels');
    MandatoryStay(templates, values, values');
    if EvaluateExpression(p.rejectWhen, values, sentinels) == True {
      if NoConflict(values') {
        ConflictsGoneDecide(p, values, values');
      } else {
        ConflictLeftKeeps(p, values, values');
      }
    }
  }

  // Otherwise some way to decide the conflicts leaves the rejection open.
  lemma UndecidedApprovalFalls(p: CompiledPolicy, values: Values, investigation: RunStatus, anyEvidence: bool)
    requires WellFormed(p) && values.Keys == Keys(p.requirements) && !RequiredOpen(p.requirements, values)
    requires !ConflictsDecide(p.rejectWhen, values, Lowered(p.requirements, values))
    ensures exists values': Values :: Resolves(p.requirements, values, values')
              && Judge(p, values', investigation, anyEvidence).verdict == NeedsHumanReview
  {
    var templates := p.requirements;
    var lowered := Lowered(templates, values);
    var c, d :| Completes(c, values, lowered) && Completes(d, values, lowered) && AgreeOnConflicts(values, c, d)
                && Meaning(p.rejectWhen, c) != Meaning(p.rejectWhen, d);
    var values' := Settle(values, c);
    SettlingResolves(templates, values, c);
    SettlingCompletes(templates, values, c, c);
    SettlingCompletes(templates, values, c, d);
    EvaluationIsExact(p.rejectWhen, values', SentinelsOf(templates, values'));
    hide Completes, Meaning, SentinelsOf, Lowered, EvaluateExpression, Resolves;
    assert Judge(p, values', investigation, anyEvidence).verdict == NeedsHumanReview;
  }

  // An approval is stable exactly when, with the sentinel lowered, deciding the conflicted requirements
  // either way decides the rejection expression.
  lemma ApprovalIsStableExactly(p: CompiledPolicy, values: Values, investigation: RunStatus, anyEvidence: bool)
    requires WellFormed(p) && values.Keys == Keys(p.requirements)
    requires Judge(p, values, investigation, anyEvidence).verdict == Approve
    ensures
      (forall values': Values :: Resolves(p.requirements, values, values') ==>
         Judge(p, values', investigation, anyEvidence).verdict == Approve)
      <==> ConflictsDecide(p.rejectWhen, values, Lowered(p.requirements, values))
  {
    hide WellFormed, ConflictsDecide, Lowered, SentinelsOf, EvaluateExpression, RequiredConflict, ExceptionSatisfied;
    if ConflictsDecide(p.rejectWhen, values, Lowered(p.requirements, values)) {
      forall values': Values | Resolves(p.requirements, values, values')
        ensures Judge(p, values', investigation, anyEvidence).verdict == Approve
      {
        DecidedApprovalsStand(p, values, values', investigation, anyEvidence);
      }
    } else {
      UndecidedApprovalFalls(p, values, investigation, anyEvidence);
    }
  }

  // In particular an approval on a FALSE rejection always is.
  lemma UnrejectedApprovalIsStable(p: CompiledPolicy, values: Values, values': Values, investigation: RunStatus,
                                   anyEvidence: bool)
    requires WellFormed(p) && values.Keys == Keys(p.requirements) && Resolves(p.requirements, values, values')
    requires Judge(p, values, investigation, anyEvidence).verdict == Approve
    requires EvaluateExpression(p.rejectWhen, values, SentinelsOf(p.requirements, values)) == False
    ensures Judge(p, values', investigation, anyEvidence) == Judge(p, values, investigation, anyEvidence)
  {
    hide Filled, WellConfigured, Mentions, SentinelsOf, EvaluateExpression, LeafValue;
    var templates := p.requirements;
    var sentinels, sentinels' := SentinelsOf(templates, values), SentinelsOf(templates, values');
    LoweredLeaves(templates, values, values');
    DecidedStaysDecided(p.escalateWhen, values, sentinels, values', sentinels');
    DecidedStaysDecided(p.rejectWhen, values, sentinels, values', sentinels');
    MandatoryStay(templates, values, values');
  }

  // ---- a policy that leans on the sentinel -----------------------------------------------

  // A policy the compiler accepts can only lean on the sentinel by naming a requirement after it.
  lemma NoSentinelNamedRequirement(doc: Document, catalog: Catalog, strip: string -> string)
    requires ValidDocument(doc, catalog) && CONTRADICTORY_EVIDENCE !in SpecIds(doc.requirements)
    ensures !Mentions(Compile(doc, catalog, strip).rejectWhen, CONTRADICTORY_EVIDENCE)
  {
  }

  const SHOWN := "shown"

  // Two optional requirements, one named like the sentinel; either rejects.
  function SentinelDocument(exceptions: seq<string>): Document {
    Document("speech.claim", 1, "Claim", true, High, ["claim"],
             [RequirementSpec(CONTRADICTORY_EVIDENCE, SpeechContent, false, "the claim is made"),
              RequirementSpec(SHOWN, VisualPresence, false, "the claim is shown")],
             exceptions, AggregationConfig(0.5, 1, 1),
             Any([Leaf(CONTRADICTORY_EVIDENCE), Leaf(SHOWN)]), All([Leaf(UNRESOLVED_EXCEPTION)]))
  }

  lemma KeysDiffer(id: string)
    ensures CONTRADICTORY_EVIDENCE != UNRESOLVED_EXCEPTION && CONTRADICTORY_EVIDENCE != SHOWN
      && UNRESOLVED_EXCEPTION != SHOWN
    ensures !Reserved(CONTRADICTORY_EVIDENCE) && !Reserved(SHOWN)
    ensures ExceptionKey(id) != CONTRADICTORY_EVIDENCE && ExceptionKey(id) != SHOWN
      && ExceptionKey(id) != UNRESOLVED_EXCEPTION
  {
    assert CONTRADICTORY_EVIDENCE[0] == 'c' && SHOWN[0] == 's' && UNRESOLVED_EXCEPTION[0] == 'u';
    assert ExceptionKey(id)[0] == 'e' && RESERVED[0] == 'e';
  }

  lemma SentinelDocumentIsValid(exceptions: seq<string>, catalog: Catalog)
    requires |exceptions| <= 1 && forall id :: id in exceptions ==> id in catalog
    ensures ValidDocument(SentinelDocument(exceptions), catalog)
  {
    KeysDiffer("");
    var doc := SentinelDocument(exceptions);
    var ids := SpecIds(doc.requirements);
    assert ids[0] == CONTRADICTORY_EVIDENCE && ids[1] == SHOWN;
    LeavesAreFilled(doc.rejectWhen);
    LeavesAreFilled(doc.escalateWhen);
    forall key
      ensures Mentions(doc.rejectWhen, key) ==> key in ids
      ensures Mentions(doc.escalateWhen, key) ==> IsSentinel(key)
    {
      MentionsOfLeaves(CONTRADICTORY_EVIDENCE, SHOWN, key);
    }
    assert Unique(ids) && Unique(doc.terms) && Unique(doc.exceptions);
    hide Mentions, Filled;
  }

  lemma LeavesAreFilled(e: Expression)
    requires !e.Leaf? && e.children != [] && forall i :: 0 <= i < |e.children| ==> e.children[i].Leaf?
    ensures Filled(e)
  {
    forall i | 0 <= i < |e.children|
      ensures Filled(e.children[i])
    {
    }
  }

  lemma MentionsOfLeaves(a: string, b: string, key: string)
    ensures Mentions(Any([Leaf(a), Leaf(b)]), key) ==> key == a || key == b
    ensures Mentions(All([Leaf(UNRESOLVED_EXCEPTION)]), key) ==> IsSentinel(key)
  {
    var either, one := Any([Leaf(a), Leaf(b)]), All([Leaf(UNRESOLVED_EXCEPTION)]);
    assert either.children[0] == Leaf(a) && either.children[1] == Leaf(b) && |either.children| == 2;
    assert one.children[0] == Leaf(UNRESOLVED_EXCEPTION) && |one.children| == 1;
    if Mentions(either, key) {
      var i :| 0 <= i < 2 && Mentions(either.children[i], key);
    }
    if Mentions(one, key) {
      var i :| 0 <= i < 1 && Mentions(one.children[i], key);
    }
  }

  lemma AllOfOne(key: string, values: Values, sentinels: Sentinels)
    ensures EvaluateExpression(All([Leaf(key)]), values, sentinels) == LeafValue(key, values, sentinels)
  {
    var r := Evaluated(All([Leaf(key)]), values, sentinels);
    assert |r| == 1 && r[0] == LeafValue(key, values, sentinels) && r[0] in r;
    assert False in r <==> r[0] == False;
    assert (forall v :: v in r ==> v == True) <==> r[0] == True;
  }

  lemma AnyOfTwo(a: string, b: string, values: Values, sentinels: Sentinels)
    ensures EvaluateExpression(Any([Leaf(a), Leaf(b)]), values, sentinels)
            == (var x, y := LeafValue(a, values, sentinels), LeafValue(b, values, sentinels);
                if x == True || y == True then True else if x == False && y == False then False else Undetermined)
  {
    var r := Evaluated(Any([Leaf(a), Leaf(b)]), values, sentinels);
    assert |r| == 2 && r[0] == LeafValue(a, values, sentinels) && r[1] == LeafValue(b, values, sentinels);
    assert r[0] in r && r[1] in r;
    assert True in r <==> r[0] == True || r[1] == True;
    assert (forall v :: v in r ==> v == False) <==> r[0] == False && r[1] == False;
  }

  // What the two expressions come to while no exception is open.
  lemma SentinelDocumentEvaluates(p: CompiledPolicy, values: Values)
    requires p.rejectWhen == SentinelDocument([]).rejectWhen && p.escalateWhen == SentinelDocument([]).escalateWhen
    requires values.Keys == Keys(p.requirements) && SHOWN in values && !ExceptionOpen(p.requirements, values)
    ensures
      var sentinels := SentinelsOf(p.requirements, values);
      && EvaluateExpression(p.escalateWhen, values, sentinels) == False
      && EvaluateExpression(p.rejectWhen, values, sentinels)
         == if !NoConflict(values) || values[SHOWN] == Satisfied then True
            else if values[SHOWN] == NotSatisfied then False else Undetermined
  {
    KeysDiffer("");
    var sentinels := SentinelsOf(p.requirements, values);
    hide EvaluateExpression;
    AllOfOne(UNRESOLVED_EXCEPTION, values, sentinels);
    AnyOfTwo(CONTRADICTORY_EVIDENCE, SHOWN, values, sentinels);
  }

  // What the document compiles to, as far as evaluation sees it.
  ghost predicate LeansOnSentinel(p: CompiledPolicy, exceptions: seq<string>) {
    && |p.requirements| == 2 + |exceptions|
    && p.requirements[0].key == CONTRADICTORY_EVIDENCE && p.requirements[1].key == SHOWN
    && !p.requirements[0].required && !p.requirements[1].required
    && p.requirements[0].source == p.requirements[1].source == Ordinary
    && (forall i :: 2 <= i < |p.requirements| ==>
          p.requirements[i].key == ExceptionKey(exceptions[i - 2]) && p.requirements[i].source == Exceptional)
    && p.rejectWhen == SentinelDocument([]).rejectWhen
    && p.escalateWhen == SentinelDocument([]).escalateWhen
  }

  lemma SentinelDocumentCompiles(exceptions: seq<string>, catalog: Catalog, strip: string -> string)
    requires forall id :: id in exceptions ==> id in catalog
    ensures LeansOnSentinel(Compile(SentinelDocument(exceptions), catalog, strip), exceptions)
  {
  }

  // A rejection that falls: confirming the very requirement that is in conflict approves the video.
  lemma SentinelNameBreaksRejection(catalog: Catalog, strip: string -> string)
    ensures
      var p := Compile(SentinelDocument([]), catalog, strip);
      var before: Values := map[CONTRADICTORY_EVIDENCE := Conflicted, SHOWN := NotSatisfied];
      var after: Values := before[CONTRADICTORY_EVIDENCE := Satisfied];
      && ValidDocument(SentinelDocument([]), catalog)
      && before.Keys == Keys(p.requirements)
      && Resolves(p.requirements, before, after)
      && Judge(p, before, RunCompleted, true).verdict == Reject
      && Judge(p, after, RunCompleted, true).verdict == Approve
  {
    SentinelDocumentIsValid([], catalog);
    SentinelDocumentCompiles([], catalog, strip);
    KeysDiffer("");
    var before: Values := map[CONTRADICTORY_EVIDENCE := Conflicted, SHOWN := NotSatisfied];
    hide LeansOnSentinel, Judge, Resolves, ValidDocument, Compile;
    RejectionFalls(Compile(SentinelDocument([]), catalog, strip), before, before[CONTRADICTORY_EVIDENCE := Satisfied]);
  }

  lemma RejectionFalls(p: CompiledPolicy, before: Values, after: Values)
    requires LeansOnSentinel(p, [])
    requires before.Keys == after.Keys == {CONTRADICTORY_EVIDENCE, SHOWN}
    requires before[CONTRADICTORY_EVIDENCE] == Conflicted && after[CONTRADICTORY_EVIDENCE] == Satisfied
    requires before[SHOWN] == after[SHOWN] == NotSatisfied
    ensures before.Keys == Keys(p.requirements)
    ensures Resolves(p.requirements, before, after)
    ensures Judge(p, before, RunCompleted, true).verdict == Reject
    ensures Judge(p, after, RunCompleted, true).verdict == Approve
  {
    hide Judge;
    OrdinaryVerdict(p, before);
    OrdinaryVerdict(p, after);
  }

  lemma OrdinaryVerdict(p: CompiledPolicy, values: Values)
    requires LeansOnSentinel(p, []) && values.Keys == {CONTRADICTORY_EVIDENCE, SHOWN} && values[SHOWN] == NotSatisfied
    ensures values.Keys == Keys(p.requirements)
    ensures Judge(p, values, RunCompleted, true).verdict == if NoConflict(values) then Approve else Reject
  {
    hide EvaluateExpression, SentinelsOf;
    assert values.Keys == Keys(p.requirements);
    SentinelDocumentEvaluates(p, values);
  }

  // An approval that falls: under a satisfied exception, refuting the requirement in conflict leaves the
  // rejection open on the other one.
  lemma SentinelNameBreaksApproval(catalog: Catalog, strip: string -> string, id: string)
    requires id in catalog
    ensures
      var p := Compile(SentinelDocument([id]), catalog, strip);
      var before: Values :=
        map[CONTRADICTORY_EVIDENCE := Conflicted, SHOWN := Unknown, ExceptionKey(id) := Satisfied];
      var after: Values := before[CONTRADICTORY_EVIDENCE := NotSatisfied];
      && ValidDocument(SentinelDocument([id]), catalog)
      && before.Keys == Keys(p.requirements)
      && Resolves(p.requirements, before, after)
      && Judge(p, before, RunCompleted, true).verdict == Approve
      && Judge(p, after, RunCompleted, true).verdict == NeedsHumanReview
  {
    SentinelDocumentIsValid([id], catalog);
    SentinelDocumentCompiles([id], catalog, strip);
    var before: Values :=
      map[CONTRADICTORY_EVIDENCE := Conflicted, SHOWN := Unknown, ExceptionKey(id) := Satisfied];
    KeysDiffer(id);
    hide LeansOnSentinel, ExceptionKey, Judge, Resolves, ValidDocument, Compile;
    ApprovalFalls(Compile(SentinelDocument([id]), catalog, strip), id, before,
                  before[CONTRADICTORY_EVIDENCE := NotSatisfied]);
  }

  lemma ApprovalFalls(p: CompiledPolicy, id: string, before: Values, after: Values)
    requires LeansOnSentinel(p, [id])
    requires before.Keys == after.Keys == {CONTRADICTORY_EVIDENCE, SHOWN, ExceptionKey(id)}
    requires before[CONTRADICTORY_EVIDENCE] == Conflicted && after[CONTRADICTORY_EVIDENCE] == NotSatisfied
    requires before[SHOWN] == after[SHOWN] == Unknown
    requires before[ExceptionKey(id)] == after[ExceptionKey(id)] == Satisfied
    ensures before.Keys == Keys(p.requirements)
    ensures Resolves(p.requirements, before, after)
    ensures Judge(p, before, RunCompleted, true).verdict == Approve
    ensures Judge(p, after, RunCompleted, true).verdict == NeedsHumanReview
  {
    hide Judge, ExceptionKey;
    ExceptedVerdict(p, id, before);
    ExceptedVerdict(p, id, after);
    assert p.requirements[2].key == ExceptionKey(id);
  }

  lemma ExceptedVerdict(p: CompiledPolicy, id: string, values: Values)
    requires LeansOnSentinel(p, [id]) && values.Keys == {CONTRADICTORY_EVIDENCE, SHOWN, ExceptionKey(id)}
    requires values[ExceptionKey(id)] == Satisfied
    ensures values.Keys == Keys(p.requirements)
    ensures Judge(p, values, RunCompleted, true).verdict
            == if NoConflict(values) && Open(values[SHOWN]) then NeedsHumanReview else Approve
  {
    hide EvaluateExpression, SentinelsOf, ExceptionKey;
    assert p.requirements[2].key == ExceptionKey(id);
    assert values.Keys == Keys(p.requirements);
    SentinelDocumentEvaluates(p, values);
    assert Value(p.requirements, values, 2) == Satisfied;
  }
}
