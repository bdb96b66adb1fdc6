/** The rule evaluator: three-valued evaluation of the policy expressions and the verdict cascade. */
module Rules {
  import opened Common
  import opened AgentTypes
  import opened Policy
  import opened EvidenceStore
  import opened Aggregation
  import opened AgentStore

  datatype Truth = True | False | Undetermined

  type Values = map<string, Status>
  type Sentinels = map<string, Truth>

  // ---- expressions -----------------------------------------------------------------------

  function LeafValue(key: string, values: Values, sentinels: Sentinels): Truth {
    if key in sentinels then sentinels[key]
    else if key !in values then Undetermined
    else
      match values[key]
      case Satisfied => True
      case NotSatisfied => False
      case _ => Undetermined
  }

  function EvaluateExpression(e: Expression, values: Values, sentinels: Sentinels): Truth
    decreases e, 1
  {
    match e
    case Leaf(key) => LeafValue(key, values, sentinels)
    case All(_) =>
      var evaluated := Evaluated(e, values, sentinels);
      if False in evaluated then False
      else if forall v :: v in evaluated ==> v == True then True
      else Undetermined
    case Any(_) =>
      var evaluated := Evaluated(e, values, sentinels);
      if True in evaluated then True
      else if forall v :: v in evaluated ==> v == False then False
      else Undetermined
  }

  function Evaluated(e: Expression, values: Values, sentinels: Sentinels): (r: seq<Truth>)
    requires !e.Leaf?
    ensures |r| == |e.children|
    ensures forall i :: 0 <= i < |r| ==> r[i] == EvaluateExpression(e.children[i], values, sentinels)
    decreases e, 0
  {
    seq(|e.children|, i requires 0 <= i < |e.children| => EvaluateExpression(e.children[i], values, sentinels))
  }

  // Two-valued meaning, when every leaf is decided.
  ghost predicate Meaning(e: Expression, c: string -> bool) {
    match e
    case Leaf(key) => c(key)
    case All(children) => forall i :: 0 <= i < |children| ==> Meaning(children[i], c)
    case Any(children) => exists i :: 0 <= i < |children| && Meaning(children[i], c)
  }

  // A way to decide what is still open, in agreement with what is already decided.
  ghost predicate Completes(c: string -> bool, values: Values, sentinels: Sentinels) {
    forall key :: (LeafValue(key, values, sentinels) == True ==> c(key))
                  && (LeafValue(key, values, sentinels) == False ==> !c(key))
  }

  ghost function Lowest(values: Values, sentinels: Sentinels): string -> bool {
    key => LeafValue(key, values, sentinels) == True
  }

  ghost function Highest(values: Values, sentinels: Sentinels): string -> bool {
    key => LeafValue(key, values, sentinels) != False
  }

  // No negation: deciding more leaves positively never falsifies the expression.
  lemma {:induction false} MeaningIsMonotone(e: Expression, c: string -> bool, d: string -> bool)
    requires forall key :: Mentions(e, key) && c(key) ==> d(key)
    requires Meaning(e, c)
    ensures Meaning(e, d)
  {
    match e
    case Leaf(_) =>
    case All(children) =>
      forall i | 0 <= i < |children|
        ensures Meaning(children[i], d)
      {
        MeaningIsMonotone(children[i], c, d);
      }
    case Any(children) =>
      var i :| 0 <= i < |children| && Meaning(children[i], c);
      MeaningIsMonotone(children[i], c, d);
  }

  // The three-valued result is decided by the two extreme completions.
  lemma {:induction false} ExtremesDecide(e: Expression, values: Values, sentinels: Sentinels)
    ensures EvaluateExpression(e, values, sentinels) == True <==> Meaning(e, Lowest(values, sentinels))
    ensures EvaluateExpression(e, values, sentinels) != False <==> Meaning(e, Highest(values, sentinels))
  {
    if !e.Leaf? {
      var evaluated := Evaluated(e, values, sentinels);
      forall i | 0 <= i < |e.children|
        ensures evaluated[i] in evaluated
        ensures evaluated[i] == True <==> Meaning(e.children[i], Lowest(values, sentinels))
        ensures evaluated[i] != False <==> Meaning(e.children[i], Highest(values, sentinels))
      {
        ExtremesDecide(e.children[i], values, sentinels);
      }
    }
  }

  // TRUE is what every completion makes true, FALSE what none does, and UNKNOWN exactly the rest.
  lemma EvaluationIsExact(e: Expression, values: Values, sentinels: Sentinels)
    ensures EvaluateExpression(e, values, sentinels) == True
            <==> forall c :: Completes(c, values, sentinels) ==> Meaning(e, c)
    ensures EvaluateExpression(e, values, sentinels) == False
            <==> forall c :: Completes(c, values, sentinels) ==> !Meaning(e, c)
    ensures EvaluateExpression(e, values, sentinels) == Undetermined
            <==> (exists c :: Completes(c, values, sentinels) && Meaning(e, c))
                 && (exists c :: Completes(c, values, sentinels) && !Meaning(e, c))
  {
    var low, high := Lowest(values, sentinels), Highest(values, sentinels);
    ExtremesDecide(e, values, sentinels);
    assert Completes(low, values, sentinels) && Completes(high, values, sentinels);
    forall c | Completes(c, values, sentinels)
      ensures Meaning(e, low) ==> Meaning(e, c)
      ensures Meaning(e, c) ==> Meaning(e, high)
    {
      if Meaning(e, low) {
        MeaningIsMonotone(e, low, c);
      }
      if Meaning(e, c) {
        MeaningIsMonotone(e, c, high);
      }
    }
  }

  // ---- the verdict -----------------------------------------------------------------------

  datatype RuleReason =
    | InvestigationIncomplete
    | RuleEvidenceConflict
    | RuleRequiredUnknown
    | RuleEscalationMatched
    | RuleExpressionUnknown
    | RuleRejectMatched
    | RuleExceptionApplied
    | RuleApproveNoRejectMatch

  datatype Judgement = Judgement(verdict: Verdict, reason: RuleReason)

  predicate Open(status: Status) {
    status == Unknown || status == Conflicted
  }

  function Keys(templates: seq<Template>): set<string> {
    set i | 0 <= i < |templates| :: templates[i].key
  }

  predicate RequiredOpen(templates: seq<Template>, values: Values)
    requires Keys(templates) <= values.Keys
  {
    exists i :: 0 <= i < |templates| && templates[i].required && Open(Value(templates, values, i))
  }

  predicate RequiredConflict(templates: seq<Template>, values: Values)
    requires Keys(templates) <= values.Keys
  {
    exists i :: 0 <= i < |templates| && templates[i].required && Value(templates, values, i) == Conflicted
  }

  predicate ExceptionOpen(templates: seq<Template>, values: Values)
    requires Keys(templates) <= values.Keys
  {
    exists i :: 0 <= i < |templates| && templates[i].source == Exceptional && Open(Value(templates, values, i))
  }

  predicate ExceptionSatisfied(templates: seq<Template>, values: Values)
    requires Keys(templates) <= values.Keys
  {
    exists i :: 0 <= i < |templates| && templates[i].source == Exceptional && Value(templates, values, i) == Satisfied
  }

  function Value(templates: seq<Template>, values: Values, i: nat): Status
    requires i < |templates| && Keys(templates) <= values.Keys
  {
    assert templates[i].key in Keys(templates);
    values[templates[i].key]
  }

  function Flag(b: bool): Truth {
    if b then True else False
  }

  function SentinelsOf(templates: seq<Template>, values: Values): Sentinels
    requires Keys(templates) <= values.Keys
  {
    map[UNRESOLVED_EXCEPTION := Flag(ExceptionOpen(templates, values)),
        CONTRADICTORY_EVIDENCE := Flag(exists key :: key in values && values[key] == Conflicted)]
  }

  function Judge(p: CompiledPolicy, values: Values, investigation: RunStatus, anyEvidence: bool): Judgement
    requires values.Keys == Keys(p.requirements)
  {
    var sentinels := SentinelsOf(p.requirements, values);
    var escalation := EvaluateExpression(p.escalateWhen, values, sentinels);
    var rejection := EvaluateExpression(p.rejectWhen, values, sentinels);
    var excepted := ExceptionSatisfied(p.requirements, values);
    if investigation != RunCompleted then Judgement(NeedsHumanReview, InvestigationIncomplete)
    else if RequiredConflict(p.requirements, values) then Judgement(NeedsHumanReview, RuleEvidenceConflict)
    else if RequiredOpen(p.requirements, values) then Judgement(NeedsHumanReview, RuleRequiredUnknown)
    else if escalation == True then Judgement(NeedsHumanReview, RuleEscalationMatched)
    else if escalation == Undetermined then Judgement(NeedsHumanReview, RuleExpressionUnknown)
    else if rejection == Undetermined then Judgement(NeedsHumanReview, RuleExpressionUnknown)
    else if !anyEvidence then Judgement(NeedsHumanReview, RuleRequiredUnknown)
    else if rejection == True && !excepted then Judgement(Reject, RuleRejectMatched)
    else if excepted then Judgement(Approve, RuleExceptionApplied)
    else Judgement(Approve, RuleApproveNoRejectMatch)
  }

  // A machine verdict means: the investigation completed on some evidence, every mandatory requirement
  // is decided, and however the open optional ones are decided, nothing escalates and the rejection
  // expression always says the same; it rejects exactly when that is "reject" and no exception holds.
  lemma VerdictIsCharacterized(p: CompiledPolicy, values: Values, investigation: RunStatus, anyEvidence: bool)
    requires values.Keys == Keys(p.requirements)
    ensures
      var sentinels := SentinelsOf(p.requirements, values);
      var verdict := Judge(p, values, investigation, anyEvidence).verdict;
      var settled :=
        && investigation == RunCompleted && anyEvidence
        && !RequiredOpen(p.requirements, values)
        && (forall c :: Completes(c, values, sentinels) ==> !Meaning(p.escalateWhen, c));
      && (verdict == Reject <==>
            && settled
            && !ExceptionSatisfied(p.requirements, values)
            && (forall c :: Completes(c, values, sentinels) ==> Meaning(p.rejectWhen, c)))
      && (verdict == Approve <==>
            && settled
            && ((forall c :: Completes(c, values, sentinels) ==> !Meaning(p.rejectWhen, c))
                || (ExceptionSatisfied(p.requirements, values)
                    && forall c :: Completes(c, values, sentinels) ==> Meaning(p.rejectWhen, c))))
  {
    var sentinels := SentinelsOf(p.requirements, values);
    EvaluationIsExact(p.escalateWhen, values, sentinels);
    EvaluationIsExact(p.rejectWhen, values, sentinels);
    hide EvaluateExpression, Meaning, Completes, SentinelsOf;
  }

  // ---- evaluation of a case --------------------------------------------------------------

  // The hashed basis of a machine decision.
  datatype EvaluationInput = EvaluationInput(
    policy: CompiledPolicy, verdict: Verdict, reason: RuleReason, results: set<(ResultKey, Status)>)

  datatype Evaluation = Evaluation(
    verdict: Verdict, reason: RuleReason, results: set<ResultKey>, evidence: set<EvidenceKey>,
    input: EvaluationInput)

  function ValuesOf(outcomes: seq<Outcome>): (values: Values)
    ensures forall key :: key in values <==> exists i :: 0 <= i < |outcomes| && outcomes[i].key == key
  {
    if outcomes == [] then map[]
    else
      var last := outcomes[|outcomes| - 1];
      ValuesOf(outcomes[..|outcomes| - 1])[last.key := last.finding.status]
  }

  function EvidenceOf(outcomes: seq<Outcome>): set<EvidenceKey> {
    set o, id | o in outcomes && id in o.evidence :: id
  }

  // None: the outcomes do not match the requirements of the policy.
  function Evaluate(p: CompiledPolicy, outcomes: seq<Outcome>, investigation: RunStatus): Option<Evaluation> {
    var values := ValuesOf(outcomes);
    if values.Keys != Keys(p.requirements) then None
    else
      var evidence := EvidenceOf(outcomes);
      var judged := Judge(p, values, investigation, evidence != {});
      Some(Evaluation(judged.verdict, judged.reason, set o | o in outcomes :: o.result, evidence,
                      EvaluationInput(p, judged.verdict, judged.reason,
                                      set o | o in outcomes :: (o.result, o.finding.status))))
  }
}
