/** Human requests: which of them are the same, when each is refused, what an accepted one writes, and the
    decision every appeal and every review was made against. */
module LedgerRequests {
  import opened Common
  import opened AgentTypes
  import opened AgentStore
  import opened EvidenceStore
  import opened Aggregation
  import opened Ledger
  import opened LedgerHistory

  // ---- which requests are the same -------------------------------------------------------

  ghost predicate Named(text: Option<string>) {
    text.Some? && text.value != ""
  }

  ghost predicate SameWords(r: Request, r': Request) {
    && r.reviewer == r'.reviewer && r.verdict == r'.verdict && r.note == r'.note
    && multiset(r.evidence) == multiset(r'.evidence)
  }

  // A caller's own key decides alone; without one, requests are the same when they say the same of the same
  // thing, in whatever order they list the evidence. Only a caller's key makes requests of two kinds meet.
  lemma SameRequestExactly(c: nat, r: Request, c': nat, r': Request, submitter: string, statement: string,
                           submitter': string, statement': string)
    ensures ReviewKey(c, r) == ReviewKey(c', r')
            <==> if Named(r.text) || Named(r'.text) then r.text == r'.text else c == c' && SameWords(r, r')
    ensures ResolutionKey(c, r) == ResolutionKey(c', r')
            <==> if Named(r.text) || Named(r'.text) then r.text == r'.text else c == c' && SameWords(r, r')
    ensures ReviewKey(c, r) == ResolutionKey(c', r') <==> Named(r.text) && r.text == r'.text
    ensures AppealKey(c, submitter, statement, r.text) == AppealKey(c', submitter', statement', r'.text)
            <==> if Named(r.text) || Named(r'.text) then r.text == r'.text
                 else c == c' && submitter == submitter' && statement == statement'
  {
  }

  // ---- appeals ---------------------------------------------------------------------------

  ghost predicate AppealKnown(s: Store, key: RequestKey) {
    exists a :: 0 <= a < |s.appeals| && s.appeals[a].key == key
  }

  // A request already answered changes nothing; otherwise an appeal needs a decision in force. It challenges
  // that decision and leaves it in force, opens with one event, sends the case to review, and that is all.
  lemma AppealTakesEffect(s: Store, caseId: nat, submitter: string, statement: string, text: Option<string>)
    requires LedgerOk(s)
    ensures
      var key := AppealKey(caseId, submitter, statement, text);
      var done := SubmitAppeal(s, caseId, submitter, statement, text);
      if AppealKnown(s, key) then
        done.Committed? && done.store == s && done.id < |s.appeals| && s.appeals[done.id].key == key
      else if caseId !in s.cases then done == RolledBack(CaseNotFound)
      else if s.cases[caseId].current == None then done == RolledBack(DecisionNotFound)
      else
        && done.Committed? && done.id == |s.appeals| && |done.store.appeals| == |s.appeals| + 1
        && var row := done.store.appeals[done.id];
        && row.caseId == caseId && row.key == key && row.submitter == submitter && row.statement == statement
        && Some(row.challenged) == s.cases[caseId].current == done.store.cases[caseId].current
        && s.decisions[row.challenged].caseId == caseId
        && row.status == Submitted && row.resolution == None
        && done.store == s.(
             appeals := s.appeals + [row],
             events := s.events + [AppealEvent(done.id, 1, Submitted, submitter, statement, row.challenged)],
             cases := s.cases[caseId := s.cases[caseId].(status := CaseNeedsReview)])
  {
    hide Chained, Supported, Owned, Honest, Numbered, AppealKey;
  }

  // ---- reviews ---------------------------------------------------------------------------

  ghost predicate ReviewKnown(s: Store, key: RequestKey) {
    exists v :: 0 <= v < |s.reviews| && s.reviews[v].key == key
  }

  // The evidence a review rests on: the rows it names or, when it names none, those of the decision in force.
  ghost function RestsOn(s: Store, caseId: nat, r: Request): set<EvidenceKey>
    requires Linked(s) && caseId in s.cases && s.cases[caseId].current.Some?
  {
    if |r.evidence| > 0 then set id | id in r.evidence else s.decisions[s.cases[caseId].current.value].evidence
  }

  ghost predicate OfTheCase(s: Store, caseId: nat, ids: set<EvidenceKey>) {
    forall id :: id in ids ==> exists e :: e in s.tables.rows && e.id == id && e.caseId == caseId
  }

  // What a review needs; of its evidence, only rows it names itself can be refused as another case's.
  ghost function RefusalOf(blank: string -> bool, s: Store, caseId: nat, r: Request): Option<GovernanceError>
    requires Linked(s)
  {
    if caseId !in s.cases then Some(CaseNotFound)
    else if blank(r.reviewer) || blank(r.note) then Some(ReviewInputInvalid)
    else if s.cases[caseId].current == None then Some(DecisionNotFound)
    else if r.verdict != NeedsHumanReview && RestsOn(s, caseId, r) == {} then Some(ReviewInputInvalid)
    else if r.evidence != [] && !OfTheCase(s, caseId, RestsOn(s, caseId, r)) then Some(ReviewInputInvalid)
    else None
  }

  // One human decision over the one in force, one review row that names both, and the case settled by it.
  ghost predicate Reviews(s: Store, caseId: nat, r: Request, key: RequestKey, s': Store)
    requires Linked(s) && caseId in s.cases && s.cases[caseId].current.Some?
  {
    && |s'.decisions| == |s.decisions| + 1 && |s'.reviews| == |s.reviews| + 1
    && var row := s'.decisions[|s.decisions|];
    && row.caseId == caseId && row.verdict == r.verdict && row.source == Human
    && row.basis == Reviewed(r.reviewer, r.note, key)
    && row.sequence == |OfCase(s.decisions, caseId)| + 1
    && row.supersedes == s.cases[caseId].current
    && row.evidence == RestsOn(s, caseId, r) && OfTheCase(s, caseId, row.evidence)
    && (forall k :: k in row.results <==>
          exists id :: id in s.requirements && s.requirements[id].caseId == caseId
                       && s.requirements[id].current == Some(k))
    && row.replayItem == None
    && s'.decisions == s.decisions + [row]
    && s'.reviews == s.reviews + [ReviewRow(caseId, key, r.reviewer, s.cases[caseId].current.value, |s.decisions|,
                                            r.note)]
    && s'.cases == s.cases[caseId := s.cases[caseId].(
         current := Some(|s.decisions|),
         status := if r.verdict == NeedsHumanReview then CaseNeedsReview else CaseDecided)]
  }

  lemma OwnEvidence(s: Store, caseId: nat, ids: set<EvidenceKey>)
    ensures OfTheCase(s, caseId, ids) <==> forall id :: id in ids ==> BelongsTo(s.tables.rows, caseId, id)
  {
    forall id: EvidenceKey
      ensures BelongsTo(s.tables.rows, caseId, id)
              <==> exists e :: e in s.tables.rows && e.id == id && e.caseId == caseId
    {
      if e :| e in s.tables.rows && e.id == id && e.caseId == caseId {
        var i :| 0 <= i < |s.tables.rows| && s.tables.rows[i] == e;
      }
      if i :| 0 <= i < |s.tables.rows| && s.tables.rows[i].id == id && s.tables.rows[i].caseId == caseId {
        assert s.tables.rows[i] in s.tables.rows;
      }
    }
  }

  lemma InForceIsSupported(s: Store, caseId: nat)
    requires LedgerOk(s) && caseId in s.cases && s.cases[caseId].current.Some?
    ensures OfTheCase(s, caseId, s.decisions[s.cases[caseId].current.value].evidence)
  {
    hide Chained, Owned, Honest, Numbered, BelongsTo, OfTheCase;
    assert Supported(s.tables.rows, s.decisions[s.cases[caseId].current.value]);
    OwnEvidence(s, caseId, s.decisions[s.cases[caseId].current.value].evidence);
  }

  lemma RefusedExactly(blank: string -> bool, s: Store, caseId: nat, r: Request, key: RequestKey)
    requires LedgerOk(s) && caseId in s.cases
    ensures
      var done := CreateReview(blank, s, caseId, r, key);
      match RefusalOf(blank, s, caseId, r)
      case Some(error) => done == RolledBack(error)
      case None => done.Committed? && OfTheCase(s, caseId, RestsOn(s, caseId, r))
  {
    hide Chained, Supported, Owned, Honest, Numbered, BelongsTo, OfTheCase, LastDecision, CurrentResults, Settle;
    if s.cases[caseId].current.Some? {
      InForceIsSupported(s, caseId);
      OwnEvidence(s, caseId, RestsOn(s, caseId, r));
    }
  }

  lemma CreatedExactly(blank: string -> bool, s: Store, caseId: nat, r: Request, key: RequestKey)
    requires LedgerOk(s) && caseId in s.cases
    ensures
      var done := CreateReview(blank, s, caseId, r, key);
      match RefusalOf(blank, s, caseId, r)
      case Some(error) => done == RolledBack(error)
      case None =>
        && done.Committed? && done.id == |s.reviews| && Reviews(s, caseId, r, key, done.store)
        && done.store == s.(decisions := done.store.decisions, reviews := done.store.reviews,
                            cases := done.store.cases)
  {
    hide Chained, Supported, Owned, Honest, Numbered, BelongsTo, OfTheCase, OfCase, LinkOk, NumberedFor, RefusalOf,
      LastDecision;
    RefusedExactly(blank, s, caseId, r, key);
    CountOfCase(s, caseId);
  }

  lemma CountOfCase(s: Store, caseId: nat)
    requires LedgerOk(s)
    ensures LastDecision(s.decisions, caseId) == |OfCase(s.decisions, caseId)|
  {
    assert NumberedFor(s.decisions, caseId);
    LastDecisionIsCount(s.decisions, caseId);
  }

  lemma ReviewTakesEffect(blank: string -> bool, s: Store, caseId: nat, r: Request)
    requires LedgerOk(s)
    ensures
      var key := ReviewKey(caseId, r);
      var done := SubmitReview(blank, s, caseId, r);
      if ReviewKnown(s, key) then
        done.Committed? && done.store == s && done.id < |s.reviews| && s.reviews[done.id].key == key
      else
        match RefusalOf(blank, s, caseId, r)
        case Some(error) => done == RolledBack(error)
        case None =>
          && done.Committed? && done.id == |s.reviews| && Reviews(s, caseId, r, key, done.store)
          && done.store == s.(decisions := done.store.decisions, reviews := done.store.reviews,
                              cases := done.store.cases)
  {
    hide Chained, PointersOk, Supported, Owned, Honest, Numbered, ReviewKey, CreateReview, Reviews;
    if caseId in s.cases {
      CreatedExactly(blank, s, caseId, r, ReviewKey(caseId, r));
    }
  }

  // A resolution is a review of the appeal's case that also closes the appeal, once.
  lemma ResolutionTakesEffect(blank: string -> bool, s: Store, appeal: nat, r: Request)
    requires LedgerOk(s)
    ensures
      var key := ResolutionKey(appeal, r);
      var done := ResolveAppeal(blank, s, appeal, r);
      if ReviewKnown(s, key) then
        done.Committed? && done.store == s && done.id < |s.reviews| && s.reviews[done.id].key == key
      else if appeal >= |s.appeals| then done == RolledBack(AppealNotFound)
      else if s.appeals[appeal].status == Resolved then done == RolledBack(AppealAlreadyResolved)
      else
        var row := s.appeals[appeal];
        match RefusalOf(blank, s, row.caseId, r)
        case Some(error) => done == RolledBack(error)
        case None =>
          && done.Committed? && done.id == |s.reviews| && Reviews(s, row.caseId, r, key, done.store)
          && done.store == s.(decisions := done.store.decisions, reviews := done.store.reviews,
                              cases := done.store.cases,
                              appeals := s.appeals[appeal := row.(status := Resolved, resolution := Some(done.id))],
                              events := s.events + [AppealEvent(appeal, 2, Resolved, r.reviewer, r.note,
                                                                |s.decisions|)])
  {
    hide Chained, PointersOk, Supported, Owned, Honest, Numbered, ResolutionKey, CreateReview, OfCase, OfTheCase;
    if appeal < |s.appeals| && s.appeals[appeal].caseId in s.cases {
      CreatedExactly(blank, s, s.appeals[appeal].caseId, r, ResolutionKey(appeal, r));
    }
  }

  // ---- over every history ----------------------------------------------------------------

  // The operation at that point of the history opened the appeal, against the decision then in force.
  ghost predicate Opened(blank: string -> bool, s: Store, ops: seq<Operation>, n: nat, appeal: nat, row: AppealRow) {
    && n < |ops| && ops[n].Appealing?
    && var before := Run(blank, s, ops[..n]);
    && |before.appeals| == appeal
    && row.caseId == ops[n].caseId && row.submitter == ops[n].submitter && row.statement == ops[n].statement
    && row.caseId in before.cases && before.cases[row.caseId].current == Some(row.challenged)
    && row.challenged < |before.decisions| && before.decisions[row.challenged].caseId == row.caseId
  }

  lemma OpenedBefore(blank: string -> bool, s: Store, ops: seq<Operation>, more: seq<Operation>, n: nat, appeal: nat,
                     row: AppealRow)
    requires Opened(blank, s, ops, n, appeal, row) && ops <= more
    ensures Opened(blank, s, more, n, appeal, row)
  {
    assert more[..n] == ops[..n] && more[n] == ops[n];
  }

  // A step leaves what an appeal row says of its submission, or opens it.
  lemma StepOpens(blank: string -> bool, s: Store, op: Operation, appeal: nat)
    requires LedgerOk(s) && appeal < |Step(blank, s, op).appeals|
    ensures
      var row := Step(blank, s, op).appeals[appeal];
      if appeal < |s.appeals| then
        row == s.appeals[appeal].(status := row.status, resolution := row.resolution)
      else
        && op.Appealing? && appeal == |s.appeals|
        && row.caseId == op.caseId && row.submitter == op.submitter && row.statement == op.statement
        && row.caseId in s.cases && s.cases[row.caseId].current == Some(row.challenged)
        && row.challenged < |s.decisions| && s.decisions[row.challenged].caseId == row.caseId
  {
    hide Chained, Supported, Owned, Honest, Numbered, Finalize, FindReview, CreateReview;
    if Do(blank, s, op).Committed? {
      match op
      case Finalizing(caseId, allow, origins, item) => FinalizeSparesAppeals(s, caseId, allow, origins, item);
      case Reviewing(caseId, r) => ReviewSparesAppeals(blank, s, caseId, r, ReviewKey(caseId, r));
      case Resolving(a, r) =>
        if a < |s.appeals| {
          ReviewSparesAppeals(blank, s, s.appeals[a].caseId, r, ResolutionKey(a, r));
        }
      case _ =>
    }
  }

  lemma ReviewSparesAppeals(blank: string -> bool, s: Store, caseId: nat, r: Request, key: RequestKey)
    requires Linked(s)
    ensures caseId in s.cases && CreateReview(blank, s, caseId, r, key).Committed? ==>
              CreateReview(blank, s, caseId, r, key).store.appeals == s.appeals
  {
    hide LastDecision, CurrentResults, Selected;
  }

  // Every appeal was made against the decision then in force, which is one of its own case.
  lemma {:induction false} AppealsNameTheDecisionInForce(blank: string -> bool, s: Store, ops: seq<Operation>,
                                                         appeal: nat) returns (n: nat)
    requires Blank(s) && appeal < |Run(blank, s, ops).appeals|
    ensures Opened(blank, s, ops, n, appeal, Run(blank, s, ops).appeals[appeal])
    ensures
      var after := Run(blank, s, ops);
      var row := after.appeals[appeal];
      row.challenged < |after.decisions| && after.decisions[row.challenged].caseId == row.caseId
    decreases |ops|
  {
    BlankIsOk(s);
    hide LedgerOk, Step, Blank, BelongsTo;
    var last := |ops| - 1;
    var before := ops[..last];
    RunKeeps(blank, s, before);
    StepOpens(blank, Run(blank, s, before), ops[last], appeal);
    DecisionsStay(blank, Run(blank, s, before), ops[last]);
    if appeal < |Run(blank, s, before).appeals| {
      n := AppealsNameTheDecisionInForce(blank, s, before, appeal);
      OpenedBefore(blank, s, before, ops, n, appeal, Run(blank, s, before).appeals[appeal]);
    } else {
      n := last;
    }
  }

  lemma DecisionsStay(blank: string -> bool, s: Store, op: Operation)
    requires LedgerOk(s)
    ensures s.decisions <= Step(blank, s, op).decisions
  {
    hide Chained, PointersOk, Supported, Owned, Honest, Numbered, Finalize, FindReview, FindAppeal, LastDecision,
      CurrentResults, Selected;
    if op.Finalizing? && Do(blank, s, op).Committed? {
      FinalizeSparesAppeals(s, op.caseId, op.allow, op.origins, op.item);
    }
  }
}
