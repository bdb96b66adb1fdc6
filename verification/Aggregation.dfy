/** From evidence to the status of a requirement: thresholds on the rows whose sources stand, and the
    table of earlier results keyed by everything the status may depend on. */
module Aggregation {
  import opened Common
  import opened AgentTypes
  import opened Policy
  import opened EvidenceStore

  datatype Status = Satisfied | NotSatisfied | Conflicted | Unknown
  datatype StatusReason =
    | EvidenceConflict
    | SupportThresholdMet
    | ContradictThresholdMet
    | EvidenceMissing
    | EvidenceSourceInvalid
    | EvidenceLowQuality
    | EvidenceUncertain

  datatype Finding = Finding(status: Status, reason: StatusReason)

  // ---- the status of a list of classified rows -------------------------------------------

  predicate Quality(config: AggregationConfig, c: Classified) {
    c.valid && c.evidence.confidence.Some? && c.evidence.confidence.value >= config.minimumConfidence
  }

  predicate Counts(config: AggregationConfig, c: Classified, stance: Stance) {
    Quality(config, c) && c.evidence.stance == stance
  }

  function WithStance(config: AggregationConfig, items: seq<Classified>, stance: Stance): (r: seq<Classified>) {
    if items == [] then []
    else
      var rest := WithStance(config, items[..|items| - 1], stance);
      var last := items[|items| - 1];
      if Counts(config, last, stance) then rest + [last] else rest
  }

  function Find(config: AggregationConfig, items: seq<Classified>): Finding {
    var support := |WithStance(config, items, Support)| >= config.minimumSupporting;
    var contradict := |WithStance(config, items, Contradict)| >= config.minimumContradicting;
    if support && contradict then Finding(Conflicted, EvidenceConflict)
    else if support then Finding(Satisfied, SupportThresholdMet)
    else if contradict then Finding(NotSatisfied, ContradictThresholdMet)
    else if items == [] then Finding(Unknown, EvidenceMissing)
    else if forall c :: c in items ==> !c.valid then Finding(Unknown, EvidenceSourceInvalid)
    else if forall c :: c in items ==> !Quality(config, c) then Finding(Unknown, EvidenceLowQuality)
    else Finding(Unknown, EvidenceUncertain)
  }

  function Used(items: seq<Classified>): set<EvidenceKey> {
    set c | c in items && c.valid :: c.evidence.id
  }

  // ---- the hashed input ------------------------------------------------------------------

  datatype Entry = Entry(
    id: EvidenceKey, stance: Stance, modality: string, start: int, end: int, confidence: Option<real>,
    sourceRef: string, artifact: Option<nat>, toolRun: Option<nat>, modelCall: Option<nat>,
    origin: Option<EvidenceKey>, valid: bool, toolStatus: Option<SourceStatus>,
    modelStatus: Option<SourceStatus>, artifactAvailable: Option<bool>)

  // Rows sorted by identifier carry no more than the set of them.
  datatype Input = Input(semantics: Template, config: AggregationConfig, entries: set<Entry>)

  function EntryOf(c: Classified): Entry {
    var e := c.evidence;
    Entry(e.id, e.stance, e.modality, e.start, e.end, e.confidence, e.sourceRef, e.artifact, e.toolRun,
          e.modelCall, e.origin, c.valid, c.toolStatus, c.modelStatus, c.artifactAvailable)
  }

  function Entries(items: seq<Classified>): set<Entry> {
    set c | c in items :: EntryOf(c)
  }

  // Two rows hash alike exactly when they were classified alike and differ at most in their case and their
  // requirement, which the result names, and in their summary and the replay item that derived them.
  lemma HashedColumns(c: Classified, c': Classified)
    ensures
      var e, e' := c.evidence, c'.evidence;
      EntryOf(c) == EntryOf(c') <==>
        c' == c.(evidence := e.(caseId := e'.caseId, requirementId := e'.requirementId, summary := e'.summary,
                                replayItem := e'.replayItem))
  {
  }

  predicate DistinctItems(items: seq<Classified>) {
    forall i, j :: 0 <= i < j < |items| ==> items[i].evidence.id != items[j].evidence.id
  }

  // What the rows say once their order and their other columns are forgotten.
  ghost predicate EntryQuality(config: AggregationConfig, e: Entry) {
    e.valid && e.confidence.Some? && e.confidence.value >= config.minimumConfidence
  }

  ghost function Backing(config: AggregationConfig, entries: set<Entry>, stance: Stance): set<EvidenceKey> {
    set e | e in entries && EntryQuality(config, e) && e.stance == stance :: e.id
  }

  ghost predicate Met(config: AggregationConfig, entries: set<Entry>, stance: Stance) {
    |Backing(config, entries, stance)| >=
      if stance == Support then config.minimumSupporting else config.minimumContradicting
  }

  ghost function StatusOf(config: AggregationConfig, entries: set<Entry>): Status {
    match (Met(config, entries, Support), Met(config, entries, Contradict))
    case (true, true) => Conflicted
    case (true, false) => Satisfied
    case (false, true) => NotSatisfied
    case (false, false) => Unknown
  }

  ghost function FindingOf(config: AggregationConfig, entries: set<Entry>): Finding {
    match StatusOf(config, entries)
    case Conflicted => Finding(Conflicted, EvidenceConflict)
    case Satisfied => Finding(Satisfied, SupportThresholdMet)
    case NotSatisfied => Finding(NotSatisfied, ContradictThresholdMet)
    case Unknown =>
      Finding(Unknown,
              if entries == {} then EvidenceMissing
              else if forall e :: e in entries ==> !e.valid then EvidenceSourceInvalid
              else if forall e :: e in entries ==> !EntryQuality(config, e) then EvidenceLowQuality
              else EvidenceUncertain)
  }

  ghost function ValidIds(entries: set<Entry>): set<EvidenceKey> {
    set e | e in entries && e.valid :: e.id
  }

  lemma {:induction false} TallyIsBacking(config: AggregationConfig, items: seq<Classified>, stance: Stance)
    requires DistinctItems(items)
    ensures |WithStance(config, items, stance)| == |Backing(config, Entries(items), stance)|
  {
    if items == [] {
      assert Backing(config, Entries(items), stance) == {};
    } else {
      var n := |items| - 1;
      TallyIsBacking(config, items[..n], stance);
      LastIsFresh(config, items, stance);
      EntriesOfLast(items);
      OneMoreEntry(config, Entries(items[..n]), EntryOf(items[n]), stance);
      hide Backing, Entries;
    }
  }

  lemma EntriesOfLast(items: seq<Classified>)
    requires items != []
    ensures Entries(items) == Entries(items[..|items| - 1]) + {EntryOf(items[|items| - 1])}
  {
    assert items == items[..|items| - 1] + [items[|items| - 1]];
  }

  lemma LastIsFresh(config: AggregationConfig, items: seq<Classified>, stance: Stance)
    requires DistinctItems(items) && items != []
    ensures items[|items| - 1].evidence.id !in Backing(config, Entries(items[..|items| - 1]), stance)
  {
    var n := |items| - 1;
    forall c | c in items[..n]
      ensures EntryOf(c).id != items[n].evidence.id
    {
      var i :| 0 <= i < n && items[i] == c;
    }
  }

  lemma OneMoreEntry(config: AggregationConfig, entries: set<Entry>, e: Entry, stance: Stance)
    ensures Backing(config, entries + {e}, stance)
            == Backing(config, entries, stance) + if EntryQuality(config, e) && e.stance == stance then {e.id} else {}
  {
    var after := Backing(config, entries + {e}, stance);
    forall id | id in Backing(config, entries, stance)
      ensures id in after
    {
      var x :| x in entries && EntryQuality(config, x) && x.stance == stance && x.id == id;
      assert x in entries + {e};
    }
    assert e in entries + {e};
  }

  // The status, the reason and the evidence used are functions of the hashed input alone.
  lemma FindingIsOfTheInput(config: AggregationConfig, items: seq<Classified>)
    requires DistinctItems(items)
    ensures Find(config, items) == FindingOf(config, Entries(items))
    ensures Used(items) == ValidIds(Entries(items))
  {
    TallyIsBacking(config, items, Support);
    TallyIsBacking(config, items, Contradict);
    var entries := Entries(items);
    forall c | c in items
      ensures EntryOf(c) in entries && EntryOf(c).valid == c.valid
      ensures EntryQuality(config, EntryOf(c)) == Quality(config, c)
    {
    }
    assert items == [] <==> entries == {} by {
      if items != [] {
        assert EntryOf(items[0]) in entries;
      }
    }
    assert Used(items) == ValidIds(entries) by {
      forall c | c in items && c.valid
        ensures c.evidence.id in ValidIds(entries)
      {
        assert EntryOf(c) in entries && EntryOf(c).valid && EntryOf(c).id == c.evidence.id;
      }
    }
  }

  // The order in which the rows were stored does not matter.
  lemma RowOrderDoesNotMatter(config: AggregationConfig, items: seq<Classified>, items': seq<Classified>)
    requires DistinctItems(items) && DistinctItems(items')
    requires forall c :: c in items <==> c in items'
    ensures Find(config, items) == Find(config, items')
    ensures Used(items) == Used(items')
  {
    assert Entries(items) == Entries(items');
    FindingIsOfTheInput(config, items);
    FindingIsOfTheInput(config, items');
  }

  // ---- the information order -------------------------------------------------------------

  // UNKNOWN below SATISFIED and NOT_SATISFIED, which are both below CONFLICTED.
  predicate Below(a: Status, b: Status) {
    a == b || a == Unknown || b == Conflicted
  }

  lemma SubsetSize<T>(a: set<T>, b: set<T>)
    requires a <= b
    ensures |a| <= |b|
  {
    if a != {} {
      var x :| x in a;
      SubsetSize(a - {x}, b - {x});
    }
  }

  // More information: more rows of quality, and thresholds that are not higher.
  ghost predicate Informs(config: AggregationConfig, items: seq<Classified>,
                          config': AggregationConfig, items': seq<Classified>) {
    && config'.minimumConfidence <= config.minimumConfidence
    && config'.minimumSupporting <= config.minimumSupporting
    && config'.minimumContradicting <= config.minimumContradicting
    && forall c :: c in items && c.valid ==>
         exists c' :: c' in items' && c'.valid && c'.evidence == c.evidence
  }

  // Aggregation never loses information: adding rows while the old ones keep standing moves no status
  // down or sideways, and raising a threshold moves none up.
  lemma MoreInformationMovesUp(config: AggregationConfig, items: seq<Classified>,
                               config': AggregationConfig, items': seq<Classified>)
    requires DistinctItems(items) && DistinctItems(items') && Informs(config, items, config', items')
    ensures Below(Find(config, items).status, Find(config', items').status)
  {
    FindingIsOfTheInput(config, items);
    FindingIsOfTheInput(config', items');
    MoreBacking(config, items, config', items', Support);
    MoreBacking(config, items, config', items', Contradict);
  }

  lemma MoreBacking(config: AggregationConfig, items: seq<Classified>, config': AggregationConfig,
                    items': seq<Classified>, stance: Stance)
    requires Informs(config, items, config', items')
    ensures |Backing(config, Entries(items), stance)| <= |Backing(config', Entries(items'), stance)|
  {
    var before, after := Backing(config, Entries(items), stance), Backing(config', Entries(items'), stance);
    forall id | id in before
      ensures id in after
    {
      var e :| e in Entries(items) && EntryQuality(config, e) && e.stance == stance && e.id == id;
      var c :| c in items && EntryOf(c) == e;
      var c' :| c' in items' && c'.valid && c'.evidence == c.evidence;
      assert EntryOf(c') in Entries(items') && EntryQuality(config', EntryOf(c'));
    }
    SubsetSize(before, after);
  }

  // ---- requirements and their results ----------------------------------------------------

  datatype ResultKey = ResultKey(requirementId: nat, input: Input)

  datatype RequirementRow = RequirementRow(
    id: nat,
    caseId: nat,
    template: Template,
    status: Option<Status>,          // None: pending
    current: Option<ResultKey>)

  datatype ResultRow = ResultRow(
    id: ResultKey,
    sequence: nat,
    finding: Finding,
    evidence: set<EvidenceKey>,
    origin: Option<ResultKey>,
    replayItem: Option<nat>)

  datatype Outcome = Outcome(
    result: ResultKey,
    key: string,
    finding: Finding,
    evidence: set<EvidenceKey>,
    ignored: set<EvidenceKey>)

  function ItemsOf(t: Tables, q: RequirementRow): (r: seq<Classified>) {
    ClassifyAll(t, q.id, q.caseId, q.template.modalities, ListFor(t.rows, q.id))
  }

  function KeyOf(t: Tables, q: RequirementRow, config: AggregationConfig): ResultKey {
    ResultKey(q.id, Input(q.template, config, Entries(ItemsOf(t, q))))
  }

  function FindResult(results: seq<ResultRow>, id: ResultKey): (r: Option<ResultRow>)
    ensures r.Some? ==> r.value in results && r.value.id == id
    ensures r.None? ==> forall row :: row in results ==> row.id != id
  {
    if results == [] then None
    else if results[0].id == id then Some(results[0])
    else FindResult(results[1..], id)
  }

  function LastSequence(results: seq<ResultRow>, requirementId: nat): nat {
    if results == [] then 0
    else
      var rest := LastSequence(results[..|results| - 1], requirementId);
      var last := results[|results| - 1];
      if last.id.requirementId == requirementId && last.sequence > rest then last.sequence else rest
  }

  function NewResult(results: seq<ResultRow>, t: Tables, q: RequirementRow, config: AggregationConfig,
                     origin: Option<ResultKey>, item: Option<nat>): ResultRow {
    var items := ItemsOf(t, q);
    ResultRow(KeyOf(t, q, config), LastSequence(results, q.id) + 1, Find(config, items), Used(items), origin, item)
  }

  // The table after one aggregation, and the row that answers it.
  datatype Aggregated = Aggregated(results: seq<ResultRow>, row: ResultRow)

  function Aggregate(results: seq<ResultRow>, t: Tables, q: RequirementRow, config: AggregationConfig,
                     origin: Option<ResultKey>, item: Option<nat>): Aggregated {
    match FindResult(results, KeyOf(t, q, config))
    case Some(row) => Aggregated(results, row)
    case None =>
      var row := NewResult(results, t, q, config, origin, item);
      Aggregated(results + [row], row)
  }

  function OutcomeOf(t: Tables, q: RequirementRow, row: ResultRow): Outcome {
    var all := set c | c in ItemsOf(t, q) :: c.evidence.id;
    Outcome(row.id, q.template.key, row.finding, row.evidence, all - row.evidence)
  }

  function Point(q: RequirementRow, row: ResultRow): RequirementRow {
    q.(status := Some(row.finding.status), current := Some(row.id))
  }

  /** The aggregator over the result table and the requirement rows of the open session. */
  class RequirementAggregator {
    var results: seq<ResultRow>
    var requirements: map<nat, RequirementRow>

    constructor (results: seq<ResultRow>, requirements: map<nat, RequirementRow>)
      ensures this.results == results && this.requirements == requirements
    {
      this.results, this.requirements := results, requirements;
    }

    method Weigh(config: AggregationConfig, classified: seq<Classified>) returns (finding: Finding)
      ensures finding == Find(config, classified)
    {
      var support := WithStance(config, classified, Support);
      var contradict := WithStance(config, classified, Contradict);
      if |support| >= config.minimumSupporting && |contradict| >= config.minimumContradicting {
        finding := Finding(Conflicted, EvidenceConflict);
      } else if |support| >= config.minimumSupporting {
        finding := Finding(Satisfied, SupportThresholdMet);
      } else if |contradict| >= config.minimumContradicting {
        finding := Finding(NotSatisfied, ContradictThresholdMet);
      } else if classified == [] {
        finding := Finding(Unknown, EvidenceMissing);
      } else if forall c :: c in classified ==> !c.valid {
        finding := Finding(Unknown, EvidenceSourceInvalid);
      } else if forall c :: c in classified ==> !Quality(config, c) {
        finding := Finding(Unknown, EvidenceLowQuality);
      } else {
        finding := Finding(Unknown, EvidenceUncertain);
      }
    }

    method AggregateOne(t: Tables, id: nat, config: AggregationConfig, origin: Option<ResultKey>, item: Option<nat>)
      returns (outcome: Outcome)
      requires id in requirements && requirements[id].id == id
      modifies this
      ensures
        var q := old(requirements)[id];
        var a := Aggregate(old(results), t, q, config, origin, item);
        && results == a.results
        && requirements == old(requirements)[id := Point(q, a.row)]
        && outcome == OutcomeOf(t, q, a.row)
    {
      hide Find, Used, Entries, LastSequence, ClassifyAll, Classify, ListFor;
      var q := requirements[id];
      var classified := ClassifyAll(t, q.id, q.caseId, q.template.modalities, ListFor(t.rows, q.id));
      var input := Input(q.template, config, Entries(classified));
      var existing := FindResult(results, ResultKey(id, input));
      if existing.Some? {
        requirements := requirements[id := q.(status := Some(existing.value.finding.status),
                                              current := Some(existing.value.id))];
        return OutcomeOf(t, q, existing.value);
      }
      var finding := Weigh(config, classified);
      var next := LastSequence(results, id) + 1;
      var record := ResultRow(ResultKey(id, input), next, finding, Used(classified), origin, item);
      results := results + [record];
      requirements := requirements[id := q.(status := Some(finding.status), current := Some(record.id))];
      outcome := OutcomeOf(t, q, record);
    }
  }

  // ---- every history of aggregations -----------------------------------------------------

  // One call, with the tables and the configuration it meets: between two calls both may change freely.
  datatype Call = Call(
    tables: Tables, requirement: RequirementRow, config: AggregationConfig,
    origin: Option<ResultKey>, item: Option<nat>)

  function After(results: seq<ResultRow>, c: Call): Aggregated {
    Aggregate(results, c.tables, c.requirement, c.config, c.origin, c.item)
  }

  function History(calls: seq<Call>): seq<ResultRow> {
    if calls == [] then []
    else After(History(calls[..|calls| - 1]), calls[|calls| - 1]).results
  }

  ghost predicate Proper(calls: seq<Call>) {
    forall c :: c in calls ==> DistinctIds(c.tables.rows)
  }

  // Every stored row is what its own input says, and no input is stored twice.
  ghost predicate Honest(results: seq<ResultRow>) {
    && (forall row :: row in results ==>
          && row.finding == FindingOf(row.id.input.config, row.id.input.entries)
          && row.evidence == ValidIds(row.id.input.entries))
    && forall i, j :: 0 <= i < j < |results| ==> results[i].id != results[j].id
  }

  ghost function OfRequirement(results: seq<ResultRow>, requirementId: nat): (r: seq<ResultRow>) {
    if results == [] then []
    else
      var rest := OfRequirement(results[..|results| - 1], requirementId);
      var last := results[|results| - 1];
      if last.id.requirementId == requirementId then rest + [last] else rest
  }

  // The rows of every requirement are numbered from one without a gap.
  ghost predicate Numbered(results: seq<ResultRow>) {
    forall id: nat, k :: 0 <= k < |OfRequirement(results, id)| ==> OfRequirement(results, id)[k].sequence == k + 1
  }

  lemma {:induction false} LastIsCount(results: seq<ResultRow>, id: nat)
    requires forall k :: 0 <= k < |OfRequirement(results, id)| ==> OfRequirement(results, id)[k].sequence == k + 1
    ensures LastSequence(results, id) == |OfRequirement(results, id)|
  {
    if results != [] {
      var before := results[..|results| - 1];
      var rows, rest := OfRequirement(results, id), OfRequirement(before, id);
      assert forall k :: 0 <= k < |rest| ==> rest[k] == rows[k];
      LastIsCount(before, id);
      if results[|results| - 1].id.requirementId == id {
        assert rows[|rest|] == results[|results| - 1];
      }
    }
  }

  lemma ItemsAreDistinct(t: Tables, q: RequirementRow)
    requires DistinctIds(t.rows)
    ensures DistinctItems(ItemsOf(t, q))
  {
  }

  // A new row takes the next number of its requirement.
  lemma NumberedNext(results: seq<ResultRow>, row: ResultRow)
    requires Numbered(results) && row.sequence == LastSequence(results, row.id.requirementId) + 1
    ensures Numbered(results + [row])
  {
    var after := results + [row];
    assert after[..|results|] == results;
    forall id: nat, k | 0 <= k < |OfRequirement(after, id)|
      ensures OfRequirement(after, id)[k].sequence == k + 1
    {
      LastIsCount(results, id);
    }
  }

  lemma HonestNext(results: seq<ResultRow>, c: Call)
    requires Honest(results) && DistinctIds(c.tables.rows)
    ensures Honest(After(results, c).results)
  {
    ItemsAreDistinct(c.tables, c.requirement);
    FindingIsOfTheInput(c.config, ItemsOf(c.tables, c.requirement));
    hide ItemsOf, Find, Used, FindingOf, ValidIds, LastSequence;
  }

  lemma AggregateKeeps(results: seq<ResultRow>, c: Call)
    requires Honest(results) && Numbered(results) && DistinctIds(c.tables.rows)
    ensures Honest(After(results, c).results) && Numbered(After(results, c).results)
    ensures After(results, c).row in After(results, c).results
    ensures After(results, c).row.id == KeyOf(c.tables, c.requirement, c.config)
  {
    HonestNext(results, c);
    hide Honest, Numbered, ItemsOf, Find, Used;
    var row := After(results, c).row;
    if FindResult(results, KeyOf(c.tables, c.requirement, c.config)).None? {
      NumberedNext(results, row);
    }
  }

  lemma {:induction false} HistoryIsHonest(calls: seq<Call>)
    requires Proper(calls)
    ensures Honest(History(calls)) && Numbered(History(calls))
  {
    if calls != [] {
      var before := calls[..|calls| - 1];
      assert calls[|calls| - 1] in calls && forall c :: c in before ==> c in calls;
      HistoryIsHonest(before);
      AggregateKeeps(History(before), calls[|calls| - 1]);
    }
  }

  // Whatever happened before, an aggregation answers what computing it afresh would answer; the rows of
  // each requirement stay numbered 1..n.
  lemma CacheAgreesWithRecomputation(calls: seq<Call>, c: Call)
    requires Proper(calls) && DistinctIds(c.tables.rows)
    ensures
      var a := After(History(calls), c);
      var items := ItemsOf(c.tables, c.requirement);
      && a.row.finding == Find(c.config, items)
      && a.row.evidence == Used(items)
      && Numbered(a.results)
  {
    HistoryIsHonest(calls);
    AggregateKeeps(History(calls), c);
    ItemsAreDistinct(c.tables, c.requirement);
    FindingIsOfTheInput(c.config, ItemsOf(c.tables, c.requirement));
  }

  // Asking again, at any later point of the history and even with other bookkeeping arguments, is
  // answered by the same row and adds none.
  lemma RepeatedCallAddsNoRow(calls: seq<Call>, c: Call, later: seq<Call>, c': Call)
    requires Proper(calls + [c] + later) && DistinctIds(c'.tables.rows)
    requires c'.requirement.id == c.requirement.id && c'.requirement.template == c.requirement.template
    requires c'.config == c.config
    requires Entries(ItemsOf(c'.tables, c'.requirement)) == Entries(ItemsOf(c.tables, c.requirement))
    ensures
      var results := History(calls + [c] + later);
      After(results, c') == Aggregated(results, After(History(calls), c).row)
  {
    var all := calls + [c] + later;
    var first := calls + [c];
    assert first[..|calls|] == calls;
    assert History(first) == After(History(calls), c).results;
    HistoryIsHonest(calls) by {
      assert forall x :: x in calls ==> x in all;
    }
    assert c in all;
    AggregateKeeps(History(calls), c);
    RowsStay(first, later);
    HistoryIsHonest(all);
    var row := After(History(calls), c).row;
    assert row in History(all);
  }

  lemma {:induction false} RowsStay(calls: seq<Call>, later: seq<Call>)
    ensures forall row :: row in History(calls) ==> row in History(calls + later)
  {
    if later == [] {
      assert calls + later == calls;
    } else {
      var n := |later| - 1;
      RowsStay(calls, later[..n]);
      assert (calls + later)[..|calls| + n] == calls + later[..n];
    }
  }

  // ---- new rows in the table -------------------------------------------------------------

  // Rows are only ever added; their sources are untouched.
  ghost predicate Appended(t: Tables, t': Tables) {
    t' == t.(rows := t'.rows) && t.rows <= t'.rows
  }

  lemma StandingRowsStand(t: Tables, t': Tables, q: RequirementRow, e: Evidence)
    requires Appended(t, t')
    requires Classify(t, q.id, q.caseId, q.template.modalities, e).valid
    ensures Classify(t', q.id, q.caseId, q.template.modalities, e).valid
  {
  }

  // New evidence can complete or contradict what is known of a requirement, never take it back.
  lemma NewEvidenceMovesUp(t: Tables, t': Tables, q: RequirementRow, config: AggregationConfig)
    requires Appended(t, t') && DistinctIds(t'.rows)
    ensures Below(Find(config, ItemsOf(t, q)).status, Find(config, ItemsOf(t', q)).status)
  {
    var items, items' := ItemsOf(t, q), ItemsOf(t', q);
    assert DistinctIds(t.rows);
    ItemsAreDistinct(t, q);
    ItemsAreDistinct(t', q);
    forall c | c in items && c.valid
      ensures exists c' :: c' in items' && c'.valid && c'.evidence == c.evidence
    {
      var e := c.evidence;
      assert e in ListFor(t.rows, q.id);
      assert e in t'.rows;
      StandingRowsStand(t, t', q, e);
      var i :| 0 <= i < |ListFor(t'.rows, q.id)| && ListFor(t'.rows, q.id)[i] == e;
      assert items'[i].evidence == e && items'[i].valid;
    }
    MoreInformationMovesUp(config, items, config, items');
  }

  // ---- clips -----------------------------------------------------------------------------

  // A clip is recorded under the modality "video", which no kind of requirement admits: a requirement that
  // was investigated on clips alone has no valid row, so it stays open whatever the rows say.
  lemma ClipsSettleNothing(t: Tables, q: RequirementRow, config: AggregationConfig, kind: RequirementType)
    requires q.template.modalities == Modalities(kind) && WellConfigured(config)
    requires forall e :: e in t.rows && e.requirementId == q.id ==> e.modality == "video"
    ensures
      var finding := Find(config, ItemsOf(t, q));
      && Used(ItemsOf(t, q)) == {}
      && finding.status == Unknown
      && finding.reason == (if exists e :: e in t.rows && e.requirementId == q.id then EvidenceSourceInvalid
                            else EvidenceMissing)
  {
    var list, items := ListFor(t.rows, q.id), ItemsOf(t, q);
    forall k | 0 <= k < |items|
      ensures !items[k].valid
    {
      assert list[k] in list;
      NoKindAdmitsVideo(kind);
    }
    NothingCounts(config, items, Support);
    NothingCounts(config, items, Contradict);
    if e :| e in t.rows && e.requirementId == q.id {
      assert e in list;
    }
    if items != [] {
      assert list[0] in list;
    }
    hide Classify;
  }

  lemma NoKindAdmitsVideo(kind: RequirementType)
    ensures !ModalityAllowed("video", Modalities(kind))
  {
    assert |"video"| == 5 && |"vision"| == 6 && |"transcript"| == 10 && |"ocr"| == 3;
    assert |"clip"| == 4 && |"keyframe"| == 8 && |"visual_caption"| == 14;
    assert forall m :: m in Modalities(kind) ==> |m| != 5;
  }

  lemma {:induction false} NothingCounts(config: AggregationConfig, items: seq<Classified>, stance: Stance)
    requires forall k :: 0 <= k < |items| ==> !items[k].valid
    ensures WithStance(config, items, stance) == []
  {
    if items != [] {
      NothingCounts(config, items[..|items| - 1], stance);
    }
  }
}
