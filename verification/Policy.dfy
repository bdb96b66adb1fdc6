/** Policy documents and their compiled form: closed all/any expressions over requirement keys, and
    one requirement template per requirement and per exception. */
module Policy {
  import opened AgentTypes

  // ---- expressions -----------------------------------------------------------------------

  // Exactly one operator is present at every inner node.
  datatype Expression =
    | Leaf(key: string)
    | All(children: seq<Expression>)
    | Any(children: seq<Expression>)

  predicate Filled(e: Expression) {
    match e
    case Leaf(_) => true
    case All(children) => children != [] && forall i :: 0 <= i < |children| ==> Filled(children[i])
    case Any(children) => children != [] && forall i :: 0 <= i < |children| ==> Filled(children[i])
  }

  predicate Mentions(e: Expression, key: string) {
    match e
    case Leaf(k) => k == key
    case All(children) => exists i :: 0 <= i < |children| && Mentions(children[i], key)
    case Any(children) => exists i :: 0 <= i < |children| && Mentions(children[i], key)
  }

  method References(e: Expression) returns (keys: set<string>)
    ensures forall key :: key in keys <==> Mentions(e, key)
  {
    if e.Leaf? {
      return {e.key};
    }
    keys := {};
    for i := 0 to |e.children|
      invariant forall key :: key in keys <==> exists j :: 0 <= j < i && Mentions(e.children[j], key)
    {
      var more := References(e.children[i]);
      keys := keys + more;
    }
  }

  // ---- documents -------------------------------------------------------------------------

  datatype RequirementType = VisualPresence | TemporalContext | SpeechContent | TextPresence
  datatype Severity = Low | Medium | High | Critical

  datatype RequirementSpec =
    RequirementSpec(id: string, kind: RequirementType, required: bool, description: string)

  datatype AggregationConfig =
    AggregationConfig(minimumConfidence: real, minimumSupporting: nat, minimumContradicting: nat)

  datatype Document = Document(
    id: string,
    version: nat,
    name: string,
    enabled: bool,
    severity: Severity,
    terms: seq<string>,
    requirements: seq<RequirementSpec>,
    exceptions: seq<string>,
    aggregation: AggregationConfig,
    rejectWhen: Expression,
    escalateWhen: Expression)

  datatype ExceptionDefinition =
    ExceptionDefinition(description: string, kind: RequirementType, terms: seq<string>)
  type Catalog = map<string, ExceptionDefinition>

  const UNRESOLVED_EXCEPTION := "unresolved_exception"
  const CONTRADICTORY_EVIDENCE := "contradictory_evidence"

  predicate IsSentinel(key: string) {
    key == UNRESOLVED_EXCEPTION || key == CONTRADICTORY_EVIDENCE
  }

  const RESERVED := "exception"

  predicate Reserved(id: string) {
    RESERVED <= id
  }

  function ExceptionKey(id: string): string {
    "exception." + id
  }

  predicate Unique<T(==)>(s: seq<T>) {
    forall i, j :: 0 <= i < j < |s| ==> s[i] != s[j]
  }

  function SpecIds(specs: seq<RequirementSpec>): (ids: seq<string>)
    ensures |ids| == |specs|
    ensures forall i :: 0 <= i < |specs| ==> ids[i] == specs[i].id
  {
    seq(|specs|, i requires 0 <= i < |specs| => specs[i].id)
  }

  predicate WellConfigured(config: AggregationConfig) {
    && 0.0 <= config.minimumConfidence <= 1.0
    && 1 <= config.minimumSupporting <= 20
    && 1 <= config.minimumContradicting <= 20
  }

  ghost predicate ValidDocument(doc: Document, catalog: Catalog) {
    && doc.version >= 1
    && doc.terms != [] && doc.requirements != []
    && (forall i :: 0 <= i < |doc.requirements| ==> !Reserved(doc.requirements[i].id))
    && WellConfigured(doc.aggregation)
    && !doc.rejectWhen.Leaf? && Filled(doc.rejectWhen)
    && !doc.escalateWhen.Leaf? && Filled(doc.escalateWhen)
    && Unique(SpecIds(doc.requirements))
    && Unique(doc.terms)
    && Unique(doc.exceptions)
    && (forall id :: id in doc.exceptions ==> id in catalog)
    && (forall key :: Mentions(doc.rejectWhen, key) ==> key in SpecIds(doc.requirements))
    && (forall key :: Mentions(doc.escalateWhen, key) ==>
          key in SpecIds(doc.requirements) || IsSentinel(key)
          || exists id :: id in doc.exceptions && key == ExceptionKey(id))
  }

  // ---- the compiler ----------------------------------------------------------------------

  // Every field below is hashed into the template's semantic hash, so equal hashes are equal templates.
  datatype Template = Template(
    key: string,
    kind: RequirementType,
    source: SourceKind,
    required: bool,
    description: string,
    queries: seq<string>,
    modalities: seq<string>,
    tools: seq<Tool>)

  datatype CompiledPolicy = CompiledPolicy(
    id: string,
    version: nat,
    enabled: bool,
    severity: Severity,
    terms: seq<string>,
    name: string,
    requirements: seq<Template>,
    aggregation: AggregationConfig,
    rejectWhen: Expression,
    escalateWhen: Expression)

  function Modalities(kind: RequirementType): seq<string> {
    match kind
    case VisualPresence => ["vision"]
    case TemporalContext => ["vision", "transcript"]
    case SpeechContent => ["transcript"]
    case TextPresence => ["ocr"]
  }

  function Tools(kind: RequirementType): seq<Tool> {
    match kind
    case VisualPresence => [SearchVisualCaption, InspectClip]
    case TemporalContext => [ExpandTemporalContext, GetNeighborSegments]
    case SpeechContent => [SearchTranscript]
    case TextPresence => [SearchOcr]
  }

  // Trimmed, non-empty, first occurrences only.
  function Distinct(values: seq<string>, strip: string -> string): (r: seq<string>)
    ensures Unique(r)
    ensures forall v :: v in r <==> v != "" && exists i :: 0 <= i < |values| && strip(values[i]) == v
  {
    if values == [] then []
    else
      var n := |values| - 1;
      var rest := Distinct(values[..n], strip);
      var last := strip(values[n]);
      if last == "" || last in rest then rest else rest + [last]
  }

  // Some source of the one value comes before every source of the other.
  predicate OccursFirst(values: seq<string>, strip: string -> string, v: string, other: string) {
    exists i :: 0 <= i < |values| && strip(values[i]) == v && forall j :: 0 <= j <= i ==> strip(values[j]) != other
  }

  lemma {:induction false} DistinctInOrder(values: seq<string>, strip: string -> string, a: nat, b: nat)
    requires a < b < |Distinct(values, strip)|
    ensures OccursFirst(values, strip, Distinct(values, strip)[a], Distinct(values, strip)[b])
  {
    var n := |values| - 1;
    var rest := Distinct(values[..n], strip);
    var r := Distinct(values, strip);
    if b < |rest| {
      DistinctInOrder(values[..n], strip, a, b);
      var i :| 0 <= i < |values[..n]| && strip(values[..n][i]) == r[a]
               && forall j :: 0 <= j <= i ==> strip(values[..n][j]) != r[b];
      assert strip(values[i]) == r[a];
      assert forall j :: 0 <= j <= i ==> values[..n][j] == values[j];
    } else {
      assert rest[a] in rest && r[b] !in rest;
      var i :| 0 <= i < |values[..n]| && strip(values[..n][i]) == rest[a];
      assert strip(values[i]) == r[a];
      forall j | 0 <= j <= i
        ensures strip(values[j]) != r[b]
      {
        assert values[..n][j] == values[j];
      }
    }
  }

  // Exactly the trimmed non-empty values, each once, in the order of their first occurrences.
  lemma DistinctKeepsFirsts(values: seq<string>, strip: string -> string)
    ensures
      var r := Distinct(values, strip);
      && Unique(r)
      && (forall v :: v in r <==> v != "" && exists i :: 0 <= i < |values| && strip(values[i]) == v)
      && forall a, b :: 0 <= a < b < |r| ==> OccursFirst(values, strip, r[a], r[b])
  {
    var r := Distinct(values, strip);
    forall a, b | 0 <= a < b < |r|
      ensures OccursFirst(values, strip, r[a], r[b])
    {
      DistinctInOrder(values, strip, a, b);
    }
  }

  function Ordinary(spec: RequirementSpec, terms: seq<string>, strip: string -> string): Template {
    Template(spec.id, spec.kind, SourceKind.Ordinary, spec.required, spec.description,
             Distinct([spec.description] + terms, strip), Modalities(spec.kind), Tools(spec.kind))
  }

  function Exceptional(id: string, definition: ExceptionDefinition): Template {
    Template(ExceptionKey(id), definition.kind, SourceKind.Exceptional, true, definition.description,
             definition.terms, Modalities(definition.kind), Tools(definition.kind))
  }

  function Compile(doc: Document, catalog: Catalog, strip: string -> string): (p: CompiledPolicy)
    requires forall id :: id in doc.exceptions ==> id in catalog
    ensures |p.requirements| == |doc.requirements| + |doc.exceptions|
  {
    var ordinary := seq(|doc.requirements|,
                        i requires 0 <= i < |doc.requirements| => Ordinary(doc.requirements[i], doc.terms, strip));
    var exceptional := seq(|doc.exceptions|,
                           i requires 0 <= i < |doc.exceptions| =>
                             Exceptional(doc.exceptions[i], catalog[doc.exceptions[i]]));
    CompiledPolicy(doc.id, doc.version, doc.enabled, doc.severity, doc.terms, doc.name, ordinary + exceptional,
                   doc.aggregation, doc.rejectWhen, doc.escalateWhen)
  }

  predicate UniqueKeys(requirements: seq<Template>) {
    forall i, j :: 0 <= i < j < |requirements| ==> requirements[i].key != requirements[j].key
  }

  predicate ExceptionsRequired(requirements: seq<Template>) {
    forall i :: 0 <= i < |requirements| && requirements[i].source == SourceKind.Exceptional ==> requirements[i].required
  }

  // What evaluation, aggregation and replay rely on.
  ghost predicate WellFormed(p: CompiledPolicy) {
    && p.version >= 1
    && UniqueKeys(p.requirements)
    && ExceptionsRequired(p.requirements)
    && WellConfigured(p.aggregation)
    && Filled(p.rejectWhen) && Filled(p.escalateWhen)
    && (forall key :: Mentions(p.rejectWhen, key) ==>
          exists i :: 0 <= i < |p.requirements| && p.requirements[i].key == key
                      && p.requirements[i].source == SourceKind.Ordinary)
    && (forall key :: Mentions(p.escalateWhen, key) && !IsSentinel(key) ==>
          exists i :: 0 <= i < |p.requirements| && p.requirements[i].key == key)
  }

  // An ordinary identifier never meets an exception key, so the compiled keys stay distinct, every
  // exception is mandatory, and each expression refers to compiled requirements only.
  lemma CompiledIsWellFormed(doc: Document, catalog: Catalog, strip: string -> string)
    requires ValidDocument(doc, catalog)
    ensures WellFormed(Compile(doc, catalog, strip))
  {
    var p := Compile(doc, catalog, strip);
    var n := |doc.requirements|;
    var ids := SpecIds(doc.requirements);
    forall i, j | 0 <= i < j < |p.requirements|
      ensures p.requirements[i].key != p.requirements[j].key
    {
      if i < n <= j {
        assert !Reserved(doc.requirements[i].id);
        assert ExceptionKey(doc.exceptions[j - n])[..|RESERVED|] == RESERVED;
      } else if n <= i {
        var a, b := doc.exceptions[i - n], doc.exceptions[j - n];
        assert ExceptionKey(a)[10..] == a && ExceptionKey(b)[10..] == b;
      } else {
        assert ids[i] != ids[j];
      }
    }
    forall key | Mentions(p.rejectWhen, key)
      ensures exists i :: 0 <= i < |p.requirements| && p.requirements[i].key == key
                          && p.requirements[i].source == SourceKind.Ordinary
    {
      var i :| 0 <= i < |ids| && ids[i] == key;
      assert p.requirements[i].key == key;
    }
    forall key | Mentions(p.escalateWhen, key) && !IsSentinel(key)
      ensures exists i :: 0 <= i < |p.requirements| && p.requirements[i].key == key
    {
      if key in ids {
        var i :| 0 <= i < |ids| && ids[i] == key;
        assert p.requirements[i].key == key;
      } else {
        var i :| 0 <= i < |doc.exceptions| && key == ExceptionKey(doc.exceptions[i]);
        assert p.requirements[n + i].key == key;
      }
    }
  }

  // What may be shown in evidence of each kind, and with which tools it is looked for.
  ghost predicate SuitedTo(kind: RequirementType, modalities: set<string>, tools: set<Tool>) {
    && ("ocr" in modalities <==> kind == TextPresence)
    && ("transcript" in modalities <==> kind == SpeechContent || kind == TemporalContext)
    && ("vision" in modalities <==> kind == VisualPresence || kind == TemporalContext)
    && modalities <= {"ocr", "transcript", "vision"}
    && (SearchOcr in tools <==> kind == TextPresence)
    && (SearchTranscript in tools <==> kind == SpeechContent)
    && (SearchVisualCaption in tools <==> kind == VisualPresence)
    && (InspectClip in tools <==> kind == VisualPresence)
    && (ExpandTemporalContext in tools <==> kind == TemporalContext)
    && (GetNeighborSegments in tools <==> kind == TemporalContext)
    && tools <= {SearchOcr, SearchTranscript, SearchVisualCaption, InspectClip, ExpandTemporalContext,
                 GetNeighborSegments}
  }

  // Every requirement of the document becomes one template that says the same, every exception a mandatory
  // one that says what the catalog does, in this order; the rest of the document stays as it is written.
  lemma CompiledAsWritten(doc: Document, catalog: Catalog, strip: string -> string)
    requires ValidDocument(doc, catalog)
    ensures
      var p := Compile(doc, catalog, strip);
      var n := |doc.requirements|;
      && |p.requirements| == n + |doc.exceptions|
      && (forall i :: 0 <= i < n ==>
            var t := p.requirements[i];
            && RequirementSpec(t.key, t.kind, t.required, t.description) == doc.requirements[i]
            && t.source == SourceKind.Ordinary
            && (forall v :: v in t.queries <==>
                  v != ""
                  && (v == strip(t.description) || exists j :: 0 <= j < |doc.terms| && v == strip(doc.terms[j]))))
      && (forall i :: 0 <= i < |doc.exceptions| ==>
            var t, definition := p.requirements[n + i], catalog[doc.exceptions[i]];
            && t.key == "exception." + doc.exceptions[i] && t.required && t.source == SourceKind.Exceptional
            && ExceptionDefinition(t.description, t.kind, t.queries) == definition)
      && (forall t :: t in p.requirements ==>
            SuitedTo(t.kind, set m | m in t.modalities, set tool | tool in t.tools))
      && Document(p.id, p.version, p.name, p.enabled, p.severity, p.terms, doc.requirements, doc.exceptions,
                  AggregationConfig(p.aggregation.minimumConfidence, p.aggregation.minimumSupporting,
                                    p.aggregation.minimumContradicting),
                  p.rejectWhen, p.escalateWhen) == doc
  {
    hide SuitedTo, Distinct, Modalities, Tools, Compile, ValidDocument;
    TemplatesInOrder(doc, catalog, strip);
    RestAsWritten(doc, catalog, strip);
    var p := Compile(doc, catalog, strip);
    forall i, v | 0 <= i < |doc.requirements|
      ensures v in p.requirements[i].queries <==>
        v != "" && (v == strip(doc.requirements[i].description)
                    || exists j :: 0 <= j < |doc.terms| && v == strip(doc.terms[j]))
    {
      QueriesOf(doc.requirements[i].description, doc.terms, strip, v);
    }
    forall t | t in p.requirements
      ensures SuitedTo(t.kind, set m | m in t.modalities, set tool | tool in t.tools)
    {
      KindsAreSuited(t.kind);
    }
  }

  lemma TemplatesInOrder(doc: Document, catalog: Catalog, strip: string -> string)
    requires ValidDocument(doc, catalog)
    ensures
      var p := Compile(doc, catalog, strip);
      var n := |doc.requirements|;
      && |p.requirements| == n + |doc.exceptions|
      && (forall i :: 0 <= i < n ==> p.requirements[i] == Ordinary(doc.requirements[i], doc.terms, strip))
      && (forall i :: 0 <= i < |doc.exceptions| ==>
            doc.exceptions[i] in catalog
            && p.requirements[n + i] == Exceptional(doc.exceptions[i], catalog[doc.exceptions[i]]))
      && (forall t :: t in p.requirements ==> t.modalities == Modalities(t.kind) && t.tools == Tools(t.kind))
  {
    hide Distinct, Modalities, Tools;
  }

  lemma RestAsWritten(doc: Document, catalog: Catalog, strip: string -> string)
    requires ValidDocument(doc, catalog)
    ensures
      var p := Compile(doc, catalog, strip);
      Document(p.id, p.version, p.name, p.enabled, p.severity, p.terms, doc.requirements, doc.exceptions,
               AggregationConfig(p.aggregation.minimumConfidence, p.aggregation.minimumSupporting,
                                 p.aggregation.minimumContradicting),
               p.rejectWhen, p.escalateWhen) == doc
  {
  }

  lemma KindsAreSuited(kind: RequirementType)
    ensures SuitedTo(kind, set m | m in Modalities(kind), set tool | tool in Tools(kind))
  {
  }

  lemma QueriesOf(description: string, terms: seq<string>, strip: string -> string, v: string)
    ensures v in Distinct([description] + terms, strip) <==>
              v != "" && (v == strip(description) || exists j :: 0 <= j < |terms| && v == strip(terms[j]))
  {
    var all := [description] + terms;
    if j :| 0 <= j < |terms| && v == strip(terms[j]) {
      assert all[j + 1] == terms[j];
    }
    if i :| 0 <= i < |all| && strip(all[i]) == v && i > 0 {
      assert all[i] == terms[i - 1];
    }
    assert all[0] == description;
  }

  // The trigger terms are part of every ordinary template: one new term changes them all.
  lemma NewTermChangesEveryOrdinary(spec: RequirementSpec, spec': RequirementSpec, terms: seq<string>,
                                    terms': seq<string>, strip: string -> string, term: string)
    requires term in terms' && strip(term) != "" && strip(term) != strip(spec.description)
    requires forall t :: t in terms ==> strip(t) != strip(term)
    ensures Ordinary(spec, terms, strip) != Ordinary(spec', terms', strip)
  {
    var before := Distinct([spec.description] + terms, strip);
    var after := Distinct([spec'.description] + terms', strip);
    var i :| 0 <= i < |terms'| && terms'[i] == term;
    assert ([spec'.description] + terms')[i + 1] == term;
    assert strip(term) in after;
    var sources := [spec.description] + terms;
    forall j | 0 <= j < |sources|
      ensures strip(sources[j]) != strip(term)
    {
      if j > 0 {
        assert sources[j] == terms[j - 1];
      }
    }
    assert strip(term) !in before;
  }
}
