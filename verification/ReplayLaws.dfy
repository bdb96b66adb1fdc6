/** What replay preserves: derived evidence stands wherever its source does, equal policies give equal
    statuses and verdicts, doing it again changes nothing, and origins lead back to ever older versions. */
module ReplayLaws {
  import opened Common
  import opened AgentTypes
  import opened AgentStore
  import opened Policy
  import opened EvidenceStore
  import opened Aggregation
  import opened Rules
  import opened Ledger
  import opened LedgerHistory
  import opened Planner
  import opened Replay

  // ---- validity of derived evidence ------------------------------------------------------

  function ClassifyFor(t: Tables, q: RequirementRow, e: Evidence): Classified {
    Classify(t, q.id, q.caseId, q.template.modalities, e)
  }

  // Everything classification asks of a row except for its tool run, its model call and its own origin.
  predicate Intact(t: Tables, q: RequirementRow, e: Evidence) {
    && e.caseId == q.caseId && e.requirementId == q.id
    && 0 <= e.start < e.end
    && ModalityAllowed(e.modality, q.template.modalities)
    && q.caseId in t.videos
    && (e.artifact.Some? ==>
          e.artifact.value in t.artifacts && t.artifacts[e.artifact.value] == t.videos[q.caseId])
  }

  ghost predicate SameVideo(t: Tables, c: nat, c': nat) {
    c in t.videos && c' in t.videos && t.videos[c] == t.videos[c']
  }

  // A derived row stands exactly when its source is intact, whatever has become of the source's tool run
  // and model call; so the evidence of a valid row is never lost.
  lemma DerivedRowStandsExactly(t: Tables, q: RequirementRow, q': RequirementRow, item: nat, e: Evidence)
    requires e.caseId == q.caseId && e.requirementId == q.id && Holds(t.rows, e.id)
    requires q'.template == q.template && SameVideo(t, q.caseId, q'.caseId)
    ensures ClassifyFor(t, q', DerivedRow(item, q'.caseId, q'.id, e)).valid <==> Intact(t, q, e)
    ensures ClassifyFor(t, q, e).valid ==> ClassifyFor(t, q', DerivedRow(item, q'.caseId, q'.id, e)).valid
    ensures ClassifyFor(t, q, e).valid <==>
      && Intact(t, q, e) && ToolStands(t, e) && CallStands(t, e)
      && (e.origin.Some? ==> Holds(t.rows, e.origin.value))
      && (e.origin.Some? || e.artifact.Some? || e.toolRun.Some? || e.modelCall.Some?)
  {
  }

  // ---- the tables a copy produces --------------------------------------------------------

  // Derived identifiers name the requirement their row belongs to.
  ghost predicate WellNamed(rows: seq<Evidence>) {
    forall i :: 0 <= i < |rows| && rows[i].id.Derived? ==> rows[i].requirementId == rows[i].id.requirement
  }

  function DerivedList(item: nat, q: RequirementRow, list: seq<Evidence>): (r: seq<Evidence>)
    ensures |r| == |list|
    ensures forall k :: 0 <= k < |list| ==> r[k] == DerivedRow(item, q.caseId, q.id, list[k])
  {
    seq(|list|, k requires 0 <= k < |list| => DerivedRow(item, q.caseId, q.id, list[k]))
  }

  ghost predicate Fresh(rows: seq<Evidence>, requirement: nat) {
    forall i :: 0 <= i < |rows| ==> rows[i].requirementId != requirement
  }

  lemma {:induction false} ListForAppend(a: seq<Evidence>, b: seq<Evidence>, id: nat)
    ensures ListFor(a + b, id) == ListFor(a, id) + ListFor(b, id)
  {
    if b == [] {
      assert a + b == a;
    } else {
      var n := |b| - 1;
      ListForAppend(a, b[..n], id);
      assert (a + b)[..|a + b| - 1] == a + b[..n] && (a + b)[|a + b| - 1] == b[n];
      ListForLast(a + b, id);
      ListForLast(b, id);
      hide ListFor;
    }
  }

  lemma ListForLast(rows: seq<Evidence>, id: nat)
    requires rows != []
    ensures
      var e := rows[|rows| - 1];
      ListFor(rows, id) == ListFor(rows[..|rows| - 1], id) + if e.requirementId == id then [e] else []
  {
  }

  lemma {:induction false} AllOrNone(list: seq<Evidence>, requirement: nat, id: nat)
    requires forall k :: 0 <= k < |list| ==> list[k].requirementId == requirement
    ensures ListFor(list, id) == if id == requirement then list else []
  {
    if list != [] {
      var n := |list| - 1;
      AllOrNone(list[..n], requirement, id);
      ListForLast(list, id);
      assert list == list[..n] + [list[n]];
    }
  }

  lemma {:induction false} FreshIsEmpty(rows: seq<Evidence>, requirement: nat)
    requires Fresh(rows, requirement)
    ensures ListFor(rows, requirement) == []
  {
    if rows != [] {
      FreshIsEmpty(rows[..|rows| - 1], requirement);
    }
  }

  // Into a fresh requirement every row of the list is copied once, in order.
  lemma {:induction false} CopyAppends(rows: seq<Evidence>, item: nat, q: RequirementRow, list: seq<Evidence>)
    requires Fresh(rows, q.id) && WellNamed(rows) && DistinctIds(list)
    ensures CopyRows(rows, item, q.caseId, q.id, list) == rows + DerivedList(item, q, list)
  {
    if list != [] {
      var n := |list| - 1;
      CopyAppends(rows, item, q, list[..n]);
      var before := rows + DerivedList(item, q, list[..n]);
      assert !Holds(before, Derived(item, list[n].id, q.id)) by {
        forall k | 0 <= k < |before|
          ensures before[k].id != Derived(item, list[n].id, q.id)
        {
          if k >= |rows| {
            assert list[k - |rows|].id != list[n].id;
          }
        }
      }
      assert DerivedList(item, q, list)
        == DerivedList(item, q, list[..n]) + [DerivedRow(item, q.caseId, q.id, list[n])];
    }
  }

  // No other list is touched, and the table keeps its shape.
  lemma CopyLeaves(rows: seq<Evidence>, item: nat, q: RequirementRow, list: seq<Evidence>)
    requires Fresh(rows, q.id) && WellNamed(rows) && DistinctIds(list) && DistinctIds(rows)
    ensures
      var after := rows + DerivedList(item, q, list);
      && DistinctIds(after) && WellNamed(after)
      && ListFor(after, q.id) == DerivedList(item, q, list)
      && forall id :: id != q.id ==> ListFor(after, id) == ListFor(rows, id)
  {
    var copies := DerivedList(item, q, list);
    var after := rows + copies;
    forall i, j | 0 <= i < j < |after|
      ensures after[i].id != after[j].id
    {
      if |rows| <= i {
        assert list[i - |rows|].id != list[j - |rows|].id;
      }
    }
    forall id
      ensures ListFor(after, id) == ListFor(rows, id) + if id == q.id then copies else []
    {
      ListForAppend(rows, copies, id);
      AllOrNone(copies, q.id, id);
    }
    FreshIsEmpty(rows, q.id);
  }

  // ---- plans under agreement -------------------------------------------------------------

  // The same templates, in whatever order.
  ghost predicate SameTemplates(a: seq<Template>, b: seq<Template>) {
    forall t: Template :: t in a <==> t in b
  }

  // Between two versions with the same templates a plan that keeps the model reuses every requirement.
  lemma AgreementReusesAll(s: Store, before: CompiledPolicy, after: CompiledPolicy, caseId: nat)
    requires caseId in s.cases && UniqueKeys(before.requirements) && UniqueKeys(after.requirements)
    requires SameTemplates(before.requirements, after.requirements)
    ensures
      var plan := PlanOf(s, DiffOf(before, after), Keep, caseId);
      && plan.mode == Reevaluate && plan.investigate == [] && plan.invalidations == [] && Unique(plan.reusable)
      && forall k :: 0 <= k < |after.requirements| ==> after.requirements[k].key in plan.reusable
  {
    ReevaluatesExactly(before, after);
    PlanPartitionsTheTarget(s, before, after, Keep, caseId);
    var keys := TemplateKeys(after.requirements);
    assert forall k :: 0 <= k < |after.requirements| ==> keys[k] in keys;
  }

  // ---- copying a whole case --------------------------------------------------------------

  // The requirements of a case, in the order of the templates they were made from.
  ghost predicate Matched(requirements: map<nat, RequirementRow>, ids: seq<nat>, caseId: nat,
                          templates: seq<Template>) {
    && |ids| == |templates|
    && (forall k :: 0 <= k < |ids| ==>
          && ids[k] in requirements
          && requirements[ids[k]].id == ids[k]
          && requirements[ids[k]].caseId == caseId
          && requirements[ids[k]].template == templates[k])
    && forall i, j :: 0 <= i < j < |ids| ==> ids[i] != ids[j]
  }

  // The requirements of a case, one for each template, in whatever order.
  ghost predicate MadeFrom(requirements: map<nat, RequirementRow>, ids: seq<nat>, caseId: nat,
                           templates: seq<Template>) {
    && (forall k :: 0 <= k < |ids| ==>
          && ids[k] in requirements
          && requirements[ids[k]].id == ids[k]
          && requirements[ids[k]].caseId == caseId
          && requirements[ids[k]].template in templates)
    && (forall i, j :: 0 <= i < j < |ids| ==>
          requirements[ids[i]].template.key != requirements[ids[j]].template.key)
    && forall t :: t in templates ==> exists k :: 0 <= k < |ids| && requirements[ids[k]].template == t
  }

  // The same requirements in the order of the templates.
  function Aligned(requirements: map<nat, RequirementRow>, ids: seq<nat>, templates: seq<Template>): (r: seq<nat>)
    ensures |r| == |templates|
  {
    seq(|templates|, k requires 0 <= k < |templates| =>
      var q := RequirementOf(requirements, ids, templates[k].key);
      if q.Some? then q.value.id else 0)
  }

  lemma {:induction false} LookupInAnyOrder(requirements: map<nat, RequirementRow>, ids: seq<nat>, k: nat)
    requires k < |ids| && ids[k] in requirements
    requires forall i, j :: 0 <= i < j < |ids| && ids[i] in requirements && ids[j] in requirements ==>
      requirements[ids[i]].template.key != requirements[ids[j]].template.key
    ensures RequirementOf(requirements, ids, requirements[ids[k]].template.key) == Some(requirements[ids[k]])
  {
    var n := |ids| - 1;
    if k < n {
      LookupInAnyOrder(requirements, ids[..n], k);
    }
  }

  lemma AlignedAt(requirements: map<nat, RequirementRow>, ids: seq<nat>, caseId: nat, templates: seq<Template>, k: nat)
    requires MadeFrom(requirements, ids, caseId, templates) && k < |templates|
    ensures
      var id := Aligned(requirements, ids, templates)[k];
      && id in ids && id in requirements
      && requirements[id].id == id && requirements[id].caseId == caseId && requirements[id].template == templates[k]
  {
    assert templates[k] in templates;
    var i :| 0 <= i < |ids| && requirements[ids[i]].template == templates[k];
    LookupInAnyOrder(requirements, ids, i);
  }

  lemma AlignedIsMatched(requirements: map<nat, RequirementRow>, ids: seq<nat>, caseId: nat, templates: seq<Template>)
    requires MadeFrom(requirements, ids, caseId, templates) && UniqueKeys(templates)
    ensures Matched(requirements, Aligned(requirements, ids, templates), caseId, templates)
    ensures forall id :: id in Aligned(requirements, ids, templates) <==> id in ids
  {
    var aligned := Aligned(requirements, ids, templates);
    forall k | 0 <= k < |templates|
      ensures aligned[k] in ids && aligned[k] in requirements && requirements[aligned[k]].id == aligned[k]
      ensures requirements[aligned[k]].caseId == caseId && requirements[aligned[k]].template == templates[k]
    {
      AlignedAt(requirements, ids, caseId, templates, k);
    }
    hide Aligned;
    forall i | 0 <= i < |ids|
      ensures ids[i] in aligned
    {
      var k :| 0 <= k < |templates| && templates[k] == requirements[ids[i]].template;
      AlignedTo(requirements, ids, caseId, templates, i, aligned[k]);
    }
  }

  // Only one row has the key of a template.
  lemma AlignedTo(requirements: map<nat, RequirementRow>, ids: seq<nat>, caseId: nat, templates: seq<Template>,
                  i: nat, id: nat)
    requires MadeFrom(requirements, ids, caseId, templates)
    requires i < |ids| && id in ids && id in requirements
    requires requirements[id].template == requirements[ids[i]].template
    ensures ids[i] == id
  {
    var j :| 0 <= j < |ids| && ids[j] == id;
    assert i == j;
  }

  // A lookup by key does not depend on the order.
  lemma AlignedLookup(requirements: map<nat, RequirementRow>, ids: seq<nat>, caseId: nat, templates: seq<Template>,
                      key: string)
    requires MadeFrom(requirements, ids, caseId, templates) && UniqueKeys(templates)
    ensures RequirementOf(requirements, Aligned(requirements, ids, templates), key)
      == RequirementOf(requirements, ids, key)
  {
    var aligned := Aligned(requirements, ids, templates);
    AlignedIsMatched(requirements, ids, caseId, templates);
    MatchedLookup(requirements, aligned, caseId, templates, key);
    var q := RequirementOf(requirements, ids, key);
    if q.Some? {
      var id :| id in ids && id in requirements && requirements[id] == q.value;
      var k :| 0 <= k < |aligned| && aligned[k] == id;
      assert templates[k].key == key;
      LookupInAnyOrder(requirements, aligned, k);
    } else if RequirementOf(requirements, aligned, key).Some? {
      var id :| id in aligned && id in requirements && requirements[id].template.key == key;
      var i :| 0 <= i < |ids| && ids[i] == id;
      LookupInAnyOrder(requirements, ids, i);
    }
  }

  lemma {:induction false} LookupAmongMore(requirements: map<nat, RequirementRow>, more: map<nat, RequirementRow>,
                                           ids: seq<nat>, key: string)
    requires forall k :: 0 <= k < |ids| ==> ids[k] in requirements && ids[k] !in more
    ensures RequirementOf(requirements + more, ids, key) == RequirementOf(requirements, ids, key)
  {
    if ids != [] {
      LookupAmongMore(requirements, more, ids[..|ids| - 1], key);
    }
  }

  // So neither does what is copied.
  lemma {:induction false} CopiesInAnyOrder(requirements: map<nat, RequirementRow>, rows: seq<Evidence>, item: nat,
                                            source: seq<nat>, source': seq<nat>, target: nat, targets: seq<nat>,
                                            keys: seq<string>)
    requires forall key :: RequirementOf(requirements, source, key) == RequirementOf(requirements, source', key)
    ensures CopyKeys(requirements, rows, item, source, target, targets, keys)
            == CopyKeys(requirements, rows, item, source', target, targets, keys)
  {
    if keys != [] {
      CopiesInAnyOrder(requirements, rows, item, source, source', target, targets, keys[..|keys| - 1]);
    }
  }

  lemma {:induction false} MatchedLookup(requirements: map<nat, RequirementRow>, ids: seq<nat>, caseId: nat,
                                         templates: seq<Template>, key: string)
    requires Matched(requirements, ids, caseId, templates) && UniqueKeys(templates)
    ensures match RequirementOf(requirements, ids, key)
            case None => forall k :: 0 <= k < |templates| ==> templates[k].key != key
            case Some(q) => exists k :: 0 <= k < |ids| && templates[k].key == key && q == requirements[ids[k]]
  {
    if ids != [] {
      var n := |ids| - 1;
      MatchedLookup(requirements, ids[..n], caseId, templates[..n], key);
    }
  }

  // Two cases of one list of templates, and a table that knows nothing of the second yet.
  ghost predicate Twins(requirements: map<nat, RequirementRow>, rows: seq<Evidence>, source: seq<nat>, c: nat,
                        targets: seq<nat>, c': nat, templates: seq<Template>) {
    && UniqueKeys(templates)
    && Matched(requirements, source, c, templates) && Matched(requirements, targets, c', templates)
    && (forall i, j :: 0 <= i < |source| && 0 <= j < |targets| ==> source[i] != targets[j])
    && (forall j :: 0 <= j < |targets| ==> Fresh(rows, targets[j]))
    && WellNamed(rows) && DistinctIds(rows)
  }

  lemma PairUp(requirements: map<nat, RequirementRow>, rows: seq<Evidence>, source: seq<nat>, c: nat, targets: seq<nat>,
               c': nat, templates: seq<Template>, key: string)
    requires Twins(requirements, rows, source, c, targets, c', templates)
    ensures match PairOf(requirements, source, targets, key)
            case None => forall k :: 0 <= k < |templates| ==> templates[k].key != key
            case Some(pair) =>
              exists k :: 0 <= k < |templates| && templates[k].key == key
                          && pair == Pair(requirements[source[k]], requirements[targets[k]])
  {
    MatchedLookup(requirements, source, c, templates, key);
    MatchedLookup(requirements, targets, c', templates, key);
    var q, q' := RequirementOf(requirements, source, key), RequirementOf(requirements, targets, key);
    if q.Some? && q'.Some? {
      var k :| 0 <= k < |source| && templates[k].key == key && q.value == requirements[source[k]];
      var j :| 0 <= j < |targets| && templates[j].key == key && q'.value == requirements[targets[j]];
      assert j == k;
    }
    hide RequirementOf, Fresh, WellNamed, DistinctIds;
  }

  // What the copied table holds for each requirement.
  ghost predicate CopiesOf(requirements: map<nat, RequirementRow>, rows: seq<Evidence>, after: seq<Evidence>, item: nat,
                           source: seq<nat>, targets: seq<nat>, templates: seq<Template>, keys: seq<string>)
    requires |source| == |targets| == |templates|
    requires forall k :: 0 <= k < |targets| ==> targets[k] in requirements
  {
    && rows <= after && DistinctIds(after) && WellNamed(after)
    && (forall k :: 0 <= k < |templates| ==>
          ListFor(after, targets[k]) ==
            if templates[k].key in keys
            then DerivedList(item, requirements[targets[k]], ListFor(rows, source[k])) else [])
    && forall id :: id !in targets ==> ListFor(after, id) == ListFor(rows, id)
  }

  lemma EmptyIsFresh(rows: seq<Evidence>, requirement: nat)
    requires ListFor(rows, requirement) == []
    ensures Fresh(rows, requirement)
  {
    forall i | 0 <= i < |rows|
      ensures rows[i].requirementId != requirement
    {
      assert rows[i] in rows && rows[i] !in ListFor(rows, requirement);
    }
  }

  lemma {:induction false} CopiedKeys(requirements: map<nat, RequirementRow>, rows: seq<Evidence>, item: nat,
                                      source: seq<nat>, c: nat, targets: seq<nat>, c': nat, templates: seq<Template>,
                                      keys: seq<string>)
    requires Twins(requirements, rows, source, c, targets, c', templates) && Unique(keys)
    ensures
      var copied := CopyKeys(requirements, rows, item, source, c', targets, keys);
      copied.Some? && CopiesOf(requirements, rows, copied.value.rows, item, source, targets, templates, keys)
  {
    if keys == [] {
      forall k | 0 <= k < |templates|
        ensures ListFor(rows, targets[k]) == []
      {
        FreshIsEmpty(rows, targets[k]);
      }
    } else {
      var n := |keys| - 1;
      CopiedKeys(requirements, rows, item, source, c, targets, c', templates, keys[..n]);
      var before := CopyKeys(requirements, rows, item, source, c', targets, keys[..n]).value;
      CopiedKey(requirements, rows, before, item, source, c, targets, c', templates, keys);
    }
  }

  lemma CopiedKey(requirements: map<nat, RequirementRow>, rows: seq<Evidence>, before: Copied, item: nat,
                  source: seq<nat>, c: nat, targets: seq<nat>, c': nat, templates: seq<Template>, keys: seq<string>)
    requires Twins(requirements, rows, source, c, targets, c', templates) && Unique(keys) && keys != []
    requires CopiesOf(requirements, rows, before.rows, item, source, targets, templates, keys[..|keys| - 1])
    ensures
      var copied := CopyKey(requirements, before, item, source, c', targets, keys[|keys| - 1]);
      copied.Some? && CopiesOf(requirements, rows, copied.value.rows, item, source, targets, templates, keys)
  {
    hide ListFor, DerivedList, CopyRows, PairOf, CopiesOf, WellNamed, DistinctIds, Fresh;
    var n := |keys| - 1;
    PairUp(requirements, rows, source, c, targets, c', templates, keys[n]);
    var pair := PairOf(requirements, source, targets, keys[n]);
    if pair.Some? {
      var k :| 0 <= k < |templates| && templates[k].key == keys[n]
               && pair.value == Pair(requirements[source[k]], requirements[targets[k]]);
      CopiedPair(requirements, rows, before.rows, item, source, c, targets, c', templates, keys, k);
    } else {
      UnknownKey(requirements, rows, before.rows, item, source, targets, templates, keys);
    }
  }

  // A key of no template asks for no copies.
  lemma UnknownKey(requirements: map<nat, RequirementRow>, rows: seq<Evidence>, after: seq<Evidence>, item: nat,
                   source: seq<nat>, targets: seq<nat>, templates: seq<Template>, keys: seq<string>)
    requires |source| == |targets| == |templates| && keys != []
    requires forall k :: 0 <= k < |targets| ==> targets[k] in requirements
    requires forall k :: 0 <= k < |templates| ==> templates[k].key != keys[|keys| - 1]
    requires CopiesOf(requirements, rows, after, item, source, targets, templates, keys[..|keys| - 1])
    ensures CopiesOf(requirements, rows, after, item, source, targets, templates, keys)
  {
    hide ListFor, DerivedList, WellNamed, DistinctIds;
    assert keys == keys[..|keys| - 1] + [keys[|keys| - 1]];
  }

  lemma CopiedPair(requirements: map<nat, RequirementRow>, rows: seq<Evidence>, before: seq<Evidence>, item: nat,
                   source: seq<nat>, c: nat, targets: seq<nat>, c': nat, templates: seq<Template>, keys: seq<string>,
                   k: nat)
    requires Twins(requirements, rows, source, c, targets, c', templates) && Unique(keys) && keys != []
    requires CopiesOf(requirements, rows, before, item, source, targets, templates, keys[..|keys| - 1])
    requires k < |templates| && templates[k].key == keys[|keys| - 1]
    ensures
      var after := CopyRows(before, item, c', targets[k], ListFor(before, source[k]));
      CopiesOf(requirements, rows, after, item, source, targets, templates, keys)
  {
    var n := |keys| - 1;
    PairKeys(templates, keys, k);
    PairTable(requirements, rows, before, item, source, c, targets, c', templates, keys, k);
    assert forall j :: 0 <= j < |templates| && j != k ==> targets[j] != targets[k];
    assert targets[k] in targets;
    var after := CopyRows(before, item, c', targets[k], ListFor(before, source[k]));
    hide Twins, Unique, UniqueKeys, Matched, ListFor, DerivedList, CopyRows, WellNamed, DistinctIds;
    forall j | 0 <= j < |templates|
      ensures ListFor(after, targets[j]) ==
        if templates[j].key in keys then DerivedList(item, requirements[targets[j]], ListFor(rows, source[j])) else []
    {
      if j != k {
        assert ListFor(after, targets[j]) == ListFor(before, targets[j]);
      }
    }
    forall id | id !in targets
      ensures ListFor(after, id) == ListFor(rows, id)
    {
      assert id != targets[k] && ListFor(after, id) == ListFor(before, id);
    }
  }

  // Among unique keys the last one is new, and it names one template.
  lemma PairKeys(templates: seq<Template>, keys: seq<string>, k: nat)
    requires UniqueKeys(templates) && Unique(keys) && keys != []
    requires k < |templates| && templates[k].key == keys[|keys| - 1]
    ensures keys[|keys| - 1] !in keys[..|keys| - 1]
    ensures forall j :: 0 <= j < |templates| ==>
      (templates[j].key in keys <==> j == k || templates[j].key in keys[..|keys| - 1])
  {
    var n := |keys| - 1;
    assert keys == keys[..n] + [keys[n]];
    forall j | 0 <= j < |templates| && j != k
      ensures templates[j].key != templates[k].key
    {
    }
  }

  // Copying one requirement into the table.
  lemma PairTable(requirements: map<nat, RequirementRow>, rows: seq<Evidence>, before: seq<Evidence>, item: nat,
                  source: seq<nat>, c: nat, targets: seq<nat>, c': nat, templates: seq<Template>, keys: seq<string>,
                  k: nat)
    requires Twins(requirements, rows, source, c, targets, c', templates) && keys != []
    requires CopiesOf(requirements, rows, before, item, source, targets, templates, keys[..|keys| - 1])
    requires k < |templates| && templates[k].key !in keys[..|keys| - 1]
    ensures
      var after := CopyRows(before, item, c', targets[k], ListFor(before, source[k]));
      && rows <= after && DistinctIds(after) && WellNamed(after)
      && ListFor(after, targets[k]) == DerivedList(item, requirements[targets[k]], ListFor(rows, source[k]))
      && forall id :: id != targets[k] ==> ListFor(after, id) == ListFor(before, id)
  {
    assert source[k] !in targets;
    var q' := requirements[targets[k]];
    assert q'.id == targets[k] && q'.caseId == c';
    var list := ListFor(before, source[k]);
    assert list == ListFor(rows, source[k]) && ListFor(before, targets[k]) == [] && DistinctIds(list);
    assert rows <= before && DistinctIds(before) && WellNamed(before);
    hide Twins, CopiesOf, Matched, ListFor, CopyRows, WellNamed, DistinctIds, DerivedList;
    EmptyIsFresh(before, targets[k]);
    CopyAppends(before, item, q', list);
    CopyLeaves(before, item, q', list);
  }

  // ---- equal findings --------------------------------------------------------------------

  ghost predicate Alike(items: seq<Classified>, items': seq<Classified>) {
    && |items| == |items'|
    && forall k :: 0 <= k < |items| ==>
         && items[k].valid == items'[k].valid
         && items[k].evidence.stance == items'[k].evidence.stance
         && items[k].evidence.confidence == items'[k].evidence.confidence
  }

  lemma {:induction false} AlikeTallies(config: AggregationConfig, items: seq<Classified>, items': seq<Classified>,
                                        stance: Stance)
    requires Alike(items, items')
    ensures |WithStance(config, items, stance)| == |WithStance(config, items', stance)|
  {
    if items != [] {
      AlikeTallies(config, items[..|items| - 1], items'[..|items| - 1], stance);
    }
  }

  lemma AlikeFindings(config: AggregationConfig, items: seq<Classified>, items': seq<Classified>)
    requires Alike(items, items')
    ensures Find(config, items) == Find(config, items')
    ensures Used(items) == {} <==> Used(items') == {}
  {
    AlikeTallies(config, items, items', Support);
    AlikeTallies(config, items, items', Contradict);
    AlikeMembers(config, items, items');
    AlikeMembers(config, items', items);
    AnyValid(items);
    AnyValid(items');
    hide WithStance, Quality, Used, Alike;
  }

  ghost predicate SomeValid(items: seq<Classified>) {
    exists c :: c in items && c.valid
  }

  ghost predicate SomeQuality(config: AggregationConfig, items: seq<Classified>) {
    exists c :: c in items && Quality(config, c)
  }

  lemma AlikeMembers(config: AggregationConfig, items: seq<Classified>, items': seq<Classified>)
    requires Alike(items, items')
    ensures SomeValid(items) ==> SomeValid(items')
    ensures SomeQuality(config, items) ==> SomeQuality(config, items')
  {
    if c :| c in items && c.valid {
      var k :| 0 <= k < |items| && items[k] == c;
      assert items'[k] in items';
    }
    if c :| c in items && Quality(config, c) {
      var k :| 0 <= k < |items| && items[k] == c;
      assert items'[k] in items';
    }
  }

  lemma AnyValid(items: seq<Classified>)
    ensures Used(items) == {} <==> !SomeValid(items)
  {
    if c :| c in items && c.valid {
      assert c.evidence.id in Used(items);
    }
  }

  // No row of the requirement is invalid merely because its tool run, its model call or its origin fell.
  ghost predicate NothingRevives(t: Tables, q: RequirementRow) {
    forall e :: e in ListFor(t.rows, q.id) && Intact(t, q, e) ==> ClassifyFor(t, q, e).valid
  }

  // Tables that differ from `t` by what a replay adds.
  ghost predicate Extended(t: Tables, t': Tables) {
    && t.rows <= t'.rows
    && t'.artifacts == t.artifacts
    && forall c :: c in t.videos ==> c in t'.videos && t'.videos[c] == t.videos[c]
  }

  lemma DerivedItemsAlike(t: Tables, t': Tables, q: RequirementRow, q': RequirementRow, item: nat)
    requires Extended(t, t') && q'.template == q.template && SameVideo(t', q.caseId, q'.caseId) && q.caseId in t.videos
    requires ListFor(t'.rows, q'.id) == DerivedList(item, q', ListFor(t.rows, q.id))
    requires forall e :: e in ListFor(t.rows, q.id) ==> e.caseId == q.caseId
    requires NothingRevives(t, q)
    ensures Alike(ItemsOf(t, q), ItemsOf(t', q'))
  {
    var list := ListFor(t.rows, q.id);
    forall k | 0 <= k < |list|
      ensures ClassifyFor(t, q, list[k]).valid == ClassifyFor(t', q', DerivedRow(item, q'.caseId, q'.id, list[k])).valid
    {
      assert list[k] in list;
      DerivedItemAlike(t, t', q, q', item, list[k]);
    }
    hide Classify, ListFor, NothingRevives, Extended, Intact;
  }

  lemma DerivedItemAlike(t: Tables, t': Tables, q: RequirementRow, q': RequirementRow, item: nat, e: Evidence)
    requires Extended(t, t') && q'.template == q.template && SameVideo(t', q.caseId, q'.caseId) && q.caseId in t.videos
    requires e in ListFor(t.rows, q.id) && e.caseId == q.caseId && NothingRevives(t, q)
    ensures ClassifyFor(t, q, e).valid == ClassifyFor(t', q', DerivedRow(item, q'.caseId, q'.id, e)).valid
  {
    var j :| 0 <= j < |t.rows| && t.rows[j] == e;
    assert t'.rows[j] == e;
    DerivedRowStandsExactly(t', q, q', item, e);
    assert Intact(t, q, e) == Intact(t', q, e);
    if ClassifyFor(t, q, e).valid {
      ValidIsIntact(t, q, e);
    }
    hide ClassifyFor, ListFor;
  }

  lemma ValidIsIntact(t: Tables, q: RequirementRow, e: Evidence)
    requires ClassifyFor(t, q, e).valid
    ensures Intact(t, q, e)
  {
  }

  // ---- equal verdicts --------------------------------------------------------------------

  ghost predicate SameFinding(o: Outcome, o': Outcome) {
    o.key == o'.key && o.finding == o'.finding && (o.evidence == {} <==> o'.evidence == {})
  }

  ghost predicate OneForEachKey(outcomes: seq<Outcome>) {
    forall i, j :: 0 <= i < j < |outcomes| ==> outcomes[i].key != outcomes[j].key
  }

  ghost predicate FoundIn(o: Outcome, outcomes: seq<Outcome>) {
    exists j :: 0 <= j < |outcomes| && SameFinding(o, outcomes[j])
  }

  ghost predicate FoundAgain(a: seq<Outcome>, b: seq<Outcome>) {
    forall i :: 0 <= i < |a| ==> FoundIn(a[i], b)
  }

  // The same findings for the same keys, in whatever order.
  ghost predicate SameFindings(a: seq<Outcome>, b: seq<Outcome>) {
    OneForEachKey(a) && OneForEachKey(b) && FoundAgain(a, b) && FoundAgain(b, a)
  }

  lemma {:induction false} ValueAt(outcomes: seq<Outcome>, i: nat)
    requires OneForEachKey(outcomes) && i < |outcomes|
    ensures outcomes[i].key in ValuesOf(outcomes) && ValuesOf(outcomes)[outcomes[i].key] == outcomes[i].finding.status
  {
    var n := |outcomes| - 1;
    if i < n {
      ValueAt(outcomes[..n], i);
    }
  }

  lemma ValuesFoundAgain(a: seq<Outcome>, b: seq<Outcome>)
    requires OneForEachKey(a) && OneForEachKey(b) && FoundAgain(a, b)
    ensures forall key :: key in ValuesOf(a) ==> key in ValuesOf(b) && ValuesOf(b)[key] == ValuesOf(a)[key]
  {
    forall key | key in ValuesOf(a)
      ensures key in ValuesOf(b) && ValuesOf(b)[key] == ValuesOf(a)[key]
    {
      var i :| 0 <= i < |a| && a[i].key == key;
      var j :| 0 <= j < |b| && SameFinding(a[i], b[j]);
      ValueAt(a, i);
      ValueAt(b, j);
    }
  }

  lemma SameValues(a: seq<Outcome>, b: seq<Outcome>)
    requires SameFindings(a, b)
    ensures ValuesOf(a) == ValuesOf(b)
  {
    ValuesFoundAgain(a, b);
    ValuesFoundAgain(b, a);
  }

  lemma EvidenceFoundAgain(a: seq<Outcome>, b: seq<Outcome>)
    requires FoundAgain(a, b)
    ensures EvidenceOf(a) != {} ==> EvidenceOf(b) != {}
  {
    if id :| id in EvidenceOf(a) {
      var o :| o in a && id in o.evidence;
      var i :| 0 <= i < |a| && a[i] == o;
      var j :| 0 <= j < |b| && SameFinding(a[i], b[j]);
      var id' :| id' in b[j].evidence;
      assert b[j] in b && id' in EvidenceOf(b);
    }
  }

  // Two versions that ask for the same things and decide alike.
  ghost predicate Agreeing(p: CompiledPolicy, p': CompiledPolicy) {
    && SameTemplates(p.requirements, p'.requirements) && p.aggregation == p'.aggregation
    && p.rejectWhen == p'.rejectWhen && p.escalateWhen == p'.escalateWhen
  }

  lemma SameVerdicts(p: CompiledPolicy, p': CompiledPolicy, a: seq<Outcome>, b: seq<Outcome>, investigation: RunStatus)
    requires Agreeing(p, p') && SameFindings(a, b)
    ensures Evaluate(p, a, investigation).Some? == Evaluate(p', b, investigation).Some?
    ensures Evaluate(p, a, investigation).Some? ==>
              && Evaluate(p, a, investigation).value.verdict == Evaluate(p', b, investigation).value.verdict
              && Evaluate(p, a, investigation).value.reason == Evaluate(p', b, investigation).value.reason
  {
    SameValues(a, b);
    EvidenceFoundAgain(a, b);
    EvidenceFoundAgain(b, a);
    SameKeys(p.requirements, p'.requirements);
    hide ValuesOf, EvidenceOf, Agreeing, Keys, Judge;
    if ValuesOf(a).Keys == Keys(p.requirements) {
      SameJudgement(p, p', ValuesOf(a), investigation, EvidenceOf(a) != {});
    }
  }

  lemma SameKeys(a: seq<Template>, b: seq<Template>)
    requires SameTemplates(a, b)
    ensures Keys(a) == Keys(b)
  {
    KeysWithin(a, b);
    KeysWithin(b, a);
  }

  lemma KeysWithin(a: seq<Template>, b: seq<Template>)
    requires SameTemplates(a, b)
    ensures Keys(a) <= Keys(b)
  {
    forall key | key in Keys(a)
      ensures key in Keys(b)
    {
      var i :| 0 <= i < |a| && a[i].key == key;
      assert a[i] in b;
    }
  }

  // What the verdict asks of the templates does not depend on their order.
  lemma SameQuestions(a: seq<Template>, b: seq<Template>, values: Values)
    requires SameTemplates(a, b) && Keys(a) <= values.Keys && Keys(b) <= values.Keys
    ensures RequiredOpen(a, values) ==> RequiredOpen(b, values)
    ensures RequiredConflict(a, values) ==> RequiredConflict(b, values)
    ensures ExceptionOpen(a, values) ==> ExceptionOpen(b, values)
    ensures ExceptionSatisfied(a, values) ==> ExceptionSatisfied(b, values)
  {
    forall i | 0 <= i < |a|
      ensures exists j :: 0 <= j < |b| && b[j] == a[i] && Value(b, values, j) == Value(a, values, i)
    {
      assert a[i] in b;
      var j :| 0 <= j < |b| && b[j] == a[i];
      assert Value(b, values, j) == Value(a, values, i);
    }
  }

  lemma SameJudgement(p: CompiledPolicy, p': CompiledPolicy, values: Values, investigation: RunStatus,
                      anyEvidence: bool)
    requires Agreeing(p, p') && values.Keys == Keys(p.requirements)
    ensures values.Keys == Keys(p'.requirements)
    ensures Judge(p, values, investigation, anyEvidence) == Judge(p', values, investigation, anyEvidence)
  {
    SameKeys(p.requirements, p'.requirements);
    SameQuestions(p.requirements, p'.requirements, values);
    SameQuestions(p'.requirements, p.requirements, values);
    hide RequiredOpen, RequiredConflict, ExceptionOpen, ExceptionSatisfied, Keys, EvaluateExpression;
  }

  // ---- replay preserves meaning ----------------------------------------------------------

  function SourceOf(w: ReplayStore, i: nat): nat
    requires i < |w.items|
  {
    w.items[i].source
  }

  function TargetRef(w: ReplayStore, i: nat): PolicyRef
    requires i < |w.items| && w.items[i].job < |w.jobs|
  {
    PolicyRef(w.jobs[w.items[i].job].preview.id, w.jobs[w.items[i].job].preview.target)
  }

  // The item waits to be replayed into a fresh case of a published, enabled version; its plan reuses
  // every requirement; nobody uses the supplied identifiers.
  ghost predicate ReadyToReplay(w: ReplayStore, i: nat, supply: Supply) {
    && i < |w.items| && w.items[i].job < |w.jobs|
    && LedgerOk(w.ledger) && WellNamed(w.ledger.tables.rows) && Unused(w.ledger, supply)
    && var s := w.ledger;
    && var c := SourceOf(w, i);
    && var ref := TargetRef(w, i);
    && w.items[i].status == Waiting && w.items[i].target == None
    && (forall j :: 0 <= j < |w.items| ==> w.items[j].target != Some(supply.caseId))
    && c in s.cases && c in s.tables.videos && s.tables.videos[c] in w.ready
    && s.cases[c].policy in s.policies && s.policies[s.cases[c].policy].enabled
    && ref in s.policies && s.policies[ref].published && s.policies[ref].enabled
    && FindCase(s, s.tables.videos[c], ref) == None
    && var templates := s.policies[ref].compiled.requirements;
    && UniqueKeys(templates) && MadeFrom(s.requirements, s.cases[c].requirements, c, templates)
    && Unique(w.items[i].plan.reusable) && w.items[i].plan.investigate == []
    && forall k :: 0 <= k < |templates| ==> templates[k].key in w.items[i].plan.reusable
  }

  // The requirements of the source in the order of the target's templates.
  function SourceIds(w: ReplayStore, i: nat): seq<nat>
    requires i < |w.items| && w.items[i].job < |w.jobs|
    requires TargetRef(w, i) in w.ledger.policies && SourceOf(w, i) in w.ledger.cases
  {
    Aligned(w.ledger.requirements, w.ledger.cases[SourceOf(w, i)].requirements,
            w.ledger.policies[TargetRef(w, i)].compiled.requirements)
  }

  lemma SourceIsMatched(w: ReplayStore, i: nat, supply: Supply)
    requires ReadyToReplay(w, i, supply)
    ensures
      var s, c := w.ledger, SourceOf(w, i);
      && Matched(s.requirements, SourceIds(w, i), c, s.policies[TargetRef(w, i)].compiled.requirements)
      && forall id :: id in SourceIds(w, i) <==> id in s.cases[c].requirements
  {
    AlignedIsMatched(w.ledger.requirements, w.ledger.cases[SourceOf(w, i)].requirements, SourceOf(w, i),
                     w.ledger.policies[TargetRef(w, i)].compiled.requirements);
    hide LedgerOk, Aligned, MadeFrom, WellNamed, Unused;
  }

  // The source was investigated to the end, its rows are its own, and no row of it is invalid merely
  // because its tool run, its model call or its origin fell. That every row is valid is enough.
  ghost predicate SoundSource(s: Store, c: nat) {
    && c in s.cases
    && c in s.investigations && s.investigations[c] == RunCompleted
    && forall id :: id in s.cases[c].requirements && id in s.requirements ==>
         && NothingRevives(s.tables, s.requirements[id])
         && forall e :: e in ListFor(s.tables.rows, id) ==> e.caseId == c
  }

  // The store once the target case exists.
  function WithTarget(w: ReplayStore, i: nat, supply: Supply): Store
    requires i < |w.items| && w.items[i].job < |w.jobs|
    requires TargetRef(w, i) in w.ledger.policies && SourceOf(w, i) in w.ledger.tables.videos
  {
    var s := w.ledger;
    var templates := s.policies[TargetRef(w, i)].compiled.requirements;
    var row := CaseRow(TargetRef(w, i), CaseReady, Numbers(supply.requirement, |templates|), None);
    s.(cases := s.cases[supply.caseId := row],
       requirements := s.requirements + NewRequirements(supply.caseId, templates, supply.requirement),
       tables := s.tables.(videos := s.tables.videos[supply.caseId := s.tables.videos[SourceOf(w, i)]]))
  }

  lemma TargetIsTwin(w: ReplayStore, i: nat, supply: Supply)
    requires ReadyToReplay(w, i, supply)
    ensures
      var s := WithTarget(w, i, supply);
      var templates := s.policies[TargetRef(w, i)].compiled.requirements;
      && CreateCase(w.ledger, w.ready, w.ledger.tables.videos[SourceOf(w, i)], TargetRef(w, i), supply)
         == Ok(Created(s, supply.caseId))
      && Twins(s.requirements, s.tables.rows, SourceIds(w, i), SourceOf(w, i),
               s.cases[supply.caseId].requirements, supply.caseId, templates)
  {
    var templates := w.ledger.policies[TargetRef(w, i)].compiled.requirements;
    SourceIsMatched(w, i, supply);
    NewCaseIsTwin(w.ledger.requirements, w.ledger.tables.rows, SourceIds(w, i), SourceOf(w, i), supply, templates);
    hide SourceIds, MadeFrom, LedgerOk, NewRequirements, Matched, Twins, Fresh, WellNamed, Numbers;
  }

  lemma NewCaseIsTwin(requirements: map<nat, RequirementRow>, rows: seq<Evidence>, source: seq<nat>, c: nat,
                      supply: Supply, templates: seq<Template>)
    requires Matched(requirements, source, c, templates) && UniqueKeys(templates)
    requires forall id :: id in requirements ==> id < supply.requirement
    requires forall k :: 0 <= k < |rows| ==> rows[k].requirementId < supply.requirement
    requires WellNamed(rows) && DistinctIds(rows)
    ensures Twins(requirements + NewRequirements(supply.caseId, templates, supply.requirement), rows, source, c,
                  Numbers(supply.requirement, |templates|), supply.caseId, templates)
  {
    hide Matched, WellNamed, DistinctIds, UniqueKeys, Fresh;
    var targets := Numbers(supply.requirement, |templates|);
    var more := NewRequirements(supply.caseId, templates, supply.requirement);
    assert forall id :: id in more ==> id !in requirements;
    OldStaysMatched(requirements, more, source, c, templates);
    NewIsMatched(requirements, supply.caseId, supply.requirement, templates);
    NumbersAreFresh(rows, supply.requirement, |templates|);
    OldIsKnown(requirements, source, c, templates);
    hide NewRequirements;
  }

  lemma NumbersAreFresh(rows: seq<Evidence>, first: nat, n: nat)
    requires forall k :: 0 <= k < |rows| ==> rows[k].requirementId < first
    ensures forall j :: 0 <= j < n ==> Fresh(rows, Numbers(first, n)[j])
  {
  }

  lemma OldIsKnown(requirements: map<nat, RequirementRow>, ids: seq<nat>, c: nat, templates: seq<Template>)
    requires Matched(requirements, ids, c, templates)
    ensures forall i :: 0 <= i < |ids| ==> ids[i] in requirements
  {
  }

  lemma OldStaysMatched(requirements: map<nat, RequirementRow>, more: map<nat, RequirementRow>, ids: seq<nat>, c: nat,
                        templates: seq<Template>)
    requires Matched(requirements, ids, c, templates) && forall id :: id in more ==> id !in requirements
    ensures Matched(requirements + more, ids, c, templates)
  {
  }

  lemma NewIsMatched(requirements: map<nat, RequirementRow>, c: nat, first: nat, templates: seq<Template>)
    ensures Matched(requirements + NewRequirements(c, templates, first), Numbers(first, |templates|), c, templates)
  {
    var more, ids := NewRequirements(c, templates, first), Numbers(first, |templates|);
    forall k | 0 <= k < |ids|
      ensures ids[k] in more && more[ids[k]] == RequirementRow(ids[k], c, templates[k], None, None)
    {
      assert ids[k] == first + k;
    }
  }

  lemma CopiesAlike(w: ReplayStore, i: nat, supply: Supply, keys: seq<string>)
    requires ReadyToReplay(w, i, supply)
    ensures
      var s, targets := WithTarget(w, i, supply), WithTarget(w, i, supply).cases[supply.caseId].requirements;
      CopyKeys(s.requirements, s.tables.rows, i, w.ledger.cases[SourceOf(w, i)].requirements, supply.caseId, targets,
               keys)
      == CopyKeys(s.requirements, s.tables.rows, i, SourceIds(w, i), supply.caseId, targets, keys)
  {
    var s, c := w.ledger, SourceOf(w, i);
    var templates := s.policies[TargetRef(w, i)].compiled.requirements;
    var more := NewRequirements(supply.caseId, templates, supply.requirement);
    var source := s.cases[c].requirements;
    SourceIsMatched(w, i, supply);
    assert forall id :: id in s.requirements ==> id !in more;
    assert forall k :: 0 <= k < |source| ==> source[k] in s.requirements;
    forall key
      ensures RequirementOf(s.requirements + more, source, key)
        == RequirementOf(s.requirements + more, SourceIds(w, i), key)
    {
      LookupAmongMore(s.requirements, more, source, key);
      LookupAmongMore(s.requirements, more, SourceIds(w, i), key);
      AlignedLookup(s.requirements, source, c, templates, key);
    }
    CopiesInAnyOrder(s.requirements + more, s.tables.rows, i, source, SourceIds(w, i), supply.caseId,
                     Numbers(supply.requirement, |templates|), keys);
    hide LedgerOk, MadeFrom, Aligned, RequirementOf, CopyKeys, Matched, NewRequirements, WellNamed;
  }

  // The whole materialization of such an item.
  lemma Materializes(w: ReplayStore, i: nat, supply: Supply)
    requires ReadyToReplay(w, i, supply)
    ensures
      var r := Materialize(w, i, supply);
      var s := WithTarget(w, i, supply);
      var targets := s.cases[supply.caseId].requirements;
      && r.Ok? && r.value.Started? && r.value.scope == []
      && r.value.store.ledger == s.(tables := s.tables.(rows := r.value.store.ledger.tables.rows))
      && r.value.store.items[i].target == Some(supply.caseId)
      && r.value.store.items[i].status == Materialized
      && CopiesOf(s.requirements, s.tables.rows, r.value.store.ledger.tables.rows, i, SourceIds(w, i), targets,
                  s.policies[TargetRef(w, i)].compiled.requirements, w.items[i].plan.reusable)
  {
    TargetIsTwin(w, i, supply);
    var s := WithTarget(w, i, supply);
    CopiedKeys(s.requirements, s.tables.rows, i, SourceIds(w, i), SourceOf(w, i),
               s.cases[supply.caseId].requirements, supply.caseId,
               s.policies[TargetRef(w, i)].compiled.requirements, w.items[i].plan.reusable);
    CopiesAlike(w, i, supply, w.items[i].plan.reusable);
    assert SourceOf(w, i) in s.cases && supply.caseId in s.cases;
    assert !Taken(w.items, i, supply.caseId);
    hide LedgerOk, CopyKeys, CreateCase, CopiesOf, Twins, MadeFrom, SourceIds, NewRequirements, WellNamed, DistinctIds,
      Unused;
  }

  // Each requirement of the target is found to be what its twin was found to be.
  lemma TwinFindings(requirements: map<nat, RequirementRow>, t: Tables, t': Tables, item: nat, source: seq<nat>, c: nat,
                     targets: seq<nat>, c': nat, templates: seq<Template>, keys: seq<string>, k: nat,
                     config: AggregationConfig)
    requires Twins(requirements, t.rows, source, c, targets, c', templates)
    requires CopiesOf(requirements, t.rows, t'.rows, item, source, targets, templates, keys)
    requires k < |templates| && templates[k].key in keys
    requires Extended(t, t') && c in t.videos && SameVideo(t', c, c')
    requires NothingRevives(t, requirements[source[k]])
    requires forall e :: e in ListFor(t.rows, source[k]) ==> e.caseId == c
    ensures
      var q, q' := requirements[source[k]], requirements[targets[k]];
      && Find(config, ItemsOf(t', q')) == Find(config, ItemsOf(t, q))
      && (Used(ItemsOf(t', q')) == {} <==> Used(ItemsOf(t, q)) == {})
  {
    var q, q' := requirements[source[k]], requirements[targets[k]];
    assert q.id == source[k] && q'.id == targets[k] && q.caseId == c && q'.caseId == c' && q.template == q'.template;
    hide Twins;
    DerivedItemsAlike(t, t', q, q', item);
    AlikeFindings(config, ItemsOf(t, q), ItemsOf(t', q'));
  }

  // The ledger after the materialization.
  ghost function Replayed(w: ReplayStore, i: nat, supply: Supply): (after: Store)
    requires ReadyToReplay(w, i, supply)
    ensures after == WithTarget(w, i, supply).(tables := WithTarget(w, i, supply).tables.(rows := after.tables.rows))
  {
    Materializes(w, i, supply);
    Materialize(w, i, supply).value.store.ledger
  }

  lemma ReplayedEvolves(w: ReplayStore, i: nat, supply: Supply)
    requires ReadyToReplay(w, i, supply)
    ensures Evolves(w.ledger, Replayed(w, i, supply))
    ensures LedgerOk(Replayed(w, i, supply))
  {
    var s, after := w.ledger, Replayed(w, i, supply);
    IsReady(w, i, supply);
    Materializes(w, i, supply);
    RequirementsStay(w, i, supply);
    ReplayedIsLinked(w, i, supply, after.tables.rows);
    var row := CaseRow(TargetRef(w, i), CaseReady, after.cases[supply.caseId].requirements, None);
    hide ReadyToReplay, LedgerOk, Linked, WellNamed, DistinctIds, NewRequirements, Matched;
    GrownEvolves(s, after, supply.caseId, row);
    EvolutionKeeps(s, after);
  }

  // Opening a case and appending evidence is an evolution.
  lemma GrownEvolves(s: Store, s': Store, c: nat, row: CaseRow)
    requires Linked(s') && DistinctIds(s'.tables.rows)
    requires s'.results == s.results && s'.decisions == s.decisions && s'.reviews == s.reviews
    requires s'.appeals == s.appeals && s'.events == s.events && s.tables.rows <= s'.tables.rows
    requires c !in s.cases && row.current == None && s'.cases == s.cases[c := row]
    requires forall id :: id in s.requirements ==> id in s'.requirements && s'.requirements[id] == s.requirements[id]
    ensures Evolves(s, s')
  {
    hide Linked, DistinctIds;
  }

  lemma IsReady(w: ReplayStore, i: nat, supply: Supply)
    requires ReadyToReplay(w, i, supply)
    ensures LedgerOk(w.ledger) && supply.caseId !in w.ledger.cases
    ensures supply.caseId !in w.ledger.tables.videos && supply.caseId !in w.ledger.investigations
    ensures SourceOf(w, i) in w.ledger.cases && SourceOf(w, i) in w.ledger.tables.videos
    ensures w.ledger.policies[TargetRef(w, i)].enabled
  {
    hide LedgerOk, Matched, WellNamed;
  }

  lemma RequirementsStay(w: ReplayStore, i: nat, supply: Supply)
    requires ReadyToReplay(w, i, supply)
    ensures forall id :: id in w.ledger.requirements ==>
      id in WithTarget(w, i, supply).requirements
      && WithTarget(w, i, supply).requirements[id] == w.ledger.requirements[id]
  {
    hide LedgerOk, Matched, WellNamed;
    var templates := w.ledger.policies[TargetRef(w, i)].compiled.requirements;
    var more := NewRequirements(supply.caseId, templates, supply.requirement);
    forall id | id in w.ledger.requirements
      ensures id !in more
    {
    }
  }

  lemma ReplayedIsLinked(w: ReplayStore, i: nat, supply: Supply, rows: seq<Evidence>)
    requires ReadyToReplay(w, i, supply)
    ensures Linked(WithTarget(w, i, supply).(tables := WithTarget(w, i, supply).tables.(rows := rows)))
  {
    var s, after := w.ledger, WithTarget(w, i, supply).(tables := WithTarget(w, i, supply).tables.(rows := rows));
    IsLinked(s) by {
      hide MadeFrom, WellNamed;
    }
    hide LedgerOk, MadeFrom, WellNamed;
    var templates := s.policies[TargetRef(w, i)].compiled.requirements;
    var more := NewRequirements(supply.caseId, templates, supply.requirement);
    assert forall id :: id in s.requirements ==> id !in more;
    var row := after.cases[supply.caseId];
    forall id | id in row.requirements
      ensures id in more && more[id].id == id && more[id].caseId == supply.caseId
    {
    }
    LinkedGrows(s, after, supply.caseId, row, more);
  }

  lemma IsLinked(s: Store)
    requires LedgerOk(s)
    ensures Linked(s)
  {
  }

  lemma LinkedGrows(s: Store, s': Store, c: nat, row: CaseRow, more: map<nat, RequirementRow>)
    requires Linked(s) && s'.decisions == s.decisions
    requires c !in s.cases && s'.cases == s.cases[c := row] && row.current == None
    requires s'.requirements == s.requirements + more && forall id :: id in s.requirements ==> id !in more
    requires forall id :: id in more ==> more[id].id == id
    requires forall id :: id in row.requirements ==> id in more && more[id].caseId == c
    ensures Linked(s')
  {
  }

  // What the materialization leaves, in terms of the two cases alone.
  lemma ReplayFacts(w: ReplayStore, i: nat, supply: Supply)
    requires ReadyToReplay(w, i, supply)
    ensures
      var s, after, c := w.ledger, Replayed(w, i, supply), SourceOf(w, i);
      var templates := s.policies[TargetRef(w, i)].compiled.requirements;
      && LedgerOk(s) && LedgerOk(after)
      && after.policies == s.policies && after.results == s.results && after.investigations == s.investigations
      && supply.caseId !in s.investigations
      && after.cases == s.cases[supply.caseId := after.cases[supply.caseId]]
      && after.cases[supply.caseId].policy == TargetRef(w, i)
      && after.cases[supply.caseId].current == None
      && (forall id :: id in s.requirements ==>
          id in after.requirements && after.requirements[id] == s.requirements[id])
      && Twins(after.requirements, s.tables.rows, SourceIds(w, i), c, after.cases[supply.caseId].requirements,
               supply.caseId, templates)
      && CopiesOf(after.requirements, s.tables.rows, after.tables.rows, i, SourceIds(w, i),
                  after.cases[supply.caseId].requirements, templates, w.items[i].plan.reusable)
      && Extended(s.tables, after.tables) && c in s.tables.videos && SameVideo(after.tables, c, supply.caseId)
  {
    IsReady(w, i, supply);
    ReplayedEvolves(w, i, supply);
    RequirementsStay(w, i, supply);
    ReplayedTwins(w, i, supply);
    ReplayedTables(w, i, supply);
    hide ReadyToReplay, LedgerOk, Evolves, NewRequirements, Twins, CopiesOf, Extended, SameVideo;
  }

  lemma ReplayedTwins(w: ReplayStore, i: nat, supply: Supply)
    requires ReadyToReplay(w, i, supply)
    ensures
      var s, after, c := w.ledger, Replayed(w, i, supply), SourceOf(w, i);
      var templates := s.policies[TargetRef(w, i)].compiled.requirements;
      && Twins(after.requirements, s.tables.rows, SourceIds(w, i), c, after.cases[supply.caseId].requirements,
               supply.caseId, templates)
      && CopiesOf(after.requirements, s.tables.rows, after.tables.rows, i, SourceIds(w, i),
                  after.cases[supply.caseId].requirements, templates, w.items[i].plan.reusable)
  {
    IsReady(w, i, supply);
    Materializes(w, i, supply);
    TargetIsTwin(w, i, supply);
    hide ReadyToReplay, LedgerOk, NewRequirements, Twins, CopiesOf, Materialize, CreateCase, Numbers;
  }

  lemma ReplayedTables(w: ReplayStore, i: nat, supply: Supply)
    requires ReadyToReplay(w, i, supply)
    ensures
      var s, after, c := w.ledger, Replayed(w, i, supply), SourceOf(w, i);
      Extended(s.tables, after.tables) && c in s.tables.videos && SameVideo(after.tables, c, supply.caseId)
  {
    IsReady(w, i, supply);
    RowsExtend(w, i, supply);
    hide ReadyToReplay, LedgerOk, NewRequirements, Numbers, Materialize;
  }

  lemma RowsExtend(w: ReplayStore, i: nat, supply: Supply)
    requires ReadyToReplay(w, i, supply)
    ensures w.ledger.tables.rows <= Replayed(w, i, supply).tables.rows
  {
    ReplayedTwins(w, i, supply);
    hide ReadyToReplay, Twins, NewRequirements, ListFor, DerivedList, DistinctIds, WellNamed;
  }

  // The two rows of one template are found alike.
  ghost predicate FoundAlike(config: AggregationConfig, t: Tables, q: RequirementRow, t': Tables, q': RequirementRow) {
    && q'.template == q.template
    && Find(config, ItemsOf(t', q')) == Find(config, ItemsOf(t, q))
    && (Used(ItemsOf(t', q')) == {} <==> Used(ItemsOf(t, q)) == {})
  }

  ghost predicate FoundAmong(config: AggregationConfig, t: Tables, q: RequirementRow, t': Tables,
                             requirements': map<nat, RequirementRow>, targets: seq<nat>) {
    exists j :: 0 <= j < |targets| && targets[j] in requirements'
                && FoundAlike(config, t, q, t', requirements'[targets[j]])
  }

  ghost predicate FoundFrom(config: AggregationConfig, t: Tables, requirements: map<nat, RequirementRow>,
                            source: seq<nat>, t': Tables, q': RequirementRow) {
    exists k :: 0 <= k < |source| && source[k] in requirements
                && FoundAlike(config, t, requirements[source[k]], t', q')
  }

  // Every requirement of the target gets the finding of its twin.
  lemma TwinsAreFoundAlike(w: ReplayStore, i: nat, supply: Supply, config: AggregationConfig, k: nat)
    requires ReadyToReplay(w, i, supply) && SoundSource(w.ledger, SourceOf(w, i))
    requires k < |SourceIds(w, i)|
    ensures
      var s, after := w.ledger, Replayed(w, i, supply);
      var source, targets := SourceIds(w, i), after.cases[supply.caseId].requirements;
      && source[k] in s.requirements && k < |targets| && targets[k] in after.requirements
      && FoundAlike(config, s.tables, s.requirements[source[k]], after.tables, after.requirements[targets[k]])
  {
    ReplayFacts(w, i, supply);
    var s, after, c := w.ledger, Replayed(w, i, supply), SourceOf(w, i);
    var source, targets := SourceIds(w, i), after.cases[supply.caseId].requirements;
    var templates := s.policies[TargetRef(w, i)].compiled.requirements;
    SourceRequirement(w, i, supply, k);
    hide ReadyToReplay, SoundSource, LedgerOk, Replayed, CopiesOf, Extended, SourceIds;
    assert after.requirements[targets[k]].template == after.requirements[source[k]].template;
    hide Twins, Matched, NothingRevives, ListFor;
    TwinFindings(after.requirements, s.tables, after.tables, i, source, c, targets, supply.caseId, templates,
                 w.items[i].plan.reusable, k, config);
  }

  lemma SourceRequirement(w: ReplayStore, i: nat, supply: Supply, k: nat)
    requires ReadyToReplay(w, i, supply) && SoundSource(w.ledger, SourceOf(w, i))
    requires k < |SourceIds(w, i)|
    ensures
      var s, c := w.ledger, SourceOf(w, i);
      var id := SourceIds(w, i)[k];
      var templates := s.policies[TargetRef(w, i)].compiled.requirements;
      && id in s.requirements && NothingRevives(s.tables, s.requirements[id])
      && (forall e :: e in ListFor(s.tables.rows, id) ==> e.caseId == c)
      && k < |templates| && templates[k].key in w.items[i].plan.reusable
  {
    SourceIsMatched(w, i, supply);
    hide LedgerOk, NothingRevives, ListFor, Unused, WellNamed, SourceIds, MadeFrom;
    assert SourceIds(w, i)[k] in SourceIds(w, i);
  }

  // Every requirement of the source has its twin in the target, and every requirement of the target is one;
  // twins are found alike.
  lemma ReplayKeepsFindings(w: ReplayStore, i: nat, supply: Supply, config: AggregationConfig)
    requires ReadyToReplay(w, i, supply) && SoundSource(w.ledger, SourceOf(w, i))
    ensures
      var s, after := w.ledger, Replayed(w, i, supply);
      var source, targets := s.cases[SourceOf(w, i)].requirements, after.cases[supply.caseId].requirements;
      && (forall k :: 0 <= k < |source| ==>
            && source[k] in s.requirements
            && FoundAmong(config, s.tables, s.requirements[source[k]], after.tables, after.requirements, targets))
      && (forall j :: 0 <= j < |targets| ==>
            && targets[j] in after.requirements
            && FoundFrom(config, s.tables, s.requirements, source, after.tables, after.requirements[targets[j]]))
  {
    var s, after := w.ledger, Replayed(w, i, supply);
    var source, targets := s.cases[SourceOf(w, i)].requirements, after.cases[supply.caseId].requirements;
    var ids := SourceIds(w, i);
    hide ReadyToReplay, SoundSource, Replayed, SourceIds, FoundAlike;
    SourceIdsAlign(w, i, supply);
    forall k | 0 <= k < |ids|
      ensures ids[k] in s.requirements && targets[k] in after.requirements
      ensures FoundAlike(config, s.tables, s.requirements[ids[k]], after.tables, after.requirements[targets[k]])
    {
      TwinsAreFoundAlike(w, i, supply, config, k);
    }
    forall k | 0 <= k < |source|
      ensures source[k] in s.requirements
      ensures FoundAmong(config, s.tables, s.requirements[source[k]], after.tables, after.requirements, targets)
    {
      assert source[k] in ids;
      var j :| 0 <= j < |ids| && ids[j] == source[k];
    }
    forall j | 0 <= j < |targets|
      ensures targets[j] in after.requirements
      ensures FoundFrom(config, s.tables, s.requirements, source, after.tables, after.requirements[targets[j]])
    {
      assert ids[j] in source;
      var k :| 0 <= k < |source| && source[k] == ids[j];
    }
  }

  lemma SourceIdsAlign(w: ReplayStore, i: nat, supply: Supply)
    requires ReadyToReplay(w, i, supply)
    ensures
      var s, after := w.ledger, Replayed(w, i, supply);
      && supply.caseId in after.cases
      && |SourceIds(w, i)| == |after.cases[supply.caseId].requirements|
      && forall id :: id in SourceIds(w, i) <==> id in s.cases[SourceOf(w, i)].requirements
  {
    hide LedgerOk, CopiesOf, Extended, Replayed, WellNamed, DistinctIds, SourceIds;
    SourceIsMatched(w, i, supply);
    ReplayFacts(w, i, supply);
  }

  lemma KnownRequirements(s: Store, c: nat)
    requires LedgerOk(s) && c in s.cases
    ensures Known(s.requirements, s.cases[c].requirements)
    ensures Honest(s.results) && Numbered(s.results) && DistinctIds(s.tables.rows)
  {
    hide Chained, PointersOk, Supported, Owned, Honest, Numbered, DistinctIds;
  }

  // The outcomes of both cases, computed over the earlier results each may have.
  lemma ReplayKeepsOutcomes(w: ReplayStore, i: nat, supply: Supply, config: AggregationConfig,
                            origins: map<string, ResultKey>, item: Option<nat>,
                            origins': map<string, ResultKey>, item': Option<nat>)
    requires ReadyToReplay(w, i, supply) && SoundSource(w.ledger, SourceOf(w, i))
    ensures
      var s, after := w.ledger, Replayed(w, i, supply);
      var source, targets := s.cases[SourceOf(w, i)].requirements, after.cases[supply.caseId].requirements;
      && Known(s.requirements, source) && Known(after.requirements, targets)
      && SameFindings(AggregateAll(s.results, s.requirements, s.tables, source, config, origins, item).outcomes,
                      AggregateAll(after.results, after.requirements, after.tables, targets, config, origins',
                                   item').outcomes)
  {
    var s, after, c := w.ledger, Replayed(w, i, supply), SourceOf(w, i);
    var source, targets := s.cases[c].requirements, after.cases[supply.caseId].requirements;
    hide SoundSource, Replayed, LedgerOk, ReadyToReplay, AggregateAll, Known, SaysOf, FoundAmong, FoundFrom,
      SameFindings, OneKeyEach;
    KeysOnce(w, i, supply);
    ReplayKeepsFindings(w, i, supply, config);
    Said(s, c, config, origins, item);
    Said(after, supply.caseId, config, origins', item');
    var a := AggregateAll(s.results, s.requirements, s.tables, source, config, origins, item).outcomes;
    var b := AggregateAll(after.results, after.requirements, after.tables, targets, config, origins', item').outcomes;
    EachAlike(a, s.tables, s.requirements, source, b, after.tables, after.requirements, targets, config);
  }

  // Neither case has two requirements of one key.
  lemma KeysOnce(w: ReplayStore, i: nat, supply: Supply)
    requires ReadyToReplay(w, i, supply)
    ensures
      var s, after := w.ledger, Replayed(w, i, supply);
      && LedgerOk(s) && LedgerOk(after) && SourceOf(w, i) in s.cases && supply.caseId in after.cases
      && OneKeyEach(s.requirements, s.cases[SourceOf(w, i)].requirements)
      && OneKeyEach(after.requirements, after.cases[supply.caseId].requirements)
  {
    ReplayFacts(w, i, supply);
    hide LedgerOk, CopiesOf, Extended, Replayed, WellNamed, DistinctIds, SourceIds;
  }

  ghost predicate OneKeyEach(requirements: map<nat, RequirementRow>, ids: seq<nat>) {
    && (forall k :: 0 <= k < |ids| ==> ids[k] in requirements)
    && forall i, j :: 0 <= i < j < |ids| ==> requirements[ids[i]].template.key != requirements[ids[j]].template.key
  }

  lemma EachAlike(a: seq<Outcome>, t: Tables, requirements: map<nat, RequirementRow>, source: seq<nat>,
                  b: seq<Outcome>, t': Tables, requirements': map<nat, RequirementRow>, targets: seq<nat>,
                  config: AggregationConfig)
    requires OneKeyEach(requirements, source) && OneKeyEach(requirements', targets)
    requires |a| == |source| && forall k :: 0 <= k < |a| ==> SaysOf(a[k], t, requirements[source[k]], config)
    requires |b| == |targets| && forall k :: 0 <= k < |b| ==> SaysOf(b[k], t', requirements'[targets[k]], config)
    requires forall k :: 0 <= k < |source| ==>
      FoundAmong(config, t, requirements[source[k]], t', requirements', targets)
    requires forall j :: 0 <= j < |targets| ==>
      FoundFrom(config, t, requirements, source, t', requirements'[targets[j]])
    ensures SameFindings(a, b)
  {
    hide FoundAmong, FoundFrom, FoundIn, SaysOf;
    forall k | 0 <= k < |a|
      ensures FoundIn(a[k], b)
    {
      AlikeAmong(a[k], t, requirements[source[k]], b, t', requirements', targets, config);
    }
    forall j | 0 <= j < |b|
      ensures FoundIn(b[j], a)
    {
      AlikeFrom(a, t, requirements, source, b[j], t', requirements'[targets[j]], config);
    }
    SaidOnce(a, t, requirements, source, config);
    SaidOnce(b, t', requirements', targets, config);
  }

  lemma SaidOnce(a: seq<Outcome>, t: Tables, requirements: map<nat, RequirementRow>, ids: seq<nat>,
                 config: AggregationConfig)
    requires OneKeyEach(requirements, ids)
    requires |a| == |ids| && forall k :: 0 <= k < |a| ==> SaysOf(a[k], t, requirements[ids[k]], config)
    ensures OneForEachKey(a)
  {
    forall i, j | 0 <= i < j < |a|
      ensures a[i].key != a[j].key
    {
      assert SaysOf(a[i], t, requirements[ids[i]], config) && SaysOf(a[j], t, requirements[ids[j]], config);
    }
  }

  lemma AlikeAmong(o: Outcome, t: Tables, q: RequirementRow, b: seq<Outcome>, t': Tables,
                   requirements': map<nat, RequirementRow>, targets: seq<nat>, config: AggregationConfig)
    requires SaysOf(o, t, q, config) && FoundAmong(config, t, q, t', requirements', targets)
    requires |b| == |targets| && forall k :: 0 <= k < |b| ==>
      targets[k] in requirements' && SaysOf(b[k], t', requirements'[targets[k]], config)
    ensures FoundIn(o, b)
  {
    hide FoundAlike, SameFinding, SaysOf;
    var j :| 0 <= j < |targets| && targets[j] in requirements'
      && FoundAlike(config, t, q, t', requirements'[targets[j]]);
    SaidAlike(o, t, q, b[j], t', requirements'[targets[j]], config);
  }

  lemma AlikeFrom(a: seq<Outcome>, t: Tables, requirements: map<nat, RequirementRow>, source: seq<nat>,
                  o: Outcome, t': Tables, q': RequirementRow, config: AggregationConfig)
    requires SaysOf(o, t', q', config) && FoundFrom(config, t, requirements, source, t', q')
    requires |a| == |source| && forall k :: 0 <= k < |a| ==>
      source[k] in requirements && SaysOf(a[k], t, requirements[source[k]], config)
    ensures FoundIn(o, a)
  {
    hide FoundAlike, SameFinding, SaysOf;
    var k :| 0 <= k < |source| && source[k] in requirements && FoundAlike(config, t, requirements[source[k]], t', q');
    SaidAlike(a[k], t, requirements[source[k]], o, t', q', config);
  }

  lemma Said(s: Store, c: nat, config: AggregationConfig, origins: map<string, ResultKey>, item: Option<nat>)
    requires LedgerOk(s) && c in s.cases
    ensures
      var ids := s.cases[c].requirements;
      && Known(s.requirements, ids)
      && var outcomes := AggregateAll(s.results, s.requirements, s.tables, ids, config, origins, item).outcomes;
      && |outcomes| == |ids|
      && forall k :: 0 <= k < |ids| ==>
        ids[k] in s.requirements && SaysOf(outcomes[k], s.tables, s.requirements[ids[k]], config)
  {
    KnownRequirements(s, c);
    hide LedgerOk, SaysOf, Honest, Numbered, DistinctIds;
    AggregateAllIsFresh(s.results, s.requirements, s.tables, s.cases[c].requirements, config, origins, item);
  }

  lemma SaidAlike(o: Outcome, t: Tables, q: RequirementRow, o': Outcome, t': Tables, q': RequirementRow,
                  config: AggregationConfig)
    requires SaysOf(o, t, q, config) && SaysOf(o', t', q', config) && FoundAlike(config, t, q, t', q')
    ensures SameFinding(o, o') && SameFinding(o', o)
  {
  }

  // Both cases are evaluated, and alike.
  lemma ReplayKeepsVerdict(w: ReplayStore, i: nat, supply: Supply, origins: map<string, ResultKey>, item: Option<nat>,
                           origins': map<string, ResultKey>, item': Option<nat>)
    requires ReadyToReplay(w, i, supply) && SoundSource(w.ledger, SourceOf(w, i))
    requires Agreeing(w.ledger.policies[w.ledger.cases[SourceOf(w, i)].policy].compiled,
                      w.ledger.policies[TargetRef(w, i)].compiled)
    ensures
      var after := Replayed(w, i, supply);
      && Linked(w.ledger) && Linked(after) && supply.caseId in after.cases
      && after.cases[supply.caseId].policy in after.policies
      && var e, e' := EvaluationOf(w.ledger, SourceOf(w, i), origins, item),
                      EvaluationOf(after, supply.caseId, origins', item');
      && e.Some? == e'.Some?
      && (e.Some? ==> e'.value.verdict == e.value.verdict && e'.value.reason == e.value.reason)
  {
    ReplayFacts(w, i, supply);
    var s, after, c := w.ledger, Replayed(w, i, supply), SourceOf(w, i);
    var p, p' := s.policies[s.cases[c].policy].compiled, s.policies[TargetRef(w, i)].compiled;
    ReplayKeepsOutcomes(w, i, supply, p.aggregation, origins, item, origins', item');
    assert p.aggregation == p'.aggregation;
    assert InvestigationOf(after, supply.caseId) == RunCompleted == InvestigationOf(s, c);
    hide ReadyToReplay, SoundSource, Twins, CopiesOf, Replayed, AggregateAll, Evaluate, SameFindings, Agreeing, Known;
    assert Linked(s) && Linked(after);
    hide LedgerOk, Linked;
    SameVerdicts(p, p',
                 AggregateAll(s.results, s.requirements, s.tables, s.cases[c].requirements, p.aggregation, origins,
                              item).outcomes,
                 AggregateAll(after.results, after.requirements, after.tables, after.cases[supply.caseId].requirements,
                              p'.aggregation, origins', item').outcomes,
                 RunCompleted);
  }

  // Replay preserves meaning: when both versions agree, the replayed case is decided, and decided as an
  // evaluation of its source decides.
  lemma ReplayPreservesMeaning(w: ReplayStore, i: nat, supply: Supply, origins: map<string, ResultKey>,
                               item: Option<nat>)
    requires ReadyToReplay(w, i, supply) && SoundSource(w.ledger, SourceOf(w, i))
    requires Agreeing(w.ledger.policies[w.ledger.cases[SourceOf(w, i)].policy].compiled,
                      w.ledger.policies[TargetRef(w, i)].compiled)
    ensures
      var r := Materialize(w, i, supply);
      && r.Ok? && r.value.Started? && r.value.scope == []
      && var after := r.value.store.ledger;
      && Linked(w.ledger) && Linked(after)
      && var decided := Finalize(after, supply.caseId, true, r.value.origins, Some(i));
      && decided.Committed?
      && decided.id < |decided.store.decisions|
      && EvaluationOf(w.ledger, SourceOf(w, i), origins, item).Some?
      && decided.store.decisions[decided.id].verdict
         == EvaluationOf(w.ledger, SourceOf(w, i), origins, item).value.verdict
  {
    Materializes(w, i, supply);
    var r := Materialize(w, i, supply).value;
    assert Replayed(w, i, supply) == r.store.ledger;
    ReplayKeepsVerdict(w, i, supply, origins, item, r.origins, Some(i));
    TargetIsDecided(w, i, supply, r.origins);
    hide Materialize, EvaluationOf, Finalize, ReadyToReplay, SoundSource, Agreeing, LedgerOk, CopiesOf, WithTarget,
      Linked;
    FinalizationDecides(r.store.ledger, supply.caseId, true, r.origins, Some(i));
  }

  lemma TargetIsDecided(w: ReplayStore, i: nat, supply: Supply, origins: map<string, ResultKey>)
    requires ReadyToReplay(w, i, supply)
    ensures LedgerOk(Replayed(w, i, supply))
    ensures Finalize(Replayed(w, i, supply), supply.caseId, true, origins, Some(i)).Committed?
  {
    ReplayFacts(w, i, supply);
    IsReady(w, i, supply);
    hide ReadyToReplay, LedgerOk, CopiesOf, Extended, Twins, WithTarget;
    NewCaseIsDecided(Replayed(w, i, supply), w.ledger.tables.rows, supply.caseId, SourceOf(w, i),
                     SourceIds(w, i), w.ledger.policies[TargetRef(w, i)].compiled.requirements, origins, Some(i));
  }

  // A case of an enabled version, with its requirements and without a decision, is always decided.
  lemma NewCaseIsDecided(s: Store, rows: seq<Evidence>, caseId: nat, c: nat, source: seq<nat>, templates: seq<Template>,
                         origins: map<string, ResultKey>, item: Option<nat>)
    requires LedgerOk(s) && caseId in s.cases && caseId !in s.investigations && s.cases[caseId].current == None
    requires s.cases[caseId].policy in s.policies && s.policies[s.cases[caseId].policy].enabled
    requires s.policies[s.cases[caseId].policy].compiled.requirements == templates
    requires Twins(s.requirements, rows, source, c, s.cases[caseId].requirements, caseId, templates)
    ensures Finalize(s, caseId, true, origins, item).Committed?
  {
    assert Linked(s);
    assert Matched(s.requirements, s.cases[caseId].requirements, caseId, templates);
    hide LedgerOk, Twins;
    assert RequirementKeys(s.requirements, s.cases[caseId].requirements) == TemplateKeys(templates);
    assert Ready(s, caseId, true).None?;
    hide Matched, Linked, Ready, AggregateAll, Evaluate, RequirementKeys, TemplateKeys, Finalize;
    MatchedCaseIsEvaluated(s, caseId, true, origins, item);
    EvaluatedIsDecided(s, caseId, true, origins, item);
  }

  lemma EvaluatedIsDecided(s: Store, caseId: nat, allow: bool, origins: map<string, ResultKey>, item: Option<nat>)
    requires Linked(s) && Ready(s, caseId, allow).None? && s.cases[caseId].current == None
    requires multiset(RequirementKeys(s.requirements, s.cases[caseId].requirements))
             == multiset(TemplateKeys(s.policies[s.cases[caseId].policy].compiled.requirements))
    requires EvaluationOf(s, caseId, origins, item).Some?
    ensures Finalize(s, caseId, allow, origins, item).Committed?
  {
    hide AggregateAll, Evaluate, FindMachine, LastDecision, RequirementKeys, TemplateKeys;
  }
}
