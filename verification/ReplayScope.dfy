/** What one materialization does: when it is refused, what it investigates, which rows it derives, and the
    lineage it leaves. */
module ReplayScope {
  import opened Common
  import opened AgentTypes
  import opened AgentStore
  import opened Policy
  import opened EvidenceStore
  import opened Aggregation
  import Rules
  import opened Ledger
  import opened Planner
  import opened Replay
  import opened ReplayLaws
  import opened ReplayHistory
  import opened ReplayPlans

  // ---- requirements by key ---------------------------------------------------------------

  ghost predicate KeysOnce(requirements: map<nat, RequirementRow>, ids: seq<nat>) {
    forall i, j :: 0 <= i < j < |ids| && ids[i] in requirements && ids[j] in requirements ==>
      requirements[ids[i]].template.key != requirements[ids[j]].template.key
  }

  // The row is the requirement of that key.
  ghost predicate Under(requirements: map<nat, RequirementRow>, ids: seq<nat>, key: string, q: RequirementRow) {
    exists id :: id in ids && id in requirements && requirements[id] == q && q.template.key == key
  }

  lemma LookupIsUnder(requirements: map<nat, RequirementRow>, ids: seq<nat>, key: string, q: RequirementRow)
    requires KeysOnce(requirements, ids)
    ensures RequirementOf(requirements, ids, key) == Some(q) <==> Under(requirements, ids, key, q)
  {
    if id :| id in ids && id in requirements && requirements[id] == q && q.template.key == key {
      var k :| 0 <= k < |ids| && ids[k] == id;
      LookupOnce(requirements, ids, k);
    }
  }

  lemma NothingUnder(requirements: map<nat, RequirementRow>, ids: seq<nat>, key: string)
    requires KeysOnce(requirements, ids)
    ensures RequirementOf(requirements, ids, key) == None <==> forall q :: !Under(requirements, ids, key, q)
  {
    var found := RequirementOf(requirements, ids, key);
    if found.Some? {
      LookupIsUnder(requirements, ids, key, found.value);
    }
    forall q | Under(requirements, ids, key, q)
      ensures found.Some?
    {
      LookupIsUnder(requirements, ids, key, q);
    }
  }

  // Both cases hold the key.
  ghost predicate Paired(requirements: map<nat, RequirementRow>, source: seq<nat>, targets: seq<nat>, key: string,
                         q: RequirementRow, q': RequirementRow) {
    Under(requirements, source, key, q) && Under(requirements, targets, key, q')
  }

  lemma PairIsPaired(requirements: map<nat, RequirementRow>, source: seq<nat>, targets: seq<nat>, key: string)
    requires KeysOnce(requirements, source) && KeysOnce(requirements, targets)
    ensures forall q, q' :: PairOf(requirements, source, targets, key) == Some(Pair(q, q'))
                            <==> Paired(requirements, source, targets, key, q, q')
  {
    forall q
      ensures RequirementOf(requirements, source, key) == Some(q) <==> Under(requirements, source, key, q)
      ensures RequirementOf(requirements, targets, key) == Some(q) <==> Under(requirements, targets, key, q)
    {
      LookupIsUnder(requirements, source, key, q);
      LookupIsUnder(requirements, targets, key, q);
    }
    hide Under, RequirementOf;
  }

  // ---- the scope -------------------------------------------------------------------------

  ghost predicate Holding(requirements: map<nat, RequirementRow>, ids: seq<nat>, key: string) {
    exists q :: Under(requirements, ids, key, q)
  }

  // The places of the plan whose keys the target holds, with the identifiers found there.
  ghost function Held(requirements: map<nat, RequirementRow>, targets: seq<nat>, keys: seq<string>): (r: seq<int>)
    ensures forall k :: k in r <==> 0 <= k < |keys| && Holding(requirements, targets, keys[k])
    ensures forall a, b :: 0 <= a < b < |r| ==> r[a] < r[b]
  {
    if keys == [] then []
    else
      var n := |keys| - 1;
      var rest := Held(requirements, targets, keys[..n]);
      assert forall a :: 0 <= a < |rest| ==> rest[a] in rest;
      if Holding(requirements, targets, keys[n]) then rest + [n] else rest
  }

  lemma {:induction false} ScopeIsHeld(requirements: map<nat, RequirementRow>, targets: seq<nat>, keys: seq<string>)
    requires KeysOnce(requirements, targets)
    requires forall id :: id in targets && id in requirements ==> requirements[id].id == id
    ensures
      var scope, places := Scope(requirements, targets, keys), Held(requirements, targets, keys);
      && |scope| == |places|
      && forall a :: 0 <= a < |scope| ==>
           && scope[a] in targets && scope[a] in requirements
           && places[a] in places && requirements[scope[a]].template.key == keys[places[a]]
  {
    if keys != [] {
      var n := |keys| - 1;
      ScopeIsHeld(requirements, targets, keys[..n]);
      NothingUnder(requirements, targets, keys[n]);
      var q := RequirementOf(requirements, targets, keys[n]);
      if q.Some? {
        LookupIsUnder(requirements, targets, keys[n], q.value);
      }
      hide KeysOnce, RequirementOf;
    }
  }

  // ---- derived rows and their lineage ----------------------------------------------------

  // A row carried over: what was seen, where and how surely stays; its sources stay behind.
  ghost function CarriedOver(item: nat, target: nat, requirement: nat, e: Evidence): Evidence {
    Evidence(Derived(item, e.id, requirement), target, requirement, e.stance, e.modality, e.start, e.end, e.artifact,
             None, None, e.sourceRef, e.summary, e.confidence, Some(e.id), Some(item))
  }

  // Rows derived for one requirement from the listed ones, each once.
  ghost predicate Carries(rows: seq<Evidence>, after: seq<Evidence>, item: nat, target: nat, requirement: nat,
                          list: seq<Evidence>) {
    && rows <= after
    && (forall n :: |rows| <= n < |after| ==>
          exists e :: e in list && after[n] == CarriedOver(item, target, requirement, e))
    && forall e :: e in list ==> Holds(after, Derived(item, e.id, requirement))
  }

  lemma {:induction false} CopyCarries(rows: seq<Evidence>, item: nat, target: nat, requirement: nat,
                                       list: seq<Evidence>)
    ensures Carries(rows, CopyRows(rows, item, target, requirement, list), item, target, requirement, list)
  {
    CopyHoldsAll(rows, item, target, requirement, list);
    if list != [] {
      var n := |list| - 1;
      CopyCarries(rows, item, target, requirement, list[..n]);
      assert list[n] in list && forall e :: e in list[..n] ==> e in list;
      hide Holds;
    }
  }

  // The row is evidence of a reused key, to be derived for that requirement of the target.
  ghost predicate Reusable(requirements: map<nat, RequirementRow>, rows: seq<Evidence>, source: seq<nat>,
                           targets: seq<nat>, keys: seq<string>, e: Evidence, requirement: nat) {
    exists key, q, q' :: key in keys && Paired(requirements, source, targets, key, q, q')
                         && e in rows && e.requirementId == q.id && requirement == q'.id
  }

  ghost predicate KeepsMeaning(requirements: map<nat, RequirementRow>, source: seq<nat>, targets: seq<nat>,
                               key: string) {
    forall q, q' :: Paired(requirements, source, targets, key, q, q') ==> q.template == q'.template
  }

  ghost predicate CopiedExactly(requirements: map<nat, RequirementRow>, rows: seq<Evidence>, item: nat,
                                source: seq<nat>, target: nat, targets: seq<nat>, keys: seq<string>, c: Copied) {
    && rows <= c.rows
    && (forall n :: |rows| <= n < |c.rows| ==>
          exists e, r :: Reusable(requirements, rows, source, targets, keys, e, r)
                         && c.rows[n] == CarriedOver(item, target, r, e))
    && (forall e, r :: Reusable(requirements, rows, source, targets, keys, e, r) ==>
        Holds(c.rows, Derived(item, e.id, r)))
    && (forall l :: l in c.lineage <==>
          exists e, r :: Reusable(requirements, rows, source, targets, keys, e, r)
                         && l == EvidenceReused(item, e.id, Derived(item, e.id, r)))
  }

  // The source's requirement of that key, which the target holds too, stands at that result.
  ghost predicate CurrentUnder(requirements: map<nat, RequirementRow>, source: seq<nat>, targets: seq<nat>, key: string,
                               origin: ResultKey) {
    exists q, q' :: Paired(requirements, source, targets, key, q, q') && q.current == Some(origin)
  }

  ghost predicate OriginsExactly(requirements: map<nat, RequirementRow>, source: seq<nat>, targets: seq<nat>,
                                 keys: seq<string>, origins: map<string, ResultKey>) {
    forall key, origin :: OriginExactly(requirements, source, targets, keys, origins, key, origin)
  }

  ghost predicate OriginExactly(requirements: map<nat, RequirementRow>, source: seq<nat>, targets: seq<nat>,
                                keys: seq<string>, origins: map<string, ResultKey>, key: string, origin: ResultKey) {
    (key in origins && origins[key] == origin)
    <==> (key in keys && CurrentUnder(requirements, source, targets, key, origin))
  }

  lemma {:induction false} CopyKeysExactly(requirements: map<nat, RequirementRow>, rows: seq<Evidence>, item: nat,
                                           source: seq<nat>, target: nat, targets: seq<nat>, keys: seq<string>)
    requires KeysOnce(requirements, source) && KeysOnce(requirements, targets) && Apart(requirements, source, targets)
    ensures
      var copied := CopyKeys(requirements, rows, item, source, target, targets, keys);
      && (copied == None <==> exists key :: key in keys && !KeepsMeaning(requirements, source, targets, key))
      && (copied.Some? ==>
            && CopiedExactly(requirements, rows, item, source, target, targets, keys, copied.value)
            && OriginsExactly(requirements, source, targets, keys, copied.value.origins))
  {
    if keys == [] {
      NothingCopied(requirements, rows, item, source, target, targets);
    } else {
      hide KeysOnce, Apart, CopiedExactly, OriginsExactly, KeepsMeaning, CopyKey;
      var n := |keys| - 1;
      assert keys == keys[..n] + [keys[n]];
      CopyKeysExactly(requirements, rows, item, source, target, targets, keys[..n]);
      var before := CopyKeys(requirements, rows, item, source, target, targets, keys[..n]);
      if before.Some? {
        CopiedKeysHold(requirements, rows, item, source, target, targets, keys[..n]);
        OneKeyExactly(requirements, rows, item, source, target, targets, keys[..n], keys[n], before.value);
      }
    }
  }

  lemma NothingCopied(requirements: map<nat, RequirementRow>, rows: seq<Evidence>, item: nat, source: seq<nat>,
                      target: nat, targets: seq<nat>)
    ensures CopiedExactly(requirements, rows, item, source, target, targets, [], Copied(rows, {}, map[]))
    ensures OriginsExactly(requirements, source, targets, [], map[])
  {
  }

  lemma OneKeyExactly(requirements: map<nat, RequirementRow>, rows: seq<Evidence>, item: nat, source: seq<nat>,
                      target: nat, targets: seq<nat>, keys: seq<string>, key: string, before: Copied)
    requires KeysOnce(requirements, source) && KeysOnce(requirements, targets) && Apart(requirements, source, targets)
    requires CopiedExactly(requirements, rows, item, source, target, targets, keys, before)
    requires OriginsExactly(requirements, source, targets, keys, before.origins)
    requires forall id :: id in source ==> ListFor(before.rows, id) == ListFor(rows, id)
    ensures
      var copied := CopyKey(requirements, before, item, source, target, targets, key);
      && (copied == None <==> !KeepsMeaning(requirements, source, targets, key))
      && (copied.Some? ==>
            && CopiedExactly(requirements, rows, item, source, target, targets, keys + [key], copied.value)
            && OriginsExactly(requirements, source, targets, keys + [key], copied.value.origins))
  {
    hide KeysOnce, Apart, CopiedExactly, OriginsExactly, PairOf, CopyRows, ListFor, Paired;
    PairIsPaired(requirements, source, targets, key);
    var pair := PairOf(requirements, source, targets, key);
    if pair.None? {
      SameWithoutPair(requirements, rows, item, source, target, targets, keys, key, before);
    } else {
      var Pair(q, q') := pair.value;
      PairIsApart(requirements, source, targets, key);
      assert Paired(requirements, source, targets, key, q, q');
      var copied := CopyKey(requirements, before, item, source, target, targets, key);
      if copied.Some? {
        CopyCarries(before.rows, item, target, q'.id, ListFor(before.rows, q.id));
        ReusableWithPair(requirements, rows, source, targets, keys, key, q, q');
        MoreRows(requirements, rows, item, source, target, targets, keys, key, before, ListFor(before.rows, q.id),
                 q'.id, copied.value);
        MoreOrigins(requirements, source, targets, keys, key, before.origins, q.current, copied.value.origins);
      }
    }
  }

  lemma SameWithoutPair(requirements: map<nat, RequirementRow>, rows: seq<Evidence>, item: nat, source: seq<nat>,
                        target: nat, targets: seq<nat>, keys: seq<string>, key: string, c: Copied)
    requires forall q, q' :: !Paired(requirements, source, targets, key, q, q')
    requires CopiedExactly(requirements, rows, item, source, target, targets, keys, c)
    requires OriginsExactly(requirements, source, targets, keys, c.origins)
    ensures CopiedExactly(requirements, rows, item, source, target, targets, keys + [key], c)
    ensures OriginsExactly(requirements, source, targets, keys + [key], c.origins)
  {
    hide Paired, Holds, CopiedExactly;
    assert forall k :: k in keys + [key] <==> k in keys || k == key;
    assert forall e, r :: Reusable(requirements, rows, source, targets, keys + [key], e, r)
                          <==> Reusable(requirements, rows, source, targets, keys, e, r);
    assert Reuses(item, 0, []) == {};
    assert c.lineage == c.lineage + Reuses(item, 0, []);
    MoreRows(requirements, rows, item, source, target, targets, keys, key, c, [], 0, c);
    forall origin
      ensures !CurrentUnder(requirements, source, targets, key, origin)
    {
    }
    MoreOrigins(requirements, source, targets, keys, key, c.origins, None, c.origins);
  }

  lemma ReusableWithPair(requirements: map<nat, RequirementRow>, rows: seq<Evidence>, source: seq<nat>,
                         targets: seq<nat>, keys: seq<string>, key: string, q: RequirementRow, q': RequirementRow)
    requires forall a, b :: Paired(requirements, source, targets, key, a, b) <==> a == q && b == q'
    ensures forall e, r :: Reusable(requirements, rows, source, targets, keys + [key], e, r)
                           <==> Reusable(requirements, rows, source, targets, keys, e, r)
                                || (e in ListFor(rows, q.id) && r == q'.id)
  {
    hide Paired;
    assert forall k :: k in keys + [key] <==> k in keys || k == key;
    assert Paired(requirements, source, targets, key, q, q');
  }

  lemma MoreRows(requirements: map<nat, RequirementRow>, rows: seq<Evidence>, item: nat, source: seq<nat>, target: nat,
                 targets: seq<nat>, keys: seq<string>, key: string, before: Copied, list: seq<Evidence>,
                 requirement: nat, after: Copied)
    requires CopiedExactly(requirements, rows, item, source, target, targets, keys, before)
    requires Carries(before.rows, after.rows, item, target, requirement, list)
    requires after.lineage == before.lineage + Reuses(item, requirement, list)
    requires forall e, r :: Reusable(requirements, rows, source, targets, keys + [key], e, r)
                            <==> Reusable(requirements, rows, source, targets, keys, e, r)
                                 || (e in list && r == requirement)
    ensures CopiedExactly(requirements, rows, item, source, target, targets, keys + [key], after)
  {
    hide Reusable, Holds;
    PrefixKeeps(before.rows, after.rows);
    forall n | |rows| <= n < |after.rows|
      ensures exists e, r :: Reusable(requirements, rows, source, targets, keys + [key], e, r)
                             && after.rows[n] == CarriedOver(item, target, r, e)
    {
      if n < |before.rows| {
        assert after.rows[n] == before.rows[n];
        var e, r :| Reusable(requirements, rows, source, targets, keys, e, r)
                    && before.rows[n] == CarriedOver(item, target, r, e);
        assert Reusable(requirements, rows, source, targets, keys + [key], e, r);
      } else {
        var e :| e in list && after.rows[n] == CarriedOver(item, target, requirement, e);
        assert Reusable(requirements, rows, source, targets, keys + [key], e, requirement);
      }
    }
    forall l
      ensures l in after.lineage <==>
        exists e, r :: Reusable(requirements, rows, source, targets, keys + [key], e, r)
                       && l == EvidenceReused(item, e.id, Derived(item, e.id, r))
    {
      if l in before.lineage {
        var e, r :| Reusable(requirements, rows, source, targets, keys, e, r)
                    && l == EvidenceReused(item, e.id, Derived(item, e.id, r));
        assert Reusable(requirements, rows, source, targets, keys + [key], e, r);
      }
      if l in Reuses(item, requirement, list) {
        var e :| e in list && l == EvidenceReused(item, e.id, Derived(item, e.id, requirement));
        assert Reusable(requirements, rows, source, targets, keys + [key], e, requirement);
      }
    }
  }

  lemma MoreOrigins(requirements: map<nat, RequirementRow>, source: seq<nat>, targets: seq<nat>, keys: seq<string>,
                    key: string, origins: map<string, ResultKey>, current: Option<ResultKey>,
                    after: map<string, ResultKey>)
    requires forall origin :: CurrentUnder(requirements, source, targets, key, origin) <==> current == Some(origin)
    requires OriginsExactly(requirements, source, targets, keys, origins)
    requires after == if current.Some? then origins[key := current.value] else origins
    ensures OriginsExactly(requirements, source, targets, keys + [key], after)
  {
    forall k: string, origin: ResultKey
      ensures OriginExactly(requirements, source, targets, keys + [key], after, k, origin)
    {
      assert k in keys + [key] <==> k in keys || k == key;
      assert OriginExactly(requirements, source, targets, keys, origins, k, origin);
      if k == key && k in origins {
        assert OriginExactly(requirements, source, targets, keys, origins, k, origins[k]);
        assert CurrentUnder(requirements, source, targets, key, origins[key]);
      }
    }
  }

  // ---- one materialization ---------------------------------------------------------------

  // What the requirements of a new case add.
  ghost predicate Adds(requirements: map<nat, RequirementRow>, ids: seq<nat>, target: nat, templates: seq<Template>,
                       after: map<nat, RequirementRow>) {
    && |ids| == |templates|
    && (forall k :: 0 <= k < |ids| ==>
          && ids[k] !in requirements && ids[k] in after
          && after[ids[k]] == RequirementRow(ids[k], target, templates[k], None, None))
    && (forall i, j :: 0 <= i < j < |ids| ==> ids[i] != ids[j])
    && (forall id :: id in after <==> id in requirements || id in ids)
    && (forall id :: id in requirements ==> after[id] == requirements[id])
  }

  // The target case was there for the video and the version, or was opened for them with one pending
  // requirement for each template of the version; nothing else was touched.
  ghost predicate TargetStands(s: Store, s': Store, video: nat, ref: PolicyRef, target: nat) {
    && target in s'.cases && s'.cases[target].policy == ref
    && target in s'.tables.videos && s'.tables.videos[target] == video
    && if target in s.cases then s' == s
       else
         && ref in s.policies
         && var templates, ids := s.policies[ref].compiled.requirements, s'.cases[target].requirements;
         && s'.cases[target] == CaseRow(ref, CaseReady, ids, None)
         && Adds(s.requirements, ids, target, templates, s'.requirements)
         && (forall c :: c in s.cases && c in s.tables.videos ==>
               !(s.cases[c].policy == ref && s.tables.videos[c] == video))
         && s' == s.(cases := s.cases[target := s'.cases[target]], requirements := s'.requirements,
                     tables := s.tables.(videos := s.tables.videos[target := video]))
  }

  lemma CreationIsExact(s: Store, ready: set<nat>, video: nat, ref: PolicyRef, supply: Supply)
    requires Unused(s, supply)
    ensures match CreateCase(s, ready, video, ref, supply)
            case Ok(created) =>
              && video in ready && ref in s.policies && s.policies[ref].published
              && TargetStands(s, created.store, video, ref, created.caseId)
            case Err(error) =>
              if video !in ready then error == VideoNotReady
              else error == TargetPolicyMissing && !(ref in s.policies && s.policies[ref].published)
  {
    hide FindCase, NewRequirements, Numbers, Unused, Adds;
    FoundIsThis(s, video, ref);
    if ref in s.policies {
      FreshRequirements(s, supply, s.policies[ref].compiled.requirements);
      assert supply.caseId !in s.cases by { IsUnused(s, supply); }
    }
  }

  lemma IsUnused(s: Store, supply: Supply)
    requires Unused(s, supply)
    ensures supply.caseId !in s.cases && forall id :: id in s.requirements ==> id < supply.requirement
  {
  }

  lemma NumbersRange(first: nat, n: nat)
    ensures |Numbers(first, n)| == n && forall k :: 0 <= k < n ==> Numbers(first, n)[k] == first + k
    ensures forall id :: id in Numbers(first, n) <==> first <= id < first + n
  {
    forall id | first <= id < first + n
      ensures id in Numbers(first, n)
    {
      assert Numbers(first, n)[id - first] == id;
    }
  }

  lemma NewRowsRange(caseId: nat, templates: seq<Template>, first: nat)
    ensures
      var more := NewRequirements(caseId, templates, first);
      && (forall id :: id in more <==> first <= id < first + |templates|)
      && forall id :: id in more ==> more[id] == RequirementRow(id, caseId, templates[id - first], None, None)
  {
  }

  lemma AddsMore(requirements: map<nat, RequirementRow>, after: map<nat, RequirementRow>, ids: seq<nat>, first: nat,
                 target: nat, templates: seq<Template>)
    requires forall id :: id in requirements ==> id < first
    requires |ids| == |templates| && forall k :: 0 <= k < |ids| ==> ids[k] == first + k
    requires forall id :: id in ids <==> first <= id < first + |templates|
    requires forall id :: id in after <==> id in requirements || first <= id < first + |templates|
    requires forall id :: id in after && first <= id ==>
               after[id] == RequirementRow(id, target, templates[id - first], None, None)
    requires forall id :: id in requirements ==> after[id] == requirements[id]
    ensures Adds(requirements, ids, target, templates, after)
  {
    forall k | 0 <= k < |ids|
      ensures ids[k] !in requirements && ids[k] in after
      ensures after[ids[k]] == RequirementRow(ids[k], target, templates[k], None, None)
    {
      RowAt(after, ids[k], k, first, target, templates);
    }
  }

  lemma RowAt(after: map<nat, RequirementRow>, id: nat, k: nat, first: nat, target: nat, templates: seq<Template>)
    requires id == first + k && k < |templates| && id in after
    requires after[id] == RequirementRow(id, target, templates[id - first], None, None)
    ensures after[id] == RequirementRow(id, target, templates[k], None, None)
  {
  }

  lemma FreshRequirements(s: Store, supply: Supply, templates: seq<Template>)
    requires Unused(s, supply)
    ensures Adds(s.requirements, Numbers(supply.requirement, |templates|), supply.caseId, templates,
                 s.requirements + NewRequirements(supply.caseId, templates, supply.requirement))
  {
    hide Numbers, NewRequirements, Unused, Adds;
    IsUnused(s, supply);
    NumbersRange(supply.requirement, |templates|);
    NewRowsRange(supply.caseId, templates, supply.requirement);
    AddsMore(s.requirements, s.requirements + NewRequirements(supply.caseId, templates, supply.requirement),
             Numbers(supply.requirement, |templates|), supply.requirement, supply.caseId, templates);
  }

  lemma FoundIsThis(s: Store, video: nat, ref: PolicyRef)
    ensures match FindCase(s, video, ref)
            case Some(c) => c in s.cases && s.cases[c].policy == ref && c in s.tables.videos
              && s.tables.videos[c] == video
            case None => forall c :: c in s.cases && c in s.tables.videos ==>
                           !(s.cases[c].policy == ref && s.tables.videos[c] == video)
  {
    if FindCase(s, video, ref).None? {
      forall c | c in s.cases && c in s.tables.videos
        ensures !(s.cases[c].policy == ref && s.tables.videos[c] == video)
      {
        assert !SameSubject(s, c, video, ref);
      }
    }
  }

  // Every invalidation is on record, with the requirement of the source it is about, if there is one.
  ghost predicate MarksExactly(requirements: map<nat, RequirementRow>, source: seq<nat>, item: nat,
                               invalidations: seq<Invalidation>, marks: set<Lineage>) {
    forall l :: l in marks <==>
      exists v :: v in invalidations && MarkedBy(requirements, source, item, v, l)
  }

  ghost predicate MarkedBy(requirements: map<nat, RequirementRow>, source: seq<nat>, item: nat, v: Invalidation,
                           l: Lineage) {
    && l.RequirementInvalidated? && l.item == item && l.reason == v.reason
    && (forall q :: Under(requirements, source, v.key, q) ==> l.requirement == Some(q.id))
    && (l.requirement.Some? ==> exists q :: Under(requirements, source, v.key, q))
  }

  lemma InvalidatedIsExact(requirements: map<nat, RequirementRow>, source: seq<nat>, item: nat,
                           invalidations: seq<Invalidation>)
    requires KeysOnce(requirements, source)
    ensures MarksExactly(requirements, source, item, invalidations,
                         Invalidated(requirements, source, item, invalidations))
  {
    hide KeysOnce, Under, RequirementOf;
    forall v: Invalidation, l
      ensures MarkedBy(requirements, source, item, v, l)
              <==> var q := RequirementOf(requirements, source, v.key);
                   l == RequirementInvalidated(item, if q.Some? then Some(q.value.id) else None, v.reason)
    {
      var found := RequirementOf(requirements, source, v.key);
      NothingUnder(requirements, source, v.key);
      forall q
        ensures Under(requirements, source, v.key, q) <==> found == Some(q)
      {
        LookupIsUnder(requirements, source, v.key, q);
      }
    }
    hide MarkedBy;
  }

  // The target case is another item's, or the item already has another one.
  ghost predicate Claimed(w: ReplayStore, i: nat, target: nat)
    requires i < |w.items|
  {
    || w.items[i].target !in {None, Some(target)}
    || exists j :: 0 <= j < |w.items| && j != i && w.items[j].target == Some(target)
  }

  // What filling the target leaves behind: the scope in the order of the plan, the rows of every reused key,
  // their lineage and that of the invalidations, and the item on its way.
  ghost predicate Filled(w: ReplayStore, i: nat, target: nat, links: set<Lineage>, marks: set<Lineage>, st: Started)
    requires i < |w.items| && w.items[i].source in w.ledger.cases && target in w.ledger.cases
  {
    var s, plan := w.ledger, w.items[i].plan;
    var source, targets := s.cases[w.items[i].source].requirements, s.cases[target].requirements;
    && st.Started?
    && ScopeFor(s.requirements, targets, plan.investigate, st.scope)
    && CopiedExactly(s.requirements, s.tables.rows, i, source, target, targets, plan.reusable,
                     Copied(st.store.ledger.tables.rows, links, st.origins))
    && OriginsExactly(s.requirements, source, targets, plan.reusable, st.origins)
    && MarksExactly(s.requirements, source, i, plan.invalidations, marks)
    && st.store.items == w.items[i := w.items[i].(target := Some(target),
                                                  status := if |st.scope| > 0 then Investigating else Materialized)]
    && st.store == w.(ledger := s.(tables := s.tables.(rows := st.store.ledger.tables.rows)),
                      items := st.store.items, lineage := w.lineage + links + marks)
  }

  // The requirements of the target whose keys are listed, in the order of the list.
  ghost predicate ScopeFor(requirements: map<nat, RequirementRow>, targets: seq<nat>, keys: seq<string>,
                           scope: seq<nat>) {
    var places := Held(requirements, targets, keys);
    && |scope| == |places|
    && forall a :: 0 <= a < |scope| ==>
         && scope[a] in targets && scope[a] in requirements
         && places[a] in places && requirements[scope[a]].template.key == keys[places[a]]
  }

  lemma FillIsExact(w: ReplayStore, i: nat, target: nat) returns (links: set<Lineage>, marks: set<Lineage>)
    requires Linked(w.ledger) && i < |w.items|
    requires w.items[i].source in w.ledger.cases && target in w.ledger.cases && target != w.items[i].source
    requires KeysOnce(w.ledger.requirements, w.ledger.cases[w.items[i].source].requirements)
    requires KeysOnce(w.ledger.requirements, w.ledger.cases[target].requirements)
    ensures
      var s := w.ledger;
      var source, targets := s.cases[w.items[i].source].requirements, s.cases[target].requirements;
      if Claimed(w, i, target)
         || exists key :: key in w.items[i].plan.reusable && !KeepsMeaning(s.requirements, source, targets, key)
      then Fill(w, i, target) == Err(TargetCaseConflict)
      else Fill(w, i, target).Ok? && Filled(w, i, target, links, marks, Fill(w, i, target).value)
  {
    hide KeysOnce, CopyKeys, CopiedExactly, OriginsExactly, MarksExactly, Scope, Held, Invalidated, KeepsMeaning;
    var s, plan := w.ledger, w.items[i].plan;
    var source, targets := s.cases[w.items[i].source].requirements, s.cases[target].requirements;
    assert Apart(s.requirements, source, targets);
    CopyKeysExactly(s.requirements, s.tables.rows, i, source, target, targets, plan.reusable);
    ScopeIsHeld(s.requirements, targets, plan.investigate);
    InvalidatedIsExact(s.requirements, source, i, plan.invalidations);
    assert Taken(w.items, i, target) <==> Claimed(w, i, target);
    var copied := CopyKeys(s.requirements, s.tables.rows, i, source, target, targets, plan.reusable);
    links := if copied.Some? then copied.value.lineage else {};
    marks := Invalidated(s.requirements, source, i, plan.invalidations);
    hide Linked, Apart, Taken, Claimed;
    if copied.Some? {
      assert copied.value == Copied(copied.value.rows, links, copied.value.origins);
    }
  }

  lemma OpenedKeysOnce(s: Store, s': Store, video: nat, ref: PolicyRef, target: nat, c: nat)
    requires TargetStands(s, s', video, ref, target) && Linked(s) && c in s'.cases
    requires forall d :: d in s.cases ==> KeysOnce(s.requirements, s.cases[d].requirements)
    requires ref in s.policies && UniqueKeys(s.policies[ref].compiled.requirements)
    ensures KeysOnce(s'.requirements, s'.cases[c].requirements)
  {
    if c in s.cases {
      var ids := s.cases[c].requirements;
      assert KeysOnce(s.requirements, ids);
      assert forall k :: 0 <= k < |ids| ==>
        ids[k] in s.requirements && s'.requirements[ids[k]] == s.requirements[ids[k]];
    }
  }

  // The whole of one materialization, after any history: what it skips and refuses, the target it opens or
  // finds, and what it fills it with.
  lemma MaterializationIsExact(w: ReplayStore, i: nat, supply: Supply)
    returns (base: Store, target: nat, links: set<Lineage>, marks: set<Lineage>)
    requires ReplayOk(w) && i < |w.items| && w.items[i].job < |w.jobs| && Unused(w.ledger, supply)
    requires forall c :: c in w.ledger.cases ==> KeysOnce(w.ledger.requirements, w.ledger.cases[c].requirements)
    requires forall ref :: ref in w.ledger.policies ==> UniqueKeys(w.ledger.policies[ref].compiled.requirements)
    ensures
      var s, item, r := w.ledger, w.items[i], Materialize(w, i, supply);
      var preview := w.jobs[item.job].preview;
      var ref := PolicyRef(preview.id, preview.target);
      if item.status == Completed || item.status == NeedsReview then r == Ok(Skipped)
      else if item.source !in s.tables.videos then r == Err(ReplayNotResumable)
      else if s.tables.videos[item.source] !in w.ready then r == Err(VideoNotReady)
      else if !(ref in s.policies && s.policies[ref].published) then r == Err(TargetPolicyMissing)
      else
        && TargetStands(s, base, s.tables.videos[item.source], ref, target)
        && item.source in base.cases && target in base.cases
        && if Claimed(w, i, target)
              || exists key :: key in item.plan.reusable
                               && !KeepsMeaning(base.requirements, base.cases[item.source].requirements,
                                                base.cases[target].requirements, key)
           then r == Err(TargetCaseConflict)
           else r.Ok? && Filled(w.(ledger := base), i, target, links, marks, r.value)
  {
    hide UniqueKeys, OriginsOk, KeysOnce, KeepsMeaning, Filled, Fill, CreateCase, TargetStands, Unused, Linked;
    var s, item := w.ledger, w.items[i];
    var ref := TargetRef(w, i);
    base, target, links, marks := s, 0, {}, {};
    assert ItemOk(w, i);
    if !Over(item.status) && item.source in s.tables.videos {
      var video := s.tables.videos[item.source];
      CreationIsExact(s, w.ready, video, ref, supply);
      if CreateCase(s, w.ready, video, ref, supply).Ok? {
        CreationKeeps(s, w.ready, video, ref, supply);
        var created := CreateCase(s, w.ready, video, ref, supply).value;
        base, target := created.store, created.caseId;
        OpenedKeysOnce(s, base, video, ref, target, item.source);
        OpenedKeysOnce(s, base, video, ref, target, target);
        links, marks := FillIsExact(w.(ledger := base), i, target);
      }
    }
  }

  // ---- into a fresh target ---------------------------------------------------------------

  lemma {:induction false} AllHeld(requirements: map<nat, RequirementRow>, targets: seq<nat>, keys: seq<string>)
    requires forall k :: 0 <= k < |keys| ==> Holding(requirements, targets, keys[k])
    ensures |Held(requirements, targets, keys)| == |keys|
    ensures forall k :: 0 <= k < |keys| ==> Held(requirements, targets, keys)[k] == k
  {
    if keys != [] {
      hide Holding;
      AllHeld(requirements, targets, keys[..|keys| - 1]);
    }
  }

  // The plan of a case, filled into a target opened for the new version: every requirement of the target is
  // either investigated or reused and never both, nothing else is investigated, and the item is sent to be
  // investigated exactly when the plan asks for it.
  lemma EachIsInvestigatedOrReused(s: Store, before: CompiledPolicy, after: CompiledPolicy, change: ModelChange,
                                   w: ReplayStore, i: nat, target: nat, links: set<Lineage>, marks: set<Lineage>,
                                   st: Started)
    requires i < |w.items| && w.items[i].source in s.cases
    requires PlansFor(s, before, after, change, w.items[i].source, w.items[i].plan)
    requires w.items[i].source in w.ledger.cases && target in w.ledger.cases
    requires MadeFrom(w.ledger.requirements, w.ledger.cases[target].requirements, target, after.requirements)
    requires Filled(w, i, target, links, marks, st)
    ensures |st.scope| == |w.items[i].plan.investigate|
    ensures forall id :: id in st.scope ==> id in w.ledger.cases[target].requirements
    ensures forall id :: id in w.ledger.cases[target].requirements ==>
              && id in w.ledger.requirements
              && (id in st.scope <==> w.ledger.requirements[id].template.key !in w.items[i].plan.reusable)
    ensures st.store.items[i].status == Investigating <==> w.items[i].plan.investigate != []
  {
    hide CopiedExactly, OriginsExactly, MarksExactly, Agree, Pictured, OpenAppealOf, Unique;
    var requirements, targets := w.ledger.requirements, w.ledger.cases[target].requirements;
    var keys := w.items[i].plan.investigate;
    forall k | 0 <= k < |keys|
      ensures Holding(requirements, targets, keys[k])
    {
      assert keys[k] in keys;
      var t :| t in after.requirements && t.key == keys[k];
      var j :| 0 <= j < |targets| && requirements[targets[j]].template == t;
      assert Under(requirements, targets, keys[k], requirements[targets[j]]);
    }
    AllHeld(requirements, targets, keys);
    forall id | id in targets
      ensures id in requirements
      ensures id in st.scope <==> requirements[id].template.key in keys
      ensures Asks(after, requirements[id].template.key)
    {
      var j :| 0 <= j < |targets| && targets[j] == id;
      ScopedByKey(requirements, targets, target, after.requirements, keys, st.scope, j);
    }
  }

  lemma ScopedByKey(requirements: map<nat, RequirementRow>, targets: seq<nat>, target: nat, templates: seq<Template>,
                    keys: seq<string>, scope: seq<nat>, j: nat)
    requires MadeFrom(requirements, targets, target, templates) && j < |targets|
    requires ScopeFor(requirements, targets, keys, scope) && |Held(requirements, targets, keys)| == |keys|
    requires forall k :: 0 <= k < |keys| ==> Held(requirements, targets, keys)[k] == k
    ensures targets[j] in scope <==> requirements[targets[j]].template.key in keys
  {
    hide Held;
    if targets[j] in scope {
      var a :| 0 <= a < |scope| && scope[a] == targets[j];
      assert keys[a] in keys;
    }
    if requirements[targets[j]].template.key in keys {
      var a :| 0 <= a < |keys| && keys[a] == requirements[targets[j]].template.key;
      var m :| 0 <= m < |targets| && targets[m] == scope[a];
      assert m == j;
    }
  }

  // ---- closing the item ------------------------------------------------------------------

  // The requirement of the target stands at a result, and its key was reused from the source's result.
  ghost predicate ResultCarried(s: Store, i: nat, target: nat, origins: map<string, ResultKey>, l: Lineage) {
    exists id :: id in s.requirements && s.requirements[id].caseId == target
                 && s.requirements[id].current.Some? && s.requirements[id].template.key in origins
                 && l == ResultReused(i, origins[s.requirements[id].template.key], s.requirements[id].current.value)
  }

  // Finishing an item decides its target case, without an investigation only if nothing was in scope, shows
  // that decision and records which results were reused; a refused decision leaves everything as it was.
  lemma FinishingIsExact(w: ReplayStore, i: nat, scope: seq<nat>, origins: map<string, ResultKey>)
    requires i < |w.items| && w.items[i].target.Some? && Linked(w.ledger)
    ensures
      var target := w.items[i].target.value;
      var done := Finalize(w.ledger, target, |scope| == 0, origins, Some(i));
      var after := Step(w, Finishing(i, scope, origins));
      if done.RolledBack? then after == w
      else
        && done.id < |done.store.decisions|
        && target in after.ledger.cases && after.ledger.cases[target].current == Some(done.id)
        && var review := done.store.decisions[done.id].verdict == NeedsHumanReview;
        && after == w.(ledger := done.store, items := after.items, lineage := after.lineage)
        && after.items == w.items[i := w.items[i].(targetDecision := Some(done.id),
                                                   status := if review then NeedsReview else Completed)]
        && forall l :: l in after.lineage <==> l in w.lineage || ResultCarried(done.store, i, target, origins, l)
  {
    hide AggregateAll, Rules.Evaluate, LastDecision, FindMachine, RequirementKeys, TemplateKeys;
    var target := w.items[i].target.value;
    assert scope == [] <==> |scope| == 0;
    FinalDecisionExists(w.ledger, target, scope == [], origins, Some(i));
  }
}
