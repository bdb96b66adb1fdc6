/** Replaying again, and again across versions: a repeated materialization adds nothing, and over every
    history of replays the origins of evidence lead back to strictly older versions. */
module ReplayHistory {
  import opened Common
  import opened AgentTypes
  import opened Policy
  import opened EvidenceStore
  import opened Aggregation
  import opened Rules
  import opened Ledger
  import opened Planner
  import opened Replay
  import opened ReplayLaws

  // ---- once more -------------------------------------------------------------------------

  lemma {:induction false} CopyLeavesOthers(rows: seq<Evidence>, item: nat, target: nat, requirement: nat,
                                            list: seq<Evidence>, id: nat)
    requires id != requirement
    ensures ListFor(CopyRows(rows, item, target, requirement, list), id) == ListFor(rows, id)
  {
    if list != [] {
      var n := |list| - 1;
      CopyLeavesOthers(rows, item, target, requirement, list[..n], id);
      var e := DerivedRow(item, target, requirement, list[n]);
      ListForAppend(CopyRows(rows, item, target, requirement, list[..n]), [e], id);
      AllOrNone([e], requirement, id);
    }
  }

  // Identifiers once in the table stay there.
  ghost predicate Keeps(rows: seq<Evidence>, rows': seq<Evidence>) {
    forall id :: Holds(rows, id) ==> Holds(rows', id)
  }

  lemma PrefixKeeps(rows: seq<Evidence>, rows': seq<Evidence>)
    requires rows <= rows'
    ensures Keeps(rows, rows')
  {
    forall id | Holds(rows, id)
      ensures Holds(rows', id)
    {
      var i :| 0 <= i < |rows| && rows[i].id == id;
      assert rows'[i].id == id;
    }
  }

  ghost predicate AllCopied(rows: seq<Evidence>, item: nat, requirement: nat, list: seq<Evidence>) {
    forall e :: e in list ==> Holds(rows, Derived(item, e.id, requirement))
  }

  lemma LastIsHeld(rows: seq<Evidence>, e: Evidence)
    ensures Holds(rows + [e], e.id)
  {
    assert (rows + [e])[|rows|].id == e.id;
  }

  lemma {:induction false} CopyHoldsAll(rows: seq<Evidence>, item: nat, target: nat, requirement: nat,
                                        list: seq<Evidence>)
    ensures rows <= CopyRows(rows, item, target, requirement, list)
    ensures AllCopied(CopyRows(rows, item, target, requirement, list), item, requirement, list)
  {
    hide Holds;
    if list != [] {
      var n := |list| - 1;
      CopyHoldsAll(rows, item, target, requirement, list[..n]);
      var before := CopyRows(rows, item, target, requirement, list[..n]);
      PrefixKeeps(before, CopyRows(rows, item, target, requirement, list));
      assert list == list[..n] + [list[n]];
      LastIsHeld(before, DerivedRow(item, target, requirement, list[n]));
    }
  }

  lemma {:induction false} CopyAgain(rows: seq<Evidence>, item: nat, target: nat, requirement: nat, list: seq<Evidence>)
    requires AllCopied(rows, item, requirement, list)
    ensures CopyRows(rows, item, target, requirement, list) == rows
  {
    if list != [] {
      CopyAgain(rows, item, target, requirement, list[..|list| - 1]);
    }
  }

  // The requirement lists of two different cases.
  ghost predicate Apart(requirements: map<nat, RequirementRow>, source: seq<nat>, targets: seq<nat>) {
    && (forall id :: id in source && id in requirements ==> requirements[id].id == id)
    && (forall id :: id in targets && id in requirements ==> requirements[id].id == id)
    && (forall id :: !(id in source && id in targets))
  }

  // One key has been copied: its rows are there, and so is its lineage.
  ghost predicate KeyCopied(requirements: map<nat, RequirementRow>, rows: seq<Evidence>, lineage: set<Lineage>,
                            item: nat, source: seq<nat>, targets: seq<nat>, key: string) {
    match PairOf(requirements, source, targets, key)
    case None => true
    case Some(Pair(q, q')) =>
      && q.template == q'.template
      && AllCopied(rows, item, q'.id, ListFor(rows, q.id))
      && Reuses(item, q'.id, ListFor(rows, q.id)) <= lineage
  }

  lemma PairIsApart(requirements: map<nat, RequirementRow>, source: seq<nat>, targets: seq<nat>, key: string)
    requires Apart(requirements, source, targets)
    ensures match PairOf(requirements, source, targets, key)
            case None => true
            case Some(Pair(q, q')) => q.id in source && q'.id in targets
  {
  }

  lemma {:induction false} CopiedKeysHold(requirements: map<nat, RequirementRow>, rows: seq<Evidence>, item: nat,
                                          source: seq<nat>, target: nat, targets: seq<nat>, keys: seq<string>)
    requires Apart(requirements, source, targets)
    requires CopyKeys(requirements, rows, item, source, target, targets, keys).Some?
    ensures
      var copied := CopyKeys(requirements, rows, item, source, target, targets, keys).value;
      && (forall id :: id in source ==> ListFor(copied.rows, id) == ListFor(rows, id))
      && forall key :: key in keys ==>
           KeyCopied(requirements, copied.rows, copied.lineage, item, source, targets, key)
  {
    if keys != [] {
      var n := |keys| - 1;
      CopiedKeysHold(requirements, rows, item, source, target, targets, keys[..n]);
      var before := CopyKeys(requirements, rows, item, source, target, targets, keys[..n]).value;
      assert keys == keys[..n] + [keys[n]];
      forall key | key in keys
        ensures KeyCopied(requirements,
                          CopyKey(requirements, before, item, source, target, targets, keys[n]).value.rows,
                          CopyKey(requirements, before, item, source, target, targets, keys[n]).value.lineage,
                          item, source, targets, key)
      {
        OneKeyMore(requirements, before, item, source, target, targets, keys[n], key);
      }
      OneKeyLeaves(requirements, before, item, source, target, targets, keys[n]);
      hide KeyCopied, CopyKey, Apart;
    }
  }

  lemma OneKeyLeaves(requirements: map<nat, RequirementRow>, before: Copied, item: nat, source: seq<nat>, target: nat,
                     targets: seq<nat>, last: string)
    requires Apart(requirements, source, targets)
    requires CopyKey(requirements, before, item, source, target, targets, last).Some?
    ensures
      var after := CopyKey(requirements, before, item, source, target, targets, last).value;
      && before.rows <= after.rows && before.lineage <= after.lineage
      && forall id :: id in source ==> ListFor(after.rows, id) == ListFor(before.rows, id)
  {
    PairIsApart(requirements, source, targets, last);
    var pair := PairOf(requirements, source, targets, last);
    if pair.Some? {
      var Pair(q, q') := pair.value;
      CopyHoldsAll(before.rows, item, target, q'.id, ListFor(before.rows, q.id));
      forall id | id in source
        ensures ListFor(CopyRows(before.rows, item, target, q'.id, ListFor(before.rows, q.id)), id)
          == ListFor(before.rows, id)
      {
        CopyLeavesOthers(before.rows, item, target, q'.id, ListFor(before.rows, q.id), id);
      }
      hide CopyRows, ListFor, PairOf;
    }
  }

  lemma OneKeyMore(requirements: map<nat, RequirementRow>, before: Copied, item: nat, source: seq<nat>, target: nat,
                   targets: seq<nat>, last: string, key: string)
    requires Apart(requirements, source, targets)
    requires CopyKey(requirements, before, item, source, target, targets, last).Some?
    requires key == last || KeyCopied(requirements, before.rows, before.lineage, item, source, targets, key)
    ensures
      var after := CopyKey(requirements, before, item, source, target, targets, last).value;
      KeyCopied(requirements, after.rows, after.lineage, item, source, targets, key)
  {
    OneKeyLeaves(requirements, before, item, source, target, targets, last);
    PairIsApart(requirements, source, targets, key);
    var after := CopyKey(requirements, before, item, source, target, targets, last).value;
    var pair := PairOf(requirements, source, targets, key);
    if pair.Some? {
      var Pair(q, q') := pair.value;
      if key == last {
        CopyHoldsAll(before.rows, item, target, q'.id, ListFor(before.rows, q.id));
      } else {
        PrefixKeeps(before.rows, after.rows);
      }
      hide CopyRows, ListFor, PairOf, Holds;
    }
  }

  // Another pass over keys that have been copied.
  lemma {:induction false} CopyKeysAgain(requirements: map<nat, RequirementRow>, rows: seq<Evidence>,
                                         lineage: set<Lineage>, item: nat, source: seq<nat>, target: nat,
                                         targets: seq<nat>, keys: seq<string>)
    requires forall key :: key in keys ==> KeyCopied(requirements, rows, lineage, item, source, targets, key)
    ensures
      var copied := CopyKeys(requirements, rows, item, source, target, targets, keys);
      copied.Some? && copied.value.rows == rows && copied.value.lineage <= lineage
  {
    if keys != [] {
      var n := |keys| - 1;
      assert keys[n] in keys && forall key :: key in keys[..n] ==> key in keys;
      CopyKeysAgain(requirements, rows, lineage, item, source, target, targets, keys[..n]);
      assert KeyCopied(requirements, rows, lineage, item, source, targets, keys[n]);
      var pair := PairOf(requirements, source, targets, keys[n]);
      if pair.Some? {
        CopyAgain(rows, item, target, pair.value.target.id, ListFor(rows, pair.value.source.id));
      }
      hide CopyRows, ListFor, PairOf, AllCopied;
    }
  }

  // The requirement rows of a case may have been aggregated since.
  ghost predicate SameRequirements(requirements: map<nat, RequirementRow>, requirements': map<nat, RequirementRow>,
                                   ids: seq<nat>) {
    forall id :: id in ids ==>
      && (id in requirements <==> id in requirements')
      && (id in requirements ==> Same(requirements[id], requirements'[id]))
  }

  lemma {:induction false} LookupSame(requirements: map<nat, RequirementRow>, requirements': map<nat, RequirementRow>,
                                      ids: seq<nat>, key: string)
    requires SameRequirements(requirements, requirements', ids)
    ensures
      var q, q' := RequirementOf(requirements, ids, key), RequirementOf(requirements', ids, key);
      q.Some? == q'.Some? && (q.Some? ==> Same(q.value, q'.value))
  {
    if ids != [] {
      LookupSame(requirements, requirements', ids[..|ids| - 1], key);
    }
  }

  // Between two executions of an unfinished item its source keeps its rows; anything may be added.
  ghost predicate Undisturbed(w: ReplayStore, w': ReplayStore, i: nat, target: nat)
    requires i < |w.items| && w.items[i].job < |w.jobs|
  {
    && w.jobs <= w'.jobs && |w.items| <= |w'.items|
    && w'.items[i] == w.items[i].(status := w'.items[i].status) && !Over(w'.items[i].status)
    && !Taken(w'.items, i, target)
    && w.lineage <= w'.lineage
    && var s, s' := w.ledger, w'.ledger;
    && var source := w.items[i].source;
    && source in s.cases && source in s'.cases && s'.cases[source].requirements == s.cases[source].requirements
    && target in s.cases && target in s'.cases && s'.cases[target].requirements == s.cases[target].requirements
    && SameRequirements(s.requirements, s'.requirements, s.cases[source].requirements)
    && SameRequirements(s.requirements, s'.requirements, s.cases[target].requirements)
    && Keeps(s.tables.rows, s'.tables.rows)
    && (forall id :: id in s.cases[source].requirements ==> ListFor(s'.tables.rows, id) == ListFor(s.tables.rows, id))
    && source in s'.tables.videos && s'.tables.videos[source] in w'.ready
    && TargetRef(w', i) in s'.policies && s'.policies[TargetRef(w', i)].published
    && FindCase(s', s'.tables.videos[source], TargetRef(w', i)) == Some(target)
  }

  // The item's keys are copied and its invalidations recorded.
  ghost predicate Recorded(w: ReplayStore, i: nat, target: nat)
    requires i < |w.items|
  {
    && w.items[i].source in w.ledger.cases && target in w.ledger.cases
    && var source, targets := w.ledger.cases[w.items[i].source].requirements, w.ledger.cases[target].requirements;
    && (forall key :: key in w.items[i].plan.reusable ==>
          KeyCopied(w.ledger.requirements, w.ledger.tables.rows, w.lineage, i, source, targets, key))
    && Invalidated(w.ledger.requirements, source, i, w.items[i].plan.invalidations) <= w.lineage
  }

  lemma FillRecords(w: ReplayStore, i: nat, target: nat)
    requires i < |w.items| && Fill(w, i, target).Ok? && Linked(w.ledger) && w.items[i].source != target
    ensures
      var r := Fill(w, i, target).value;
      && r.Started? && |r.store.items| == |w.items|
      && r.store.items[i] == w.items[i].(target := Some(target), status := r.store.items[i].status)
      && r.store.jobs == w.jobs && r.store.ready == w.ready
      && Recorded(r.store, i, target)
  {
    var s := w.ledger;
    var source, targets := s.cases[w.items[i].source].requirements, s.cases[target].requirements;
    var r := Fill(w, i, target).value;
    assert Apart(s.requirements, source, targets);
    CopiedKeysHold(s.requirements, s.tables.rows, i, source, target, targets, w.items[i].plan.reusable);
    var copied := CopyKeys(s.requirements, s.tables.rows, i, source, target, targets, w.items[i].plan.reusable).value;
    forall key | key in w.items[i].plan.reusable
      ensures KeyCopied(s.requirements, copied.rows, r.store.lineage, i, source, targets, key)
    {
      assert copied.lineage <= r.store.lineage;
    }
    hide CopyKeys, Scope, Invalidated, KeyCopied, Linked;
  }

  lemma StillRecorded(w: ReplayStore, w': ReplayStore, i: nat, target: nat)
    requires i < |w.items| && w.items[i].job < |w.jobs|
    requires Undisturbed(w, w', i, target) && Recorded(w, i, target)
    requires Apart(w.ledger.requirements, w.ledger.cases[w.items[i].source].requirements,
                   w.ledger.cases[target].requirements)
    ensures Recorded(w', i, target)
  {
    var s, s' := w.ledger, w'.ledger;
    var source, targets := s.cases[w.items[i].source].requirements, s.cases[target].requirements;
    forall key | key in w.items[i].plan.reusable
      ensures KeyCopied(s'.requirements, s'.tables.rows, w'.lineage, i, source, targets, key)
    {
      LookupSame(s.requirements, s'.requirements, source, key);
      LookupSame(s.requirements, s'.requirements, targets, key);
      PairIsApart(s.requirements, source, targets, key);
      assert KeyCopied(s.requirements, s.tables.rows, w.lineage, i, source, targets, key);
      hide Recorded, RequirementOf, ListFor, Holds;
    }
    assert Invalidated(s'.requirements, source, i, w'.items[i].plan.invalidations) <= w'.lineage by {
      hide KeyCopied, Apart, ListFor;
      forall v | v in w.items[i].plan.invalidations
        ensures RequirementOf(s.requirements, source, v.key).Some?
          == RequirementOf(s'.requirements, source, v.key).Some?
        ensures RequirementOf(s.requirements, source, v.key).Some? ==>
                  RequirementOf(s.requirements, source, v.key).value.id
                    == RequirementOf(s'.requirements, source, v.key).value.id
      {
        LookupSame(s.requirements, s'.requirements, source, v.key);
      }
    }
    hide KeyCopied, Invalidated, Apart, ListFor;
  }

  // A recorded item that is executed again writes nothing but its own status.
  lemma RecordedAddsNothing(w: ReplayStore, i: nat, target: nat, supply: Supply)
    requires i < |w.items| && w.items[i].job < |w.jobs| && Recorded(w, i, target)
    requires !Over(w.items[i].status) && w.items[i].target == Some(target) && !Taken(w.items, i, target)
    requires w.items[i].source in w.ledger.tables.videos && w.ledger.tables.videos[w.items[i].source] in w.ready
    requires TargetRef(w, i) in w.ledger.policies && w.ledger.policies[TargetRef(w, i)].published
    requires FindCase(w.ledger, w.ledger.tables.videos[w.items[i].source], TargetRef(w, i)) == Some(target)
    ensures
      var r := Materialize(w, i, supply);
      && r.Ok? && r.value.Started?
      && r.value.store == w.(items := w.items[i := w.items[i].(status := r.value.store.items[i].status)])
  {
    var s := w.ledger;
    var source, targets := s.cases[w.items[i].source].requirements, s.cases[target].requirements;
    CopyKeysAgain(s.requirements, s.tables.rows, w.lineage, i, source, target, targets, w.items[i].plan.reusable);
    assert CreateCase(s, w.ready, s.tables.videos[w.items[i].source], TargetRef(w, i), supply)
      == Ok(Created(s, target));
    hide CopyKeys, Scope, Invalidated, KeyCopied, CreateCase, Taken;
    var copied := CopyKeys(s.requirements, s.tables.rows, i, source, target, targets, w.items[i].plan.reusable).value;
    assert w.lineage + copied.lineage + Invalidated(s.requirements, source, i, w.items[i].plan.invalidations)
      == w.lineage;
    assert s.(tables := s.tables.(rows := copied.rows)) == s;
  }

  lemma StartedRecords(w: ReplayStore, i: nat, supply: Supply, target: nat)
    requires i < |w.items| && w.items[i].job < |w.jobs| && w.items[i].source != target
    requires Materialize(w, i, supply).Ok? && Materialize(w, i, supply).value.Started?
    requires Materialize(w, i, supply).value.store.items[i].target == Some(target)
    requires Linked(Materialize(w, i, supply).value.store.ledger)
    ensures
      var st := Materialize(w, i, supply).value.store;
      && |st.items| == |w.items| && st.jobs == w.jobs
      && st.items[i] == w.items[i].(target := Some(target), status := st.items[i].status)
      && Recorded(st, i, target)
  {
    var s := w.ledger;
    var created := CreateCase(s, w.ready, s.tables.videos[w.items[i].source], TargetRef(w, i), supply).value;
    var w1 := w.(ledger := created.store);
    var st := Materialize(w, i, supply).value.store;
    assert Fill(w1, i, created.caseId) == Materialize(w, i, supply);
    hide Materialize, CreateCase;
    assert st.items[i].target == Some(created.caseId);
    assert Linked(w1.ledger) by {
      assert st.ledger == w1.ledger.(tables := w1.ledger.tables.(rows := st.ledger.tables.rows));
      hide Fill;
    }
    FillRecords(w1, i, target);
  }

  // ---- origins ---------------------------------------------------------------------------

  ghost predicate RowLinked(cases: map<nat, CaseRow>, requirements: map<nat, RequirementRow>, e: Evidence) {
    e.caseId in cases && e.requirementId in requirements && requirements[e.requirementId].caseId == e.caseId
  }

  ghost predicate Newer(cases: map<nat, CaseRow>, c: nat, older: nat) {
    && c in cases && older in cases
    && cases[c].policy.id == cases[older].policy.id
    && cases[older].policy.version < cases[c].policy.version
  }

  // The origin of a row is a row of an older version of the same policy.
  ghost predicate OriginOlder(cases: map<nat, CaseRow>, rows: seq<Evidence>, e: Evidence) {
    e.origin.Some? ==>
      exists j :: 0 <= j < |rows| && rows[j].id == e.origin.value && Newer(cases, e.caseId, rows[j].caseId)
  }

  ghost predicate OriginsOk(cases: map<nat, CaseRow>, requirements: map<nat, RequirementRow>, rows: seq<Evidence>) {
    && DistinctIds(rows)
    && forall i :: 0 <= i < |rows| ==> RowLinked(cases, requirements, rows[i]) && OriginOlder(cases, rows, rows[i])
  }

  lemma OriginStays(cases: map<nat, CaseRow>, rows: seq<Evidence>, rows': seq<Evidence>, e: Evidence)
    requires OriginOlder(cases, rows, e) && rows <= rows'
    ensures OriginOlder(cases, rows', e)
  {
    if e.origin.Some? {
      var j :| 0 <= j < |rows| && rows[j].id == e.origin.value && Newer(cases, e.caseId, rows[j].caseId);
      assert rows'[j] == rows[j];
    }
  }

  lemma {:induction false} CopyRowsOrigins(cases: map<nat, CaseRow>, requirements: map<nat, RequirementRow>,
                                           rows: seq<Evidence>, item: nat, source: nat, target: nat, requirement: nat,
                                           list: seq<Evidence>)
    requires OriginsOk(cases, requirements, rows) && Newer(cases, target, source)
    requires requirement in requirements && requirements[requirement].caseId == target
    requires forall e :: e in list ==> e in rows && e.caseId == source
    ensures OriginsOk(cases, requirements, CopyRows(rows, item, target, requirement, list))
    ensures rows <= CopyRows(rows, item, target, requirement, list)
  {
    if list != [] {
      var n := |list| - 1;
      assert list[n] in list && forall e :: e in list[..n] ==> e in list;
      CopyRowsOrigins(cases, requirements, rows, item, source, target, requirement, list[..n]);
      var before := CopyRows(rows, item, target, requirement, list[..n]);
      if !Holds(before, Derived(item, list[n].id, requirement)) {
        var e := DerivedRow(item, target, requirement, list[n]);
        var after := before + [e];
        var j :| 0 <= j < |rows| && rows[j] == list[n];
        assert after[j] == list[n] && Newer(cases, e.caseId, after[j].caseId);
        forall i | 0 <= i < |after|
          ensures RowLinked(cases, requirements, after[i]) && OriginOlder(cases, after, after[i])
        {
          if i < |before| {
            assert after[i] == before[i];
            OriginStays(cases, before, after, after[i]);
          }
        }
        assert DistinctIds(after);
        hide OriginsOk, CopyRows;
        assert OriginsOk(cases, requirements, after) by { AreOk(cases, requirements, after); }
        assert CopyRows(rows, item, target, requirement, list) == after by {
          LastRow(rows, item, target, requirement, list);
        }
      }
    }
  }

  lemma AreOk(cases: map<nat, CaseRow>, requirements: map<nat, RequirementRow>, rows: seq<Evidence>)
    requires DistinctIds(rows)
    requires forall i :: 0 <= i < |rows| ==>
      RowLinked(cases, requirements, rows[i]) && OriginOlder(cases, rows, rows[i])
    ensures OriginsOk(cases, requirements, rows)
  {
  }

  lemma LastRow(rows: seq<Evidence>, item: nat, target: nat, requirement: nat, list: seq<Evidence>)
    requires list != []
    requires !Holds(CopyRows(rows, item, target, requirement, list[..|list| - 1]),
                    Derived(item, list[|list| - 1].id, requirement))
    ensures CopyRows(rows, item, target, requirement, list)
            == CopyRows(rows, item, target, requirement, list[..|list| - 1])
               + [DerivedRow(item, target, requirement, list[|list| - 1])]
  {
  }

  ghost predicate AllOf(requirements: map<nat, RequirementRow>, ids: seq<nat>, c: nat) {
    forall id :: id in ids ==> id in requirements && requirements[id].id == id && requirements[id].caseId == c
  }

  lemma {:induction false} CopyKeysOrigins(cases: map<nat, CaseRow>, requirements: map<nat, RequirementRow>,
                                           rows: seq<Evidence>, item: nat, source: seq<nat>, c: nat, target: nat,
                                           targets: seq<nat>, keys: seq<string>)
    requires OriginsOk(cases, requirements, rows) && Newer(cases, target, c)
    requires AllOf(requirements, source, c) && AllOf(requirements, targets, target)
    requires CopyKeys(requirements, rows, item, source, target, targets, keys).Some?
    ensures OriginsOk(cases, requirements, CopyKeys(requirements, rows, item, source, target, targets, keys).value.rows)
  {
    if keys != [] {
      var n := |keys| - 1;
      CopyKeysOrigins(cases, requirements, rows, item, source, c, target, targets, keys[..n]);
      var before := CopyKeys(requirements, rows, item, source, target, targets, keys[..n]).value;
      var pair := PairOf(requirements, source, targets, keys[n]);
      if pair.Some? {
        var Pair(q, q') := pair.value;
        var list := ListFor(before.rows, q.id);
        assert q.id in source && q'.id in targets && requirements[q.id].caseId == c;
        forall e | e in list
          ensures e in before.rows && e.caseId == c
        {
          var i :| 0 <= i < |before.rows| && before.rows[i] == e;
          assert RowLinked(cases, requirements, before.rows[i]);
        }
        CopyRowsOrigins(cases, requirements, before.rows, item, c, target, q'.id, list);
      }
      hide OriginsOk, CopyRows, PairOf, ListFor;
    }
  }

  // ---- every history of replays ----------------------------------------------------------

  datatype Event =
    | Preparing(id: string, source: nat, target: nat, seen: Preview, profile: string, change: ModelChange)
    | Materializing(item: nat, supply: Supply)
    | Finishing(item: nat, scope: seq<nat>, origins: map<string, ResultKey>)
    | Elsewhere(next: ReplayStore)

  // The rest of the system opens cases and records evidence of its own, which derives from nothing; replay
  // jobs and items, and the policy of a case, it leaves alone.
  ghost predicate GoesOn(w: ReplayStore, w': ReplayStore) {
    var s, s' := w.ledger, w'.ledger;
    && w'.jobs == w.jobs && w'.items == w.items && Linked(s')
    && (forall c :: c in s.cases ==> c in s'.cases && s'.cases[c].policy == s.cases[c].policy)
    && (forall id :: id in s.requirements ==>
        id in s'.requirements && s'.requirements[id].caseId == s.requirements[id].caseId)
    && s.tables.rows <= s'.tables.rows && DistinctIds(s'.tables.rows)
    && forall i :: |s.tables.rows| <= i < |s'.tables.rows| ==>
         RowLinked(s'.cases, s'.requirements, s'.tables.rows[i]) && s'.tables.rows[i].origin == None
  }

  ghost function Step(w: ReplayStore, e: Event): ReplayStore {
    match e
    case Preparing(id, source, target, seen, profile, change) =>
      (match PrepareReplay(w, id, source, target, seen, profile, change)
       case Ok(prepared) => prepared.store
       case Err(_) => w)
    case Materializing(i, supply) =>
      if i < |w.items| && w.items[i].job < |w.jobs| && Unused(w.ledger, supply)
         && Materialize(w, i, supply).Ok? && Materialize(w, i, supply).value.Started?
      then Materialize(w, i, supply).value.store else w
    case Finishing(i, scope, origins) =>
      if i < |w.items| && w.items[i].target.Some? && Linked(w.ledger) then
        var t := Finalize(w.ledger, w.items[i].target.value, scope == [], origins, Some(i));
        if t.Committed? then
          FinalDecisionExists(w.ledger, w.items[i].target.value, scope == [], origins, Some(i));
          Close(w.(ledger := t.store), i, t.id, origins)
        else w
      else w
    case Elsewhere(next) => if GoesOn(w, next) then next else w
  }

  ghost function Run(w: ReplayStore, events: seq<Event>): ReplayStore
    decreases |events|
  {
    if events == [] then w else Step(Run(w, events[..|events| - 1]), events[|events| - 1])
  }

  // ---- closed items ----------------------------------------------------------------------

  lemma MaterializingSpares(w: ReplayStore, i: nat, j: nat, supply: Supply)
    requires i < |w.items| && Over(w.items[i].status) && j < |w.items| && w.items[j].job < |w.jobs|
    requires Materialize(w, j, supply).Ok? && Materialize(w, j, supply).value.Started?
    ensures
      var after := Materialize(w, j, supply).value.store;
      i != j && |after.items| == |w.items| && after.items[i] == w.items[i] && after.jobs == w.jobs
  {
    hide CopyKeys, CreateCase, Scope, Invalidated;
  }

  // An item shows a decision, in review exactly when the decision is.
  ghost predicate Shows(w: ReplayStore, i: nat) {
    && i < |w.items| && w.items[i].targetDecision.Some?
    && w.items[i].targetDecision.value < |w.ledger.decisions|
    && var verdict := w.ledger.decisions[w.items[i].targetDecision.value].verdict;
       w.items[i].status == if verdict == NeedsHumanReview then NeedsReview else Completed
  }

  lemma ClosingShows(w: ReplayStore, i: nat, decision: nat, origins: map<string, ResultKey>)
    requires i < |w.items| && w.items[i].target.Some? && decision < |w.ledger.decisions|
    ensures var closed := Close(w, i, decision, origins);
            Shows(closed, i) && Over(closed.items[i].status) && |closed.items| == |w.items| && closed.jobs == w.jobs
    ensures var closed := Close(w, i, decision, origins);
            forall j :: 0 <= j < |w.items| && j != i ==> closed.items[j] == w.items[j]
    ensures Close(w, i, decision, origins).items[i].job == w.items[i].job
  {
  }

  lemma FinishingStep(w: ReplayStore, j: nat, scope: seq<nat>, origins: map<string, ResultKey>, i: nat)
    requires i < |w.items|
    ensures
      var after := Step(w, Finishing(j, scope, origins));
      && |after.items| == |w.items| && after.jobs == w.jobs && after.items[i].job == w.items[i].job
      && (after.items[i] == w.items[i] || (j == i && Shows(after, i) && Over(after.items[i].status)))
  {
    hide Finalize, Close, Shows;
    if j < |w.items| && w.items[j].target.Some? && Linked(w.ledger)
       && Finalize(w.ledger, w.items[j].target.value, scope == [], origins, Some(j)).Committed? {
      FinalDecisionExists(w.ledger, w.items[j].target.value, scope == [], origins, Some(j));
      var t := Finalize(w.ledger, w.items[j].target.value, scope == [], origins, Some(j));
      ClosingShows(w.(ledger := t.store), j, t.id, origins);
    }
  }

  lemma ClosedStep(w: ReplayStore, e: Event, i: nat)
    requires i < |w.items| && Over(w.items[i].status)
    ensures
      var after := Step(w, e);
      && i < |after.items| && Over(after.items[i].status)
      && (after.items[i] == w.items[i] || (e.Finishing? && e.item == i && Shows(after, i)))
      && after.items[i].job == w.items[i].job && |w.jobs| <= |after.jobs|
  {
    hide Materialize, GoesOn, PreviewOf, Unused, Finalize, Shows;
    match e
    case Materializing(j, supply) =>
      if j < |w.items| && w.items[j].job < |w.jobs| && Unused(w.ledger, supply)
         && Materialize(w, j, supply).Ok? && Materialize(w, j, supply).value.Started? {
        MaterializingSpares(w, i, j, supply);
      }
    case Finishing(j, scope, origins) => FinishingStep(w, j, scope, origins, i);
    case Elsewhere(next) =>
      if GoesOn(w, next) {
        ItemsGoOn(w, next);
      }
    case _ =>
  }

  lemma ItemsGoOn(w: ReplayStore, w': ReplayStore)
    requires GoesOn(w, w')
    ensures w'.jobs == w.jobs && w'.items == w.items
  {
  }

  // An execution of the item finished during the history, and gave it what it shows now.
  ghost predicate FinishedLate(w: ReplayStore, events: seq<Event>, i: nat, item: ReplayItem) {
    exists n :: 0 <= n < |events| && GaveIt(events[n], Run(w, events[..n + 1]), i, item)
  }

  ghost predicate GaveIt(e: Event, after: ReplayStore, i: nat, item: ReplayItem) {
    e.Finishing? && e.item == i && Shows(after, i) && after.items[i] == item
  }

  // A closed item stays closed over every later history and is never executed again. It stays as it is,
  // unless an execution that had begun before it closed still finishes: then it shows the decision that
  // execution was given, in review exactly when that decision is.
  lemma {:induction false} ClosedItemsStayClosed(w: ReplayStore, events: seq<Event>, i: nat, supply: Supply)
    requires i < |w.items| && Over(w.items[i].status) && w.items[i].job < |w.jobs|
    ensures
      var after := Run(w, events);
      && i < |after.items| && Over(after.items[i].status) && after.items[i].job < |after.jobs|
      && Materialize(after, i, supply) == Ok(Skipped)
      && (after.items[i] == w.items[i] || FinishedLate(w, events, i, after.items[i]))
    decreases |events|
  {
    if events != [] {
      var n := |events| - 1;
      hide Step, Fill, CreateCase, GaveIt, Shows;
      ClosedItemsStayClosed(w, events[..n], i, supply);
      ClosedStep(Run(w, events[..n]), events[n], i);
      LateStays(w, events, i);
    }
  }

  lemma LateStays(w: ReplayStore, events: seq<Event>, i: nat)
    requires events != [] && i < |w.items|
    requires var before, after := Run(w, events[..|events| - 1]), Run(w, events);
             && i < |before.items| && i < |after.items|
             && (before.items[i] == w.items[i] || FinishedLate(w, events[..|events| - 1], i, before.items[i]))
             && (after.items[i] == before.items[i]
                 || (events[|events| - 1].Finishing? && events[|events| - 1].item == i && Shows(after, i)))
    ensures Run(w, events).items[i] == w.items[i] || FinishedLate(w, events, i, Run(w, events).items[i])
  {
    hide Run, Shows;
    var n := |events| - 1;
    var before, after := Run(w, events[..n]), Run(w, events);
    if after.items[i] != before.items[i] {
      assert events[..n + 1] == events;
      assert GaveIt(events[n], Run(w, events[..n + 1]), i, after.items[i]);
    } else if after.items[i] != w.items[i] {
      var k :| 0 <= k < n && GaveIt(events[..n][k], Run(w, events[..n][..k + 1]), i, before.items[i]);
      assert events[..n][..k + 1] == events[..k + 1];
      assert GaveIt(events[k], Run(w, events[..k + 1]), i, after.items[i]);
    }
  }

  // Items replay a case of the older version into the newer one.
  ghost predicate ItemOk(w: ReplayStore, i: nat)
    requires i < |w.items|
  {
    && w.items[i].job < |w.jobs|
    && w.items[i].source in w.ledger.cases
    && var preview := w.jobs[w.items[i].job].preview;
    && w.ledger.cases[w.items[i].source].policy == PolicyRef(preview.id, preview.source)
    && preview.source < preview.target
  }

  ghost predicate ReplayOk(w: ReplayStore) {
    && Linked(w.ledger)
    && OriginsOk(w.ledger.cases, w.ledger.requirements, w.ledger.tables.rows)
    && forall i :: 0 <= i < |w.items| ==> ItemOk(w, i)
  }

  lemma PrepareKeeps(w: ReplayStore, id: string, source: nat, target: nat, seen: Preview, profile: string,
                     change: ModelChange)
    requires ReplayOk(w) && PrepareReplay(w, id, source, target, seen, profile, change).Ok?
    ensures ReplayOk(PrepareReplay(w, id, source, target, seen, profile, change).value.store)
  {
    hide OriginsOk, Linked, PlanOf, DiffOf, Investigations, Plans, CasesOf;
    var after := PrepareReplay(w, id, source, target, seen, profile, change).value.store;
    PreviewedCases(w.ledger, id, source, target, change);
    forall i | 0 <= i < |after.items|
      ensures ItemOk(after, i)
    {
      if i < |w.items| {
        assert ItemOk(w, i);
      }
    }
  }

  lemma PreviewedCases(s: Store, id: string, source: nat, target: nat, change: ModelChange)
    requires PreviewOf(s, id, source, target, change).Ok?
    ensures
      var preview := PreviewOf(s, id, source, target, change).value;
      && preview.id == id && preview.source == source < target == preview.target
      && forall k :: 0 <= k < |preview.plans| ==>
           preview.plans[k].source in s.cases && s.cases[preview.plans[k].source].policy == PolicyRef(id, source)
  {
    hide DiffOf, BlockedBy, Dropped, Looking, Invalidations, Investigations;
    var preview := PreviewOf(s, id, source, target, change).value;
    var cases := CasesOf(s, PolicyRef(id, source));
    forall k | 0 <= k < |preview.plans|
      ensures preview.plans[k].source == cases[k] && cases[k] in cases
    {
    }
    hide CasesOf;
  }

  lemma OriginsFrame(s: Store, s': Store)
    requires OriginsOk(s.cases, s.requirements, s.tables.rows)
    requires s.tables.rows <= s'.tables.rows && DistinctIds(s'.tables.rows)
    requires forall c :: c in s.cases ==> c in s'.cases && s'.cases[c].policy == s.cases[c].policy
    requires forall id :: id in s.requirements ==>
      id in s'.requirements && s'.requirements[id].caseId == s.requirements[id].caseId
    requires forall i :: |s.tables.rows| <= i < |s'.tables.rows| ==>
      RowLinked(s'.cases, s'.requirements, s'.tables.rows[i]) && s'.tables.rows[i].origin == None
    ensures OriginsOk(s'.cases, s'.requirements, s'.tables.rows)
  {
    var rows, rows' := s.tables.rows, s'.tables.rows;
    forall i | 0 <= i < |rows'|
      ensures RowLinked(s'.cases, s'.requirements, rows'[i]) && OriginOlder(s'.cases, rows', rows'[i])
    {
      if i < |rows| {
        assert rows'[i] == rows[i] && RowLinked(s.cases, s.requirements, rows[i])
          && OriginOlder(s.cases, rows, rows[i]);
        if rows[i].origin.Some? {
          var j :| 0 <= j < |rows| && rows[j].id == rows[i].origin.value
            && Newer(s.cases, rows[i].caseId, rows[j].caseId);
          assert rows'[j] == rows[j] && Newer(s'.cases, rows[i].caseId, rows'[j].caseId);
        }
      }
    }
    AreOk(s'.cases, s'.requirements, rows');
  }

  // The target case does not disturb what is there.
  lemma CreationKeeps(s: Store, ready: set<nat>, video: nat, ref: PolicyRef, supply: Supply)
    requires Linked(s) && Unused(s, supply) && OriginsOk(s.cases, s.requirements, s.tables.rows)
    requires CreateCase(s, ready, video, ref, supply).Ok?
    ensures
      var created := CreateCase(s, ready, video, ref, supply).value;
      && Linked(created.store) && OriginsOk(created.store.cases, created.store.requirements, created.store.tables.rows)
      && created.caseId in created.store.cases && created.store.cases[created.caseId].policy == ref
      && (forall c :: c in s.cases ==> c in created.store.cases && created.store.cases[c].policy == s.cases[c].policy)
  {
    var created := CreateCase(s, ready, video, ref, supply).value;
    var s' := created.store;
    if FindCase(s, video, ref).None? {
      forall id | id in s.requirements
        ensures id in s'.requirements && s'.requirements[id] == s.requirements[id]
      {
      }
      assert s'.tables.rows == s.tables.rows;
      hide NewRequirements;
      assert DistinctIds(s'.tables.rows) && Linked(s') by { CreatedIsLinked(s, ready, video, ref, supply); }
      hide CreateCase, Linked, Unused, OriginsOk;
      OriginsFrame(s, s');
    }
  }

  lemma CreatedIsLinked(s: Store, ready: set<nat>, video: nat, ref: PolicyRef, supply: Supply)
    requires Linked(s) && Unused(s, supply) && OriginsOk(s.cases, s.requirements, s.tables.rows)
    requires CreateCase(s, ready, video, ref, supply).Ok?
    ensures Linked(CreateCase(s, ready, video, ref, supply).value.store)
    ensures DistinctIds(CreateCase(s, ready, video, ref, supply).value.store.tables.rows)
  {
    hide RowLinked, OriginOlder, FindCase;
    var s' := CreateCase(s, ready, video, ref, supply).value.store;
    if FindCase(s, video, ref).None? {
      var templates := s.policies[ref].compiled.requirements;
      var more := NewRequirements(supply.caseId, templates, supply.requirement);
      var row := s'.cases[supply.caseId];
      assert forall id :: id in s.requirements ==> id !in more;
      forall id | id in row.requirements
        ensures id in more && more[id].id == id && more[id].caseId == supply.caseId
      {
      }
      LinkedGrows(s, s', supply.caseId, row, more);
    }
  }

  lemma MaterializeKeeps(w: ReplayStore, i: nat, supply: Supply)
    requires ReplayOk(w) && i < |w.items| && Unused(w.ledger, supply)
    requires w.items[i].job < |w.jobs| && Materialize(w, i, supply).Ok? && Materialize(w, i, supply).value.Started?
    ensures ReplayOk(Materialize(w, i, supply).value.store)
  {
    var s := w.ledger;
    var ref, video := TargetRef(w, i), s.tables.videos[w.items[i].source];
    CreationKeeps(s, w.ready, video, ref, supply);
    var created := CreateCase(s, w.ready, video, ref, supply).value;
    var w1 := w.(ledger := created.store);
    assert Materialize(w, i, supply) == Fill(w1, i, created.caseId);
    assert forall k :: 0 <= k < |w.items| ==> ItemOk(w, k);
    hide Materialize, CreateCase, Linked, OriginsOk, Unused;
    assert ReplayOk(w1) by {
      forall k | 0 <= k < |w1.items|
        ensures ItemOk(w1, k)
      {
        assert ItemOk(w, k);
      }
    }
    assert ItemOk(w1, i);
    FillKeeps(w1, i, created.caseId);
  }

  lemma FillKeeps(w: ReplayStore, i: nat, target: nat)
    requires ReplayOk(w) && i < |w.items| && Fill(w, i, target).Ok?
    requires w.items[i].job < |w.jobs| && target in w.ledger.cases && w.ledger.cases[target].policy == TargetRef(w, i)
    ensures Fill(w, i, target).value.Started? && ReplayOk(Fill(w, i, target).value.store)
  {
    var s := w.ledger;
    var source, targets := s.cases[w.items[i].source].requirements, s.cases[target].requirements;
    var st := Fill(w, i, target).value.store;
    assert ItemOk(w, i);
    assert AllOf(s.requirements, source, w.items[i].source) && AllOf(s.requirements, targets, target);
    assert Newer(s.cases, target, w.items[i].source);
    CopyKeysOrigins(s.cases, s.requirements, s.tables.rows, i, source, w.items[i].source, target, targets,
                    w.items[i].plan.reusable);
    assert Linked(st.ledger);
    hide CopyKeys, Linked, OriginsOk, Scope, Invalidated;
    forall k | 0 <= k < |st.items|
      ensures ItemOk(st, k)
    {
      assert ItemOk(w, k);
    }
  }

  lemma FinalizeFrames(s: Store, caseId: nat, allow: bool, origins: map<string, ResultKey>, item: Option<nat>)
    requires Linked(s) && Finalize(s, caseId, allow, origins, item).Committed?
    ensures
      var s' := Finalize(s, caseId, allow, origins, item).store;
      && Linked(s') && s'.tables == s.tables && s'.cases.Keys == s.cases.Keys
      && (forall c :: c in s.cases ==> s'.cases[c].policy == s.cases[c].policy)
      && s'.requirements.Keys == s.requirements.Keys
      && forall id :: id in s.requirements ==> s'.requirements[id].caseId == s.requirements[id].caseId
  {
    hide Evaluate, AggregateAll, RecordMachine, RequirementKeys, TemplateKeys;
    var p := s.policies[s.cases[caseId].policy].compiled;
    assert Known(s.requirements, s.cases[caseId].requirements);
    AggregationFrames(s, s.cases[caseId].requirements, p.aggregation, origins, item);
    var session := AggregateAll(s.results, s.requirements, s.tables, s.cases[caseId].requirements, p.aggregation,
                                origins, item);
    var s1 := s.(results := session.results, requirements := session.requirements);
    RecordFrames(s1, caseId, Evaluate(p, session.outcomes, InvestigationOf(s, caseId)).value, item);
  }

  lemma AggregationFrames(s: Store, ids: seq<nat>, config: AggregationConfig, origins: map<string, ResultKey>,
                          item: Option<nat>)
    requires Linked(s) && Known(s.requirements, ids)
    ensures
      var session := AggregateAll(s.results, s.requirements, s.tables, ids, config, origins, item);
      && Linked(s.(results := session.results, requirements := session.requirements))
      && session.requirements.Keys == s.requirements.Keys
      && forall id :: id in s.requirements ==> session.requirements[id].caseId == s.requirements[id].caseId
  {
    var session := AggregateAll(s.results, s.requirements, s.tables, ids, config, origins, item);
    assert session.requirements.Keys == s.requirements.Keys;
    assert forall id :: id in s.requirements ==> Same(s.requirements[id], session.requirements[id]);
    hide AggregateAll, Known;
    SameIsLinked(s, session.results, session.requirements);
  }

  lemma SameIsLinked(s: Store, results: seq<ResultRow>, requirements: map<nat, RequirementRow>)
    requires Linked(s) && requirements.Keys == s.requirements.Keys
    requires forall id :: id in s.requirements ==> Same(s.requirements[id], requirements[id])
    ensures Linked(s.(results := results, requirements := requirements))
    ensures forall id :: id in s.requirements ==> requirements[id].caseId == s.requirements[id].caseId
  {
  }

  lemma RecordFrames(s: Store, caseId: nat, evaluation: Evaluation, item: Option<nat>)
    requires Linked(s) && caseId in s.cases && RecordMachine(s, caseId, evaluation, item).Committed?
    ensures
      var s' := RecordMachine(s, caseId, evaluation, item).store;
      && Linked(s') && s'.tables == s.tables && s'.cases.Keys == s.cases.Keys && s'.requirements == s.requirements
      && forall c :: c in s.cases ==> s'.cases[c].policy == s.cases[c].policy
  {
    hide LastDecision;
    if FindMachine(s.decisions, caseId, evaluation.input).Some? {
      hide FindMachine;
      assert FindMachine(s.decisions, caseId, evaluation.input).value < |s.decisions| by {
        FoundIsThere(s.decisions, caseId, evaluation.input);
      }
    } else {
      hide FindMachine;
    }
  }

  lemma FoundIsThere(decisions: seq<DecisionRow>, caseId: nat, input: EvaluationInput)
    requires FindMachine(decisions, caseId, input).Some?
    ensures FindMachine(decisions, caseId, input).value < |decisions|
  {
  }

  lemma LedgerReplaced(w: ReplayStore, s: Store)
    requires ReplayOk(w) && Linked(s) && s.tables == w.ledger.tables
    requires forall c :: c in w.ledger.cases ==> c in s.cases && s.cases[c].policy == w.ledger.cases[c].policy
    requires forall id :: id in w.ledger.requirements ==>
      id in s.requirements && s.requirements[id].caseId == w.ledger.requirements[id].caseId
    ensures ReplayOk(w.(ledger := s))
  {
    OriginsFrame(w.ledger, s);
    hide Linked, OriginsOk;
    forall k | 0 <= k < |w.items|
      ensures ItemOk(w.(ledger := s), k)
    {
      assert ItemOk(w, k);
    }
  }

  lemma CloseKeeps(w: ReplayStore, i: nat, decision: nat, origins: map<string, ResultKey>)
    requires ReplayOk(w) && i < |w.items| && decision < |w.ledger.decisions| && w.items[i].target.Some?
    ensures ReplayOk(Close(w, i, decision, origins))
  {
    hide Linked, OriginsOk, Results;
    forall k | 0 <= k < |w.items|
      ensures ItemOk(Close(w, i, decision, origins), k)
    {
      assert ItemOk(w, k);
    }
  }

  lemma FinishKeeps(w: ReplayStore, i: nat, scope: seq<nat>, origins: map<string, ResultKey>)
    requires ReplayOk(w)
    ensures ReplayOk(Step(w, Finishing(i, scope, origins)))
  {
    if i < |w.items| && w.items[i].target.Some?
       && Finalize(w.ledger, w.items[i].target.value, scope == [], origins, Some(i)).Committed? {
      FinalizeFrames(w.ledger, w.items[i].target.value, scope == [], origins, Some(i));
      FinalDecisionExists(w.ledger, w.items[i].target.value, scope == [], origins, Some(i));
      assert Linked(w.ledger);
      hide Finalize, Linked, Close, ReplayOk;
      var t := Finalize(w.ledger, w.items[i].target.value, scope == [], origins, Some(i));
      LedgerReplaced(w, t.store);
      CloseKeeps(w.(ledger := t.store), i, t.id, origins);
    }
  }

  lemma StepKeeps(w: ReplayStore, e: Event)
    requires ReplayOk(w)
    ensures ReplayOk(Step(w, e))
  {
    match e
    case Preparing(id, source, target, seen, profile, change) =>
      hide ReplayOk, PrepareReplay;
      if PrepareReplay(w, id, source, target, seen, profile, change).Ok? {
        PrepareKeeps(w, id, source, target, seen, profile, change);
      }
    case Materializing(i, supply) =>
      hide ReplayOk, Materialize;
      if i < |w.items| && w.items[i].job < |w.jobs| && Unused(w.ledger, supply)
         && Materialize(w, i, supply).Ok? && Materialize(w, i, supply).value.Started? {
        MaterializeKeeps(w, i, supply);
      }
    case Finishing(i, scope, origins) =>
      hide ReplayOk, Step;
      FinishKeeps(w, i, scope, origins);
    case Elsewhere(next) =>
      if GoesOn(w, next) {
        OriginsFrame(w.ledger, next.ledger);
        hide Linked, OriginsOk;
        forall k | 0 <= k < |next.items|
          ensures ItemOk(next, k)
        {
          assert ItemOk(w, k);
        }
      }
  }

  // Before the first replay every row is of its own case and derives from nothing.
  ghost predicate Untouched(w: ReplayStore) {
    && Linked(w.ledger) && w.items == [] && DistinctIds(w.ledger.tables.rows)
    && forall i :: 0 <= i < |w.ledger.tables.rows| ==>
         RowLinked(w.ledger.cases, w.ledger.requirements, w.ledger.tables.rows[i])
           && w.ledger.tables.rows[i].origin == None
  }

  lemma {:induction false} RunKeeps(w: ReplayStore, events: seq<Event>)
    requires ReplayOk(w)
    ensures ReplayOk(Run(w, events))
    decreases |events|
  {
    hide ReplayOk, Step;
    if events != [] {
      RunKeeps(w, events[..|events| - 1]);
      StepKeeps(Run(w, events[..|events| - 1]), events[|events| - 1]);
    }
  }

  // ---- chains of origins -----------------------------------------------------------------

  // Each row of the chain names the next as its origin.
  ghost predicate Chain(rows: seq<Evidence>, chain: seq<Evidence>) {
    && (forall k :: 0 <= k < |chain| ==> chain[k] in rows)
    && forall k :: 0 < k < |chain| ==> chain[k - 1].origin == Some(chain[k].id)
  }

  ghost function VersionOf(s: Store, e: Evidence): nat
    requires e.caseId in s.cases
  {
    s.cases[e.caseId].policy.version
  }

  lemma {:induction false} ChainDescends(s: Store, chain: seq<Evidence>, j: nat, k: nat)
    requires OriginsOk(s.cases, s.requirements, s.tables.rows) && Chain(s.tables.rows, chain) && j <= k < |chain|
    ensures chain[j].caseId in s.cases && chain[k].caseId in s.cases
    ensures VersionOf(s, chain[k]) + (k - j) <= VersionOf(s, chain[j])
    ensures s.cases[chain[k].caseId].policy.id == s.cases[chain[j].caseId].policy.id
    decreases k
  {
    var rows := s.tables.rows;
    assert chain[k] in rows;
    var a :| 0 <= a < |rows| && rows[a] == chain[k];
    assert RowLinked(s.cases, s.requirements, rows[a]);
    if j < k {
      ChainDescends(s, chain, j, k - 1);
      var b :| 0 <= b < |rows| && rows[b] == chain[k - 1];
      assert OriginOlder(s.cases, rows, rows[b]);
      var c :| 0 <= c < |rows| && rows[c].id == chain[k].id && Newer(s.cases, rows[b].caseId, rows[c].caseId);
      assert a == c;
    }
  }

  // Over every history of replays and other work, following origins strictly descends the versions of one
  // policy: no chain is longer than the version it starts from, and none comes back to a row.
  lemma OriginChainsAreFinite(w: ReplayStore, events: seq<Event>, chain: seq<Evidence>)
    requires Untouched(w) && chain != []
    requires Chain(Run(w, events).ledger.tables.rows, chain)
    ensures
      var s := Run(w, events).ledger;
      && (forall k :: 0 <= k < |chain| ==> chain[k].caseId in s.cases)
      && |chain| <= VersionOf(s, chain[0]) + 1
      && (forall j, k :: 0 <= j < k < |chain| ==>
            && VersionOf(s, chain[k]) < VersionOf(s, chain[j])
            && s.cases[chain[k].caseId].policy.id == s.cases[chain[j].caseId].policy.id
            && chain[j] != chain[k])
  {
    assert ReplayOk(w);
    RunKeeps(w, events);
    var s := Run(w, events).ledger;
    forall j, k | 0 <= j <= k < |chain|
      ensures chain[j].caseId in s.cases && chain[k].caseId in s.cases
      ensures VersionOf(s, chain[k]) + (k - j) <= VersionOf(s, chain[j])
      ensures s.cases[chain[k].caseId].policy.id == s.cases[chain[j].caseId].policy.id
    {
      ChainDescends(s, chain, j, k);
    }
    ChainDescends(s, chain, 0, |chain| - 1);
    hide Run, OriginsOk, Chain;
  }
}
