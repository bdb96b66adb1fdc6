/** Asking twice, over every history: a repeated preparation finds its job, and an item that is executed
    again, after whatever replays happened in between, writes nothing but its own status. */
module ReplayRepeats {
  import opened Common
  import opened EvidenceStore
  import opened Aggregation
  import opened Rules
  import opened Ledger
  import opened Planner
  import opened Replay
  import opened ReplayLaws
  import opened ReplayHistory

  // ---- preparing again -------------------------------------------------------------------

  lemma AppendKeepsFound(jobs: seq<ReplayJob>, job: ReplayJob, last: ReplayJob)
    requires FindJob(jobs, job).Some? && last != job
    ensures FindJob(jobs + [last], job) == FindJob(jobs, job)
  {
    assert (jobs + [last])[..|jobs|] == jobs;
  }

  lemma NewJobIsFound(jobs: seq<ReplayJob>, job: ReplayJob)
    ensures FindJob(jobs + [job], job) == Some(|jobs|)
  {
  }

  lemma StepKeepsJob(w: ReplayStore, e: Event, job: ReplayJob)
    requires FindJob(w.jobs, job).Some?
    ensures FindJob(Step(w, e).jobs, job) == FindJob(w.jobs, job)
  {
    hide FindJob, Finalize, PreviewOf, CreateCase, CopyKeys, Scope, Invalidated, Unused;
    match e
    case Preparing(id, source, target, seen, profile, change) =>
      if PrepareReplay(w, id, source, target, seen, profile, change).Ok?
        && FindJob(w.jobs, ReplayJob(seen, profile)).None? {
        AppendKeepsFound(w.jobs, job, ReplayJob(seen, profile));
      }
    case _ =>
  }

  lemma {:induction false} RunKeepsJob(w: ReplayStore, events: seq<Event>, job: ReplayJob)
    requires FindJob(w.jobs, job).Some?
    ensures FindJob(Run(w, events).jobs, job) == FindJob(w.jobs, job)
    decreases |events|
  {
    hide FindJob, Step;
    if events != [] {
      RunKeepsJob(w, events[..|events| - 1], job);
      StepKeepsJob(Run(w, events[..|events| - 1]), events[|events| - 1], job);
    }
  }

  lemma FoundIsIn(jobs: seq<ReplayJob>, job: ReplayJob)
    ensures FindJob(jobs, job).Some? <==> job in jobs
  {
  }

  lemma PreparedIsFound(w: ReplayStore, id: string, source: nat, target: nat, seen: Preview, profile: string,
                        change: ModelChange)
    ensures
      var r := PrepareReplay(w, id, source, target, seen, profile, change);
      && (r.Ok? <==> PreviewOf(w.ledger, id, source, target, change) == Ok(seen)
                     && (ReplayJob(seen, profile) in w.jobs || !Conflicts(w, seen.plans, target)))
      && (r.Ok? ==> FindJob(r.value.store.jobs, ReplayJob(seen, profile)) == Some(r.value.job))
  {
    hide PreviewOf, ItemsFor, FindJob, Conflicts;
    NewJobIsFound(w.jobs, ReplayJob(seen, profile));
    FoundIsIn(w.jobs, ReplayJob(seen, profile));
  }

  // A preview that no longer matches the ledger prepares nothing, and neither does a new request for a case
  // that already has an item for that version. One that was prepared gives back its job and changes nothing
  // when it is asked for again, after any history, as long as it still stands.
  lemma PreparingAgainFindsTheJob(w: ReplayStore, id: string, source: nat, target: nat, seen: Preview, profile: string,
                                  change: ModelChange, events: seq<Event>)
    ensures
      var r := PrepareReplay(w, id, source, target, seen, profile, change);
      && (r.Ok? <==> PreviewOf(w.ledger, id, source, target, change) == Ok(seen)
                     && (ReplayJob(seen, profile) in w.jobs || !Conflicts(w, seen.plans, target)))
      && (r.Ok? ==>
            var now := Run(r.value.store, events);
            PrepareReplay(now, id, source, target, seen, profile, change)
            == match PreviewOf(now.ledger, id, source, target, change)
               case Ok(preview) => if preview == seen then Ok(Prepared(now, r.value.job)) else Err(PreviewStale)
               case Err(error) => Err(PreviewRefused(error)))
  {
    PreparedIsFound(w, id, source, target, seen, profile, change);
    var r := PrepareReplay(w, id, source, target, seen, profile, change);
    hide PreviewOf, FindJob, Run;
    if r.Ok? {
      RunKeepsJob(r.value.store, events, ReplayJob(seen, profile));
    }
  }

  // ---- an executed item ------------------------------------------------------------------

  // The item has its target case, which is found again, and everything it copies is recorded.
  ghost predicate Executed(w: ReplayStore, i: nat, target: nat) {
    && i < |w.items| && w.items[i].job < |w.jobs|
    && w.items[i].target == Some(target) && w.items[i].source != target && !Taken(w.items, i, target)
    && Recorded(w, i, target)
    && Findable(w.ledger, w.ready, w.items[i].source, TargetRef(w, i), target)
  }

  ghost predicate Findable(s: Store, ready: set<nat>, source: nat, ref: PolicyRef, target: nat) {
    && source in s.cases && target in s.cases
    && source in s.tables.videos && s.tables.videos[source] in ready
    && ref in s.policies && s.policies[ref].published
    && FindCase(s, s.tables.videos[source], ref) == Some(target)
  }

  // What the item reads of two cases: their requirements and the rows of the source. Anything may be added.
  ghost predicate Preserves(s: Store, s': Store, source: nat, target: nat) {
    && source in s.cases && source in s'.cases && s'.cases[source].requirements == s.cases[source].requirements
    && target in s.cases && target in s'.cases && s'.cases[target].requirements == s.cases[target].requirements
    && SameRequirements(s.requirements, s'.requirements, s.cases[source].requirements)
    && SameRequirements(s.requirements, s'.requirements, s.cases[target].requirements)
    && Keeps(s.tables.rows, s'.tables.rows)
    && forall id :: id in s.cases[source].requirements ==> ListFor(s'.tables.rows, id) == ListFor(s.tables.rows, id)
  }

  // The event leaves the rows of the item's source alone: no other item replays into the source case, and
  // work elsewhere keeps what the item reads, drops no lineage, and leaves the target version in place.
  ghost predicate Spares(w: ReplayStore, e: Event, i: nat, target: nat)
    requires i < |w.items| && w.items[i].job < |w.jobs|
  {
    match e
    case Materializing(j, supply) =>
      j != i && j < |Step(w, e).items| ==> Step(w, e).items[j].target != Some(w.items[i].source)
    case Elsewhere(next) =>
      GoesOn(w, next) ==>
        && w.lineage <= next.lineage
        && Preserves(w.ledger, next.ledger, w.items[i].source, target)
        && Findable(next.ledger, next.ready, w.items[i].source, TargetRef(w, i), target)
    case _ => true
  }

  ghost predicate AllSpare(w: ReplayStore, events: seq<Event>, i: nat, target: nat)
    decreases |events|
  {
    events != [] ==>
      var before := Run(w, events[..|events| - 1]);
      && AllSpare(w, events[..|events| - 1], i, target)
      && i < |before.items| && before.items[i].job < |before.jobs|
      && Spares(before, events[|events| - 1], i, target)
  }

  // ---- one event -------------------------------------------------------------------------

  ghost predicate ItemKept(w: ReplayStore, w': ReplayStore, i: nat, target: nat)
    requires i < |w.items|
  {
    && w.jobs <= w'.jobs && |w.items| <= |w'.items|
    && w'.items[i] == w.items[i].(status := w'.items[i].status)
    && !Taken(w'.items, i, target)
    && w.lineage <= w'.lineage
  }

  // Keeping the item, what it reads and where it finds its target keeps the record.
  lemma KeptIsExecuted(w: ReplayStore, w': ReplayStore, i: nat, target: nat)
    requires Executed(w, i, target) && Linked(w.ledger)
    requires ItemKept(w, w', i, target) && !Over(w'.items[i].status)
    requires Preserves(w.ledger, w'.ledger, w.items[i].source, target)
    requires Findable(w'.ledger, w'.ready, w.items[i].source, TargetRef(w, i), target)
    ensures Executed(w', i, target)
  {
    var s := w.ledger;
    assert TargetRef(w', i) == TargetRef(w, i);
    assert Apart(s.requirements, s.cases[w.items[i].source].requirements, s.cases[target].requirements) by {
      hide Recorded, Findable;
    }
    hide Recorded, Linked, ListFor, SameRequirements, Keeps, FindCase, Apart, Taken;
    assert Undisturbed(w, w', i, target);
    StillRecorded(w, w', i, target);
  }

  lemma PreparingSpares(w: ReplayStore, id: string, source: nat, to: nat, seen: Preview, profile: string,
                        change: ModelChange, i: nat, target: nat)
    requires Executed(w, i, target)
    ensures
      var w' := Step(w, Preparing(id, source, to, seen, profile, change));
      ItemKept(w, w', i, target) && w'.ledger == w.ledger && w'.ready == w.ready
  {
    hide PreviewOf, FindJob, Recorded, Findable;
  }

  lemma PreservesItself(s: Store, source: nat, target: nat)
    requires source in s.cases && target in s.cases
    ensures Preserves(s, s, source, target)
  {
  }

  lemma FindCaseStays(s: Store, s': Store, video: nat, ref: PolicyRef)
    requires forall c :: SameSubject(s', c, video, ref) <==> SameSubject(s, c, video, ref)
    ensures FindCase(s', video, ref) == FindCase(s, video, ref)
  {
    assert (set c | c in s'.cases && SameSubject(s', c, video, ref))
      == (set c | c in s.cases && SameSubject(s, c, video, ref));
  }

  // A finalization writes no requirement list, no row and no template.
  lemma FinalizePreserves(s: Store, caseId: nat, allow: bool, origins: map<string, ResultKey>, item: Option<nat>,
                          ready: set<nat>, source: nat, ref: PolicyRef, target: nat)
    requires Linked(s) && Finalize(s, caseId, allow, origins, item).Committed?
    requires Findable(s, ready, source, ref, target)
    ensures
      var s' := Finalize(s, caseId, allow, origins, item).store;
      Preserves(s, s', source, target) && Findable(s', ready, source, ref, target)
  {
    hide ListFor, FindCase, Finalize;
    var s' := Finalize(s, caseId, allow, origins, item).store;
    FinalizeWrites(s, caseId, allow, origins, item);
    FindCaseStays(s, s', s.tables.videos[source], ref);
  }

  lemma FinalizeWrites(s: Store, caseId: nat, allow: bool, origins: map<string, ResultKey>, item: Option<nat>)
    requires Linked(s) && Finalize(s, caseId, allow, origins, item).Committed?
    ensures
      var s' := Finalize(s, caseId, allow, origins, item).store;
      && s'.tables == s.tables && s'.policies == s.policies && s'.cases.Keys == s.cases.Keys
      && (forall c :: c in s.cases ==>
            s'.cases[c].requirements == s.cases[c].requirements && s'.cases[c].policy == s.cases[c].policy)
      && s'.requirements.Keys == s.requirements.Keys
      && forall id :: id in s.requirements ==> Same(s.requirements[id], s'.requirements[id])
  {
    hide AggregateAll, Evaluate, FindMachine, LastDecision, RequirementKeys, TemplateKeys;
  }

  lemma FinishingSpares(w: ReplayStore, j: nat, scope: seq<nat>, origins: map<string, ResultKey>, i: nat, target: nat)
    requires Executed(w, i, target) && Linked(w.ledger)
    requires !Over(Step(w, Finishing(j, scope, origins)).items[i].status) && !Over(w.items[i].status)
    ensures
      var w' := Step(w, Finishing(j, scope, origins));
      && ItemKept(w, w', i, target)
      && Preserves(w.ledger, w'.ledger, w.items[i].source, target)
      && Findable(w'.ledger, w'.ready, w.items[i].source, TargetRef(w, i), target)
  {
    hide Finalize, Recorded, Findable, Preserves, Results;
    FindableCases(w.ledger, w.ready, w.items[i].source, TargetRef(w, i), target);
    PreservesItself(w.ledger, w.items[i].source, target);
    if j < |w.items| && w.items[j].target.Some?
       && Finalize(w.ledger, w.items[j].target.value, scope == [], origins, Some(j)).Committed? {
      FinalDecisionExists(w.ledger, w.items[j].target.value, scope == [], origins, Some(j));
      FinalizePreserves(w.ledger, w.items[j].target.value, scope == [], origins, Some(j), w.ready, w.items[i].source,
                        TargetRef(w, i), target);
    }
  }

  // ---- another item's execution ----------------------------------------------------------

  lemma {:induction false} CopyKeysLeaveOthers(requirements: map<nat, RequirementRow>, rows: seq<Evidence>, item: nat,
                                               source: seq<nat>, target: nat, targets: seq<nat>, keys: seq<string>,
                                               id: nat)
    requires forall t :: t in targets && t in requirements ==> requirements[t].id == t
    requires id !in targets && CopyKeys(requirements, rows, item, source, target, targets, keys).Some?
    ensures
      var copied := CopyKeys(requirements, rows, item, source, target, targets, keys).value;
      rows <= copied.rows && ListFor(copied.rows, id) == ListFor(rows, id)
  {
    if keys != [] {
      var n := |keys| - 1;
      CopyKeysLeaveOthers(requirements, rows, item, source, target, targets, keys[..n], id);
      var before := CopyKeys(requirements, rows, item, source, target, targets, keys[..n]).value;
      var pair := PairOf(requirements, source, targets, keys[n]);
      if pair.Some? {
        var Pair(q, q') := pair.value;
        assert q'.id in targets;
        CopyHoldsAll(before.rows, item, target, q'.id, ListFor(before.rows, q.id));
        CopyLeavesOthers(before.rows, item, target, q'.id, ListFor(before.rows, q.id), id);
      }
      hide CopyRows, ListFor, PairOf;
    }
  }

  // Opening a case leaves the other cases as they are.
  ghost predicate Opened(s: Store, s': Store, c: nat, video: nat, ref: PolicyRef) {
    && s'.tables.rows == s.tables.rows && s'.policies == s.policies
    && (forall d :: d in s.cases ==> d in s'.cases && s'.cases[d] == s.cases[d])
    && (forall id :: id in s.requirements ==> id in s'.requirements && s'.requirements[id] == s.requirements[id])
    && c in s'.cases && c in s'.tables.videos && s'.tables.videos[c] == video && s'.cases[c].policy == ref
    && (forall d :: d != c ==> (d in s'.cases <==> d in s.cases) && (d in s'.tables.videos <==> d in s.tables.videos))
    && (forall d :: d != c && d in s.tables.videos ==> s'.tables.videos[d] == s.tables.videos[d])
  }

  lemma CreationOpens(s: Store, ready: set<nat>, video: nat, to: PolicyRef, supply: Supply)
    requires Unused(s, supply) && CreateCase(s, ready, video, to, supply).Ok?
    ensures
      var created := CreateCase(s, ready, video, to, supply).value;
      && Opened(s, created.store, created.caseId, video, to)
      && (created.store == s || (created.caseId !in s.cases && FindCase(s, video, to).None?))
  {
    hide FindCase;
    var created := CreateCase(s, ready, video, to, supply).value;
    if FindCase(s, video, to).None? {
      var more := NewRequirements(supply.caseId, s.policies[to].compiled.requirements, supply.requirement);
      forall id | id in s.requirements
        ensures id !in more
      {
      }
      hide NewRequirements;
    } else {
      FoundIsSubject(s, video, to);
    }
  }

  lemma FoundIsSubject(s: Store, video: nat, ref: PolicyRef)
    ensures match FindCase(s, video, ref)
            case Some(c) => SameSubject(s, c, video, ref)
            case None => forall c :: !SameSubject(s, c, video, ref)
  {
  }

  lemma OpenedPreserves(s: Store, s': Store, c: nat, video: nat, to: PolicyRef, ready: set<nat>, source: nat,
                        ref: PolicyRef, target: nat)
    requires Linked(s) && Opened(s, s', c, video, to) && Findable(s, ready, source, ref, target)
    requires c !in s.cases && FindCase(s, video, to).None?
    ensures Preserves(s, s', source, target) && Findable(s', ready, source, ref, target)
  {
    hide ListFor, FindCase;
    var seen := s.tables.videos[source];
    FoundIsSubject(s, seen, ref);
    FoundIsSubject(s, video, to);
    assert !(seen == video && ref == to);
    forall d
      ensures SameSubject(s', d, seen, ref) <==> SameSubject(s, d, seen, ref)
    {
    }
    FindCaseStays(s, s', seen, ref);
  }

  lemma CreationPreserves(s: Store, ready: set<nat>, video: nat, to: PolicyRef, supply: Supply, source: nat,
                          ref: PolicyRef, target: nat)
    requires Linked(s) && Unused(s, supply) && CreateCase(s, ready, video, to, supply).Ok?
    requires Findable(s, ready, source, ref, target)
    ensures
      var s' := CreateCase(s, ready, video, to, supply).value.store;
      && Preserves(s, s', source, target) && Findable(s', ready, source, ref, target)
  {
    var created := CreateCase(s, ready, video, to, supply).value;
    CreationOpens(s, ready, video, to, supply);
    hide CreateCase, Unused, Opened, Linked, Preserves;
    if created.store == s {
      PreservesItself(s, source, target);
    } else {
      OpenedPreserves(s, created.store, created.caseId, video, to, ready, source, ref, target);
    }
  }

  // Rows copied into one case are in no list of another.
  lemma FillPreserves(w: ReplayStore, j: nat, to: nat, source: nat, ref: PolicyRef, target: nat)
    requires j < |w.items| && Fill(w, j, to).Ok? && Linked(w.ledger) && to != source
    requires Findable(w.ledger, w.ready, source, ref, target)
    ensures
      var w' := Fill(w, j, to).value.store;
      && Fill(w, j, to).value.Started?
      && Preserves(w.ledger, w'.ledger, source, target) && Findable(w'.ledger, w'.ready, source, ref, target)
      && w'.jobs == w.jobs && w.lineage <= w'.lineage
      && w'.items == w.items[j := w'.items[j]] && w'.items[j].target == Some(to)
      && (forall k :: 0 <= k < |w.items| && k != j ==> w.items[k].target != Some(to))
  {
    var s := w.ledger;
    var from, targets := s.cases[w.items[j].source].requirements, s.cases[to].requirements;
    var copied := CopyKeys(s.requirements, s.tables.rows, j, from, to, targets, w.items[j].plan.reusable).value;
    var w' := Fill(w, j, to).value.store;
    forall id | id in s.cases[source].requirements
      ensures id !in targets
    {
      assert s.requirements[id].caseId == source;
    }
    hide CopyKeys, ListFor, Scope, Invalidated, FindCase;
    forall id | id in s.cases[source].requirements
      ensures ListFor(copied.rows, id) == ListFor(s.tables.rows, id)
    {
      CopyKeysLeaveOthers(s.requirements, s.tables.rows, j, from, to, targets, w.items[j].plan.reusable, id);
    }
    RowsStay(s.requirements, s.tables.rows, j, from, to, targets, w.items[j].plan.reusable);
    PrefixKeeps(s.tables.rows, copied.rows);
    FindCaseStays(s, w'.ledger, s.tables.videos[source], ref);
  }

  lemma RowsStay(requirements: map<nat, RequirementRow>, rows: seq<Evidence>, item: nat, source: seq<nat>, target: nat,
                 targets: seq<nat>, keys: seq<string>)
    requires forall t :: t in targets && t in requirements ==> requirements[t].id == t
    requires CopyKeys(requirements, rows, item, source, target, targets, keys).Some?
    ensures rows <= CopyKeys(requirements, rows, item, source, target, targets, keys).value.rows
  {
    hide CopyKeys;
    var id := Unlisted(targets);
    CopyKeysLeaveOthers(requirements, rows, item, source, target, targets, keys, id);
  }

  lemma Unlisted(ids: seq<nat>) returns (id: nat)
    ensures id !in ids
  {
    id := 0;
    for i := 0 to |ids|
      invariant forall k :: 0 <= k < i ==> ids[k] < id
    {
      id := if ids[i] < id then id else ids[i] + 1;
    }
  }

  lemma PreservesInTurn(s: Store, s': Store, s'': Store, source: nat, target: nat)
    requires Preserves(s, s', source, target) && Preserves(s', s'', source, target)
    ensures Preserves(s, s'', source, target)
  {
    hide ListFor;
    forall id | Holds(s.tables.rows, id)
      ensures Holds(s''.tables.rows, id)
    {
      assert Holds(s'.tables.rows, id);
    }
  }

  lemma MaterializingPreserves(w: ReplayStore, j: nat, supply: Supply, i: nat, target: nat)
    requires ReplayOk(w) && Executed(w, i, target) && j != i && j < |w.items| && w.items[j].job < |w.jobs|
    requires Unused(w.ledger, supply) && Materialize(w, j, supply).Ok? && Materialize(w, j, supply).value.Started?
    requires Materialize(w, j, supply).value.store.items[j].target != Some(w.items[i].source)
    ensures
      var w' := Materialize(w, j, supply).value.store;
      && ItemKept(w, w', i, target)
      && Preserves(w.ledger, w'.ledger, w.items[i].source, target)
      && Findable(w'.ledger, w'.ready, w.items[i].source, TargetRef(w, i), target)
  {
    var s := w.ledger;
    var source, ref := w.items[i].source, TargetRef(w, i);
    var to, video := TargetRef(w, j), s.tables.videos[w.items[j].source];
    var created := CreateCase(s, w.ready, video, to, supply).value;
    var w1 := w.(ledger := created.store);
    assert Materialize(w, j, supply) == Fill(w1, j, created.caseId);
    CreationKeeps(s, w.ready, video, to, supply);
    CreationPreserves(s, w.ready, video, to, supply, source, ref, target);
    FilledTarget(w1, j, created.caseId);
    FillPreserves(w1, j, created.caseId, source, ref, target);
    PreservesInTurn(s, w1.ledger, Fill(w1, j, created.caseId).value.store.ledger, source, target);
    hide Materialize, CreateCase, Fill, ReplayOk, Recorded, Findable, Preserves, Unused;
  }

  lemma FilledTarget(w: ReplayStore, j: nat, to: nat)
    requires j < |w.items| && Fill(w, j, to).Ok?
    ensures Fill(w, j, to).value.Started? && |Fill(w, j, to).value.store.items| == |w.items|
    ensures Fill(w, j, to).value.store.items[j].target == Some(to)
  {
    hide CopyKeys, Scope, Invalidated;
  }

  // Executing the item itself once more.
  lemma OwnMaterializing(w: ReplayStore, i: nat, supply: Supply, target: nat)
    requires Executed(w, i, target) && !Over(w.items[i].status)
    ensures
      var r := Materialize(w, i, supply);
      && r.Ok? && r.value.Started?
      && r.value.store == w.(items := w.items[i := w.items[i].(status := r.value.store.items[i].status)])
  {
    hide Recorded, FindCase, Materialize;
    RecordedAddsNothing(w, i, target, supply);
  }

  // ---- every event, every history --------------------------------------------------------

  lemma StepKeepsExecuted(w: ReplayStore, e: Event, i: nat, target: nat)
    requires ReplayOk(w) && Executed(w, i, target) && Spares(w, e, i, target)
    requires !Over(w.items[i].status) && i < |Step(w, e).items| && !Over(Step(w, e).items[i].status)
    ensures Executed(Step(w, e), i, target)
  {
    assert Linked(w.ledger);
    hide ReplayOk, Recorded, Findable, Preserves, Materialize, Finalize, GoesOn, Unused, PrepareReplay, Over;
    PreservesItself(w.ledger, w.items[i].source, target) by {
      FindableCases(w.ledger, w.ready, w.items[i].source, TargetRef(w, i), target);
    }
    var w' := Step(w, e);
    match e
    case Preparing(id, source, to, seen, profile, change) =>
      PreparingSpares(w, id, source, to, seen, profile, change, i, target);
      KeptIsExecuted(w, w', i, target);
    case Materializing(j, supply) =>
      if j < |w.items| && w.items[j].job < |w.jobs| && Unused(w.ledger, supply)
         && Materialize(w, j, supply).Ok? && Materialize(w, j, supply).value.Started? {
        if j == i {
          OwnMaterializing(w, i, supply, target);
        } else {
          MaterializedItems(w, j, supply);
          MaterializingPreserves(w, j, supply, i, target);
        }
        KeptIsExecuted(w, w', i, target);
      }
    case Finishing(j, scope, origins) =>
      FinishingSpares(w, j, scope, origins, i, target);
      KeptIsExecuted(w, w', i, target);
    case Elsewhere(next) =>
      if GoesOn(w, next) {
        ItemsGoOn(w, next);
        KeptIsExecuted(w, w', i, target);
      }
  }

  lemma FindableCases(s: Store, ready: set<nat>, source: nat, ref: PolicyRef, target: nat)
    requires Findable(s, ready, source, ref, target)
    ensures source in s.cases && target in s.cases
  {
  }

  lemma MaterializedItems(w: ReplayStore, j: nat, supply: Supply)
    requires j < |w.items| && w.items[j].job < |w.jobs|
    requires Materialize(w, j, supply).Ok? && Materialize(w, j, supply).value.Started?
    ensures |Materialize(w, j, supply).value.store.items| == |w.items|
  {
    hide CopyKeys, CreateCase, Scope, Invalidated;
  }

  // What is closed at one point is closed at every later one.
  lemma OpenBefore(w: ReplayStore, e: Event, i: nat)
    requires i < |w.items| && i < |Step(w, e).items| && !Over(Step(w, e).items[i].status)
    ensures !Over(w.items[i].status)
  {
    hide Step;
    if Over(w.items[i].status) {
      ClosedStep(w, e, i);
    }
  }

  lemma {:induction false} RunKeepsExecuted(w: ReplayStore, events: seq<Event>, i: nat, target: nat)
    requires ReplayOk(w) && Executed(w, i, target) && AllSpare(w, events, i, target)
    requires i < |Run(w, events).items| && !Over(Run(w, events).items[i].status)
    ensures Executed(Run(w, events), i, target)
    decreases |events|
  {
    if events != [] {
      var before := events[..|events| - 1];
      hide ReplayOk, Executed, Step, Spares, Over;
      OpenBefore(Run(w, before), events[|events| - 1], i);
      RunKeepsExecuted(w, before, i, target);
      RunKeeps(w, before);
      StepKeepsExecuted(Run(w, before), events[|events| - 1], i, target);
    }
  }

  // The first execution leaves the item executed.
  lemma MaterializingExecutes(w: ReplayStore, i: nat, supply: Supply)
    requires ReplayOk(w) && i < |w.items| && w.items[i].job < |w.jobs| && Unused(w.ledger, supply)
    requires Materialize(w, i, supply).Ok? && Materialize(w, i, supply).value.Started?
    ensures
      var st := Materialize(w, i, supply).value.store;
      && ReplayOk(st) && i < |st.items| && st.items[i].target.Some?
      && Executed(st, i, st.items[i].target.value)
  {
    MaterializeKeeps(w, i, supply);
    var s := w.ledger;
    var ref, source := TargetRef(w, i), w.items[i].source;
    var created := CreateCase(s, w.ready, s.tables.videos[source], ref, supply).value;
    var w1 := w.(ledger := created.store);
    var st := Materialize(w, i, supply).value.store;
    assert Materialize(w, i, supply) == Fill(w1, i, created.caseId);
    FilledTarget(w1, i, created.caseId);
    TargetIsOther(w, i, supply);
    CreatedIsFound(s, w.ready, source, ref, supply);
    FillFinds(w1, i, created.caseId, source, ref);
    hide Materialize, CreateCase, Fill, ReplayOk, Recorded, Findable, Unused, Linked;
    assert Linked(st.ledger) by { OkIsLinked(st); }
    StartedRecords(w, i, supply, created.caseId);
  }

  lemma OkIsLinked(w: ReplayStore)
    requires ReplayOk(w)
    ensures Linked(w.ledger)
  {
  }

  // Source and target follow different versions.
  lemma TargetIsOther(w: ReplayStore, i: nat, supply: Supply)
    requires ReplayOk(w) && i < |w.items| && w.items[i].job < |w.jobs| && Unused(w.ledger, supply)
    requires w.items[i].source in w.ledger.tables.videos
    requires CreateCase(w.ledger, w.ready, w.ledger.tables.videos[w.items[i].source], TargetRef(w, i), supply).Ok?
    ensures CreateCase(w.ledger, w.ready, w.ledger.tables.videos[w.items[i].source], TargetRef(w, i),
                       supply).value.caseId
            != w.items[i].source
  {
    assert ItemOk(w, i);
    var video := w.ledger.tables.videos[w.items[i].source];
    CreationOpens(w.ledger, w.ready, video, TargetRef(w, i), supply);
    hide CreateCase, Linked, OriginsOk, Unused;
  }

  lemma CreatedIsFound(s: Store, ready: set<nat>, source: nat, ref: PolicyRef, supply: Supply)
    requires source in s.cases && source in s.tables.videos && Unused(s, supply)
    requires CreateCase(s, ready, s.tables.videos[source], ref, supply).Ok?
    ensures
      var created := CreateCase(s, ready, s.tables.videos[source], ref, supply).value;
      Findable(created.store, ready, source, ref, created.caseId)
  {
    var video := s.tables.videos[source];
    var created := CreateCase(s, ready, video, ref, supply).value;
    CreationOpens(s, ready, video, ref, supply);
    FoundIsSubject(s, video, ref);
    if FindCase(s, video, ref).None? {
      OnlyOpened(s, created.store, created.caseId, video, ref);
    }
    hide FindCase, NewRequirements;
  }

  lemma OnlyOpened(s: Store, s': Store, c: nat, video: nat, ref: PolicyRef)
    requires Opened(s, s', c, video, ref) && forall d :: !SameSubject(s, d, video, ref)
    ensures FindCase(s', video, ref) == Some(c)
  {
    forall d
      ensures SameSubject(s', d, video, ref) <==> d == c
    {
      assert !SameSubject(s, d, video, ref);
    }
    assert SameSubject(s', c, video, ref);
    FoundIsSubject(s', video, ref);
  }

  lemma FillFinds(w: ReplayStore, i: nat, to: nat, source: nat, ref: PolicyRef)
    requires i < |w.items| && Fill(w, i, to).Ok? && Findable(w.ledger, w.ready, source, ref, to)
    ensures Fill(w, i, to).value.Started?
    ensures
      var w' := Fill(w, i, to).value.store;
      && Findable(w'.ledger, w'.ready, source, ref, to) && !Taken(w'.items, i, to)
  {
    hide CopyKeys, Scope, Invalidated, FindCase;
    FindCaseStays(w.ledger, Fill(w, i, to).value.store.ledger, w.ledger.tables.videos[source], ref);
  }

  // Executing an item that is not closed again, after any history that leaves the rows of its source
  // alone, writes nothing but its own status: no case, no evidence, no lineage.
  lemma RematerializingAddsNothing(w: ReplayStore, i: nat, supply: Supply, events: seq<Event>, supply': Supply)
    requires ReplayOk(w) && i < |w.items| && w.items[i].job < |w.jobs| && Unused(w.ledger, supply)
    requires Materialize(w, i, supply).Ok? && Materialize(w, i, supply).value.Started?
    requires
      var st := Materialize(w, i, supply).value.store;
      && i < |st.items| && st.items[i].target.Some?
      && AllSpare(st, events, i, st.items[i].target.value)
      && i < |Run(st, events).items| && !Over(Run(st, events).items[i].status)
    ensures
      var now := Run(Materialize(w, i, supply).value.store, events);
      && now.items[i].job < |now.jobs|
      && var r := Materialize(now, i, supply');
      && r.Ok? && r.value.Started?
      && r.value.store == now.(items := now.items[i := now.items[i].(status := r.value.store.items[i].status)])
  {
    MaterializingExecutes(w, i, supply);
    var st := Materialize(w, i, supply).value.store;
    var target := st.items[i].target.value;
    hide Materialize, ReplayOk, AllSpare, Recorded, Findable, Run, Over;
    RunKeepsExecuted(st, events, i, target);
    OwnMaterializing(Run(st, events), i, supply', target);
  }
}
