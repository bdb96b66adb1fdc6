/** Replay of a case under a newer policy version: the target case, the evidence derived for every
    requirement that kept its meaning, and the lineage of both. Functions give the store after one
    transaction; the class performs it in place. */
module Replay {
  import opened Common
  import opened AgentTypes
  import opened AgentStore
  import opened Policy
  import opened EvidenceStore
  import opened Aggregation
  import opened Rules
  import opened Ledger
  import opened Planner

  // ---- rows ------------------------------------------------------------------------------

  datatype ItemStatus = Waiting | Materialized | Investigating | Completed | NeedsReview | Broken

  datatype ReplayItem = ReplayItem(
    job: nat,
    source: nat,
    target: Option<nat>,
    mode: Mode,
    status: ItemStatus,
    plan: CasePlan,
    targetDecision: Option<nat>)

  // The request key of a job hashes its preview and its model profile, empty when none is named.
  datatype ReplayJob = ReplayJob(preview: Preview, profile: string)

  // Lineage rows are identified by their content.
  datatype Lineage =
    | EvidenceReused(item: nat, source: EvidenceKey, target: EvidenceKey)
    | RequirementInvalidated(item: nat, requirement: Option<nat>, reason: InvalidationReason)
    | ResultReused(item: nat, origin: ResultKey, result: ResultKey)

  datatype ReplayStore = ReplayStore(
    ledger: Store,
    jobs: seq<ReplayJob>,
    items: seq<ReplayItem>,
    lineage: set<Lineage>,
    ready: set<nat>)                 // videos whose preprocessing is complete

  datatype ReplayError =
    | PreviewRefused(error: PreviewError)
    | PreviewStale
    | ItemConflict
    | ReplayNotResumable
    | TargetCaseConflict
    | VideoNotReady
    | TargetPolicyMissing
    | FinalizationRefused(cause: GovernanceError)

  // ---- prepare ---------------------------------------------------------------------------

  function FindJob(jobs: seq<ReplayJob>, job: ReplayJob): (r: Option<nat>)
    ensures r.Some? ==> r.value < |jobs| && jobs[r.value] == job
  {
    if jobs == [] then None
    else if jobs[|jobs| - 1] == job then Some(|jobs| - 1) else FindJob(jobs[..|jobs| - 1], job)
  }

  function ItemsFor(job: nat, plans: seq<CasePlan>): (r: seq<ReplayItem>)
    ensures |r| == |plans|
    ensures forall k :: 0 <= k < |plans| ==> r[k].plan == plans[k] && r[k].source == plans[k].source && r[k].job == job
  {
    seq(|plans|, k requires 0 <= k < |plans| =>
      ReplayItem(job, plans[k].source, None, plans[k].mode,
                 if plans[k].blocked.Some? then NeedsReview else Waiting, plans[k], None))
  }

  // The table holds one item for a source case and a target version.
  predicate HasItem(w: ReplayStore, source: nat, target: nat) {
    exists i :: 0 <= i < |w.items| && w.items[i].source == source
                && w.items[i].job < |w.jobs| && w.jobs[w.items[i].job].preview.target == target
  }

  predicate Conflicts(w: ReplayStore, plans: seq<CasePlan>, target: nat) {
    exists k :: 0 <= k < |plans| && HasItem(w, plans[k].source, target)
  }

  datatype Prepared = Prepared(store: ReplayStore, job: nat)

  function PrepareReplay(w: ReplayStore, id: string, source: nat, target: nat, seen: Preview, profile: string,
                         change: ModelChange): Result<Prepared, ReplayError> {
    match PreviewOf(w.ledger, id, source, target, change)
    case Err(error) => Err(PreviewRefused(error))
    case Ok(preview) =>
      if preview != seen then Err(PreviewStale)
      else
        var job := ReplayJob(preview, profile);
        match FindJob(w.jobs, job)
        case Some(existing) => Ok(Prepared(w, existing))
        case None =>
          if Conflicts(w, preview.plans, target) then Err(ItemConflict)
          else Ok(Prepared(w.(jobs := w.jobs + [job], items := w.items + ItemsFor(|w.jobs|, preview.plans)), |w.jobs|))
  }

  // ---- the target case -------------------------------------------------------------------

  // Identifiers not in use yet: one for a case, and those from `requirement` on for its requirements.
  datatype Supply = Supply(caseId: nat, requirement: nat)

  ghost predicate Unused(s: Store, supply: Supply) {
    && supply.caseId !in s.cases && supply.caseId !in s.tables.videos && supply.caseId !in s.investigations
    && (forall id :: id in s.requirements ==> id < supply.requirement)
    && forall i :: 0 <= i < |s.tables.rows| ==> s.tables.rows[i].requirementId < supply.requirement
  }

  predicate SameSubject(s: Store, c: nat, video: nat, ref: PolicyRef) {
    c in s.cases && s.cases[c].policy == ref && c in s.tables.videos && s.tables.videos[c] == video
  }

  function FindCase(s: Store, video: nat, ref: PolicyRef): (r: Option<nat>)
    ensures r.Some? ==> SameSubject(s, r.value, video, ref)
    ensures r.None? ==> forall c :: !SameSubject(s, c, video, ref)
  {
    var found := set c | c in s.cases && SameSubject(s, c, video, ref);
    if found == {} then (assert forall c :: SameSubject(s, c, video, ref) ==> c in found; None) else Some(Least(found))
  }

  function NewRequirements(caseId: nat, templates: seq<Template>, first: nat): (r: map<nat, RequirementRow>)
    ensures forall id :: id in r <==> first <= id < first + |templates|
    ensures forall id :: id in r ==> r[id] == RequirementRow(id, caseId, templates[id - first], None, None)
  {
    if templates == [] then map[]
    else
      var n := |templates| - 1;
      var last := RequirementRow(first + n, caseId, templates[n], None, None);
      NewRequirements(caseId, templates[..n], first)[first + n := last]
  }

  function Numbers(first: nat, n: nat): (r: seq<nat>)
    ensures |r| == n
    ensures forall i :: 0 <= i < n ==> r[i] == first + i
  {
    seq(n, i requires 0 <= i < n => first + i)
  }

  datatype Created = Created(store: Store, caseId: nat)

  function CreateCase(s: Store, ready: set<nat>, video: nat, ref: PolicyRef, supply: Supply)
    : Result<Created, ReplayError>
  {
    if video !in ready then Err(VideoNotReady)
    else if ref !in s.policies || !s.policies[ref].published then Err(TargetPolicyMissing)
    else
      match FindCase(s, video, ref)
      case Some(existing) => Ok(Created(s, existing))
      case None =>
        var templates := s.policies[ref].compiled.requirements;
        var row := CaseRow(ref, CaseReady, Numbers(supply.requirement, |templates|), None);
        Ok(Created(s.(cases := s.cases[supply.caseId := row],
                      requirements := s.requirements + NewRequirements(supply.caseId, templates, supply.requirement),
                      tables := s.tables.(videos := s.tables.videos[supply.caseId := video])),
                   supply.caseId))
  }

  // ---- derived evidence ------------------------------------------------------------------

  // Tool run and model call stay behind: they belong to the source case.
  function DerivedRow(item: nat, target: nat, requirement: nat, e: Evidence): Evidence {
    e.(id := Derived(item, e.id, requirement), caseId := target, requirementId := requirement,
       toolRun := None, modelCall := None, origin := Some(e.id), replayItem := Some(item))
  }

  function CopyRows(rows: seq<Evidence>, item: nat, target: nat, requirement: nat, list: seq<Evidence>): seq<Evidence> {
    if list == [] then rows
    else
      var n := |list| - 1;
      var before := CopyRows(rows, item, target, requirement, list[..n]);
      if Holds(before, Derived(item, list[n].id, requirement)) then before
      else before + [DerivedRow(item, target, requirement, list[n])]
  }

  function Reuses(item: nat, requirement: nat, list: seq<Evidence>): set<Lineage> {
    set e | e in list :: EvidenceReused(item, e.id, Derived(item, e.id, requirement))
  }

  datatype Copied = Copied(rows: seq<Evidence>, lineage: set<Lineage>, origins: map<string, ResultKey>)

  // The requirement of each case under one key, when both have it.
  datatype Pair = Pair(source: RequirementRow, target: RequirementRow)

  function PairOf(requirements: map<nat, RequirementRow>, source: seq<nat>, target: seq<nat>, key: string)
    : Option<Pair>
  {
    match (RequirementOf(requirements, source, key), RequirementOf(requirements, target, key))
    case (Some(q), Some(q')) => Some(Pair(q, q'))
    case _ => None
  }

  // None: a reused requirement has changed its meaning.
  function CopyKeys(requirements: map<nat, RequirementRow>, rows: seq<Evidence>, item: nat, source: seq<nat>,
                    target: nat, targets: seq<nat>, keys: seq<string>): Option<Copied> {
    if keys == [] then Some(Copied(rows, {}, map[]))
    else
      var n := |keys| - 1;
      match CopyKeys(requirements, rows, item, source, target, targets, keys[..n])
      case None => None
      case Some(before) => CopyKey(requirements, before, item, source, target, targets, keys[n])
  }

  function CopyKey(requirements: map<nat, RequirementRow>, before: Copied, item: nat, source: seq<nat>, target: nat,
                   targets: seq<nat>, key: string): Option<Copied> {
    match PairOf(requirements, source, targets, key)
    case None => Some(before)
    case Some(Pair(q, q')) =>
      if q.template != q'.template then None
      else
        var list := ListFor(before.rows, q.id);
        Some(Copied(CopyRows(before.rows, item, target, q'.id, list),
                    before.lineage + Reuses(item, q'.id, list),
                    if q.current.Some? then before.origins[key := q.current.value] else before.origins))
  }

  // ---- materialization -------------------------------------------------------------------

  function Scope(requirements: map<nat, RequirementRow>, targets: seq<nat>, keys: seq<string>): seq<nat> {
    if keys == [] then []
    else
      var n := |keys| - 1;
      var rest := Scope(requirements, targets, keys[..n]);
      var q := RequirementOf(requirements, targets, keys[n]);
      if q.Some? then rest + [q.value.id] else rest
  }

  function Invalidated(requirements: map<nat, RequirementRow>, source: seq<nat>, item: nat,
                       invalidations: seq<Invalidation>): set<Lineage> {
    set v | v in invalidations ::
      var q := RequirementOf(requirements, source, v.key);
      RequirementInvalidated(item, if q.Some? then Some(q.value.id) else None, v.reason)
  }

  predicate Over(status: ItemStatus) {
    status == Completed || status == NeedsReview
  }

  datatype Started =
    | Skipped                                                        // the item is already finished
    | Started(store: ReplayStore, scope: seq<nat>, origins: map<string, ResultKey>)

  function Materialize(w: ReplayStore, i: nat, supply: Supply): Result<Started, ReplayError>
    requires i < |w.items| && w.items[i].job < |w.jobs|
  {
    var item := w.items[i];
    var preview := w.jobs[item.job].preview;
    var s := w.ledger;
    if Over(item.status) then Ok(Skipped)
    else if item.source !in s.cases || item.source !in s.tables.videos then Err(ReplayNotResumable)
    else
      match CreateCase(s, w.ready, s.tables.videos[item.source], PolicyRef(preview.id, preview.target), supply)
      case Err(error) => Err(error)
      case Ok(Created(s', target)) => Fill(w.(ledger := s'), i, target)
  }

  predicate Taken(items: seq<ReplayItem>, i: nat, target: nat)
    requires i < |items|
  {
    || (items[i].target.Some? && items[i].target.value != target)
    || exists j :: 0 <= j < |items| && j != i && items[j].target == Some(target)
  }

  function Fill(w: ReplayStore, i: nat, target: nat): Result<Started, ReplayError>
    requires i < |w.items|
  {
    var item := w.items[i];
    var s := w.ledger;
    if Taken(w.items, i, target) then Err(TargetCaseConflict)
    else if item.source !in s.cases || target !in s.cases then Err(ReplayNotResumable)
    else
      var source, targets := s.cases[item.source].requirements, s.cases[target].requirements;
      match CopyKeys(s.requirements, s.tables.rows, i, source, target, targets, item.plan.reusable)
      case None => Err(TargetCaseConflict)
      case Some(copied) =>
        var scope := Scope(s.requirements, targets, item.plan.investigate);
        var status := if scope != [] then Investigating else Materialized;
        Ok(Started(w.(ledger := s.(tables := s.tables.(rows := copied.rows)),
                      items := w.items[i := item.(target := Some(target), status := status)],
                      lineage := w.lineage + copied.lineage
                                 + Invalidated(s.requirements, source, i, item.plan.invalidations)),
                   scope, copied.origins))
  }

  // ---- finish ----------------------------------------------------------------------------

  function Results(s: Store, i: nat, target: nat, origins: map<string, ResultKey>): set<Lineage> {
    set id | id in s.requirements && s.requirements[id].caseId == target && s.requirements[id].current.Some?
             && s.requirements[id].template.key in origins
      :: ResultReused(i, origins[s.requirements[id].template.key], s.requirements[id].current.value)
  }

  function Close(w: ReplayStore, i: nat, decision: nat, origins: map<string, ResultKey>): ReplayStore
    requires i < |w.items| && decision < |w.ledger.decisions| && w.items[i].target.Some?
  {
    var verdict := w.ledger.decisions[decision].verdict;
    w.(items := w.items[i := w.items[i].(targetDecision := Some(decision),
                                         status := if verdict == NeedsHumanReview then NeedsReview else Completed)],
       lineage := w.lineage + Results(w.ledger, i, w.items[i].target.value, origins))
  }

  // ---- the same transactions, in place ---------------------------------------------------

  class ReplayService {
    const governance: GovernanceService
    var jobs: seq<ReplayJob>
    var items: seq<ReplayItem>
    var lineage: set<Lineage>
    var ready: set<nat>

    constructor (governance: GovernanceService, w: ReplayStore)
      requires governance.View() == w.ledger
      ensures this.governance == governance && View() == w
    {
      this.governance := governance;
      jobs, items, lineage, ready := w.jobs, w.items, w.lineage, w.ready;
    }

    function View(): ReplayStore
      reads this, governance
    {
      ReplayStore(governance.View(), jobs, items, lineage, ready)
    }

    // One session: the job and an item for every case of the preview, or nothing.
    method PrepareJob(id: string, source: nat, target: nat, seen: Preview, profile: string, change: ModelChange)
      returns (r: Result<nat, ReplayError>)
      requires forall ref :: ref in governance.policies ==> UniqueKeys(governance.policies[ref].compiled.requirements)
      modifies this
      ensures match PrepareReplay(old(View()), id, source, target, seen, profile, change)
              case Ok(Prepared(w, job)) => r == Ok(job) && View() == w
              case Err(error) => r == Err(error) && View() == old(View())
    {
      hide PreviewOf, FindJob, HasItem;
      var planner := new ReplayPlanner();
      var preview := planner.PreviewReplay(governance.View(), id, source, target, change);
      if preview.Err? {
        return Err(PreviewRefused(preview.error));
      }
      if preview.value != seen {
        return Err(PreviewStale);
      }
      var existing := FindJob(jobs, ReplayJob(seen, profile));
      if existing.Some? {
        return Ok(existing.value);
      }
      var rows: seq<ReplayItem> := [];
      for k := 0 to |seen.plans|
        invariant View() == old(View())
        invariant rows == ItemsFor(|jobs|, seen.plans[..k])
        invariant !Conflicts(View(), seen.plans[..k], target)
      {
        if HasItem(View(), seen.plans[k].source, target) {
          return Err(ItemConflict);
        }
        var status := if seen.plans[k].blocked.Some? then NeedsReview else Waiting;
        rows := rows + [ReplayItem(|jobs|, seen.plans[k].source, None, seen.plans[k].mode, status, seen.plans[k],
                                   None)];
      }
      assert seen.plans[..|seen.plans|] == seen.plans;
      r := Ok(|jobs|);
      jobs, items := jobs + [ReplayJob(seen, profile)], items + rows;
    }

    method CreateTarget(video: nat, ref: PolicyRef, supply: Supply) returns (r: Result<nat, ReplayError>)
      modifies governance
      ensures match CreateCase(old(governance.View()), ready, video, ref, supply)
              case Ok(Created(s, target)) => r == Ok(target) && governance.View() == s
              case Err(error) => r == Err(error) && governance.View() == old(governance.View())
    {
      if video !in ready {
        return Err(VideoNotReady);
      }
      if ref !in governance.policies || !governance.policies[ref].published {
        return Err(TargetPolicyMissing);
      }
      var existing := FindCase(governance.View(), video, ref);
      if existing.Some? {
        return Ok(existing.value);
      }
      var templates := governance.policies[ref].compiled.requirements;
      governance.cases := governance.cases[supply.caseId := CaseRow(ref, CaseReady,
                                                                   Numbers(supply.requirement, |templates|), None)];
      governance.requirements :=
        governance.requirements + NewRequirements(supply.caseId, templates, supply.requirement);
      governance.tables := governance.tables.(videos := governance.tables.videos[supply.caseId := video]);
      r := Ok(supply.caseId);
    }

    // The evidence of one requirement, row by row; a row that is there already is left alone.
    method CopyRequirement(before: Copied, i: nat, target: nat, requirement: nat, list: seq<Evidence>)
      returns (rows: seq<Evidence>, links: set<Lineage>)
      ensures rows == CopyRows(before.rows, i, target, requirement, list)
      ensures links == before.lineage + Reuses(i, requirement, list)
    {
      rows, links := before.rows, before.lineage;
      for k := 0 to |list|
        invariant rows == CopyRows(before.rows, i, target, requirement, list[..k])
        invariant links == before.lineage + Reuses(i, requirement, list[..k])
      {
        assert list[..k + 1][..k] == list[..k] && list[..k + 1] == list[..k] + [list[k]];
        var id := Derived(i, list[k].id, requirement);
        if !Holds(rows, id) {
          rows := rows + [DerivedRow(i, target, requirement, list[k])];
        }
        links := links + {EvidenceReused(i, list[k].id, id)};
      }
      assert list[..|list|] == list;
    }

    // Writes of the open session; the caller drops them when the transaction is refused.
    method CopyEvidence(i: nat, source: seq<nat>, target: nat, targets: seq<nat>, keys: seq<string>)
      returns (copied: Option<Copied>)
      ensures copied == CopyKeys(governance.requirements, governance.tables.rows, i, source, target, targets, keys)
    {
      var requirements := governance.requirements;
      ghost var rows := governance.tables.rows;
      var now := Copied(governance.tables.rows, {}, map[]);
      for k := 0 to |keys|
        invariant CopyKeys(requirements, rows, i, source, target, targets, keys[..k]) == Some(now)
        invariant CopyKeys(requirements, rows, i, source, target, targets, keys[..k]).None? ==>
          CopyKeys(requirements, rows, i, source, target, targets, keys).None?
      {
        assert keys[..k + 1][..k] == keys[..k];
        var pair := PairOf(requirements, source, targets, keys[k]);
        if pair.Some? {
          var Pair(q, q') := pair.value;
          if q.template != q'.template {
            NoneStays(requirements, rows, i, source, target, targets, keys, k + 1);
            return None;
          }
          var list := ListFor(now.rows, q.id);
          var copies, links := CopyRequirement(now, i, target, q'.id, list);
          now := Copied(copies, links,
                        if q.current.Some? then now.origins[keys[k] := q.current.value] else now.origins);
        }
      }
      assert keys[..|keys|] == keys;
      copied := Some(now);
    }

    // One session: the target case, the derived evidence, the lineage and the status of the item.
    method MaterializeItem(i: nat, supply: Supply) returns (r: Result<Started, ReplayError>)
      requires i < |items| && items[i].job < |jobs|
      modifies this, governance
      ensures r == Materialize(old(View()), i, supply)
      ensures View() == if r.Ok? && r.value.Started? then r.value.store else old(View())
    {
      hide CopyKeys, Invalidated, Scope, Fill;
      var item := items[i];
      if Over(item.status) {
        return Ok(Skipped);
      }
      if item.source !in governance.cases || item.source !in governance.tables.videos {
        return Err(ReplayNotResumable);
      }
      var cases, requirements, tables := governance.cases, governance.requirements, governance.tables;
      var preview := jobs[item.job].preview;
      var created := CreateTarget(governance.tables.videos[item.source], PolicyRef(preview.id, preview.target), supply);
      if created.Err? {
        return Err(created.error);
      }
      r := FillItem(i, created.value);
      if r.Err? {
        governance.cases, governance.requirements, governance.tables := cases, requirements, tables;
      }
    }

    method FillItem(i: nat, target: nat) returns (r: Result<Started, ReplayError>)
      requires i < |items|
      modifies this, governance
      ensures r == Fill(old(View()), i, target)
      ensures View() == if r.Ok? && r.value.Started? then r.value.store else old(View())
      ensures r.Ok? ==> r.value.Started?
    {
      hide CopyKeys, Invalidated, Scope;
      var item := items[i];
      if Taken(items, i, target) {
        return Err(TargetCaseConflict);
      }
      if item.source !in governance.cases || target !in governance.cases {
        return Err(ReplayNotResumable);
      }
      var source, targets := governance.cases[item.source].requirements, governance.cases[target].requirements;
      var copied := CopyEvidence(i, source, target, targets, item.plan.reusable);
      if copied.None? {
        return Err(TargetCaseConflict);
      }
      var scope := Scope(governance.requirements, targets, item.plan.investigate);
      governance.tables := governance.tables.(rows := copied.value.rows);
      lineage := lineage + copied.value.lineage
                 + Invalidated(governance.requirements, source, i, item.plan.invalidations);
      items := items[i := item.(target := Some(target), status := if scope != [] then Investigating else Materialized)];
      r := Ok(Started(View(), scope, copied.value.origins));
    }

    // Once the scope has been investigated: decide the target case and close the item.
    method FinishItem(i: nat, scope: seq<nat>, origins: map<string, ResultKey>) returns (r: Result<nat, ReplayError>)
      requires i < |items| && items[i].target.Some? && Linked(governance.View())
      modifies this, governance
      ensures match Finalize(old(governance.View()), old(items[i].target.value), scope == [], origins, Some(i))
              case RolledBack(error) => r == Err(FinalizationRefused(error)) && View() == old(View())
              case Committed(s, decision) =>
                && r == Ok(decision) && decision < |s.decisions|
                && View() == Close(old(View()).(ledger := s), i, decision, origins)
    {
      hide Linked;
      var target := items[i].target.value;
      FinalDecisionExists(governance.View(), target, scope == [], origins, Some(i));
      hide Finalize;
      var decided := governance.FinalizeCase(target, scope == [], origins, Some(i));
      if decided.Err? {
        return Err(FinalizationRefused(decided.error));
      }
      var decision := decided.value;
      var verdict := governance.decisions[decision].verdict;
      items := items[i := items[i].(targetDecision := Some(decision),
                                    status := if verdict == NeedsHumanReview then NeedsReview else Completed)];
      lineage := lineage + Results(governance.View(), i, target, origins);
      r := Ok(decision);
    }
  }

  lemma FinalDecisionExists(s: Store, caseId: nat, allow: bool, origins: map<string, ResultKey>, item: Option<nat>)
    requires Linked(s)
    ensures
      var t := Finalize(s, caseId, allow, origins, item);
      t.Committed? ==> t.id < |t.store.decisions|
  {
    hide AggregateAll, Evaluate, LastDecision;
  }

  // Once a key is refused, so is the whole list.
  lemma {:induction false} NoneStays(requirements: map<nat, RequirementRow>, rows: seq<Evidence>, i: nat,
                                     source: seq<nat>, target: nat, targets: seq<nat>, keys: seq<string>, k: nat)
    requires k <= |keys| && CopyKeys(requirements, rows, i, source, target, targets, keys[..k]).None?
    ensures CopyKeys(requirements, rows, i, source, target, targets, keys).None?
    decreases |keys| - k
  {
    if k == |keys| {
      assert keys[..k] == keys;
    } else {
      assert keys[..k + 1][..k] == keys[..k];
      NoneStays(requirements, rows, i, source, target, targets, keys, k + 1);
    }
  }
}
