/** The replay planner: how two versions of a policy differ, and what each case of the old version can
    keep under the new one. A sorted list of keys is a list without repetition; its order is left open. */
module Planner {
  import opened Common
  import opened Policy
  import opened Aggregation
  import opened Ledger

  // ---- lists of keys ---------------------------------------------------------------------

  function Where(keys: seq<string>, keep: string -> bool): (r: seq<string>)
    ensures forall k :: k in r <==> k in keys && keep(k)
    ensures Unique(keys) ==> Unique(r)
  {
    if keys == [] then []
    else
      var n := |keys| - 1;
      var rest := Where(keys[..n], keep);
      if keep(keys[n]) then rest + [keys[n]] else rest
  }

  // Drops the first occurrence.
  function Without(keys: seq<string>, key: string): (r: seq<string>) {
    if keys == [] then [] else if keys[0] == key then keys[1..] else [keys[0]] + Without(keys[1..], key)
  }

  lemma {:induction false} WithoutMiddle(before: seq<string>, key: string, after: seq<string>)
    requires key !in before
    ensures Without(before + [key] + after, key) == before + after
  {
    if before == [] {
      assert before + [key] + after == [key] + after;
      assert before + after == after;
    } else {
      WithoutMiddle(before[1..], key, after);
      assert (before + [key] + after)[1..] == before[1..] + [key] + after;
      assert before + after == [before[0]] + (before[1..] + after);
    }
  }

  function Lookup(templates: seq<Template>, key: string): (r: Option<Template>)
    ensures r.Some? ==> r.value in templates && r.value.key == key
    ensures r.None? <==> key !in TemplateKeys(templates)
  {
    if templates == [] then None
    else
      var n := |templates| - 1;
      assert TemplateKeys(templates) == TemplateKeys(templates[..n]) + [templates[n].key];
      if templates[n].key == key then Some(templates[n]) else Lookup(templates[..n], key)
  }

  lemma KeysAreUnique(templates: seq<Template>)
    requires UniqueKeys(templates)
    ensures Unique(TemplateKeys(templates))
  {
  }

  // ---- the difference between two versions -----------------------------------------------

  datatype Mode = Reevaluate | Reinvestigate

  datatype Diff = Diff(
    mode: Mode,
    kept: seq<string>,
    added: seq<string>,
    removed: seq<string>,
    modified: seq<string>,
    aggregationChanged: bool,
    evaluatorChanged: bool)

  // Equal semantic hashes are equal templates.
  function DiffOf(before: CompiledPolicy, after: CompiledPolicy): Diff {
    var olds, news := TemplateKeys(before.requirements), TemplateKeys(after.requirements);
    var kept := Where(olds, k => k in news && Lookup(after.requirements, k) == Lookup(before.requirements, k));
    var modified := Where(olds, k => k in news && Lookup(after.requirements, k) != Lookup(before.requirements, k));
    var added := Where(news, k => k !in olds);
    var removed := Where(olds, k => k !in news);
    Diff(if added != [] || removed != [] || modified != [] then Reinvestigate else Reevaluate,
         kept, added, removed, modified,
         before.aggregation != after.aggregation,
         before.rejectWhen != after.rejectWhen || before.escalateWhen != after.escalateWhen
         || before.severity != after.severity || before.enabled != after.enabled)
  }

  // A replay re-evaluates without investigating exactly when the two versions hold the same templates.
  lemma ReevaluatesExactly(before: CompiledPolicy, after: CompiledPolicy)
    requires UniqueKeys(before.requirements) && UniqueKeys(after.requirements)
    ensures DiffOf(before, after).mode == Reevaluate
            <==> forall t :: t in before.requirements <==> t in after.requirements
  {
    var d := DiffOf(before, after);
    var olds, news := TemplateKeys(before.requirements), TemplateKeys(after.requirements);
    forall t: Template
      ensures t in before.requirements <==> Lookup(before.requirements, t.key) == Some(t)
      ensures t in after.requirements <==> Lookup(after.requirements, t.key) == Some(t)
    {
      LookupFinds(before.requirements, t);
      LookupFinds(after.requirements, t);
    }
    if d.mode == Reevaluate {
      forall t: Template
        ensures t in before.requirements <==> t in after.requirements
      {
        assert t.key !in d.added && t.key !in d.removed && t.key !in d.modified;
      }
    }
    if forall t: Template :: t in before.requirements <==> t in after.requirements {
      forall k
        ensures k !in d.added && k !in d.removed && k !in d.modified
      {
        var t, t' := Lookup(before.requirements, k), Lookup(after.requirements, k);
        assert t.Some? ==> t.value in after.requirements;
        assert t'.Some? ==> t'.value in before.requirements;
      }
      Empty(d.added);
      Empty(d.removed);
      Empty(d.modified);
    }
  }

  lemma Empty(keys: seq<string>)
    ensures keys == [] || exists k :: k in keys
  {
    if keys != [] {
      assert keys[0] in keys;
    }
  }

  lemma {:induction false} LookupFinds(templates: seq<Template>, t: Template)
    requires UniqueKeys(templates)
    ensures t in templates <==> Lookup(templates, t.key) == Some(t)
  {
    if templates != [] {
      var n := |templates| - 1;
      LookupFinds(templates[..n], t);
      assert templates == templates[..n] + [templates[n]];
      assert forall i :: 0 <= i < n ==> templates[i].key != templates[n].key;
      assert t in templates[..n] ==> t.key != templates[n].key;
    }
  }

  // ---- the plan of a case ----------------------------------------------------------------

  datatype ModelChange = Keep | InvalidateVisual
  datatype InvalidationReason = RequirementRemoved | SemanticsChanged | ModelProfileChanged
  datatype Invalidation = Invalidation(key: string, reason: InvalidationReason)
  datatype BlockReason = SourceDecisionMissing | OpenAppeal

  datatype CasePlan = CasePlan(
    source: nat,
    decision: Option<nat>,
    mode: Mode,
    reusable: seq<string>,
    investigate: seq<string>,
    invalidations: seq<Invalidation>,
    blocked: Option<BlockReason>)

  function RequirementOf(requirements: map<nat, RequirementRow>, ids: seq<nat>, key: string)
    : (r: Option<RequirementRow>)
    ensures r.Some? ==>
      && r.value.template.key == key
      && exists id :: id in ids && id in requirements && requirements[id] == r.value
  {
    if ids == [] then None
    else
      var n := |ids| - 1;
      if ids[n] in requirements && requirements[ids[n]].template.key == key then Some(requirements[ids[n]])
      else RequirementOf(requirements, ids[..n], key)
  }

  predicate Visual(s: Store, caseId: nat, key: string)
    requires caseId in s.cases
  {
    var q := RequirementOf(s.requirements, s.cases[caseId].requirements, key);
    q.Some? && "vision" in q.value.template.modalities
  }

  function Invalidations(keys: seq<string>, reason: InvalidationReason): (r: seq<Invalidation>)
    ensures |r| == |keys|
    ensures forall i :: 0 <= i < |keys| ==> r[i] == Invalidation(keys[i], reason)
  {
    seq(|keys|, i requires 0 <= i < |keys| => Invalidation(keys[i], reason))
  }

  // The keys whose visual modality is as asked.
  function Looking(s: Store, caseId: nat, keys: seq<string>, visual: bool): (r: seq<string>)
    requires caseId in s.cases
    ensures forall k :: k in r <==> k in keys && Visual(s, caseId, k) == visual
    ensures Unique(keys) ==> Unique(r)
  {
    if keys == [] then []
    else
      var n := |keys| - 1;
      var rest := Looking(s, caseId, keys[..n], visual);
      if Visual(s, caseId, keys[n]) == visual then rest + [keys[n]] else rest
  }

  function Dropped(s: Store, d: Diff, change: ModelChange, caseId: nat): seq<string>
    requires caseId in s.cases
  {
    if change == Keep then [] else Looking(s, caseId, d.kept, true)
  }

  function BlockedBy(s: Store, caseId: nat): Option<BlockReason>
    requires caseId in s.cases
  {
    if s.cases[caseId].current.None? then Some(SourceDecisionMissing)
    else if exists a :: 0 <= a < |s.appeals| && s.appeals[a].caseId == caseId && s.appeals[a].status == Submitted
    then Some(OpenAppeal)
    else None
  }

  function PlanOf(s: Store, d: Diff, change: ModelChange, caseId: nat): CasePlan
    requires caseId in s.cases
  {
    var dropped := Dropped(s, d, change, caseId);
    var investigate := d.added + d.modified + dropped;
    CasePlan(caseId, s.cases[caseId].current,
             if investigate != [] then Reinvestigate else d.mode,
             if change == Keep then d.kept else Looking(s, caseId, d.kept, false),
             investigate,
             Invalidations(d.removed, RequirementRemoved) + Invalidations(d.modified, SemanticsChanged)
             + Invalidations(dropped, ModelProfileChanged),
             BlockedBy(s, caseId))
  }

  // Every requirement of the new version is either reused or investigated, never both, and the case is
  // merely re-evaluated exactly when nothing was added, removed, modified or invalidated.
  lemma PlanPartitionsTheTarget(s: Store, before: CompiledPolicy, after: CompiledPolicy, change: ModelChange,
                                caseId: nat)
    requires caseId in s.cases && UniqueKeys(before.requirements) && UniqueKeys(after.requirements)
    ensures
      var d := DiffOf(before, after);
      var plan := PlanOf(s, d, change, caseId);
      && (forall k :: k in TemplateKeys(after.requirements) <==> k in plan.reusable || k in plan.investigate)
      && (forall k :: !(k in plan.reusable && k in plan.investigate))
      && Unique(plan.reusable) && Unique(plan.investigate)
      && (forall k :: k in plan.reusable ==> Lookup(before.requirements, k) == Lookup(after.requirements, k))
      && (plan.mode == Reevaluate <==> d.added == [] && plan.invalidations == [])
  {
    KeysAreUnique(before.requirements);
    KeysAreUnique(after.requirements);
    var d := DiffOf(before, after);
    var plan := PlanOf(s, d, change, caseId);
    var olds, news := TemplateKeys(before.requirements), TemplateKeys(after.requirements);
    var dropped := Dropped(s, d, change, caseId);
    forall k
      ensures k in news <==> k in plan.reusable || k in plan.investigate
      ensures !(k in plan.reusable && k in plan.investigate)
    {
      assert k in plan.investigate <==> k in d.added || k in d.modified || k in dropped;
      assert k in d.kept ==> k in olds && k in news;
    }
    UniqueTogether(d.added, d.modified);
    UniqueTogether(d.added + d.modified, dropped);
    assert plan.invalidations == [] <==> d.removed == [] && d.modified == [] && dropped == [] by {
      assert |plan.invalidations| == |d.removed| + |d.modified| + |dropped|;
    }
    assert plan.investigate == [] <==> d.added == [] && d.modified == [] && dropped == [] by {
      assert |plan.investigate| == |d.added| + |d.modified| + |dropped|;
    }
  }

  lemma UniqueTogether(a: seq<string>, b: seq<string>)
    requires Unique(a) && Unique(b) && forall k :: !(k in a && k in b)
    ensures Unique(a + b)
  {
    forall i, j | 0 <= i < j < |a + b|
      ensures (a + b)[i] != (a + b)[j]
    {
      if i < |a| <= j {
        assert a[i] in a && b[j - |a|] in b;
      }
    }
  }

  // ---- the preview -----------------------------------------------------------------------

  datatype PreviewError = VersionOrderInvalid | ReplayPolicyNotFound | ReplayPolicyNotPublished

  // The digest of a preview is the preview itself.
  datatype Preview = Preview(
    id: string, source: nat, target: nat, mode: Mode, plans: seq<CasePlan>, change: ModelChange, investigations: nat)

  function CasesOf(s: Store, ref: PolicyRef): (r: seq<nat>)
    ensures forall i :: 0 <= i < |r| ==> r[i] in s.cases
    ensures forall c :: c in r <==> c in s.cases && s.cases[c].policy == ref
  {
    var r := Sorted(set c | c in s.cases && s.cases[c].policy == ref);
    assert forall i :: 0 <= i < |r| ==> r[i] in r;
    r
  }

  function Plans(s: Store, d: Diff, change: ModelChange, cases: seq<nat>): (r: seq<CasePlan>)
    requires forall i :: 0 <= i < |cases| ==> cases[i] in s.cases
    ensures |r| == |cases|
    ensures forall i :: 0 <= i < |cases| ==> r[i] == PlanOf(s, d, change, cases[i])
  {
    seq(|cases|, i requires 0 <= i < |cases| => PlanOf(s, d, change, cases[i]))
  }

  // Investigations the unblocked cases ask for.
  function Investigations(plans: seq<CasePlan>): nat {
    if plans == [] then 0
    else
      var last := plans[|plans| - 1];
      Investigations(plans[..|plans| - 1]) + if last.blocked.None? then |last.investigate| else 0
  }

  function PreviewOf(s: Store, id: string, source: nat, target: nat, change: ModelChange)
    : Result<Preview, PreviewError>
  {
    var before, after := PolicyRef(id, source), PolicyRef(id, target);
    if source >= target then Err(VersionOrderInvalid)
    else if before !in s.policies || after !in s.policies then Err(ReplayPolicyNotFound)
    else if !s.policies[before].published || !s.policies[after].published then Err(ReplayPolicyNotPublished)
    else
      var d := DiffOf(s.policies[before].compiled, s.policies[after].compiled);
      var plans := Plans(s, d, change, CasesOf(s, before));
      Ok(Preview(id, source, target, d.mode, plans, change, Investigations(plans)))
  }

  lemma NextLooking(s: Store, caseId: nat, keys: seq<string>, i: nat)
    requires caseId in s.cases && i < |keys| && Unique(keys)
    ensures
      var visual := Visual(s, caseId, keys[i]);
      && Looking(s, caseId, keys[..i + 1], true)
         == Looking(s, caseId, keys[..i], true) + (if visual then [keys[i]] else [])
      && Looking(s, caseId, keys[..i + 1], false)
         == Looking(s, caseId, keys[..i], false) + (if visual then [] else [keys[i]])
      && keys[i..] == [keys[i]] + keys[i + 1..]
      && keys[i] !in Looking(s, caseId, keys[..i], false)
  {
    hide Visual, Unique;
    assert keys[..i + 1][..i] == keys[..i];
    NotBefore(keys, i);
  }

  lemma NotBefore(keys: seq<string>, i: nat)
    requires i < |keys| && Unique(keys)
    ensures keys[i] !in keys[..i]
  {
  }

  lemma NextPlan(s: Store, d: Diff, change: ModelChange, cases: seq<nat>, i: nat)
    requires i < |cases| && forall i :: 0 <= i < |cases| ==> cases[i] in s.cases
    ensures Plans(s, d, change, cases[..i + 1]) == Plans(s, d, change, cases[..i]) + [PlanOf(s, d, change, cases[i])]
  {
    hide PlanOf;
  }

  lemma MorePlans(plans: seq<CasePlan>, plan: CasePlan)
    ensures Investigations(plans + [plan])
            == Investigations(plans) + if plan.blocked.None? then |plan.investigate| else 0
  {
    assert (plans + [plan])[..|plans|] == plans;
  }

  class ReplayPlanner {
    constructor () {
    }

    // A read-only pass over the cases of the source version.
    method PreviewReplay(s: Store, id: string, source: nat, target: nat, change: ModelChange)
      returns (r: Result<Preview, PreviewError>)
      requires forall ref :: ref in s.policies ==> UniqueKeys(s.policies[ref].compiled.requirements)
      ensures r == PreviewOf(s, id, source, target, change)
    {
      if source >= target {
        return Err(VersionOrderInvalid);
      }
      var before, after := PolicyRef(id, source), PolicyRef(id, target);
      if before !in s.policies || after !in s.policies {
        return Err(ReplayPolicyNotFound);
      }
      if !s.policies[before].published || !s.policies[after].published {
        return Err(ReplayPolicyNotPublished);
      }
      var d := DiffOf(s.policies[before].compiled, s.policies[after].compiled);
      KeysAreUnique(s.policies[before].compiled.requirements);
      var cases := CasesOf(s, before);
      assert forall j :: 0 <= j < |cases| ==> cases[j] in s.cases;
      var plans, investigations := PlanAll(s, d, change, cases);
      r := Ok(Preview(id, source, target, d.mode, plans, change, investigations));
    }

    method PlanAll(s: Store, d: Diff, change: ModelChange, cases: seq<nat>)
      returns (plans: seq<CasePlan>, investigations: nat)
      requires Unique(d.kept) && forall i :: 0 <= i < |cases| ==> cases[i] in s.cases
      ensures plans == Plans(s, d, change, cases) && investigations == Investigations(plans)
    {
      plans, investigations := [], 0;
      hide PlanOf, Unique;
      assert Plans(s, d, change, cases[..0]) == [];
      for i := 0 to |cases|
        invariant plans == Plans(s, d, change, cases[..i])
        invariant investigations == Investigations(plans)
      {
        var plan := PlanCase(s, d, change, cases[i]);
        NextPlan(s, d, change, cases, i);
        MorePlans(plans, plan);
        hide Investigations, Plans;
        investigations := investigations + if plan.blocked.None? then |plan.investigate| else 0;
        plans := plans + [plan];
      }
      assert cases[..|cases|] == cases;
    }

    method PlanCase(s: Store, d: Diff, change: ModelChange, caseId: nat) returns (plan: CasePlan)
      requires caseId in s.cases && Unique(d.kept)
      ensures plan == PlanOf(s, d, change, caseId)
    {
      var blocked := BlockedBy(s, caseId);
      var reusable := d.kept;
      var investigate := d.added + d.modified;
      var invalidations := Invalidations(d.removed, RequirementRemoved) + Invalidations(d.modified, SemanticsChanged);
      if change == InvalidateVisual {
        reusable, investigate, invalidations := DropVisual(s, caseId, reusable, investigate, invalidations);
      }
      plan := CasePlan(caseId, s.cases[caseId].current, if investigate != [] then Reinvestigate else d.mode,
                       reusable, investigate, invalidations, blocked);
    }

    method Consider(s: Store, caseId: nat, key: string, ghost stay: seq<string>, ghost rest: seq<string>,
                    reusable: seq<string>, investigate: seq<string>, invalidations: seq<Invalidation>)
      returns (reusable': seq<string>, investigate': seq<string>, invalidations': seq<Invalidation>)
      requires caseId in s.cases && reusable == stay + [key] + rest && key !in stay
      ensures reusable' == if Visual(s, caseId, key) then stay + rest else reusable
      ensures investigate' == if Visual(s, caseId, key) then investigate + [key] else investigate
      ensures invalidations' == if Visual(s, caseId, key)
                                then invalidations + [Invalidation(key, ModelProfileChanged)] else invalidations
    {
      reusable', investigate', invalidations' := reusable, investigate, invalidations;
      var requirement := RequirementOf(s.requirements, s.cases[caseId].requirements, key);
      if requirement.Some? && "vision" in requirement.value.template.modalities {
        WithoutMiddle(stay, key, rest);
        reusable' := Without(reusable, key);
        investigate' := investigate + [key];
        invalidations' := invalidations + [Invalidation(key, ModelProfileChanged)];
      }
    }

    // Walks over a copy of the reusable keys while it removes the visual ones.
    method DropVisual(s: Store, caseId: nat, kept: seq<string>, before: seq<string>, noted: seq<Invalidation>)
      returns (reusable: seq<string>, investigate: seq<string>, invalidations: seq<Invalidation>)
      requires caseId in s.cases && Unique(kept)
      ensures reusable == Looking(s, caseId, kept, false)
      ensures investigate == before + Looking(s, caseId, kept, true)
      ensures invalidations == noted + Invalidations(Looking(s, caseId, kept, true), ModelProfileChanged)
    {
      reusable, investigate, invalidations := kept, before, noted;
      ghost var stay: seq<string>, drop: seq<string> := [], [];
      hide Looking, Unique, Visual, Invalidations;
      assert Invalidations([], ModelProfileChanged) == [] by { NoInvalidations(); }
      NothingLooking(s, caseId, kept);
      for i := 0 to |kept|
        invariant stay == Looking(s, caseId, kept[..i], false) && drop == Looking(s, caseId, kept[..i], true)
        invariant reusable == stay + kept[i..]
        invariant investigate == before + drop
        invariant invalidations == noted + Invalidations(drop, ModelProfileChanged)
      {
        var key := kept[i];
        NextLooking(s, caseId, kept, i);
        ghost var visual := Visual(s, caseId, key);
        reusable, investigate, invalidations :=
          Consider(s, caseId, key, stay, kept[i + 1..], reusable, investigate, invalidations);
        if visual {
          MoreInvalidations(drop, key);
        }
        stay, drop := if visual then stay else stay + [key], if visual then drop + [key] else drop;
      }
      assert kept[..|kept|] == kept && kept[|kept|..] == [];
    }
  }

  lemma NothingLooking(s: Store, caseId: nat, keys: seq<string>)
    requires caseId in s.cases
    ensures Looking(s, caseId, keys[..0], true) == [] && Looking(s, caseId, keys[..0], false) == []
  {
  }

  lemma NoInvalidations()
    ensures Invalidations([], ModelProfileChanged) == []
  {
  }

  lemma MoreInvalidations(keys: seq<string>, key: string)
    ensures Invalidations(keys + [key], ModelProfileChanged)
            == Invalidations(keys, ModelProfileChanged) + [Invalidation(key, ModelProfileChanged)]
  {
  }
}
