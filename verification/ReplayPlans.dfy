/** What a preview says of every case, in terms of the two versions and of the stored rows: which cases are
    blocked and why, what is kept and what is investigated, and which items a prepared job starts with. */
module ReplayPlans {
  import opened Common
  import opened Policy
  import opened Aggregation
  import opened Ledger
  import opened Planner
  import opened Replay
  import opened ReplayHistory

  // ---- two versions ----------------------------------------------------------------------

  ghost predicate Asks(p: CompiledPolicy, key: string) {
    exists t :: t in p.requirements && t.key == key
  }

  // Both versions ask for the key, in the same words.
  ghost predicate Agree(before: CompiledPolicy, after: CompiledPolicy, key: string) {
    exists t :: t in before.requirements && t in after.requirements && t.key == key
  }

  lemma AsksLookup(p: CompiledPolicy, key: string)
    ensures Asks(p, key) <==> key in TemplateKeys(p.requirements)
    ensures Asks(p, key) <==> Lookup(p.requirements, key).Some?
  {
    var keys := TemplateKeys(p.requirements);
    if t :| t in p.requirements && t.key == key {
      var i :| 0 <= i < |p.requirements| && p.requirements[i] == t;
      assert keys[i] == key;
    }
    if key in keys {
      var i :| 0 <= i < |keys| && keys[i] == key;
      assert p.requirements[i] in p.requirements;
    }
  }

  lemma AgreeLookup(before: CompiledPolicy, after: CompiledPolicy, key: string)
    requires UniqueKeys(before.requirements) && UniqueKeys(after.requirements)
    ensures Agree(before, after, key)
            <==> Asks(before, key) && Lookup(before.requirements, key) == Lookup(after.requirements, key)
  {
    AsksLookup(before, key);
    if t :| t in before.requirements && t in after.requirements && t.key == key {
      LookupFinds(before.requirements, t);
      LookupFinds(after.requirements, t);
    }
    hide UniqueKeys, TemplateKeys;
  }

  lemma DiffAsAsked(before: CompiledPolicy, after: CompiledPolicy)
    requires UniqueKeys(before.requirements) && UniqueKeys(after.requirements)
    ensures
      var d := DiffOf(before, after);
      && (forall key :: key in d.kept <==> Agree(before, after, key))
      && (forall key :: key in d.added <==> Asks(after, key) && !Asks(before, key))
      && (forall key :: key in d.removed <==> Asks(before, key) && !Asks(after, key))
      && (forall key :: key in d.modified <==> Asks(before, key) && Asks(after, key) && !Agree(before, after, key))
      && (!d.aggregationChanged <==> before.aggregation == after.aggregation)
      && (!d.evaluatorChanged <==>
            && before.rejectWhen == after.rejectWhen && before.escalateWhen == after.escalateWhen
            && before.severity == after.severity && before.enabled == after.enabled)
  {
    forall key
      ensures Asks(before, key) <==> key in TemplateKeys(before.requirements)
      ensures Asks(after, key) <==> key in TemplateKeys(after.requirements)
      ensures Agree(before, after, key)
        <==> Asks(before, key) && Lookup(before.requirements, key) == Lookup(after.requirements, key)
    {
      AsksLookup(before, key);
      AsksLookup(after, key);
      AgreeLookup(before, after, key);
    }
    forall key
      ensures Lookup(before.requirements, key) == Lookup(after.requirements, key) && Asks(before, key)
        ==> Asks(after, key)
    {
      AsksLookup(before, key);
      AsksLookup(after, key);
    }
    hide UniqueKeys, TemplateKeys, Asks, Agree, Lookup;
  }

  // ---- the plan of a case ----------------------------------------------------------------

  // A case holds a key once.
  ghost predicate OneOfEachKey(s: Store, caseId: nat)
    requires caseId in s.cases
  {
    var ids := s.cases[caseId].requirements;
    forall i, j :: 0 <= i < j < |ids| && ids[i] in s.requirements && ids[j] in s.requirements ==>
      s.requirements[ids[i]].template.key != s.requirements[ids[j]].template.key
  }

  // The case looks for the key in pictures.
  ghost predicate Pictured(s: Store, caseId: nat, key: string)
    requires caseId in s.cases
  {
    exists id :: id in s.cases[caseId].requirements && id in s.requirements
                 && s.requirements[id].template.key == key && "vision" in s.requirements[id].template.modalities
  }

  lemma {:induction false} LookupOnce(requirements: map<nat, RequirementRow>, ids: seq<nat>, k: nat)
    requires k < |ids| && ids[k] in requirements
    requires forall i, j :: 0 <= i < j < |ids| && ids[i] in requirements && ids[j] in requirements ==>
      requirements[ids[i]].template.key != requirements[ids[j]].template.key
    ensures RequirementOf(requirements, ids, requirements[ids[k]].template.key) == Some(requirements[ids[k]])
  {
    var n := |ids| - 1;
    if k < n {
      LookupOnce(requirements, ids[..n], k);
    }
  }

  lemma VisualIsPictured(s: Store, caseId: nat, key: string)
    requires caseId in s.cases && OneOfEachKey(s, caseId)
    ensures Visual(s, caseId, key) <==> Pictured(s, caseId, key)
  {
    var ids := s.cases[caseId].requirements;
    if id :| id in ids && id in s.requirements && s.requirements[id].template.key == key
             && "vision" in s.requirements[id].template.modalities {
      var k :| 0 <= k < |ids| && ids[k] == id;
      LookupOnce(s.requirements, ids, k);
    }
  }

  ghost predicate OpenAppealOf(s: Store, caseId: nat) {
    exists row :: row in s.appeals && row.caseId == caseId && row.status == Submitted
  }

  // What the plan of a case says, version by version and row by row.
  ghost predicate PlansFor(s: Store, before: CompiledPolicy, after: CompiledPolicy, change: ModelChange, caseId: nat,
                           plan: CasePlan)
    requires caseId in s.cases
  {
    var dropped := (key: string) => change == InvalidateVisual && Pictured(s, caseId, key);
    && plan.source == caseId && plan.decision == s.cases[caseId].current
    && (plan.blocked == None <==> s.cases[caseId].current != None && !OpenAppealOf(s, caseId))
    && (plan.blocked == Some(SourceDecisionMissing) <==> s.cases[caseId].current == None)
    && (forall key :: key in plan.reusable <==> Agree(before, after, key) && !dropped(key))
    && (forall key :: key in plan.investigate
                      <==> Asks(after, key) && !(Agree(before, after, key) && !dropped(key)))
    && (forall v :: v in plan.invalidations <==>
          match v.reason
          case RequirementRemoved => Asks(before, v.key) && !Asks(after, v.key)
          case SemanticsChanged => Asks(before, v.key) && Asks(after, v.key) && !Agree(before, after, v.key)
          case ModelProfileChanged => Agree(before, after, v.key) && dropped(v.key))
    && (plan.mode == Reinvestigate <==>
          plan.investigate != [] || exists key :: Asks(before, key) && !Asks(after, key))
    && Unique(plan.reusable) && Unique(plan.investigate)
  }

  lemma BlockedAsStored(s: Store, caseId: nat)
    requires caseId in s.cases
    ensures BlockedBy(s, caseId) == None <==> s.cases[caseId].current != None && !OpenAppealOf(s, caseId)
    ensures BlockedBy(s, caseId) == Some(SourceDecisionMissing) <==> s.cases[caseId].current == None
  {
    if a :| 0 <= a < |s.appeals| && s.appeals[a].caseId == caseId && s.appeals[a].status == Submitted {
      assert s.appeals[a] in s.appeals;
    }
    if row :| row in s.appeals && row.caseId == caseId && row.status == Submitted {
      var a :| 0 <= a < |s.appeals| && s.appeals[a] == row;
    }
  }

  lemma InvalidationsOf(keys: seq<string>, reason: InvalidationReason)
    ensures forall v :: v in Invalidations(keys, reason) <==> v.reason == reason && v.key in keys
  {
    var r := Invalidations(keys, reason);
    forall v: Invalidation | v.reason == reason && v.key in keys
      ensures v in r
    {
      var i :| 0 <= i < |keys| && keys[i] == v.key;
      assert r[i] == v;
    }
  }

  lemma PlanAsAsked(s: Store, before: CompiledPolicy, after: CompiledPolicy, change: ModelChange, caseId: nat)
    requires caseId in s.cases && UniqueKeys(before.requirements) && UniqueKeys(after.requirements)
    requires OneOfEachKey(s, caseId)
    ensures PlansFor(s, before, after, change, caseId, PlanOf(s, DiffOf(before, after), change, caseId))
  {
    hide UniqueKeys, TemplateKeys, Asks, Agree, Lookup, DiffOf, OneOfEachKey, Pictured, Visual, OpenAppealOf, Unique,
      BlockedBy;
    var d := DiffOf(before, after);
    var dropped := Dropped(s, d, change, caseId);
    DiffAsAsked(before, after);
    BlockedAsStored(s, caseId);
    PlanPartitionsTheTarget(s, before, after, change, caseId);
    InvalidationsOf(d.removed, RequirementRemoved);
    InvalidationsOf(d.modified, SemanticsChanged);
    InvalidationsOf(dropped, ModelProfileChanged);
    forall key
      ensures Visual(s, caseId, key) <==> Pictured(s, caseId, key)
    {
      VisualIsPictured(s, caseId, key);
    }
    AgreeingAsk(before, after);
    ModeAsAsked(before, after);
  }

  lemma AgreeingAsk(before: CompiledPolicy, after: CompiledPolicy)
    ensures forall key :: Agree(before, after, key) ==> Asks(before, key) && Asks(after, key)
  {
  }

  lemma ModeAsAsked(before: CompiledPolicy, after: CompiledPolicy)
    requires UniqueKeys(before.requirements) && UniqueKeys(after.requirements)
    ensures
      var d := DiffOf(before, after);
      && (d.mode == Reevaluate <==> d.added == [] && d.removed == [] && d.modified == [])
      && (d.removed == [] <==> !exists key :: Asks(before, key) && !Asks(after, key))
  {
    DiffAsAsked(before, after);
    hide Asks, Agree, UniqueKeys, TemplateKeys;
    var d := DiffOf(before, after);
    Empty(d.removed);
    if key :| Asks(before, key) && !Asks(after, key) {
      assert key in d.removed;
    }
  }

  // ---- the preview -----------------------------------------------------------------------

  // The investigations a preview announces: the keys to investigate of the cases that are not blocked.
  ghost function Announced(plans: seq<CasePlan>): set<(int, string)> {
    set k, key | 0 <= k < |plans| && plans[k].blocked == None && key in plans[k].investigate :: (k, key)
  }

  lemma {:induction false} KeysCount(keys: seq<string>, k: int)
    requires Unique(keys)
    ensures |set key | key in keys :: (k, key)| == |keys|
  {
    var pairs := set key | key in keys :: (k, key);
    if keys == [] {
      assert pairs == {};
    } else {
      var n := |keys| - 1;
      KeysCount(keys[..n], k);
      assert keys == keys[..n] + [keys[n]];
      assert pairs == (set key | key in keys[..n] :: (k, key)) + {(k, keys[n])};
      assert keys[n] !in keys[..n];
    }
  }

  lemma {:induction false} InvestigationsAreAnnounced(plans: seq<CasePlan>)
    requires forall k :: 0 <= k < |plans| ==> Unique(plans[k].investigate)
    ensures Investigations(plans) == |Announced(plans)|
  {
    hide Unique;
    if plans == [] {
      assert Announced(plans) == {};
    } else {
      var n := |plans| - 1;
      var before := plans[..n];
      assert forall k :: 0 <= k < n ==> before[k] == plans[k];
      InvestigationsAreAnnounced(before);
      var last := set key | key in plans[n].investigate :: (n, key);
      KeysCount(plans[n].investigate, n);
      if plans[n].blocked == None {
        assert Announced(plans) == Announced(before) + last;
        assert Announced(before) !! last;
      } else {
        assert Announced(plans) == Announced(before);
      }
    }
  }

  ghost predicate Published(s: Store, ref: PolicyRef) {
    ref in s.policies && s.policies[ref].published
  }

  // A preview of two published versions plans every case of the older one, once and in the order of their
  // identifiers, and announces as many investigations as its unblocked cases ask for.
  lemma PreviewIsExact(s: Store, id: string, source: nat, target: nat, change: ModelChange)
    requires forall ref :: ref in s.policies ==> UniqueKeys(s.policies[ref].compiled.requirements)
    requires forall c :: c in s.cases ==> OneOfEachKey(s, c)
    ensures
      var before, after := PolicyRef(id, source), PolicyRef(id, target);
      match PreviewOf(s, id, source, target, change)
      case Err(error) =>
        && (error == VersionOrderInvalid <==> target <= source)
        && (error == ReplayPolicyNotFound <==> source < target && !(before in s.policies && after in s.policies))
        && (error == ReplayPolicyNotPublished <==>
              source < target && before in s.policies && after in s.policies
              && !(Published(s, before) && Published(s, after)))
      case Ok(v) =>
        && source < target && Published(s, before) && Published(s, after)
        && v.id == id && v.source == source && v.target == target && v.change == change
        && (v.mode == Reevaluate <==>
              forall t :: t in s.policies[before].compiled.requirements
                          <==> t in s.policies[after].compiled.requirements)
        && (forall i, j :: 0 <= i < j < |v.plans| ==> v.plans[i].source < v.plans[j].source)
        && (forall c :: c in s.cases && s.cases[c].policy == before ==>
              exists k :: 0 <= k < |v.plans| && v.plans[k].source == c)
        && (forall k :: 0 <= k < |v.plans| ==>
              && v.plans[k].source in s.cases && s.cases[v.plans[k].source].policy == before
              && PlansFor(s, s.policies[before].compiled, s.policies[after].compiled, change, v.plans[k].source,
                          v.plans[k]))
        && v.investigations == |Announced(v.plans)|
  {
    hide UniqueKeys, OneOfEachKey, PlanOf, Announced, DiffOf, Investigations;
    var before, after := PolicyRef(id, source), PolicyRef(id, target);
    if PreviewOf(s, id, source, target, change).Ok? {
      var v := PreviewOf(s, id, source, target, change).value;
      var p, p' := s.policies[before].compiled, s.policies[after].compiled;
      var cases := CasesOf(s, before);
      ReevaluatesExactly(p, p');
      CasesInOrder(s, before);
      forall k | 0 <= k < |v.plans|
        ensures v.plans[k].source == cases[k] && cases[k] in cases
        ensures PlansFor(s, p, p', change, cases[k], v.plans[k]) && Unique(v.plans[k].investigate)
      {
        assert cases[k] in s.cases;
        PlanAsAsked(s, p, p', change, cases[k]);
      }
      hide PlansFor, Unique;
      InvestigationsAreAnnounced(v.plans);
      forall c | c in s.cases && s.cases[c].policy == before
        ensures exists k :: 0 <= k < |v.plans| && v.plans[k].source == c
      {
        var k :| 0 <= k < |cases| && cases[k] == c;
        assert v.plans[k].source == c;
      }
    }
  }

  lemma CasesInOrder(s: Store, ref: PolicyRef)
    ensures forall i, j :: 0 <= i < j < |CasesOf(s, ref)| ==> CasesOf(s, ref)[i] < CasesOf(s, ref)[j]
  {
  }

  // ---- the items of a prepared job -------------------------------------------------------

  // Some case of that version has an item for the target version.
  ghost predicate InTheWay(w: ReplayStore, before: PolicyRef, target: nat) {
    exists i :: 0 <= i < |w.items| && w.items[i].source in w.ledger.cases
                && w.ledger.cases[w.items[i].source].policy == before
                && w.items[i].job < |w.jobs| && w.jobs[w.items[i].job].preview.target == target
  }

  // The preview lists exactly the cases of the version, blocked as they are stored.
  ghost predicate Lists(s: Store, before: PolicyRef, plans: seq<CasePlan>) {
    && (forall c :: c in s.cases && s.cases[c].policy == before ==>
          exists k :: 0 <= k < |plans| && plans[k].source == c)
    && forall k :: 0 <= k < |plans| ==>
         && plans[k].source in s.cases && s.cases[plans[k].source].policy == before
         && (plans[k].blocked == None <==>
               s.cases[plans[k].source].current != None && !OpenAppealOf(s, plans[k].source))
  }

  lemma PreviewLists(s: Store, id: string, source: nat, target: nat, seen: Preview, change: ModelChange)
    requires PreviewOf(s, id, source, target, change) == Ok(seen)
    requires forall ref :: ref in s.policies ==> UniqueKeys(s.policies[ref].compiled.requirements)
    requires forall c :: c in s.cases ==> OneOfEachKey(s, c)
    ensures Lists(s, PolicyRef(id, source), seen.plans)
  {
    hide PreviewOf, OneOfEachKey, UniqueKeys, OpenAppealOf, Announced, Asks, Agree, Pictured, Unique;
    PreviewIsExact(s, id, source, target, change);
  }

  lemma ConflictsAsStored(w: ReplayStore, before: PolicyRef, target: nat, plans: seq<CasePlan>)
    requires Lists(w.ledger, before, plans)
    ensures Conflicts(w, plans, target) <==> InTheWay(w, before, target)
  {
    hide OpenAppealOf;
    if InTheWay(w, before, target) {
      var i :| 0 <= i < |w.items| && w.items[i].source in w.ledger.cases
               && w.ledger.cases[w.items[i].source].policy == before
               && w.items[i].job < |w.jobs| && w.jobs[w.items[i].job].preview.target == target;
      assert HasItem(w, w.items[i].source, target);
      var k :| 0 <= k < |plans| && plans[k].source == w.items[i].source;
    }
  }

  // A prepared job starts one item for each case, waiting exactly when the case has a decision in force and
  // no open appeal, and in review otherwise. Only a case with an item for the same version is in the way.
  lemma PreparedItemsAreExact(w: ReplayStore, id: string, source: nat, target: nat, seen: Preview, profile: string,
                              change: ModelChange)
    requires PreviewOf(w.ledger, id, source, target, change) == Ok(seen)
    requires forall ref :: ref in w.ledger.policies ==> UniqueKeys(w.ledger.policies[ref].compiled.requirements)
    requires forall c :: c in w.ledger.cases ==> OneOfEachKey(w.ledger, c)
    requires ReplayJob(seen, profile) !in w.jobs
    ensures
      var r := PrepareReplay(w, id, source, target, seen, profile, change);
      var before := PolicyRef(id, source);
      var cases := w.ledger.cases;
      if InTheWay(w, before, target) then r == Err(ItemConflict)
      else
        && r.Ok? && r.value.job == |w.jobs|
        && var after := r.value.store;
        && after == w.(jobs := w.jobs + [ReplayJob(seen, profile)], items := after.items)
        && |after.items| == |w.items| + |seen.plans| && w.items <= after.items
        && (forall c :: c in cases && cases[c].policy == before ==>
              exists k :: 0 <= k < |seen.plans| && seen.plans[k].source == c)
        && forall k :: 0 <= k < |seen.plans| ==>
             var item := after.items[|w.items| + k];
             && item.source == seen.plans[k].source && item.source in cases && cases[item.source].policy == before
             && item.job == |w.jobs| && item.plan == seen.plans[k] && item.mode == seen.plans[k].mode
             && item.target == None && item.targetDecision == None
             && item.status == if cases[item.source].current != None && !OpenAppealOf(w.ledger, item.source)
                               then Waiting else NeedsReview
  {
    hide PreviewOf, OneOfEachKey, UniqueKeys, OpenAppealOf, InTheWay, Conflicts;
    PreviewLists(w.ledger, id, source, target, seen, change);
    ConflictsAsStored(w, PolicyRef(id, source), target, seen.plans);
    NotFound(w.jobs, ReplayJob(seen, profile));
  }

  lemma NotFound(jobs: seq<ReplayJob>, job: ReplayJob)
    requires job !in jobs
    ensures FindJob(jobs, job) == None
  {
  }

  // ---- one item for a case and a version -------------------------------------------------

  // What an item is about never changes.
  ghost predicate SameSubjects(w: ReplayStore, w': ReplayStore) {
    && w.jobs <= w'.jobs && |w.items| <= |w'.items|
    && forall i :: 0 <= i < |w.items| ==> w'.items[i].source == w.items[i].source && w'.items[i].job == w.items[i].job
  }

  lemma StepKeepsSubjects(w: ReplayStore, e: Event)
    ensures SameSubjects(w, Step(w, e))
    ensures !e.Preparing? ==> |Step(w, e).items| == |w.items|
  {
    hide PreviewOf, FindJob, Conflicts, CopyKeys, CreateCase, Scope, Invalidated, Finalize, Results, Unused;
    if e.Elsewhere? && GoesOn(w, e.next) {
      ItemsGoOn(w, e.next);
    }
    hide GoesOn;
  }

  // The source case and the target version of an item.
  ghost function Subject(w: ReplayStore, i: nat): (nat, nat)
    requires i < |w.items| && w.items[i].job < |w.jobs|
  {
    (w.items[i].source, w.jobs[w.items[i].job].preview.target)
  }

  ghost predicate OneEach(w: ReplayStore) {
    && (forall i :: 0 <= i < |w.items| ==> w.items[i].job < |w.jobs|)
    && forall i, j :: 0 <= i < j < |w.items| ==> Subject(w, i) != Subject(w, j)
  }

  lemma PlansInOrder(s: Store, id: string, source: nat, target: nat, change: ModelChange)
    requires PreviewOf(s, id, source, target, change).Ok?
    ensures
      var v := PreviewOf(s, id, source, target, change).value;
      v.target == target && forall i, j :: 0 <= i < j < |v.plans| ==> v.plans[i].source < v.plans[j].source
  {
    hide DiffOf, BlockedBy, Dropped, Looking, Invalidations, Investigations, CasesOf;
    CasesInOrder(s, PolicyRef(id, source));
  }

  lemma PreparingKeepsOne(w: ReplayStore, id: string, source: nat, target: nat, seen: Preview, profile: string,
                          change: ModelChange)
    requires OneEach(w) && PrepareReplay(w, id, source, target, seen, profile, change).Ok?
    ensures OneEach(PrepareReplay(w, id, source, target, seen, profile, change).value.store)
  {
    hide FindJob, PreviewOf;
    PlansInOrder(w.ledger, id, source, target, change);
    var after := PrepareReplay(w, id, source, target, seen, profile, change).value.store;
    var n := |w.items|;
    forall i | 0 <= i < n
      ensures HasItem(w, w.items[i].source, Subject(w, i).1) && Subject(after, i) == Subject(w, i)
    {
    }
    forall i, j | 0 <= i < j < |after.items|
      ensures Subject(after, i) != Subject(after, j)
    {
      if j < n {
        assert Subject(w, i) != Subject(w, j);
      } else {
        assert Subject(after, j) == (seen.plans[j - n].source, target);
        assert !HasItem(w, seen.plans[j - n].source, target);
        if n <= i {
          assert Subject(after, i) == (seen.plans[i - n].source, target);
        }
      }
    }
  }

  lemma StepKeepsOne(w: ReplayStore, e: Event)
    requires OneEach(w)
    ensures OneEach(Step(w, e))
  {
    hide PrepareReplay, Materialize, Finalize, Close;
    StepKeepsSubjects(w, e);
    if e.Preparing? {
      if PrepareReplay(w, e.id, e.source, e.target, e.seen, e.profile, e.change).Ok? {
        PreparingKeepsOne(w, e.id, e.source, e.target, e.seen, e.profile, e.change);
      }
    } else {
      hide Step;
      forall i, j | 0 <= i < j < |w.items|
        ensures Subject(Step(w, e), i) != Subject(Step(w, e), j)
      {
        assert Subject(w, i) != Subject(w, j);
      }
    }
  }

  lemma {:induction false} RunKeepsOne(w: ReplayStore, events: seq<Event>)
    requires OneEach(w)
    ensures OneEach(Run(w, events)) && SameSubjects(w, Run(w, events))
    decreases |events|
  {
    hide OneEach, Step;
    if events != [] {
      RunKeepsOne(w, events[..|events| - 1]);
      StepKeepsOne(Run(w, events[..|events| - 1]), events[|events| - 1]);
      StepKeepsSubjects(Run(w, events[..|events| - 1]), events[|events| - 1]);
    }
  }

  // An item in review without a target case.
  ghost predicate Halted(w: ReplayStore, i: nat) {
    i < |w.items| && w.items[i].status == NeedsReview && w.items[i].target == None
  }

  lemma StepKeepsHalted(w: ReplayStore, e: Event, i: nat)
    requires Halted(w, i)
    ensures Halted(Step(w, e), i) && Step(w, e).items[i] == w.items[i]
  {
    hide PreviewOf, FindJob, Conflicts, CopyKeys, CreateCase, Scope, Invalidated, Finalize, Results, Unused;
    if e.Elsewhere? && GoesOn(w, e.next) {
      ItemsGoOn(w, e.next);
    }
    hide GoesOn;
  }

  lemma {:induction false} RunKeepsHalted(w: ReplayStore, events: seq<Event>, i: nat)
    requires Halted(w, i)
    ensures Halted(Run(w, events), i) && Run(w, events).items[i] == w.items[i]
    decreases |events|
  {
    hide Step;
    if events != [] {
      RunKeepsHalted(w, events[..|events| - 1], i);
      StepKeepsHalted(Run(w, events[..|events| - 1]), events[|events| - 1], i);
    }
  }

  // A case that is blocked when a job is prepared is never replayed into that version: over every history its
  // item stays in review without a target case, no other item for the case and the version ever appears, and
  // no later preparation that lists the case adds anything, even when what blocked it is long resolved.
  lemma BlockedCaseIsNeverReplayed(w: ReplayStore, events: seq<Event>, i: nat, id: string, source: nat, seen: Preview,
                                   profile: string, change: ModelChange)
    requires OneEach(w) && Halted(w, i)
    ensures
      var (c, version) := Subject(w, i);
      var now := Run(w, events);
      && i < |now.items| && now.items[i] == w.items[i] && OneEach(now) && Subject(now, i) == (c, version)
      && (forall j :: 0 <= j < |now.items| && Subject(now, j) == (c, version) ==> now.items[j].target == None)
      && var r := PrepareReplay(now, id, source, version, seen, profile, change);
         (exists k :: 0 <= k < |seen.plans| && seen.plans[k].source == c) && r.Ok? ==> r.value.store == now
  {
    RunKeepsOne(w, events);
    RunKeepsHalted(w, events, i);
    var now := Run(w, events);
    var (c, version) := Subject(w, i);
    hide Run, PreviewOf, FindJob;
    assert Subject(now, i) == (c, version);
    forall j | 0 <= j < |now.items| && Subject(now, j) == (c, version)
      ensures j == i
    {
      assert Subject(now, j) == Subject(now, i);
    }
    if k :| 0 <= k < |seen.plans| && seen.plans[k].source == c {
      assert HasItem(now, c, version);
      assert Conflicts(now, seen.plans, version);
    }
  }
}
