/** What an import reports and logs, resource by resource, judged against the tenant as it was. */
module Imports {
  import opened Keyed
  import opened Model
  import opened GroupForest
  import opened Evaluator
  import opened Portable
  import opened Tenant
  import opened TenantInvariant
  import opened TenantRuns

  /** What each item gives, one after the other. */
  function Gather<T, U>(items: seq<T>, f: T -> seq<U>): (r: seq<U>) {
    if items == [] then [] else Gather(items[..|items| - 1], f) + f(items[|items| - 1])
  }

  // ---- Groups ----

  function ConflictOfGroup(before: Groups): (f: Group -> seq<Conflict>) {
    (g: Group) => if g.key in before then [GroupConflict(g.key, before[g.key].version, g.version)] else []
  }

  function AuditOfGroup(before: Groups, policy: Policy, actor: string): (f: Group -> seq<AuditEntry>) {
    (g: Group) =>
      if g.key !in before then [AuditEntry(g.key, ImportCreateAction, actor, 1)]
      else if policy == Replace then [AuditEntry(g.key, ImportUpdateAction, actor, before[g.key].version + 1)]
      else []
  }

  ghost predicate GroupsReported(plan: Plan, gs: seq<Group>, policy: Policy, actor: string, after: Plan) {
    var conflicts, a, b := Gather(gs, ConflictOfGroup(plan.groups)), plan.report, after.report;
    && b.conflicts == a.conflicts + conflicts
    && after.audits == plan.audits + Gather(gs, AuditOfGroup(plan.groups, policy, actor))
    && b.createdGroups + |conflicts| == a.createdGroups + |gs|
    && b.updatedGroups == a.updatedGroups + (if policy == Replace then |conflicts| else 0)
    && b.skipped == a.skipped + (if policy == Replace then 0 else |conflicts|)
    && b.createdFeatures == a.createdFeatures && b.updatedFeatures == a.updatedFeatures && b.dryRun == a.dryRun
  }

  lemma ReportGroup(plan: Plan, before: Groups, g: Group, policy: Policy, actor: string)
    requires g.key in plan.groups <==> g.key in before
    requires g.key in before ==> plan.groups[g.key] == before[g.key]
    ensures var a, b := plan.report, PlanGroup(plan, g, policy, actor).report;
            var conflict := ConflictOfGroup(before)(g);
            && b.conflicts == a.conflicts + conflict
            && PlanGroup(plan, g, policy, actor).audits == plan.audits + AuditOfGroup(before, policy, actor)(g)
            && b.createdGroups + |conflict| == a.createdGroups + 1
            && b.updatedGroups == a.updatedGroups + (if policy == Replace then |conflict| else 0)
            && b.skipped == a.skipped + (if policy == Replace then 0 else |conflict|)
            && b.createdFeatures == a.createdFeatures && b.updatedFeatures == a.updatedFeatures && b.dryRun == a.dryRun
  {
  }

  /** Before its turn a listed group is where it was. */
  lemma GroupAwaitsItsTurn(plan: Plan, gs: seq<Group>, policy: Policy, actor: string)
    requires gs != [] && DistinctKeys(gs, GroupKey)
    ensures DistinctKeys(gs[..|gs| - 1], GroupKey)
    ensures var p, last := PlanGroups(plan, gs[..|gs| - 1], policy, actor), gs[|gs| - 1];
            && (last.key in p.groups <==> last.key in plan.groups)
            && (last.key in plan.groups ==> p.groups[last.key] == plan.groups[last.key])
  {
    LastGroupIsFresh(gs);
    hide DistinctKeys, PlanGroup, GroupKeys, GroupPlanned;
    GroupsFollowPolicy(plan, gs[..|gs| - 1], policy, actor);
  }

  lemma {:induction false} GroupsAreReported(plan: Plan, gs: seq<Group>, policy: Policy, actor: string)
    requires DistinctKeys(gs, GroupKey)
    ensures GroupsReported(plan, gs, policy, actor, PlanGroups(plan, gs, policy, actor))
  {
    hide DistinctKeys, PlanGroup, ConflictOfGroup, AuditOfGroup;
    if gs != [] {
      GroupAwaitsItsTurn(plan, gs, policy, actor);
      GroupsAreReported(plan, gs[..|gs| - 1], policy, actor);
      ReportGroup(PlanGroups(plan, gs[..|gs| - 1], policy, actor), plan.groups, gs[|gs| - 1], policy, actor);
    }
  }

  // ---- Features ----

  function ConflictOfFeature(before: map<string, Record>): (f: Definition -> seq<Conflict>) {
    (d: Definition) => if d.key in before then [FeatureConflict(d.key, before[d.key].definition.version, d.version)] else []
  }

  function AuditOfFeature(before: map<string, Record>, policy: Policy, actor: string): (f: Definition -> seq<AuditEntry>) {
    (d: Definition) =>
      if d.key !in before then [AuditEntry(d.key, ImportCreateAction, actor, 1)]
      else if policy == Replace then [AuditEntry(d.key, ImportUpdateAction, actor, before[d.key].definition.version + 1)]
      else []
  }

  ghost predicate FeaturesReported(plan: Plan, ds: seq<Definition>, policy: Policy, actor: string, after: Plan) {
    var conflicts, a, b := Gather(ds, ConflictOfFeature(plan.records)), plan.report, after.report;
    && b.conflicts == a.conflicts + conflicts
    && after.audits == plan.audits + Gather(ds, AuditOfFeature(plan.records, policy, actor))
    && b.createdFeatures + |conflicts| == a.createdFeatures + |ds|
    && b.updatedFeatures == a.updatedFeatures + (if policy == Replace then |conflicts| else 0)
    && b.skipped == a.skipped + (if policy == Replace then 0 else |conflicts|)
    && b.createdGroups == a.createdGroups && b.updatedGroups == a.updatedGroups && b.dryRun == a.dryRun
  }

  lemma ReportFeature(plan: Plan, before: map<string, Record>, d: Definition, policy: Policy, actor: string)
    requires d.key in plan.records <==> d.key in before
    requires d.key in before ==> plan.records[d.key] == before[d.key]
    ensures var a, b := plan.report, PlanFeature(plan, d, policy, actor).report;
            var conflict := ConflictOfFeature(before)(d);
            && b.conflicts == a.conflicts + conflict
            && PlanFeature(plan, d, policy, actor).audits == plan.audits + AuditOfFeature(before, policy, actor)(d)
            && b.createdFeatures + |conflict| == a.createdFeatures + 1
            && b.updatedFeatures == a.updatedFeatures + (if policy == Replace then |conflict| else 0)
            && b.skipped == a.skipped + (if policy == Replace then 0 else |conflict|)
            && b.createdGroups == a.createdGroups && b.updatedGroups == a.updatedGroups && b.dryRun == a.dryRun
  {
  }

  /** Before its turn a listed feature is where it was. */
  lemma FeatureAwaitsItsTurn(plan: Plan, ds: seq<Definition>, policy: Policy, actor: string)
    requires ds != [] && DistinctKeys(ds, DefinitionKey)
    ensures DistinctKeys(ds[..|ds| - 1], DefinitionKey)
    ensures var p, last := PlanFeatures(plan, ds[..|ds| - 1], policy, actor), ds[|ds| - 1];
            && (last.key in p.records <==> last.key in plan.records)
            && (last.key in plan.records ==> p.records[last.key] == plan.records[last.key])
  {
    LastFeatureIsFresh(ds);
    hide DistinctKeys, PlanFeature, FeatureKeys, FeaturePlanned;
    FeaturesFollowPolicy(plan, ds[..|ds| - 1], policy, actor);
  }

  lemma {:induction false} FeaturesAreReported(plan: Plan, ds: seq<Definition>, policy: Policy, actor: string)
    requires DistinctKeys(ds, DefinitionKey)
    ensures FeaturesReported(plan, ds, policy, actor, PlanFeatures(plan, ds, policy, actor))
  {
    hide DistinctKeys, PlanFeature, ConflictOfFeature, AuditOfFeature;
    if ds != [] {
      FeatureAwaitsItsTurn(plan, ds, policy, actor);
      FeaturesAreReported(plan, ds[..|ds| - 1], policy, actor);
      ReportFeature(PlanFeatures(plan, ds[..|ds| - 1], policy, actor), plan.records, ds[|ds| - 1], policy, actor);
    }
  }

  // ---- The whole report ----

  /**
   * The conflicts are the document's resources that already exist, groups before features, each in document order and
   * with both versions; every other one is counted as created; the existing ones are all updated under the replace
   * policy and all skipped under any other; and what is created or updated is logged, in the same order.
   */
  lemma ImportReportIsExact(st: TenantState, c: Catalog, dryRun: bool, policy: Policy, actor: string)
    requires DistinctKeys(c.definitions, DefinitionKey) && DistinctKeys(c.groups, GroupKey)
    ensures var plan := PlanOf(st, c, dryRun, policy, actor);
            var g, f := Gather(c.groups, ConflictOfGroup(st.groups)), Gather(c.definitions, ConflictOfFeature(st.records));
            && plan.report.conflicts == g + f && plan.report.dryRun == dryRun
            && plan.report.createdGroups + |g| == |c.groups| && plan.report.createdFeatures + |f| == |c.definitions|
            && plan.report.updatedGroups == (if policy == Replace then |g| else 0)
            && plan.report.updatedFeatures == (if policy == Replace then |f| else 0)
            && plan.report.skipped == (if policy == Replace then 0 else |g| + |f|)
            && plan.audits == Gather(c.groups, AuditOfGroup(st.groups, policy, actor))
                              + Gather(c.definitions, AuditOfFeature(st.records, policy, actor))
  {
    hide DistinctKeys, Gather, ConflictOfGroup, ConflictOfFeature, AuditOfGroup, AuditOfFeature;
    var p := PlanGroups(NoPlan(st, dryRun), c.groups, policy, actor);
    GroupsAreReported(NoPlan(st, dryRun), c.groups, policy, actor);
    PlanGroupsKeepRecords(NoPlan(st, dryRun), c.groups, policy, actor);
    FeaturesAreReported(p, c.definitions, policy, actor);
  }
}
