/** The staleness of served values, over all runs: bounded exactly when no bound is the largest duration. */
module Staleness {
  import opened Model
  import opened GroupForest
  import opened DependencyGraph
  import opened Evaluator
  import opened F = Fleet
  import opened FleetRuns

  const FLAG := Definition("f", BooleanType, BooleanValue(true), map[], map[], "", Active, [], [], [], 1, [])

  const FLAGS: map<string, Definition> := map["f" := FLAG]

  /** Room for one feature without anything else. */
  const ROOM := Limits(1, 0, 0, 0, 0, 0, 0, 0, 0, 0, 0, 0, 0, 0, 0, 0, 0, 0, 1, 0, 0, 0)

  /** A complete candidate whose source time is the first instant after the zero one. */
  function Old(c: Config): (x: F.Candidate) {
    F.Candidate(Some(Snapshot(FLAGS, map[], c.tenant)), ROOM, "r", "p", 1)
  }

  lemma FlagIsValid(env: Env)
    ensures ValidDefinition(Under(env, ROOM), FLAG)
  {
  }

  lemma FlagsAreValid(env: Env)
    ensures DefinitionsValid(Under(env, ROOM), FLAGS)
  {
    hide ValidDefinition;
    FlagIsValid(env);
  }

  lemma NoGroups(env: Env)
    ensures GroupsAccepted(Under(env, ROOM), FLAGS, map[])
  {
  }

  lemma FlagsResolve()
    ensures FLAGS.Keys == {"f"} == Elements(["f"]) && |FLAGS| == 1 && AllResolve(FLAGS)
  {
    assert |FLAGS| == |FLAGS.Keys|;
  }

  lemma FlagGraph()
    ensures DependencyGraph.Closed(GraphOf(FLAGS)) && "f" in GraphOf(FLAGS)
    ensures VisitAll(GraphOf(FLAGS), 0, ["f"], 0, {}, {}) == Visited({"f"})
  {
    var g := GraphOf(FLAGS);
    assert g["f"] == [] && {} + {"f"} == {"f"};
    assert Visit(g, 0, "f", 0, {}, {}) == Visited({"f"});
  }

  lemma FlagIsAccepted(env: Env)
    ensures Elements(["f"]) == FLAGS.Keys && GraphAccepted(Under(env, ROOM), FLAGS, map[], ["f"])
  {
    FlagsAreValid(env);
    NoGroups(env);
    FlagsResolve();
    FlagGraph();
    hide DefinitionsValid, GroupsAccepted, AllResolve, GraphOf, VisitAll;
  }

  lemma OldIsEarly(c: Config, allowStale: bool)
    requires Sane(c)
    ensures EarlyProblem(c, Old(c), 1, allowStale) == None
  {
    assert |FLAGS| == |FLAGS.Keys| && FLAGS.Keys == {"f"};
  }

  lemma OldIsUsable(s: Setup, allowStale: bool)
    requires Sane(s.config)
    ensures Visits(s.config, Old(s.config), 1, allowStale, ["f"]) && Usable(s.env, s.config, Old(s.config), 1, allowStale, ["f"])
  {
    hide GraphAccepted, EarlyProblem, Sane;
    FlagIsAccepted(s.env);
    OldIsEarly(s.config, allowStale);
  }

  /** Boot, load, stamp and install the candidate at its own source time, then ask for a value much later. */
  function Events(s: Setup, key: string, at: int): (es: seq<Event>) {
    [Boot(0), StartLoad(0), EndLoad(0, Some(Old(s.config))), Stamp(0, 1, ["f"]), Install(0), Look(1),
     Serve(1, key, BooleanType, at, at)]
  }

  lemma Loaded(s: Setup) returns (a: World, b: World, w: World)
    ensures Step(s, INITIAL, Boot(0)) == Some(a) && Step(s, a, StartLoad(0)) == Some(b)
    ensures Step(s, b, EndLoad(0, Some(Old(s.config)))) == Some(w)
    ensures w.threads == map[0 := Booting(Got(Old(s.config)))] && w.shared == COLD && w.servings == []
  {
    hide Usable, Visits, BasisOf;
    a := Step(s, INITIAL, Boot(0)).value;
    b := Step(s, a, StartLoad(0)).value;
    w := Step(s, b, EndLoad(0, Some(Old(s.config)))).value;
  }

  lemma Stamps(s: Setup, w: World, x: F.Candidate, order: seq<string>) returns (a: World)
    requires w.threads == map[0 := Booting(Got(x))] && w.shared == COLD && w.servings == []
    requires Usable(s.env, s.config, x, 1, s.config.allowStaleBootstrap, order)
    requires Visits(s.config, x, 1, s.config.allowStaleBootstrap, order) && x.snapshot.Some?
    ensures Step(s, w, Stamp(0, 1, order)) == Some(a)
    ensures a.threads == map[0 := Booting(Stamped(InstalledFrom(s.config, x, 1)))] && a.servings == []
    ensures a.shared == COLD.(lastObservedAt := 1)
  {
    hide Usable, Visits, BasisOf, InstalledFrom;
    assert AllowStale(s, w, 0) == s.config.allowStaleBootstrap;
    a := AfterStamp(s, w, 0, 1, order);
    assert WorkStep(s, w, Stamp(0, 1, order)) == Some(a);
  }

  lemma Installs(s: Setup, w: World, x: Installed) returns (a: World)
    requires w.threads == map[0 := Booting(Stamped(x))] && w.shared == COLD.(lastObservedAt := 1) && w.servings == []
    ensures Step(s, w, Install(0)) == Some(a)
    ensures a.shared.active == Some(x) && a.shared.lastObservedAt == 1 && 1 !in a.threads && a.servings == []
  {
    hide Usable, Visits, BasisOf;
    a := AfterInstall(s, w, 0);
    assert WorkStep(s, w, Install(0)) == Some(a);
  }

  lemma Serves(s: Setup, w: World, key: string, at: int) returns (a: World, b: World)
    requires w.shared.active.Some? && w.shared.lastObservedAt == 1 <= at && 1 !in w.threads && w.servings == []
    requires var basis := BasisOf(s.env, s.config, w.shared.active, key, BooleanType, at, at);
             basis.FromSnapshot? && basis.at == at && basis.installed == w.shared.active.value
    ensures Step(s, w, Look(1)) == Some(a) && Step(s, a, Serve(1, key, BooleanType, at, at)) == Some(b)
    ensures b.servings == [Serving(w.shared.active.value, at)]
  {
    hide Usable, Visits, BasisOf;
    a := Step(s, w, Look(1)).value;
    b := Step(s, a, Serve(1, key, BooleanType, at, at)).value;
  }

  /**
   * When the freshness bound or the flag's last-known-good bound is the largest duration, there are runs that serve a
   * value of the flag as late as one likes after its source time: the staleness of served values is bounded exactly
   * when all such bounds are smaller.
   */
  lemma AgelessServesAnyAge(s: Setup, key: string, at: int) returns (ws: seq<World>)
    requires Sane(s.config) && Ageless(s.config, key) && at >= 1
    ensures |ws| == 8 && IsRun(s, ws, Events(s, key, at))
    ensures ws[7].servings == [Serving(InstalledFrom(s.config, Old(s.config), 1), at)] && Old(s.config).sourceTime == 1
  {
    hide *;
    SourceOf(s.config);
    OldIsUsable(s, s.config.allowStaleBootstrap);
    var x := InstalledFrom(s.config, Old(s.config), 1);
    AgelessAnswersAtAnyAge(s.env, s.config, x, key, BooleanType, at);
    var w1, w2, w3 := Loaded(s);
    var w4 := Stamps(s, w3, Old(s.config), ["f"]);
    var w5 := Installs(s, w4, x);
    var w6, w7 := Serves(s, w5, key, at);
    ws := [INITIAL, w1, w2, w3, w4, w5, w6, w7];
    IsTheRun(s, ws, key, at);
  }

  lemma SourceOf(c: Config)
    ensures Old(c).sourceTime == 1 && Old(c).snapshot.Some?
  {
  }

  lemma IsTheRun(s: Setup, ws: seq<World>, key: string, at: int)
    requires |ws| == 8 && ws[0] == INITIAL && Step(s, ws[0], Boot(0)) == Some(ws[1]) && Step(s, ws[1], StartLoad(0)) == Some(ws[2])
    requires Step(s, ws[2], EndLoad(0, Some(Old(s.config)))) == Some(ws[3]) && Step(s, ws[3], Stamp(0, 1, ["f"])) == Some(ws[4])
    requires Step(s, ws[4], Install(0)) == Some(ws[5]) && Step(s, ws[5], Look(1)) == Some(ws[6])
    requires Step(s, ws[6], Serve(1, key, BooleanType, at, at)) == Some(ws[7])
    ensures IsRun(s, ws, Events(s, key, at))
  {
    hide Step, Old, INITIAL;
  }

  /** Everything served so far was served within the maximum staleness of its source time. */
  ghost predicate ServedWithin(s: Setup, w: World) {
    forall k :: 0 <= k < |w.servings| ==> w.servings[k].at <= w.servings[k].installed.sourceTime + s.config.maxStaleness
  }

  ghost predicate ServesWithin(s: Setup, ws: seq<World>) { forall w :: w in ws ==> ServedWithin(s, w) }

  lemma LimitedServesWithin(s: Setup, ws: seq<World>, es: seq<Event>)
    requires Sane(s.config) && Limited(s.config) && IsRun(s, ws, es)
    ensures ServesWithin(s, ws)
  {
    hide IsRun, Sane, Limited;
    forall w | w in ws ensures ServedWithin(s, w) {
      var i :| 0 <= i < |ws| && ws[i] == w;
      forall k | 0 <= k < |w.servings|
        ensures w.servings[k].at <= w.servings[k].installed.sourceTime + s.config.maxStaleness
      {
        ServedValuesAreBounded(s, ws, es, i, k);
      }
    }
  }

  lemma AgelessBreaksTheBound(s: Setup, key: string) returns (ws: seq<World>, es: seq<Event>)
    requires Sane(s.config) && Ageless(s.config, key)
    ensures IsRun(s, ws, es) && !ServesWithin(s, ws)
  {
    var at := 2 + s.config.maxStaleness;
    hide IsRun, FLAGS;
    ws := AgelessServesAnyAge(s, key, at);
    es := Events(s, key, at);
    assert ws[7] in ws && !ServedWithin(s, ws[7]) by {
      var v := ws[7].servings[0];
      assert v.at == at && v.installed.sourceTime == 1;
    }
  }

  /** Over all runs of a fleet, served values respect the maximum staleness exactly when ages cannot saturate below it. */
  lemma StalenessIsBoundedExactlyWhen(s: Setup)
    requires Sane(s.config)
    ensures (forall ws, es :: IsRun(s, ws, es) ==> ServesWithin(s, ws)) <==> Limited(s.config)
  {
    hide IsRun, ServesWithin, Sane, Ageless;
    if Limited(s.config) {
      forall ws, es | IsRun(s, ws, es) ensures ServesWithin(s, ws) { LimitedServesWithin(s, ws, es); }
    } else {
      var key :| Ageless(s.config, key);
      var ws, es := AgelessBreaksTheBound(s, key);
    }
  }
}
