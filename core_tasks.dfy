/** The core plan (tasks/core_tasks.py, build_core_tasks): a 35/40/25 split of
    the total budget into stay, activities-and-meals and transport, each with a
    per-day rate, and the nine core stages in their fixed order with their
    context edges. */
module CoreTasks {
  import opened PyValues
  import opened Stages

  const StayShare: real := 0.35
  const ActivitiesShare: real := 0.40
  const TransportShare: real := 0.25

  /** A budget category: its total and its per-day rate. */
  datatype Category = Category(total: real, perDay: real)

  /** The figures build_core_tasks embeds in its prompts. */
  datatype BudgetSplit = BudgetSplit(stay: Category, activities: Category, transport: Category)

  datatype CoreError = ZeroDivisionError

  datatype CorePlan = CorePlan(split: BudgetSplit, stages: seq<Stage>)

  /** One category: `budget * share` and that total divided by the day count. */
  function Allot(budget: real, share: real, days: int): (c: Category)
    requires days != 0
    ensures c.perDay * days as real == c.total
  {
    var total := budget * share;
    Category(total, total / days as real)
  }

  /** The three categories of build_core_tasks, for a non-zero day count. */
  function Allocate(budget: real, days: int): (s: BudgetSplit)
    requires days != 0
    ensures s.stay.total + s.activities.total + s.transport.total == budget
    ensures s.stay.total == budget * StayShare
    ensures s.activities.total == budget * ActivitiesShare
    ensures s.transport.total == budget * TransportShare
    ensures budget >= 0.0 ==>
      && 0.0 <= s.stay.total <= budget
      && 0.0 <= s.activities.total <= budget
      && 0.0 <= s.transport.total <= budget
  {
    BudgetSplit(
      Allot(budget, StayShare, days),
      Allot(budget, ActivitiesShare, days),
      Allot(budget, TransportShare, days))
  }

  /** The nine core stages in the order build_core_tasks returns them. */
  function CoreStages(): seq<Stage> {
    var research := Stage(Research, DestinationResearcher, [], Opaque);
    var visa := Stage(CoreVisa, VisaRequirementsAdvisor, [Research], Opaque);
    var health := Stage(Health, HealthWellnessAdvisor, [Research], Opaque);
    var stay := Stage(Accommodation, AccommodationPlanner, [Research], Opaque);
    var activities := Stage(Activities, ActivitiesPlanner, [Research], Opaque);
    var transport := Stage(Transport, TransportPlanner, [Research], Opaque);
    var coordination := Stage(Coordination, ItineraryCoordinator,
      [Research, CoreVisa, Health, Accommodation, Activities, Transport], Opaque);
    var verification := Stage(Verification, TripVerifier, [Coordination], Opaque);
    var insights := Stage(LocalInsights, LocalInsider, [Verification, CoreVisa, Health], Opaque);
    [research, visa, health, stay, activities, transport, coordination, verification, insights]
  }

  /** build_core_tasks: the stage list plus the budget figures its prompts
      quote. A zero day count raises ZeroDivisionError at the first per-day
      division. */
  function BuildCoreTasks(budget: real, days: int): (r: Result<CorePlan, CoreError>)
    ensures r.Raised? <==> days == 0
    ensures r.Ok? ==>
      && r.value.split == Allocate(budget, days)
      && r.value.stages == CoreStages()
      && r.value.split.stay.perDay * days as real == r.value.split.stay.total
      && r.value.split.activities.perDay * days as real == r.value.split.activities.total
      && r.value.split.transport.perDay * days as real == r.value.split.transport.total
      && r.value.split.stay.total + r.value.split.activities.total + r.value.split.transport.total == budget
  {
    if days == 0 then Raised(ZeroDivisionError) else Ok(CorePlan(Allocate(budget, days), CoreStages()))
  }

  /** The core list is a topological order: nine distinct stages, every
      context entry naming an earlier stage, so the graph has no cycle. */
  lemma CoreStagesTopological()
    ensures |CoreStages()| == 9
    ensures DistinctIds(CoreStages()) && DependenciesPrecede(CoreStages())
    ensures forall p :: DependencyPath(CoreStages(), p) && |p| >= 2 ==> p[|p| - 1] < p[0]
  {
    var s := CoreStages();
    CoreIdsDistinct();
    forall i, d | 0 <= i < |s| && d in s[i].deps
      ensures exists j :: 0 <= j < i && s[j].id == d
    {
      if i <= 5 {
        assert s[0].id == d;
      } else if i == 6 {
        var k :| 0 <= k < |s[6].deps| && s[6].deps[k] == d;
        assert s[k].id == d;
      } else if i == 7 {
        assert s[6].id == d;
      } else {
        assert d == Verification || d == CoreVisa || d == Health;
        if d == Verification { assert s[7].id == d; }
        else if d == CoreVisa { assert s[1].id == d; }
        else { assert s[2].id == d; }
      }
    }
    forall p | DependencyPath(s, p) && |p| >= 2 ensures p[|p| - 1] < p[0] {
      PathsDescend(s, p);
    }
  }

  lemma CoreIdsDistinct()
    ensures DistinctIds(CoreStages())
  {
    var s := CoreStages();
    assert Ids(s) == [Research, CoreVisa, Health, Accommodation, Activities,
                      Transport, Coordination, Verification, LocalInsights];
  }

  /** The shape of the core graph: research is the only stage without
      context; visa, health, accommodation, activities and transport read only
      research; coordination reads all six stages before it; verification
      reads only coordination; local insights read verification, visa and
      health. */
  lemma CoreDependencyShape()
    ensures Ids(CoreStages()) == [Research, CoreVisa, Health, Accommodation, Activities,
                                  Transport, Coordination, Verification, LocalInsights]
    ensures forall i :: 0 <= i < 9 ==> (CoreStages()[i].deps == [] <==> i == 0)
    ensures forall i :: 1 <= i <= 5 ==> CoreStages()[i].deps == [Research]
    ensures CoreStages()[6].deps == Ids(CoreStages()[..6])
    ensures forall j :: 0 <= j < 6 ==> CoreStages()[j].id in CoreStages()[6].deps
    ensures CoreStages()[7].deps == [Coordination]
    ensures multiset(CoreStages()[8].deps) == multiset{Verification, CoreVisa, Health}
  {
    var s := CoreStages();
    assert Ids(s[..6]) == [Research, CoreVisa, Health, Accommodation, Activities, Transport];
  }
}
