/** A pipeline stage (a CrewAI Task) reduced to what the planner decides
    about it: which stage it is, which agent runs it, which earlier stages
    it takes as context, and whether its prompt embeds user itinerary text.
    The prompt wording itself is opaque. */
module Stages {
  import opened PyValues

  datatype StageId =
    // core plan (tasks/core_tasks.py)
    | Research | CoreVisa | Health | Accommodation | Activities | Transport
    | Coordination | Verification | LocalInsights
    // overlays (tasks/niche_tasks.py)
    | Safari | Halal | Nomad | SoloFemaleSafety | GeneralSafety | Family
    | Medical | Luxury | OverlayVisa | Flights
    // tune-up (tasks/tune_up_tasks.py)
    | Summarise | Verify | Polish | ProSafety

  datatype Agent =
    | DestinationResearcher | VisaRequirementsAdvisor | HealthWellnessAdvisor
    | AccommodationPlanner | ActivitiesPlanner | TransportPlanner
    | ItineraryCoordinator | TripVerifier | LocalInsider
    | SafariSpecialist | HalalTravelExpert | DigitalNomadPlanner
    | SoloFemaleSafetyAdvisor | FamilyTravelDesigner | MedicalTourismPlanner
    | LuxuryOnBudgetFinder | FlightAdvisor

  /** What a stage's prompt carries besides opaque wording. Tune-up prompts
      carry the date line, and possibly (a prefix of) the user's itinerary. */
  datatype Payload =
    | Opaque
    | TuneUpPrompt(dateLine: string, itinerary: Option<string>)

  datatype Stage = Stage(id: StageId, agent: Agent, deps: seq<StageId>, payload: Payload)

  function Ids(stages: seq<Stage>): seq<StageId> {
    seq(|stages|, i requires 0 <= i < |stages| => stages[i].id)
  }

  function AgentsOf(stages: seq<Stage>): seq<Agent> {
    seq(|stages|, i requires 0 <= i < |stages| => stages[i].agent)
  }

  predicate DistinctIds(stages: seq<Stage>) {
    forall i, j :: 0 <= i < j < |stages| ==> stages[i].id != stages[j].id
  }

  /** Every context entry names a stage that appears earlier in the list:
      the list is a topological order of the dependency graph. */
  ghost predicate DependenciesPrecede(stages: seq<Stage>) {
    forall i, d :: 0 <= i < |stages| && d in stages[i].deps ==>
      exists j :: 0 <= j < i && stages[j].id == d
  }

  /** p lists stage positions, each stage depending on the next one listed. */
  ghost predicate DependencyPath(stages: seq<Stage>, p: seq<int>) {
    && (forall k :: 0 <= k < |p| ==> 0 <= p[k] < |stages|)
    && (forall k :: 0 <= k < |p| - 1 ==> stages[p[k + 1]].id in stages[p[k]].deps)
  }

  /** In a topologically ordered list with distinct ids, following context
      edges always moves strictly towards the front, so no stage can reach
      itself: the dependency graph has no cycle. */
  lemma {:induction false} PathsDescend(stages: seq<Stage>, p: seq<int>)
    requires DistinctIds(stages) && DependenciesPrecede(stages)
    requires DependencyPath(stages, p) && |p| >= 2
    ensures p[|p| - 1] < p[0]
  {
    var i := p[0];
    var d := stages[p[1]].id;
    assert d in stages[i].deps;
    var j :| 0 <= j < i && stages[j].id == d;
    assert p[1] == j;
    if |p| > 2 {
      assert DependencyPath(stages, p[1..]);
      PathsDescend(stages, p[1..]);
    }
  }
}
