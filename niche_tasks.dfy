/** Overlay selection (tasks/niche_tasks.py, build_niche_tasks): feature
    flags and traveller data decide which overlay stages run, in a fixed
    order, with exactly one safety stage always present. */
module NicheTasks {
  import opened PyValues
  import opened Seqs
  import opened Stages

  /** The inputs build_niche_tasks inspects; the prompt-only arguments
      (destination, budget, days, interests, start date) are left out. */
  datatype OverlayRequest = OverlayRequest(
    flags: map<string, Value>,
    passportCountry: Value,
    tripPurpose: Value,
    homeAirport: Value)

  /** `profile_flags.get(key)`: an absent key reads as None. */
  function Get(flags: map<string, Value>, key: string): Value {
    if key in flags then flags[key] else VNone
  }

  predicate FlagSet(flags: map<string, Value>, key: string) {
    Truthy(Get(flags, key))
  }

  /** The flag keys build_niche_tasks reads. */
  const KnownKeys: set<string> :=
    {"safari", "halal", "nomad", "solo_female", "family", "medical", "luxury", "visa", "flights"}

  /** The outcome of each `if` test of build_niche_tasks. */
  datatype Choices = Choices(
    safari: bool, halal: bool, nomad: bool, soloFemale: bool, family: bool,
    medical: bool, luxury: bool, visa: bool, flights: bool)

  /** Evaluates the tests: each flag through `.get` and truthiness; visa also
      needs a truthy passport country and trip purpose, flights a truthy home
      airport. */
  function Decide(req: OverlayRequest): Choices {
    Choices(
      FlagSet(req.flags, "safari"),
      FlagSet(req.flags, "halal"),
      FlagSet(req.flags, "nomad"),
      FlagSet(req.flags, "solo_female"),
      FlagSet(req.flags, "family"),
      FlagSet(req.flags, "medical"),
      FlagSet(req.flags, "luxury"),
      FlagSet(req.flags, "visa") && Truthy(req.passportCountry) && Truthy(req.tripPurpose),
      FlagSet(req.flags, "flights") && Truthy(req.homeAirport))
  }

  /** Rank of an overlay in the order of the `if` blocks of build_niche_tasks;
      the stages that are not overlays rank last. */
  function OverlayRank(id: StageId): int {
    match id
    case Safari => 0
    case Halal => 1
    case Nomad => 2
    case SoloFemaleSafety => 3
    case GeneralSafety => 4
    case Family => 5
    case Medical => 6
    case Luxury => 7
    case OverlayVisa => 8
    case Flights => 9
    case _ => 10
  }

  predicate IsOverlay(id: StageId) {
    OverlayRank(id) < 10
  }

  /** Whether the choices call for an overlay: the safety stage is the
      solo-female variant or the general one, by the solo_female test. */
  predicate Chosen(c: Choices, id: StageId) {
    match id
    case Safari => c.safari
    case Halal => c.halal
    case Nomad => c.nomad
    case SoloFemaleSafety => c.soloFemale
    case GeneralSafety => !c.soloFemale
    case Family => c.family
    case Medical => c.medical
    case Luxury => c.luxury
    case OverlayVisa => c.visa
    case Flights => c.flights
    case _ => false
  }

  /** The agent each overlay task is given (both safety variants use the
      solo-female safety advisor). */
  function OverlayAgent(id: StageId): Agent {
    match id
    case Safari => SafariSpecialist
    case Halal => HalalTravelExpert
    case Nomad => DigitalNomadPlanner
    case Family => FamilyTravelDesigner
    case Medical => MedicalTourismPlanner
    case Luxury => LuxuryOnBudgetFinder
    case OverlayVisa => VisaRequirementsAdvisor
    case Flights => FlightAdvisor
    case _ => SoloFemaleSafetyAdvisor
  }

  /** An overlay task: its agent, no context, opaque prompt. */
  function OverlayStage(id: StageId): Stage {
    Stage(id, OverlayAgent(id), [], Opaque)
  }

  /** The blocks in source order; the safety if/else counts as two blocks
      with opposite tests. */
  function Blocks(c: Choices): seq<Block<StageId>> {
    [Block(c.safari, Safari), Block(c.halal, Halal), Block(c.nomad, Nomad),
     Block(c.soloFemale, SoloFemaleSafety), Block(!c.soloFemale, GeneralSafety),
     Block(c.family, Family), Block(c.medical, Medical), Block(c.luxury, Luxury),
     Block(c.visa, OverlayVisa), Block(c.flights, Flights)]
  }

  /** Block k appends the overlay of rank k, and its test is whether the
      choices call for that overlay. */
  predicate InRankOrder(c: Choices, bs: seq<Block<StageId>>) {
    && |bs| == 10
    && (forall k :: 0 <= k < 10 ==> OverlayRank(bs[k].item) == k)
    && (forall k :: 0 <= k < 10 ==> bs[k].test == Chosen(c, bs[k].item))
  }

  lemma BlocksInRankOrder(c: Choices)
    ensures InRankOrder(c, Blocks(c))
  {
    var bs := Blocks(c);
    forall k | 0 <= k < 10
      ensures OverlayRank(bs[k].item) == k && bs[k].test == Chosen(c, bs[k].item)
    {
      if k == 0 { assert bs[k] == Block(c.safari, Safari); }
      else if k == 1 { assert bs[k] == Block(c.halal, Halal); }
      else if k == 2 { assert bs[k] == Block(c.nomad, Nomad); }
      else if k == 3 { assert bs[k] == Block(c.soloFemale, SoloFemaleSafety); }
      else if k == 4 { assert bs[k] == Block(!c.soloFemale, GeneralSafety); }
      else if k == 5 { assert bs[k] == Block(c.family, Family); }
      else if k == 6 { assert bs[k] == Block(c.medical, Medical); }
      else if k == 7 { assert bs[k] == Block(c.luxury, Luxury); }
      else if k == 8 { assert bs[k] == Block(c.visa, OverlayVisa); }
      else { assert bs[k] == Block(c.flights, Flights); }
    }
  }

  /** The overlay plan of a request: the ids of the overlay stages, in order. */
  function OverlayPlan(req: OverlayRequest): seq<StageId> {
    Appended(Blocks(Decide(req)))
  }

  /** The tasks are the overlay stages of the given ids, position by position:
      each with its overlay's agent and no context. */
  predicate StagesFor(tasks: seq<Stage>, ids: seq<StageId>) {
    |tasks| == |ids| && forall i :: 0 <= i < |tasks| ==> tasks[i] == OverlayStage(ids[i])
  }

  /** build_niche_tasks: start from an empty list and run the `if` blocks in
      order, each appending its overlay task when its test holds. The blocks
      differ only in their test, overlay and (opaque) prompt, so they run as
      one pass over the table of blocks; the tests only read their inputs and
      are evaluated up front by Decide. The result is the overlay stages of
      the overlay plan. */
  method BuildNicheTasks(req: OverlayRequest) returns (tasks: seq<Stage>)
    ensures StagesFor(tasks, OverlayPlan(req))
  {
    var blocks := Blocks(Decide(req));
    tasks := [];
    for k := 0 to |blocks|
      invariant StagesFor(tasks, Appended(blocks[..k]))
    {
      assert blocks[..k + 1][..k] == blocks[..k];
      if blocks[k].test {
        tasks := tasks + [OverlayStage(blocks[k].item)];
      }
    }
    assert blocks[..|blocks|] == blocks;
  }

  // ---------------------------------------------------------------------
  // Properties of the overlay plan

  /** Distinct overlays have distinct ranks. */
  lemma RankIdentifiesOverlay(a: StageId, b: StageId)
    requires IsOverlay(a) && OverlayRank(a) == OverlayRank(b)
    ensures a == b
  {
  }

  /** Blocks in rank order append exactly the overlays the choices call for. */
  lemma PlanMembers(c: Choices, bs: seq<Block<StageId>>)
    requires InRankOrder(c, bs)
    ensures forall id :: id in Appended(bs) <==> IsOverlay(id) && Chosen(c, id)
  {
    AppendedMembers(bs);
    forall id ensures id in Appended(bs) <==> IsOverlay(id) && Chosen(c, id) {
      if IsOverlay(id) {
        var k := OverlayRank(id);
        RankIdentifiesOverlay(id, bs[k].item);
      }
    }
  }

  /** Overlay by overlay, a list holding exactly the chosen overlays. */
  lemma ChosenOneByOne(c: Choices, plan: seq<StageId>)
    requires forall id :: id in plan <==> IsOverlay(id) && Chosen(c, id)
    ensures Safari in plan <==> c.safari
    ensures Halal in plan <==> c.halal
    ensures Nomad in plan <==> c.nomad
    ensures Family in plan <==> c.family
    ensures Medical in plan <==> c.medical
  {
  }

  lemma ChosenOneByOneRest(c: Choices, plan: seq<StageId>)
    requires forall id :: id in plan <==> IsOverlay(id) && Chosen(c, id)
    ensures Luxury in plan <==> c.luxury
    ensures OverlayVisa in plan <==> c.visa
    ensures Flights in plan <==> c.flights
    ensures SoloFemaleSafety in plan <==> c.soloFemale
    ensures GeneralSafety in plan <==> !c.soloFemale
  {
  }

  /** Each optional overlay is in the plan exactly when its test holds:
      absent flag keys read as false; the visa overlay also needs a truthy
      passport country and trip purpose, the flights overlay a truthy home
      airport. Exactly one safety overlay is present, the solo-female one
      exactly when the solo_female flag is set. */
  lemma OverlayPlanMembership(req: OverlayRequest)
    ensures Safari in OverlayPlan(req) <==> FlagSet(req.flags, "safari")
    ensures Halal in OverlayPlan(req) <==> FlagSet(req.flags, "halal")
    ensures Nomad in OverlayPlan(req) <==> FlagSet(req.flags, "nomad")
    ensures Family in OverlayPlan(req) <==> FlagSet(req.flags, "family")
    ensures Medical in OverlayPlan(req) <==> FlagSet(req.flags, "medical")
    ensures Luxury in OverlayPlan(req) <==> FlagSet(req.flags, "luxury")
    ensures OverlayVisa in OverlayPlan(req) <==>
      FlagSet(req.flags, "visa") && Truthy(req.passportCountry) && Truthy(req.tripPurpose)
    ensures Flights in OverlayPlan(req) <==> FlagSet(req.flags, "flights") && Truthy(req.homeAirport)
    ensures SoloFemaleSafety in OverlayPlan(req) <==> FlagSet(req.flags, "solo_female")
    ensures GeneralSafety in OverlayPlan(req) <==> !FlagSet(req.flags, "solo_female")
  {
    var c := Decide(req);
    BlocksInRankOrder(c);
    PlanMembers(c, Blocks(c));
    ChosenOneByOne(c, OverlayPlan(req));
    ChosenOneByOneRest(c, OverlayPlan(req));
  }

  /** Only overlay stages are ever planned. */
  lemma OverlayPlanOnlyOverlays(req: OverlayRequest)
    ensures forall id :: id in OverlayPlan(req) ==> IsOverlay(id)
  {
    BlocksInRankOrder(Decide(req));
    PlanMembers(Decide(req), Blocks(Decide(req)));
  }

  /** The plan follows the fixed order safari, halal, nomad, safety, family,
      medical, luxury, visa, flights: ranks strictly increase along it, so
      no overlay appears twice. */
  lemma OverlayPlanInOrder(req: OverlayRequest)
    ensures StrictlyRanked(OverlayPlan(req), OverlayRank)
    ensures var plan := OverlayPlan(req);
      forall i, j :: 0 <= i < |plan| && 0 <= j < |plan| && i != j ==> plan[i] != plan[j]
  {
    var bs := Blocks(Decide(req));
    BlocksInRankOrder(Decide(req));
    assert BlocksRanked(bs, OverlayRank);
    AppendedRanked(bs, OverlayRank);
    RankedHasNoRepeats(OverlayPlan(req), OverlayRank);
  }

  function B2I(b: bool): nat {
    if b then 1 else 0
  }

  lemma CountStep(bs: seq<Block<StageId>>, k: nat)
    requires k < |bs|
    ensures Count(bs[..k + 1]) == Count(bs[..k]) + B2I(bs[k].test)
  {
    assert bs[..k + 1][..k] == bs[..k];
  }

  /** Ten blocks count the sum of their tests. */
  lemma CountTen(bs: seq<Block<StageId>>)
    requires |bs| == 10
    ensures Count(bs) == B2I(bs[0].test) + B2I(bs[1].test) + B2I(bs[2].test) + B2I(bs[3].test)
      + B2I(bs[4].test) + B2I(bs[5].test) + B2I(bs[6].test) + B2I(bs[7].test) + B2I(bs[8].test)
      + B2I(bs[9].test)
  {
    CountFirstFive(bs);
    CountStep(bs, 5); CountStep(bs, 6); CountStep(bs, 7); CountStep(bs, 8); CountStep(bs, 9);
    assert bs[..10] == bs;
  }

  lemma CountFirstFive(bs: seq<Block<StageId>>)
    requires |bs| == 10
    ensures Count(bs[..5]) == B2I(bs[0].test) + B2I(bs[1].test) + B2I(bs[2].test) + B2I(bs[3].test)
      + B2I(bs[4].test)
  {
    assert Count(bs[..0]) == 0;
    CountStep(bs, 0); CountStep(bs, 1); CountStep(bs, 2); CountStep(bs, 3); CountStep(bs, 4);
  }

  /** One block of the safety pair always holds; each other block counts
      when its test holds. */
  lemma CountBlocks(c: Choices)
    ensures Count(Blocks(c)) == 1 + B2I(c.safari) + B2I(c.halal) + B2I(c.nomad) + B2I(c.family)
      + B2I(c.medical) + B2I(c.luxury) + B2I(c.visa) + B2I(c.flights)
  {
    CountTen(Blocks(c));
  }

  /** The plan holds one safety overlay plus one overlay per satisfied
      optional test, so it is never empty and has at most nine entries. */
  lemma OverlayPlanLength(req: OverlayRequest)
    ensures var c := Decide(req);
      |OverlayPlan(req)| == 1 + B2I(c.safari) + B2I(c.halal) + B2I(c.nomad) + B2I(c.family)
        + B2I(c.medical) + B2I(c.luxury) + B2I(c.visa) + B2I(c.flights)
    ensures 1 <= |OverlayPlan(req)| <= 9
  {
    AppendedLength(Blocks(Decide(req)));
    CountBlocks(Decide(req));
  }

  /** The plan is the only list that holds exactly the chosen overlays in the
      fixed order: the chosen set alone determines it. */
  lemma OverlayPlanCharacterised(req: OverlayRequest, l: seq<StageId>)
    requires StrictlyRanked(l, OverlayRank)
    requires forall id :: id in l <==> IsOverlay(id) && Chosen(Decide(req), id)
    ensures l == OverlayPlan(req)
  {
    BlocksInRankOrder(Decide(req));
    PlanMembers(Decide(req), Blocks(Decide(req)));
    OverlayPlanInOrder(req);
    RankedUnique(l, OverlayPlan(req), OverlayRank);
  }

  /** Flag keys other than the nine the function reads have no effect. */
  lemma OnlyKnownFlagsMatter(r1: OverlayRequest, r2: OverlayRequest)
    requires forall k :: k in KnownKeys ==> Get(r1.flags, k) == Get(r2.flags, k)
    requires r1.passportCountry == r2.passportCountry && r1.tripPurpose == r2.tripPurpose
    requires r1.homeAirport == r2.homeAirport
    ensures OverlayPlan(r1) == OverlayPlan(r2)
  {
    assert Decide(r1) == Decide(r2);
  }

  /** No flags: only the general safety overlay. */
  lemma NoFlagsExample()
    ensures OverlayPlan(OverlayRequest(map[], VNone, VNone, VNone)) == [GeneralSafety]
  {
    var req := OverlayRequest(map[], VNone, VNone, VNone);
    var c := Decide(req);
    assert c == Choices(false, false, false, false, false, false, false, false, false);
    OverlayPlanCharacterised(req, [GeneralSafety]);
  }

  /** The solo_female and visa flags with an empty passport country: the
      visa overlay is dropped and the safety overlay is the solo-female one. */
  lemma EmptyPassportExample()
    ensures OverlayPlan(OverlayRequest(map["solo_female" := VBool(true), "visa" := VBool(true)],
                                      VStr(""), VStr("tourism"), VNone)) == [SoloFemaleSafety]
  {
    var req := OverlayRequest(map["solo_female" := VBool(true), "visa" := VBool(true)],
                              VStr(""), VStr("tourism"), VNone);
    var c := Decide(req);
    assert c == Choices(false, false, false, true, false, false, false, false, false);
    OverlayPlanCharacterised(req, [SoloFemaleSafety]);
  }
}
