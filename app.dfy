/** The Streamlit front end (app.py), as far as it decides anything: the
    text it shows for a crew result, the profile flags and traveller data it
    hands to the overlay planner, and the agent lists it gives each crew. */
module App {
  import opened PyValues
  import opened Seqs
  import opened Stages
  import opened NicheTasks
  import opened TuneUpTasks

  // ---------------------------------------------------------------------
  // _to_text

  /** _to_text: None reads as "", a string as itself, a dict as str() of its
      "raw" entry, else of its "output" entry, and anything else as str()
      of the whole value. */
  function ToText(result: Value): string {
    match result
    case VNone => ""
    case VStr(s) => s
    case VDict(entries) =>
      if HasKey(entries, VStr("raw")) then Str(Lookup(entries, VStr("raw")))
      else if HasKey(entries, VStr("output")) then Str(Lookup(entries, VStr("output")))
      else Str(result)
    case _ => Str(result)
  }

  /** The cases of _to_text: "raw" wins over "output" in a dict; a dict with
      neither is rendered whole. */
  lemma ToTextCases(result: Value)
    ensures result.VNone? ==> ToText(result) == ""
    ensures result.VStr? ==> ToText(result) == result.s
    ensures result.VDict? && HasKey(result.entries, VStr("raw")) ==>
      ToText(result) == Str(Lookup(result.entries, VStr("raw")))
    ensures result.VDict? && !HasKey(result.entries, VStr("raw")) && HasKey(result.entries, VStr("output")) ==>
      ToText(result) == Str(Lookup(result.entries, VStr("output")))
    ensures result.VDict? && !HasKey(result.entries, VStr("raw")) && !HasKey(result.entries, VStr("output")) ==>
      ToText(result) == Repr(result)
    ensures (result.VBool? || result.VInt?) ==> ToText(result) == Repr(result)
    ensures result.VOther? ==> ToText(result) == result.text
  {
  }

  /** A dict with one entry under a key other than "raw" and "output"
      shows as the repr of that entry: `{'k': "it's"}` for the key "k" and
      the value "it's" (see StrReprApostrophe). */
  lemma OneEntryDict(key: Value, v: Value)
    requires key != VStr("raw") && key != VStr("output")
    ensures ToText(VDict([Entry(key, v)])) == "{" + Repr(key) + ": " + Repr(v) + "}"
  {
    var whole := VDict([Entry(key, v)]);
    NeitherKey(whole.entries);
    assert EntriesRepr(whole, whole.entries) == Repr(key) + ": " + Repr(v);
  }

  lemma NeitherKey(es: seq<Entry>)
    requires |es| == 1 && es[0].key != VStr("raw") && es[0].key != VStr("output")
    ensures !HasKey(es, VStr("raw")) && !HasKey(es, VStr("output"))
  {
  }

  /** Text that _to_text produced is left as it is by a second pass. */
  lemma ToTextIdempotent(result: Value)
    ensures ToText(VStr(ToText(result))) == ToText(result)
  {
  }

  /** A dict holding both keys shows its "raw" entry. */
  lemma ToTextRawWins()
    ensures ToText(VDict([Entry(VStr("output"), VStr("o")), Entry(VStr("raw"), VStr("r"))])) == "r"
  {
    var es := [Entry(VStr("output"), VStr("o")), Entry(VStr("raw"), VStr("r"))];
    assert es[1].key == VStr("raw");
    ToTextCases(VDict(es));
  }

  // ---------------------------------------------------------------------
  // The overlay tab

  /** The eight profile toggles of the overlay tab. */
  datatype Toggles = Toggles(
    safari: bool, halal: bool, nomad: bool, soloFemale: bool,
    family: bool, medical: bool, luxury: bool, visa: bool)

  /** `profile_flags` as the app builds it: eight booleans, no "flights" key. */
  function AppFlags(t: Toggles): map<string, Value> {
    map["safari" := VBool(t.safari), "halal" := VBool(t.halal), "nomad" := VBool(t.nomad),
        "solo_female" := VBool(t.soloFemale), "family" := VBool(t.family),
        "medical" := VBool(t.medical), "luxury" := VBool(t.luxury), "visa" := VBool(t.visa)]
  }

  /** The call to build_niche_tasks: the flags, the passport text field and
      the trip purpose; no home airport is passed, so it is None. */
  function AppRequest(t: Toggles, passport: string, purpose: string): OverlayRequest {
    OverlayRequest(AppFlags(t), VStr(passport), VStr(purpose), VNone)
  }

  /** The order in which the app appends overlay agents; the safety advisor
      takes the safety slot, and agents that are not overlay agents rank last. */
  function AgentRank(a: Agent): int {
    match a
    case SafariSpecialist => 0
    case HalalTravelExpert => 1
    case DigitalNomadPlanner => 2
    case SoloFemaleSafetyAdvisor => 3
    case FamilyTravelDesigner => 5
    case MedicalTourismPlanner => 6
    case LuxuryOnBudgetFinder => 7
    case VisaRequirementsAdvisor => 8
    case FlightAdvisor => 9
    case _ => 10
  }

  /** The `if` blocks of the overlay agent list (app.py:345-361) in source
      order; the safety advisor's block always holds, and the visa block
      tests the stripped passport text. */
  function AppBlocks(t: Toggles, passport: string): seq<Block<Agent>> {
    [Block(t.safari, SafariSpecialist), Block(t.halal, HalalTravelExpert),
     Block(t.nomad, DigitalNomadPlanner), Block(true, SoloFemaleSafetyAdvisor),
     Block(t.family, FamilyTravelDesigner), Block(t.medical, MedicalTourismPlanner),
     Block(t.luxury, LuxuryOnBudgetFinder), Block(t.visa && Strip(passport) != "", VisaRequirementsAdvisor)]
  }

  /** The overlay agent list: start empty and run the blocks in order. As in
      the overlay planner, the blocks differ only in test and agent, so they
      run as one pass over the table. */
  method OverlayAgents(t: Toggles, passport: string) returns (agents: seq<Agent>)
    ensures agents == Appended(AppBlocks(t, passport))
  {
    var blocks := AppBlocks(t, passport);
    agents := [];
    for k := 0 to |blocks|
      invariant agents == Appended(blocks[..k])
    {
      assert blocks[..k + 1][..k] == blocks[..k];
      if blocks[k].test {
        agents := agents + [blocks[k].item];
      }
    }
    assert blocks[..|blocks|] == blocks;
  }

  /** Whether the app's agent list holds an agent. */
  predicate AppWants(t: Toggles, passport: string, a: Agent) {
    match a
    case SafariSpecialist => t.safari
    case HalalTravelExpert => t.halal
    case DigitalNomadPlanner => t.nomad
    case SoloFemaleSafetyAdvisor => true
    case FamilyTravelDesigner => t.family
    case MedicalTourismPlanner => t.medical
    case LuxuryOnBudgetFinder => t.luxury
    case VisaRequirementsAdvisor => t.visa && Strip(passport) != ""
    case _ => false
  }

  lemma AppBlocksShape(t: Toggles, passport: string)
    ensures |AppBlocks(t, passport)| == 8
    ensures forall k :: 0 <= k < 8 ==>
      && AgentRank(AppBlocks(t, passport)[k].item) == (if k < 4 then k else k + 1)
      && AppBlocks(t, passport)[k].test == AppWants(t, passport, AppBlocks(t, passport)[k].item)
  {
    var bs := AppBlocks(t, passport);
    forall k | 0 <= k < 8
      ensures AgentRank(bs[k].item) == (if k < 4 then k else k + 1)
      ensures bs[k].test == AppWants(t, passport, bs[k].item)
    {
      if k == 0 { assert bs[k].item == SafariSpecialist; }
      else if k == 1 { assert bs[k].item == HalalTravelExpert; }
      else if k == 2 { assert bs[k].item == DigitalNomadPlanner; }
      else if k == 3 { assert bs[k].item == SoloFemaleSafetyAdvisor; }
      else if k == 4 { assert bs[k].item == FamilyTravelDesigner; }
      else if k == 5 { assert bs[k].item == MedicalTourismPlanner; }
      else if k == 6 { assert bs[k].item == LuxuryOnBudgetFinder; }
      else { assert bs[k].item == VisaRequirementsAdvisor; }
    }
  }

  /** The app's agent list holds exactly the agents it wants, in the order
      safari, halal, nomad, safety, family, medical, luxury, visa, with no
      agent twice. */
  lemma AppAgentsCharacterised(t: Toggles, passport: string)
    ensures forall a :: a in Appended(AppBlocks(t, passport)) <==> AppWants(t, passport, a)
    ensures StrictlyRanked(Appended(AppBlocks(t, passport)), AgentRank)
    ensures var agents := Appended(AppBlocks(t, passport));
      forall i, j :: 0 <= i < |agents| && 0 <= j < |agents| && i != j ==> agents[i] != agents[j]
    ensures VisaRequirementsAdvisor in Appended(AppBlocks(t, passport)) <==>
      t.visa && exists k :: 0 <= k < |passport| && !IsSpace(passport[k])
  {
    var bs := AppBlocks(t, passport);
    AppBlocksShape(t, passport);
    AppendedMembers(bs);
    forall a ensures a in Appended(bs) <==> AppWants(t, passport, a) {
      if AppWants(t, passport, a) {
        match a
        case SafariSpecialist => assert bs[0].item == a;
        case HalalTravelExpert => assert bs[1].item == a;
        case DigitalNomadPlanner => assert bs[2].item == a;
        case SoloFemaleSafetyAdvisor => assert bs[3].item == a;
        case FamilyTravelDesigner => assert bs[4].item == a;
        case MedicalTourismPlanner => assert bs[5].item == a;
        case LuxuryOnBudgetFinder => assert bs[6].item == a;
        case VisaRequirementsAdvisor => assert bs[7].item == a;
      }
    }
    assert BlocksRanked(bs, AgentRank);
    AppendedRanked(bs, AgentRank);
    RankedHasNoRepeats(Appended(bs), AgentRank);
    StripNonEmptyIff(passport);
  }

  /** The safety advisor is always in the list, so it is never empty and
      the "No overlays selected" branch (app.py:363-369) cannot run; the
      flight advisor is never in it. */
  lemma AppAgentsNeverEmpty(t: Toggles, passport: string)
    ensures SoloFemaleSafetyAdvisor in Appended(AppBlocks(t, passport))
    ensures |Appended(AppBlocks(t, passport))| >= 1
    ensures FlightAdvisor !in Appended(AppBlocks(t, passport))
  {
    AppAgentsCharacterised(t, passport);
  }

  // ---------------------------------------------------------------------
  // The app's agents against the planner's tasks

  /** The agents of a list of overlay stages, in order. */
  function TaskAgents(ids: seq<StageId>): (agents: seq<Agent>)
    ensures |agents| == |ids|
  {
    seq(|ids|, i requires 0 <= i < |ids| => OverlayAgent(ids[i]))
  }

  /** Whether the tasks planned for some choices use an agent. */
  predicate PlanWants(c: Choices, a: Agent) {
    match a
    case SafariSpecialist => c.safari
    case HalalTravelExpert => c.halal
    case DigitalNomadPlanner => c.nomad
    case SoloFemaleSafetyAdvisor => true
    case FamilyTravelDesigner => c.family
    case MedicalTourismPlanner => c.medical
    case LuxuryOnBudgetFinder => c.luxury
    case VisaRequirementsAdvisor => c.visa
    case FlightAdvisor => c.flights
    case _ => false
  }

  /** The overlay that gives an agent its task under some choices. */
  function OverlayOf(c: Choices, a: Agent): StageId {
    match a
    case SafariSpecialist => Safari
    case HalalTravelExpert => Halal
    case DigitalNomadPlanner => Nomad
    case FamilyTravelDesigner => Family
    case MedicalTourismPlanner => Medical
    case LuxuryOnBudgetFinder => Luxury
    case VisaRequirementsAdvisor => OverlayVisa
    case FlightAdvisor => Flights
    case _ => if c.soloFemale then SoloFemaleSafety else GeneralSafety
  }

  /** An overlay's agent ranks where its overlay does, the general safety
      overlay sharing the solo-female slot. */
  lemma AgentRankOfOverlay(id: StageId)
    requires IsOverlay(id)
    ensures AgentRank(OverlayAgent(id)) == (if id == GeneralSafety then 3 else OverlayRank(id))
  {
  }

  /** A chosen overlay's agent is wanted by the choices. */
  lemma AgentOfChosen(c: Choices, id: StageId)
    requires IsOverlay(id) && Chosen(c, id)
    ensures PlanWants(c, OverlayAgent(id))
  {
  }

  /** A wanted agent gets its task from a chosen overlay. */
  lemma OverlayOfWanted(c: Choices, a: Agent)
    requires PlanWants(c, a)
    ensures IsOverlay(OverlayOf(c, a)) && Chosen(c, OverlayOf(c, a)) && OverlayAgent(OverlayOf(c, a)) == a
  {
  }

  /** The planned tasks' agents are exactly the agents the choices call for. */
  lemma PlanAgentMembers(c: Choices, plan: seq<StageId>)
    requires forall id :: id in plan <==> IsOverlay(id) && Chosen(c, id)
    ensures forall a :: a in TaskAgents(plan) <==> PlanWants(c, a)
  {
    var m := TaskAgents(plan);
    forall a ensures a in m <==> PlanWants(c, a) {
      if a in m {
        var i :| 0 <= i < |m| && m[i] == a;
        assert plan[i] in plan;
        AgentOfChosen(c, plan[i]);
      }
      if PlanWants(c, a) {
        OverlayOfWanted(c, a);
        var id := OverlayOf(c, a);
        var i :| 0 <= i < |plan| && plan[i] == id;
        assert m[i] == a;
      }
    }
  }

  /** Two chosen overlays in plan order have agents in the app's order. */
  lemma ChosenPairRanked(c: Choices, x: StageId, y: StageId)
    requires IsOverlay(x) && Chosen(c, x) && IsOverlay(y) && Chosen(c, y)
    requires OverlayRank(x) < OverlayRank(y)
    ensures AgentRank(OverlayAgent(x)) < AgentRank(OverlayAgent(y))
  {
    AgentRankOfOverlay(x);
    AgentRankOfOverlay(y);
    assert OverlayRank(x) == 3 ==> x == SoloFemaleSafety;
    assert OverlayRank(y) == 4 ==> y == GeneralSafety;
  }

  /** The planned tasks' agents follow the app's order without repeats:
      the two safety overlays share a rank but are never both planned. */
  lemma PlanAgentsRanked(c: Choices, plan: seq<StageId>)
    requires forall id :: id in plan <==> IsOverlay(id) && Chosen(c, id)
    requires StrictlyRanked(plan, OverlayRank)
    ensures StrictlyRanked(TaskAgents(plan), AgentRank)
  {
    var m := TaskAgents(plan);
    forall i, j | 0 <= i < j < |m| ensures AgentRank(m[i]) < AgentRank(m[j]) {
      assert plan[i] in plan && plan[j] in plan;
      ChosenPairRanked(c, plan[i], plan[j]);
    }
  }

  /** The agents of the planned tasks: the ones the choices call for, in
      the app's order. */
  lemma PlanAgents(req: OverlayRequest)
    ensures forall a :: a in TaskAgents(OverlayPlan(req)) <==> PlanWants(Decide(req), a)
    ensures StrictlyRanked(TaskAgents(OverlayPlan(req)), AgentRank)
  {
    var c := Decide(req);
    BlocksInRankOrder(c);
    PlanMembers(c, Blocks(c));
    OverlayPlanInOrder(req);
    PlanAgentMembers(c, OverlayPlan(req));
    PlanAgentsRanked(c, OverlayPlan(req));
  }

  /** The app and the planner want the same agents when they agree on the visa test. */
  lemma WantsAgree(t: Toggles, passport: string, c: Choices)
    requires c == Choices(t.safari, t.halal, t.nomad, t.soloFemale, t.family, t.medical, t.luxury,
                          t.visa && Strip(passport) != "", false)
    ensures forall a :: AppWants(t, passport, a) == PlanWants(c, a)
  {
  }

  lemma AppFlagsFirst(t: Toggles)
    ensures Get(AppFlags(t), "safari") == VBool(t.safari) && Get(AppFlags(t), "halal") == VBool(t.halal)
    ensures Get(AppFlags(t), "nomad") == VBool(t.nomad) && Get(AppFlags(t), "solo_female") == VBool(t.soloFemale)
  {
  }

  lemma AppFlagsSecond(t: Toggles)
    ensures Get(AppFlags(t), "family") == VBool(t.family) && Get(AppFlags(t), "medical") == VBool(t.medical)
    ensures Get(AppFlags(t), "luxury") == VBool(t.luxury) && Get(AppFlags(t), "visa") == VBool(t.visa)
    ensures Get(AppFlags(t), "flights") == VNone
  {
  }

  /** What the planner decides for the app's request: each flag as toggled,
      the visa test on the raw passport and purpose text, never flights. */
  lemma AppChoices(t: Toggles, passport: string, purpose: string)
    ensures Decide(AppRequest(t, passport, purpose)) == Choices(
      t.safari, t.halal, t.nomad, t.soloFemale, t.family, t.medical, t.luxury,
      t.visa && passport != "" && purpose != "", false)
  {
    AppFlagsFirst(t);
    AppFlagsSecond(t);
  }

  /** The flights overlay can never be planned from the app: it sets no
      "flights" flag and passes no home airport. */
  lemma FlightsUnreachable(t: Toggles, passport: string, purpose: string)
    ensures Flights !in OverlayPlan(AppRequest(t, passport, purpose))
  {
    AppChoices(t, passport, purpose);
    OverlayPlanMembership(AppRequest(t, passport, purpose));
  }

  /** When the trip purpose is non-empty and the passport text is empty or
      has a non-space character, the app's crew agents are exactly the
      agents of the planned overlay tasks, task by task. */
  lemma AgentsMatchTasks(t: Toggles, passport: string, purpose: string)
    requires purpose != ""
    requires passport == "" || Strip(passport) != ""
    ensures Appended(AppBlocks(t, passport)) == TaskAgents(OverlayPlan(AppRequest(t, passport, purpose)))
  {
    var req := AppRequest(t, passport, purpose);
    AppChoices(t, passport, purpose);
    assert Strip("") == "";
    WantsAgree(t, passport, Decide(req));
    PlanAgents(req);
    AppAgentsCharacterised(t, passport);
    RankedUnique(Appended(AppBlocks(t, passport)), TaskAgents(OverlayPlan(req)), AgentRank);
  }

  /** The two visa tests differ: with the visa toggle on and a passport of
      one space, a visa task is planned but no visa agent joins the crew. */
  lemma VisaTestsDiffer()
    ensures var t := Toggles(false, false, false, false, false, false, false, true);
      && OverlayVisa in OverlayPlan(AppRequest(t, " ", "tourism"))
      && VisaRequirementsAdvisor !in Appended(AppBlocks(t, " "))
  {
    var t := Toggles(false, false, false, false, false, false, false, true);
    AppChoices(t, " ", "tourism");
    OverlayPlanMembership(AppRequest(t, " ", "tourism"));
    assert Strip(" ") == "";
    AppAgentsCharacterised(t, " ");
  }

  // ---------------------------------------------------------------------
  // The tune-up tab

  /** The tune-up crew's agents: trip verifier and local insider, then the
      safety advisor when the pro-safety box is ticked. */
  function TuneAgentList(useProSafety: bool): seq<Agent> {
    [TripVerifier, LocalInsider] + (if useProSafety then [SoloFemaleSafetyAdvisor] else [])
  }

  /** The tune-up agent list as app.py:475-477 builds it. */
  method TuneAgents(useProSafety: bool) returns (agents: seq<Agent>)
    ensures agents == TuneAgentList(useProSafety)
  {
    agents := [TripVerifier, LocalInsider];
    if useProSafety {
      agents := agents + [SoloFemaleSafetyAdvisor];
    }
  }

  /** The crew holds exactly the agents the tune-up stages use, one fewer
      than there are stages (the trip verifier runs two). */
  lemma TuneCrewMatchesStages(raw: string, useProSafety: bool, startDate: Value)
    ensures var s := TuneUpStages(raw, useProSafety, startDate);
      && (forall a :: a in TuneAgentList(useProSafety) <==> a in AgentsOf(s))
      && |s| == |TuneAgentList(useProSafety)| + 1
  {
    TuneUpOrder(raw, useProSafety, startDate);
  }
}
