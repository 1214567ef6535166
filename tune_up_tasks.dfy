/** The tune-up pipeline (tasks/tune_up_tasks.py, build_tune_up_tasks): a
    user's own itinerary, capped in length, is summarised, verified, polished
    and optionally given a pro-safety pass, each stage reading only the one
    before it. */
module TuneUpTasks {
  import opened PyValues
  import opened Stages

  /** MAX_RAW_ITINERARY_CHARS: the most itinerary text ever sent on. */
  const MaxRawItineraryChars: nat := 2500

  function Min(a: int, b: int): int {
    if a <= b then a else b
  }

  /** `raw_itinerary[:MAX_RAW_ITINERARY_CHARS]`: the prefix of the raw text
      that is as long as the cap allows. */
  function Truncate(raw: string): (t: string)
    ensures |t| == Min(|raw|, MaxRawItineraryChars)
    ensures t == raw[..|t|]
  {
    if |raw| <= MaxRawItineraryChars then raw else raw[..MaxRawItineraryChars]
  }

  /** `date_line`: empty when there is no (truthy) start date, otherwise a
      sentence quoting str() of the date. */
  function DateLine(startDate: Value): (line: string)
    ensures line == "" <==> !Truthy(startDate)
    ensures Truthy(startDate) ==>
      && |line| == |"Trip start date: "| + |Str(startDate)| + 2
      && line[..|"Trip start date: "|] == "Trip start date: "
      && line[|line| - 2..] == ".\n"
      && line[|"Trip start date: "|..|line| - 2] == Str(startDate)
  {
    if Truthy(startDate) then "Trip start date: " + Str(startDate) + ".\n" else ""
  }

  /** A date renders through its str(): "Trip start date: 2024-01-01.\n",
      not its repr(). */
  lemma DateLineOfDate()
    ensures DateLine(VOther("2024-01-01", "datetime.date(2024, 1, 1)", true)) == "Trip start date: 2024-01-01.\n"
  {
  }

  /** The stages build_tune_up_tasks returns: summarise (the only prompt with
      the itinerary), verify, polish, and the pro-safety pass when asked for;
      each stage's context is the stage before it. */
  function TuneUpStages(raw: string, useProSafety: bool, startDate: Value): seq<Stage> {
    var date := DateLine(startDate);
    var summarise := Stage(Summarise, TripVerifier, [], TuneUpPrompt(date, Some(Truncate(raw))));
    var verify := Stage(Verify, TripVerifier, [Summarise], TuneUpPrompt(date, None));
    var polish := Stage(Polish, LocalInsider, [Verify], TuneUpPrompt(date, None));
    var proSafety := Stage(ProSafety, SoloFemaleSafetyAdvisor, [Polish], TuneUpPrompt(date, None));
    [summarise, verify, polish] + (if useProSafety then [proSafety] else [])
  }

  /** build_tune_up_tasks: the three fixed stages, then the pro-safety stage
      appended when use_pro_safety is set. */
  method BuildTuneUpTasks(raw: string, useProSafety: bool, startDate: Value) returns (tasks: seq<Stage>)
    ensures tasks == TuneUpStages(raw, useProSafety, startDate)
  {
    var date := DateLine(startDate);
    var summarise := Stage(Summarise, TripVerifier, [], TuneUpPrompt(date, Some(Truncate(raw))));
    var verify := Stage(Verify, TripVerifier, [Summarise], TuneUpPrompt(date, None));
    var polish := Stage(Polish, LocalInsider, [Verify], TuneUpPrompt(date, None));
    tasks := [summarise, verify, polish];
    if useProSafety {
      var proSafety := Stage(ProSafety, SoloFemaleSafetyAdvisor, [Polish], TuneUpPrompt(date, None));
      tasks := tasks + [proSafety];
    }
  }

  /** Every stage after the first reads exactly the stage before it; the first reads nothing. */
  predicate IsChain(stages: seq<Stage>) {
    && (|stages| > 0 ==> stages[0].deps == [])
    && forall i :: 0 < i < |stages| ==> stages[i].deps == [stages[i - 1].id]
  }

  /** A chain is a topological order. */
  lemma ChainPrecedes(stages: seq<Stage>)
    requires IsChain(stages)
    ensures DependenciesPrecede(stages)
  {
    forall i, d | 0 <= i < |stages| && d in stages[i].deps
      ensures exists j :: 0 <= j < i && stages[j].id == d
    {
      assert i > 0 && stages[i - 1].id == d;
    }
  }

  // ---------------------------------------------------------------------
  // Properties

  /** Text within the cap passes through unchanged; longer text is cut to
      exactly the cap; cutting twice is cutting once. */
  lemma TruncateProperties(raw: string)
    ensures |raw| <= MaxRawItineraryChars ==> Truncate(raw) == raw
    ensures |raw| > MaxRawItineraryChars ==> |Truncate(raw)| == MaxRawItineraryChars
    ensures Truncate(Truncate(raw)) == Truncate(raw)
  {
  }

  /** A 10,000-character itinerary is cut to its first 2,500 characters. */
  lemma LongItineraryExample()
    ensures var raw := seq(10000, i => if i < 2500 then 'a' else 'b');
      Truncate(raw) == seq(2500, i => 'a')
  {
    var raw := seq(10000, i => if i < 2500 then 'a' else 'b');
    assert Truncate(raw) == raw[..2500];
  }

  /** Three stages without the pro-safety pass and four with it, in the
      order summarise, verify, polish, pro-safety; trip verifier, trip
      verifier, local insider, safety advisor. */
  lemma TuneUpOrder(raw: string, useProSafety: bool, startDate: Value)
    ensures var s := TuneUpStages(raw, useProSafety, startDate);
      && |s| == (if useProSafety then 4 else 3)
      && Ids(s) == [Summarise, Verify, Polish] + (if useProSafety then [ProSafety] else [])
      && AgentsOf(s) == [TripVerifier, TripVerifier, LocalInsider]
           + (if useProSafety then [SoloFemaleSafetyAdvisor] else [])
  {
    var s := TuneUpStages(raw, useProSafety, startDate);
    if useProSafety {
      assert Ids(s) == [Summarise, Verify, Polish, ProSafety];
      assert AgentsOf(s) == [TripVerifier, TripVerifier, LocalInsider, SoloFemaleSafetyAdvisor];
    } else {
      assert Ids(s) == [Summarise, Verify, Polish];
      assert AgentsOf(s) == [TripVerifier, TripVerifier, LocalInsider];
    }
  }

  /** The stages form a linear chain, hence a topological order with
      distinct ids and no cycle. */
  lemma TuneUpChain(raw: string, useProSafety: bool, startDate: Value)
    ensures var s := TuneUpStages(raw, useProSafety, startDate);
      && IsChain(s)
      && DistinctIds(s)
      && DependenciesPrecede(s)
      && forall p :: DependencyPath(s, p) && |p| >= 2 ==> p[|p| - 1] < p[0]
  {
    var s := TuneUpStages(raw, useProSafety, startDate);
    assert IsChain(s);
    ChainPrecedes(s);
    forall p | DependencyPath(s, p) && |p| >= 2 ensures p[|p| - 1] < p[0] {
      PathsDescend(s, p);
    }
  }

  /** Only the summarise prompt carries itinerary text, and that text is the
      capped prefix; every prompt carries the same date line. */
  lemma ItineraryOnlyInSummary(raw: string, useProSafety: bool, startDate: Value)
    ensures var s := TuneUpStages(raw, useProSafety, startDate);
      && s[0].payload.itinerary == Some(Truncate(raw))
      && (forall i :: 1 <= i < |s| ==> s[i].payload.itinerary == None)
      && (forall i :: 0 <= i < |s| ==> s[i].payload == TuneUpPrompt(DateLine(startDate), s[i].payload.itinerary))
  {
  }
}
