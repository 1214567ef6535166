/** The plain helpers of tools.py whose text is injected into prompts: a
    safety profile, a route sanity check, a rough budget breakdown, a season
    label and demo hotel tiers. */
module Tools {
  import opened PyValues

  // ---------------------------------------------------------------------
  // build_safety_profile

  function SafetyHeader(destination: string): string {
    "Safety profile for " + destination + ":"
  }

  const GeneralSafetyLines: seq<string> := [
    "- Check current travel advisories (government sites, recent news).",
    "- Typical risks: pickpocketing, taxi scams, drink spiking in nightlife areas.",
    "- Safer behaviours: stay in busy, well\U{2011}lit areas; avoid deserted streets late at night.",
    "- Prefer official taxis / ride\U{2011}hailing apps with tracking."]

  const SoloFemaleHeading: string := "\nSolo female\U{2013}focused notes:"

  const SoloFemaleLines: seq<string> := [
    "- Prioritise well-reviewed hotels/hostels with many female reviews.",
    "- Avoid shared taxis/ride\U{2011}shares without licence or app tracking.",
    "- Try to arrive in new cities during daylight when possible.",
    "- Join group tours for nightlife or remote activities."]

  const CrossCheckLine: string :=
    "\nAlways cross\U{2011}check with up\U{2011}to\U{2011}date sources (government advisories, local news, recent blogs)."

  /** Whether the traveller type asks for the solo-female block. */
  predicate WantsSoloFemale(travellerType: string) {
    Contains(Lower(travellerType), "solo") || Contains(Lower(travellerType), "female")
  }

  /** The lines of the profile, before joining: the header and the general
      lines, then the solo-female heading and lines when asked for, then the
      cross-check line. */
  function SafetyLines(destination: string, travellerType: string): seq<string> {
    var base := [SafetyHeader(destination)] + GeneralSafetyLines;
    var base := if WantsSoloFemale(travellerType) then base + [SoloFemaleHeading] + SoloFemaleLines else base;
    base + [CrossCheckLine]
  }

  /** build_safety_profile: the header and general lines, the solo-female
      block when asked for, the cross-check line, joined by newlines. */
  method BuildSafetyProfile(destination: string, travellerType: string) returns (profile: string)
    ensures profile == Join("\n", SafetyLines(destination, travellerType))
  {
    var base := [SafetyHeader(destination)] + GeneralSafetyLines;
    if WantsSoloFemale(travellerType) {
      base := base + [SoloFemaleHeading];
      base := base + SoloFemaleLines;
    }
    base := base + [CrossCheckLine];
    profile := Join("\n", base);
  }

  /** The profile always opens with the header and the four general lines
      and closes with the cross-check line; between them stands the
      solo-female heading with its four lines exactly when the lowercased
      traveller type contains "solo" or "female", and nothing otherwise. */
  lemma SafetyProfileShape(destination: string, travellerType: string)
    ensures var l := SafetyLines(destination, travellerType);
      && |l| == (if WantsSoloFemale(travellerType) then 11 else 6)
      && l[0] == SafetyHeader(destination)
      && l[1..5] == GeneralSafetyLines
      && (WantsSoloFemale(travellerType) ==> l[5..10] == [SoloFemaleHeading] + SoloFemaleLines)
      && l[|l| - 1] == CrossCheckLine
  {
    var l := SafetyLines(destination, travellerType);
    var base := [SafetyHeader(destination)] + GeneralSafetyLines;
    assert base[1..] == GeneralSafetyLines;
    if WantsSoloFemale(travellerType) {
      var solo := base + [SoloFemaleHeading] + SoloFemaleLines;
      assert l == solo + [CrossCheckLine];
      assert solo[5..] == [SoloFemaleHeading] + SoloFemaleLines;
      assert l[1..5] == solo[1..5] == base[1..];
      assert l[5..10] == solo[5..];
    } else {
      assert l == base + [CrossCheckLine];
      assert l[1..5] == base[1..];
    }
  }

  // ---------------------------------------------------------------------
  // estimate_route_reasonableness

  const EmptyRouteMessage: string := "No stops provided \U{2013} route looks empty."
  const LateNightLine: string :=
    "Last activity ends after 22:00: ideally keep the final stop close to the accommodation and in a busy, well\U{2011}lit area."
  const UnparsedTimeLine: string := "Could not parse last_activity_time; check late\U{2011}night moves manually."
  const ClusterLine: string := "There are many area changes in one day \U{2013} consider clustering activities by neighbourhood."

  /** Minutes of transit assumed per transfer. */
  const MinutesPerTransfer: int := 30

  /** `int(last_activity_time.split(":")[0])`: None where int() raises. */
  function LastHour(lastActivityTime: string): (hour: Option<int>)
    ensures ':' !in lastActivityTime ==> hour == ParseInt(lastActivityTime)
  {
    var head := SplitHead(lastActivityTime, ':');
    assert ':' !in lastActivityTime ==> head == lastActivityTime;
    ParseInt(head)
  }

  function TransfersLine(transfers: int): string {
    "Approximate transfers: " + DecimalString(transfers) + ", ~"
    + DecimalString(transfers * MinutesPerTransfer) + " minutes total transit."
  }

  /** The lines of a non-empty route's report, before joining, given the
      parsed hour of the last activity (None where int() raises). */
  function RouteLines(stops: seq<string>, hour: Option<int>): seq<string>
    requires |stops| > 0
  {
    var transfers := |stops| - 1;
    var lines := ["Planned stops: " + Join(", ", stops), TransfersLine(transfers)];
    var lines := if hour.None? then lines + [UnparsedTimeLine]
      else if hour.value >= 22 then lines + [LateNightLine] else lines;
    if transfers >= 4 then lines + [ClusterLine] else lines
  }

  /** estimate_route_reasonableness: the fixed message for no stops,
      otherwise the stops, the transfer estimate, the late-night or
      could-not-parse line and the clustering warning, joined by newlines. */
  method EstimateRouteReasonableness(stops: seq<string>, lastActivityTime: string) returns (report: string)
    ensures |stops| == 0 ==> report == EmptyRouteMessage
    ensures |stops| > 0 ==> report == Join("\n", RouteLines(stops, LastHour(lastActivityTime)))
  {
    if |stops| == 0 {
      return EmptyRouteMessage;
    }
    var hour := LastHour(lastActivityTime);
    var lines := CollectRouteLines(stops, hour);
    report := Join("\n", lines);
  }

  /** The list the report is joined from, appended to line by line once the
      hour of the last activity has been parsed (or has failed to parse). */
  method CollectRouteLines(stops: seq<string>, hour: Option<int>) returns (lines: seq<string>)
    requires |stops| > 0
    ensures lines == RouteLines(stops, hour)
  {
    var transfers := |stops| - 1;
    lines := ["Planned stops: " + Join(", ", stops), TransfersLine(transfers)];
    if hour.Some? {
      if hour.value >= 22 {
        lines := lines + [LateNightLine];
      }
    } else {
      lines := lines + [UnparsedTimeLine];
    }
    if transfers >= 4 {
      lines := lines + [ClusterLine];
    }
  }

  /** The report of a non-empty route opens with the stops and the transfer
      estimate, one transfer fewer than stops at thirty minutes each; after
      them come the late-night line exactly when the hour parses and is at
      least 22, the could-not-parse line exactly when it does not parse, and
      the clustering warning exactly when there are four transfers or more. */
  lemma RouteLinesShape(stops: seq<string>, hour: Option<int>)
    requires |stops| > 0
    ensures var l := RouteLines(stops, hour);
      && l[..2] == ["Planned stops: " + Join(", ", stops), TransfersLine(|stops| - 1)]
      && (LateNightLine in l[2..] <==> hour.Some? && hour.value >= 22)
      && (UnparsedTimeLine in l[2..] <==> hour.None?)
      && (ClusterLine in l[2..] <==> |stops| - 1 >= 4)
      && |l| <= 4
  {
    var l := RouteLines(stops, hour);
    var head := ["Planned stops: " + Join(", ", stops), TransfersLine(|stops| - 1)];
    var timed := if hour.None? then head + [UnparsedTimeLine]
      else if hour.value >= 22 then head + [LateNightLine] else head;
    var time := timed[2..];
    var cluster := if |stops| - 1 >= 4 then [ClusterLine] else [];
    assert l == timed + cluster;
    assert l[2..] == time + cluster;
    assert |LateNightLine| == 116 && |UnparsedTimeLine| == 68 && |ClusterLine| == 89;
  }

  /** A time written as an hour, a colon and anything after it parses to
      that hour, whatever follows the colon. */
  lemma LastHourOfClockTime(h: int, rest: string)
    ensures LastHour(DecimalString(h) + ":" + rest) == Some(h)
  {
    var d := DecimalString(h);
    assert ':' !in d by {
      if h < 0 {
        assert d == "-" + Digits(-h);
        assert forall k :: 1 <= k < |d| ==> d[k] == Digits(-h)[k - 1];
      }
    }
    SplitHeadBefore(d, ':', rest);
    ParseIntOfDecimal(h);
  }

  /** The default last activity time "22:00" counts as late; an empty time
      cannot be parsed. */
  lemma DefaultAndEmptyTimes()
    ensures LastHour("22:00") == Some(22)
    ensures LastHour("") == None
  {
    assert DecimalString(22) == "22";
    assert "22:00" == DecimalString(22) + ":" + "00";
    LastHourOfClockTime(22, "00");
  }

  // ---------------------------------------------------------------------
  // build_budget_summary_hint (the figures; their `:.0f` rendering is not modelled)

  datatype BudgetFigures = BudgetFigures(
    accommodationPerNight: real, dailyFood: real, dailyActivities: real, transport: real,
    accommodationTotal: real, foodTotal: real, activitiesTotal: real,
    estimatedTotal: real, buffer: real)

  function MaxInt(a: int, b: int): int {
    if a >= b then a else b
  }

  /** The figures of build_budget_summary_hint: missing per-category values
      default to 45%, 25% and 20% of the budget spread over max(days, 1)
      days and 10% for transport; totals multiply by the real day count. */
  function BudgetHint(
    budget: real, days: int,
    accommodationPerNight: Option<real>, dailyFood: Option<real>,
    dailyActivities: Option<real>, transport: Option<real>): (f: BudgetFigures)
    ensures accommodationPerNight.Some? ==> f.accommodationPerNight == accommodationPerNight.value
    ensures dailyFood.Some? ==> f.dailyFood == dailyFood.value
    ensures dailyActivities.Some? ==> f.dailyActivities == dailyActivities.value
    ensures transport.Some? ==> f.transport == transport.value
    ensures f.buffer + f.estimatedTotal == budget
  {
    var spread := MaxInt(days, 1) as real;
    var acc := if accommodationPerNight.Some? then accommodationPerNight.value else (budget * 0.45) / spread;
    var food := if dailyFood.Some? then dailyFood.value else (budget * 0.25) / spread;
    var act := if dailyActivities.Some? then dailyActivities.value else (budget * 0.20) / spread;
    var trans := if transport.Some? then transport.value else budget * 0.10;
    var accTotal := acc * days as real;
    var foodTotal := food * days as real;
    var actTotal := act * days as real;
    var est := accTotal + foodTotal + actTotal + trans;
    BudgetFigures(acc, food, act, trans, accTotal, foodTotal, actTotal, est, budget - est)
  }

  /** With every category left to the defaults and at least one day, the
      estimate is exactly the budget and the buffer is 0. */
  lemma DefaultBudgetBalances(budget: real, days: int)
    requires days >= 1
    ensures BudgetHint(budget, days, None, None, None, None).estimatedTotal == budget
    ensures BudgetHint(budget, days, None, None, None, None).buffer == 0.0
  {
    var f := BudgetHint(budget, days, None, None, None, None);
    var d := days as real;
    assert f.accommodationTotal == budget * 0.45 by {
      assert f.accommodationPerNight == (budget * 0.45) / d;
    }
    assert f.foodTotal == budget * 0.25 by {
      assert f.dailyFood == (budget * 0.25) / d;
    }
    assert f.activitiesTotal == budget * 0.20 by {
      assert f.dailyActivities == (budget * 0.20) / d;
    }
  }

  /** With zero days and the defaults, only transport is estimated: the
      per-day rates divide by 1 and the stays, food and activities total 0. */
  lemma ZeroDayBudget(budget: real)
    ensures BudgetHint(budget, 0, None, None, None, None).estimatedTotal == budget * 0.10
    ensures BudgetHint(budget, 0, None, None, None, None).accommodationPerNight == budget * 0.45
  {
  }

  // ---------------------------------------------------------------------
  // describe_season

  const Winter: string := "winter (north) / summer (south)"
  const Spring: string := "spring (north) / autumn (south)"
  const Summer: string := "summer (north) / winter (south)"
  const Autumn: string := "autumn (north) / spring (south)"

  /** The season label of a month number; the current month, used when none
      is given, is a parameter here. */
  function Season(month: int): (name: string)
    ensures name == Winter || name == Spring || name == Summer || name == Autumn
  {
    if month in {12, 1, 2} then Winter
    else if month in {3, 4, 5} then Spring
    else if month in {6, 7, 8} then Summer
    else Autumn
  }

  const SeasonLead: string := ", this month likely corresponds to "
  const SeasonAdvice: string :=
    ". Use this to bias clothing and activity suggestions (lighter days in heat, "
    + "more indoor options in rain/cold), then refine with live forecasts via web search."

  /** describe_season: a sentence that names the destination after "For "
      and the season label after the lead-in, with advice following. */
  function DescribeSeason(destination: string, month: int): (note: string)
    ensures |note| > 4 + |destination| + |SeasonLead| + |Season(month)|
    ensures note[..4] == "For " && note[4..4 + |destination|] == destination
    ensures var at := 4 + |destination| + |SeasonLead|; note[at..at + |Season(month)|] == Season(month)
  {
    assert |SeasonAdvice| > 0;
    PartsInPlace("For ", destination, SeasonLead, Season(month), SeasonAdvice);
    "For " + destination + SeasonLead + Season(month) + SeasonAdvice
  }

  /** Where the parts of a five-part concatenation sit. */
  lemma PartsInPlace(a: string, b: string, c: string, d: string, e: string)
    ensures var t := a + b + c + d + e;
      && t[..|a|] == a
      && t[|a|..|a| + |b|] == b
      && t[|a| + |b| + |c|..|a| + |b| + |c| + |d|] == d
      && |t| == |a| + |b| + |c| + |d| + |e|
  {
  }

  /** December to February, March to May and June to August get their own
      labels; every other number, months 9 to 11 and out-of-range values
      alike, gets the autumn label. The four labels differ. */
  lemma SeasonMapping(month: int)
    ensures Season(month) == Winter <==> month == 12 || month == 1 || month == 2
    ensures Season(month) == Spring <==> 3 <= month <= 5
    ensures Season(month) == Summer <==> 6 <= month <= 8
    ensures Season(month) == Autumn <==> !(1 <= month <= 8 || month == 12)
  {
    assert Winter[0] == 'w' && Spring[0] == 's' && Summer[0] == 's' && Autumn[0] == 'a';
    assert Spring[1] == 'p' && Summer[1] == 'u';
  }

  // ---------------------------------------------------------------------
  // demo_hotel_options

  datatype HotelTier = Low | Mid | High

  /** The tier demo_hotel_options picks: only the exact strings "low" and
      "high" pick their tiers; anything else falls back to mid-range. */
  function HotelTierOf(budgetLevel: string): HotelTier {
    if budgetLevel == "low" then Low else if budgetLevel == "high" then High else Mid
  }

  /** demo_hotel_options: the demo text of the tier. */
  function DemoHotelOptions(destination: string, budgetLevel: string): string {
    match HotelTierOf(budgetLevel)
    case Low =>
      "[Demo] Budget stays in " + destination + ":\n"
      + "- Friendly Hostel \U{2013} dorms, ~$25/night.\n"
      + "- Basic Guesthouse \U{2013} private room, ~$45/night.\n"
    case High =>
      "[Demo] Higher-end stays in " + destination + ":\n"
      + "- Grand City Hotel \U{2013} 4\U{2605}, central, ~$220/night.\n"
      + "- Boutique Luxe \U{2013} design hotel, ~$260/night.\n"
    case Mid =>
      "[Demo] Mid-range stays in " + destination + ":\n"
      + "- City Central Hotel \U{2013} 3\U{2605}+, ~$120/night.\n"
      + "- Cozy Boutique Stay \U{2013} ~$150/night.\n"
  }

  /** The three tiers give three different texts, and the fallback covers
      every other level, including the default "mid", other spellings and
      the empty string. */
  lemma HotelTiers(destination: string, level: string)
    ensures HotelTierOf(level) == Mid <==> level != "low" && level != "high"
    ensures DemoHotelOptions(destination, level) == DemoHotelOptions(destination, "mid") <==> HotelTierOf(level) == Mid
    ensures HotelTierOf("Low") == Mid && HotelTierOf("") == Mid
  {
    assert |DemoHotelOptions(destination, "low")| == |destination| + 111;
    assert |DemoHotelOptions(destination, "high")| == |destination| + 121;
    assert |DemoHotelOptions(destination, "mid")| == |destination| + 105;
  }
}
