# smooth_landing in Dafny

smooth_landing plans trips with crews of language-model agents. Everything
the agents do happens inside the CrewAI library; what the repository itself
decides is deterministic:

- which stages a crew runs, in what order and with which `context`
  dependencies;
- the numbers and fixed texts its prompts quote;
- how flight search results are reduced and rendered;
- which agents the Streamlit front end puts in each crew.

This project models those decisions and proves what they promise.

| file | module | models |
|---|---|---|
| `py_values.dfy` | `PyValues` | the Python values the code inspects. It covers truthiness, `dict.get`, `str()`/`repr()`, `int()` on a string, `strip`, `join`, `lower`/`upper`, substring tests and `split(sep)[0]` |
| `seqs.dfy` | `Seqs` | a chain of `if` blocks that each append one item, as a table of (test, item) blocks, with its membership, order and length lemmas, plus uniqueness of a list sorted by a strict rank |
| `stages.dfy` | `Stages` | stage ids, agents, prompt payloads and the stage record `Stage(id, agent, deps, payload)`. It defines topological order and proves that dependency paths descend |
| `core_tasks.dfy` | `CoreTasks` | `build_core_tasks`: the 35/40/25 budget split with per-day rates, and the nine core stages |
| `niche_tasks.dfy` | `NicheTasks` | `build_niche_tasks`: flag-driven selection of overlay stages, with exactly one safety stage |
| `tune_up_tasks.dfy` | `TuneUpTasks` | `build_tune_up_tasks`: the truncated itinerary, the date line and the linear stage chain |
| `flights.dfy` | `Flights` | `search_flights_oneway` (key check, failure dict, parse loop), `search_flights_roundtrip` and `format_flight_options` |
| `app.dfy` | `App` | `_to_text`, the flags the UI sends, the overlay and tune-up agent lists, and how they line up with the task lists |
| `tools.dfy` | `Tools` | `build_safety_profile`, `estimate_route_reasonableness`, the figures of `build_budget_summary_hint`, `describe_season` and `demo_hotel_options` |

How the source's forms are modelled:

- The list-building loops become methods with loop invariants, proved
  equal to specification functions:
  - the chain of `if ...: append` blocks in `build_niche_tasks` and in
    app.py;
  - the parse loop with `continue`;
  - the `output +=` loop.
- Pure branching becomes functions.
- The properties are lemmas about those functions.

Facts the model makes precise:

- **Flights overlay unreachable from the UI.** app.py never sets a
  `flights` flag and never passes a home airport
  (`App.FlightsUnreachable`).
- **Safety agent always present.** The safety advisor is always in the
  overlay crew, so the "No overlays selected" branch cannot run
  (`App.AppAgentsNeverEmpty`).
- **The two visa tests differ.** The UI tests
  `passport_country.strip()`, while the task list tests the truthiness of
  the passport country and the trip purpose. Where both tests agree, the
  two lists match agent for agent (`App.AgentsMatchTasks`). A
  one-space passport gets a visa task but no visa agent
  (`App.VisaTestsDiffer`).
- **Malformed flight answers raise.** The parse loop's `try` covers only
  the building of one offer. A body whose `"itineraries"` is null or an
  object, a body that is not an object, and an itinerary that is not an
  object all raise out of the search, and out of a round trip
  (`Flights.UnreadableBodiesRaise`, `Flights.RoundTripRaises`).

## Model

| member | source | states |
|---|---|---|
| `CoreTasks.Allot` | tasks/core_tasks.py:138-139 | the per-day rate times the day count is the category total |
| `CoreTasks.Allocate` | tasks/core_tasks.py:138-179 | stay, activities and transport are 35%, 40% and 25% of the budget and sum to exactly the budget; for a non-negative budget each lies between 0 and the budget |
| `CoreTasks.BuildCoreTasks` | tasks/core_tasks.py:138-287 | raises ZeroDivisionError exactly when days is 0; otherwise returns the 35/40/25 split of `CoreTasks.Allocate` and the nine core stages, with each rate × days equal to its total and the totals summing to the budget |
| `CoreTasks.CoreStages` | tasks/core_tasks.py:29-287 | computes the nine stages of the returned list with their agents and `context` lists; no contract of its own: `CoreTasks.CoreStagesTopological` and `CoreTasks.CoreDependencyShape` state what it holds |
| `CoreTasks.CoreStagesTopological` | tasks/core_tasks.py:74-287 | nine stages with distinct ids; every context entry names an earlier stage; every dependency path descends, so there is no cycle |
| `CoreTasks.CoreIdsDistinct` | tasks/core_tasks.py:277-287 | no stage id occurs twice in the returned list |
| `CoreTasks.CoreDependencyShape` | tasks/core_tasks.py:74-273 | order research, visa, health, accommodation, activities, transport, coordination, verification, local insights. Research alone has no context. Visa to transport depend only on research. Coordination depends on the six before it, so it reads every earlier stage; verification on coordination, and local insights on verification, visa and health |
| `NicheTasks.Decide` | tasks/niche_tasks.py:44-165 | computes the nine tests of the `if` chain from the flags and traveller data; no contract of its own: `NicheTasks.OverlayPlanMembership` states each test |
| `NicheTasks.OverlayPlan` | tasks/niche_tasks.py:42-196 | computes the overlay ids the chain appends, in block order; no contract of its own: the `NicheTasks.OverlayPlan*` lemmas state membership, order and length |
| `NicheTasks.BuildNicheTasks` | tasks/niche_tasks.py:42-196 | the tasks are, position by position, the overlay stages of the overlay plan: each with its overlay's agent and an empty context |
| `NicheTasks.BlocksInRankOrder` | tasks/niche_tasks.py:44-194 | block k of the `if` chain appends the overlay of rank k, and its test is whether the flags choose that overlay |
| `NicheTasks.OverlayPlanMembership` | tasks/niche_tasks.py:44-165 | safari, halal, nomad, family, medical and luxury are each planned iff their flag is truthy; an absent key counts as unset. Visa is planned iff its flag, the passport country and the trip purpose are all truthy, and flights iff its flag and the home airport are. The solo-female safety stage is planned iff `solo_female` is truthy, the general one iff it is not |
| `NicheTasks.OverlayPlanOnlyOverlays` | tasks/niche_tasks.py:42-196 | only overlay stages are ever planned |
| `NicheTasks.OverlayPlanInOrder` | tasks/niche_tasks.py:44-194 | the plan is strictly ordered safari, halal, nomad, safety, family, medical, luxury, visa, flights, and no overlay occurs twice |
| `NicheTasks.OverlayPlanLength` | tasks/niche_tasks.py:42-196 | the length is 1 plus the number of satisfied optional tests, hence between 1 and 9 |
| `NicheTasks.OverlayPlanCharacterised` | tasks/niche_tasks.py:42-196 | any list in the fixed order that holds exactly the chosen overlays is the plan |
| `NicheTasks.OnlyKnownFlagsMatter` | tasks/niche_tasks.py:44-165 | requests that agree on the nine known flag keys and on the traveller data get the same plan |
| `NicheTasks.NoFlagsExample` | tasks/niche_tasks.py:93-104 | with no flags the plan is the general safety stage alone |
| `NicheTasks.EmptyPassportExample` | tasks/niche_tasks.py:145 | an empty passport country drops the visa stage even with the visa flag set |
| `TuneUpTasks.Truncate` | tasks/tune_up_tasks.py:30 | the result is the prefix of the raw text of length min(length, 2500) |
| `TuneUpTasks.DateLine` | tasks/tune_up_tasks.py:32 | empty iff the start date is falsy; otherwise "Trip start date: ", str() of the date, then ".\n" |
| `TuneUpTasks.TuneUpStages` | tasks/tune_up_tasks.py:48-148 | computes the summarise, verify and polish stages and the optional pro-safety stage; no contract of its own: `TuneUpTasks.TuneUpOrder`, `TuneUpTasks.TuneUpChain` and `TuneUpTasks.ItineraryOnlyInSummary` state what it holds |
| `TuneUpTasks.DateLineOfDate` | tasks/tune_up_tasks.py:32 | a date object renders through its str(): "Trip start date: 2024-01-01.\n" |
| `TuneUpTasks.BuildTuneUpTasks` | tasks/tune_up_tasks.py:118-148 | the result is the specified stage list; the pro-safety stage is appended only when asked for |
| `TuneUpTasks.ChainPrecedes` | tasks/tune_up_tasks.py:90-143 | a chain in which each stage reads only its predecessor is a topological order |
| `TuneUpTasks.TruncateProperties` | tasks/tune_up_tasks.py:30 | text within the cap passes unchanged; longer text is cut to exactly 2500; truncating twice is truncating once |
| `TuneUpTasks.LongItineraryExample` | tasks/tune_up_tasks.py:30 | a 10,000-character itinerary keeps its first 2,500 characters |
| `TuneUpTasks.TuneUpOrder` | tasks/tune_up_tasks.py:118-148 | 3 stages without pro-safety, 4 with it, ordered summarise, verify, polish, pro-safety, with their agents |
| `TuneUpTasks.TuneUpChain` | tasks/tune_up_tasks.py:48-146 | the first stage has no context and each later one reads exactly its predecessor; ids are distinct and there is no cycle |
| `TuneUpTasks.ItineraryOnlyInSummary` | tasks/tune_up_tasks.py:34-138 | only the summarise payload carries itinerary text, namely the truncated text; every payload carries the same date line |
| `Flights.ParseItineraries` | services/flights.py:56-79 | when every entry can be read, the loop returns their offers in order, skipping those without legs or whose `try` block raises; an entry that cannot be read raises |
| `Flights.OnewaySearch` | services/flights.py:23-79 | computes the outcome of a one-way search; no contract of its own: `Flights.OnewayOutcomes`, `Flights.AtMostFive` and `Flights.OnlyTopFive` state it |
| `Flights.SearchOneway` | services/flights.py:23-79 | a missing key raises, a failed request gives the error dict, a body of the wrong shape raises, otherwise the parsed offers |
| `Flights.ParsedOffersAppend` | services/flights.py:54-77 | parsing a concatenation parses each part in input order |
| `Flights.ParsedOffersMembers` | services/flights.py:54-77 | an offer is in the result iff some itinerary parses to it; there are never more offers than itineraries |
| `Flights.ParsedOffersAllParse` | services/flights.py:54-77 | when every itinerary parses, offer k comes from itinerary k |
| `Flights.OnlyTopFive` | services/flights.py:55 | itineraries after the fifth never affect the result |
| `Flights.AtMostFive` | services/flights.py:55 | a search yields at most five offers |
| `Flights.ParseOneReadsFirstLeg` | services/flights.py:57-60 | an itinerary without legs is skipped; otherwise only its first leg is read |
| `Flights.TryOfferFields` | services/flights.py:63-77 | the block succeeds iff the leg and price are objects and the segments are objects with string carriers. Stops is the segment count minus 1 (−1 without segments). Missing carriers read "Unknown"; missing times, duration and amount read "N/A"; the currency defaults to the requested one and the deeplink to "". Each present field is copied as given, and every carrier in the set is the name of some segment |
| `Flights.OnewayOutcomes` | services/flights.py:23-79 | raises iff the key is missing (the RuntimeError with its message) or the decoded body cannot be read (a shape error); a failed request gives the error dict quoting "Flight search failed: " and the exception; a readable body gives offers |
| `Flights.UnreadableBodiesRaise` | services/flights.py:55-57 | a body that cannot be sliced, and a non-object entry among the first five itineraries, make the search raise |
| `Flights.RoundTrip` | services/flights.py:97-115 | computes the round trip: the key test, the outbound search, the return search from destination to origin, and the summary; no contract of its own: the three lemmas below state it |
| `Flights.RoundTripRaises` | services/flights.py:97-99 | a round trip raises iff either search raises: with the missing-key error iff the key is missing, and with the outbound search's exception before the return search's |
| `Flights.RoundTripHoldsBothSearches` | services/flights.py:97-115 | with a key, the round trip succeeds iff each answer is a failed request or a readable body; then it holds both searches, the summary counts are the list lengths (0 for the error dict) and the summary dates are str() of the given dates |
| `Flights.RoundTripSummaryText` | services/flights.py:109-110 | the summary dates are the str() of the given dates: a date object gives its str() text, a string itself |
| `Flights.RoundTripSummaryCounts` | services/flights.py:100-115 | each summary count is the number of offers for that direction, 0 after a failed request, and at most five |
| `Flights.StopsText` | services/flights.py:134 | computes the stop label; no contract of its own: `Flights.StopsLabels` states it |
| `Flights.StopsLabels` | services/flights.py:134 | "Non-stop" iff stops ≤ 0, "1 stop" for one, "n stops" for more |
| `Flights.OptionBlock` | services/flights.py:136-145 | computes the text of option i; no contract of its own: `Flights.BookingLine`, `Flights.StopsLabels` and the rendering lemmas state its parts |
| `Flights.BookingLine` | services/flights.py:144-145 | the booking line is present iff the deeplink is truthy |
| `Flights.FormatFlightOptions` | services/flights.py:129-147 | "No {direction} flights found." for an error dict or an empty list; otherwise the upper-cased header followed by the options numbered from 1 in list order |
| `Flights.AppendOptions` | services/flights.py:133-145 | the loop appends the options' blocks numbered from 1 in list order |
| `Flights.OptionsTextAppend` | services/flights.py:133-145 | rendering a concatenation renders each part, the second numbered on from the first |
| `Flights.NotFoundIsDistinct` | services/flights.py:129-132 | no rendered list can be mistaken for the not-found message |
| `App.ToText` | app.py:33-44 | computes `_to_text`; no contract of its own: `App.ToTextCases` states its cases |
| `App.ToTextCases` | app.py:33-44 | None gives "", a string gives itself, a dict gives str() of "raw", else of "output", else the whole dict's str(); a boolean or integer gives its repr, and any other object its str() text |
| `App.OneEntryDict` | app.py:44 | a dict with one entry under neither key shows as `{`, the repr of the key, `: `, the repr of the value, `}` |
| `PyValues.QuoteFor` | app.py:44 | repr() of a string uses double quotes iff the text holds a single quote and no double quote |
| `PyValues.EscapeChar` | app.py:44 | repr() writes a backslash before a backslash or the chosen quote, and escapes control characters; every other character stands for itself |
| `PyValues.StrReprRoundTrip` | app.py:44 | the text repr() writes between the quotes reads back as the string, so str() of a dict loses no character of a string value |
| `PyValues.StrReprApostrophe` | app.py:44 | the value "it's" shows as `"it's"` |
| `PyValues.StrReprNewline` | app.py:44 | a newline inside a value shows as a backslash and `n` |
| `App.ToTextIdempotent` | app.py:37-38 | applying _to_text to its own result changes nothing |
| `App.ToTextRawWins` | app.py:39-42 | in a dict with both keys, "raw" wins over "output" |
| `App.OverlayAgents` | app.py:345-361 | the loop returns the agents of the append chain |
| `App.AppAgentsCharacterised` | app.py:345-361 | an agent is in the crew iff the UI wants it: safety always, each optional agent iff its toggle is on, and visa iff the toggle is on and the stripped passport country is non-empty, that is, iff it holds a non-whitespace character. Agents come in the order safari, halal, nomad, safety, family, medical, luxury, visa, and none occurs twice |
| `App.AppAgentsNeverEmpty` | app.py:353-369 | the safety advisor is always in the crew, so it is never empty, and the flights advisor never is |
| `App.PlanAgents` | tasks/niche_tasks.py:44-194 | the agents of the planned overlay tasks are exactly those the planner's tests choose, in the overlay order |
| `App.AppChoices` | app.py:244-253 | the request the UI sends decides every toggle as set, visa as toggle and non-empty passport and purpose, and flights as false |
| `App.FlightsUnreachable` | app.py:244-253 | no request from the UI plans the flights overlay |
| `App.AgentsMatchTasks` | app.py:345-361 | for a non-empty trip purpose, and a passport that is empty or not all whitespace, the crew's agents are exactly the agents of the planned tasks, in order |
| `App.VisaTestsDiffer` | app.py:360 | with the visa toggle on and a one-space passport, the visa task is planned but the visa agent is not added |
| `App.TuneAgents` | app.py:475-477 | trip verifier and local insider, plus the safety advisor iff pro-safety is ticked |
| `App.TuneCrewMatchesStages` | app.py:475-477 | the tune-up crew holds exactly the agents the tune-up stages use, one fewer than the stages |
| `Tools.BuildSafetyProfile` | tools.py:31-51 | the profile is the newline join of the specified lines |
| `Tools.SafetyProfileShape` | tools.py:33-51 | header and the four general lines first, the cross-check line last. The solo-female heading and its four lines stand in between iff the lowercased traveller type contains "solo" or "female": 11 lines or 6 |
| `Tools.EstimateRouteReasonableness` | tools.py:54-81 | no stops gives only "No stops provided – route looks empty."; otherwise the newline join of the route lines for the parsed hour |
| `Tools.CollectRouteLines` | tools.py:59-79 | the appended lines are the specified route lines |
| `Tools.RouteLinesShape` | tools.py:59-79 | the stops, then transfers = stops − 1 at 30 minutes each. The late-night line is present iff the hour parses and is ≥ 22, the could-not-parse line iff it does not parse, and the clustering line iff transfers ≥ 4 |
| `Tools.LastHour` | tools.py:67 | the hour of a time without a colon is `int()` of the whole text |
| `Tools.LastHourOfClockTime` | tools.py:67 | a time "h:anything" parses to hour h |
| `Tools.DefaultAndEmptyTimes` | tools.py:54-67 | the default "22:00" parses to 22, which is late; an empty time does not parse |
| `Tools.BudgetHint` | tools.py:96-109 | given per-category values are used as given; the buffer plus the estimate is the budget |
| `Tools.DefaultBudgetBalances` | tools.py:96-109 | with every category defaulted and at least one day, the estimate is exactly the budget and the buffer 0 |
| `Tools.ZeroDayBudget` | tools.py:96-109 | with zero days the per-day divisor is 1, stays, food and activities total 0, and only transport is estimated |
| `Tools.Season` | tools.py:128-135 | the label is one of the four season labels |
| `Tools.DescribeSeason` | tools.py:123-141 | the note names the destination after "For " and the month's season label after the fixed lead-in, with the advice following |
| `Tools.SeasonMapping` | tools.py:128-135 | 12/1/2, 3-5 and 6-8 get winter, spring and summer (north); every other value, out-of-range months too, gets autumn |
| `Tools.HotelTierOf` | tools.py:171-182 | computes the tier of a budget level; no contract of its own: `Tools.HotelTiers` states it |
| `Tools.DemoHotelOptions` | tools.py:169-188 | computes the demo text of the tier; no contract of its own: `Tools.HotelTiers` states it |
| `Tools.HotelTiers` | tools.py:171-188 | exactly "low" and "high" pick their tiers; every other level gets the mid-range text, and the three texts differ |

## Left out

- The Streamlit UI and session state (page layout, widgets, status boxes)
  are presentation. Only the flags, traveller data and agent lists the UI
  computes are modelled.
- `Crew.kickoff()`, the language-model calls and the CrewAI `Task`/`Agent`
  constructors are foreign calls. A task is a `Stage`. Its prompt is
  opaque, except that tune-up prompts record the date line and whether
  they carry the itinerary.
- agents/core_agents.py and agents/niche_agents.py hold static agent
  configuration and are not part of this model; agents are tags.
  tasks/core_tasks.py imports the visa and health advisors from
  agents/core_agents.py, which does not define them, so the source fails
  at import time. The model uses the agent tags regardless.
- HTTP and the environment in services/flights.py are parameters:
  - whether the API key is set (`keySet`);
  - the decoded body or the request exception's message (`fetched`).
  The request parameters, date formatting and timeout are not modelled.
- `Flights.OptionBlock` takes a joining function over the carrier set
  (`joinCarriers`) instead of computing the airline text. The source joins
  a Python `set`, whose iteration order is not determined.
- `Flights.FormatFlightOptions` takes a one-way search result. Other
  inputs are not modelled: a dict without `"error"`, or offers missing
  `stops`.
- `Flights.RoundTripSummaryCounts` and `Flights.RoundTripHoldsBothSearches`
  are stated for a set key only; `Flights.RoundTripRaises` covers the
  missing key.
- The exceptions a malformed body raises (TypeError, AttributeError,
  KeyError) are one `ShapeError`; their messages are not modelled.
- `NicheTasks.BuildNicheTasks` and `App.OverlayAgents` run the source's
  chain of independent `if` blocks as one loop over a table of
  (test, item) blocks. The tests only read inputs, so they are evaluated
  first; the order of appends is kept.
- `CoreTasks.Allot` requires a non-zero day count. `CoreTasks.BuildCoreTasks`
  models the zero case as ZeroDivisionError.
- Floating point is modelled as exact `real` arithmetic. The `:.0f`
  rounding in prompt strings and all other prompt text are not modelled.
- `Tools.DescribeSeason` takes the month as a parameter. The current month
  that `utcnow()` supplies when none is given is a clock read.
- Objects other than None, booleans, integers, strings and dicts (dates,
  floats, lists, Crew results) carry their str() text, repr() text and
  truthiness as data; how Python computes those is not modelled.
- `PyValues.EscapeChar` escapes the backslash, the chosen quote and the
  ASCII control characters. Python's repr() also escapes non-printable
  non-ASCII characters (as `\x`, `\u` or `\U` sequences); that is not
  modelled.
- `PyValues.Lower` and `PyValues.Upper` change ASCII letters only, while
  Python's case mapping covers all of Unicode.
  `Tools.WantsSoloFemale` inherits this.
- `PyValues.ParseInt` accepts what `int()` accepts for ASCII text:
  - surrounding whitespace;
  - a sign;
  - decimal digits with single underscores between them.
  Other Unicode digits and whitespace are not modelled.
- `SerperDevTool` web search, the tool groups in tools.py,
  `build_solo_female_checklist` and `demo_flight_options` are not modelled.
  They are external services or fixed texts that no prompt logic depends
  on.
- main.py (command-line glue) is not part of this model. Neither is
  tasks/pro_safety_tasks.py, one opaque prompt whose only structure is a
  single context dependency.
