/** Flight search results (services/flights.py): the decoded provider
    response is reduced to at most five offers with defaults filled in, a
    round trip pairs two one-way searches with a summary, and offers are
    rendered as text. The HTTP request itself is a parameter: its decoded
    body, or the message of the exception it raised. */
module Flights {
  import opened PyValues

  // ---------------------------------------------------------------------
  // The decoded response, as far as the parser reads it. `Option` fields are
  // keys that may be missing; `None` means the key is absent.

  /** One entry of a leg's "segments" list. `SegmentOther` is an entry that
      is not an object, on which `.get` raises. */
  datatype Segment = SegmentDict(carrier: Option<Value>) | SegmentOther

  /** A leg's "segments": absent, a list, or another value that makes the
      set comprehension or len() raise (null, a number, a boolean, a
      non-empty string or object; an empty string or object behaves as an
      empty list and is written `SegmentList([])`). */
  datatype Segments = SegmentsAbsent | SegmentList(items: seq<Segment>) | SegmentsOther

  /** A leg: an object with the fields the parser reads, or another value,
      on which `.get` raises. */
  datatype Leg =
    | LegDict(segments: Segments, departure: Option<Value>, arrival: Option<Value>, duration: Option<Value>)
    | LegOther

  /** An itinerary's "price": an object (a missing key reads as `{}`), or
      another value, on which `.get` raises. */
  datatype Price = PriceDict(amount: Option<Value>, currencyCode: Option<Value>) | PriceOther

  /** An entry of "itineraries". `Itinerary` is an object; a missing, null
      or empty "legs" is the empty list, and a non-empty string is a list
      of legs that are not objects. `ItineraryUnreadable` is an entry
      on which the loop raises before its `try`: one that is not an object
      (`.get` raises AttributeError), or an object whose "legs" is truthy but
      cannot be indexed with 0 (a number, a dict without the key 0). */
  datatype Itinerary =
    | Itinerary(legs: seq<Leg>, price: Price, deeplink: Option<Value>)
    | ItineraryUnreadable

  /** The decoded body. `Response` is an object whose "itineraries" is a
      list (a missing key or an empty string reads as the empty list; a
      non-empty string is a list of entries that are not objects).
      `ResponseUnreadable` is a body on which `data.get("itineraries", [])[:5]`
      raises: a JSON array, string, number or null (AttributeError), or an
      object whose "itineraries" is null, a number, a boolean or an object
      (TypeError). */
  datatype Response = Response(itineraries: seq<Itinerary>) | ResponseUnreadable

  /** One parsed offer. The airline text is `", ".join` over a Python set,
      whose order is not determined, so the offer keeps the set of carrier
      names and rendering is given the joining as a parameter. */
  datatype Offer = Offer(
    carriers: set<string>,
    departure: Value,
    arrival: Value,
    duration: Value,
    stops: int,
    price: Value,
    currency: Value,
    deeplink: Value)

  /** What search_flights_oneway returns: the list of offers, or the
      `{"error": ..., "results": []}` dict after a failed request. */
  datatype SearchResult = Offers(offers: seq<Offer>) | SearchFailed(error: string)

  /** What a search raises: the RuntimeError of a missing API key, or the
      TypeError, AttributeError or KeyError the parse loop raises, outside
      its `try`, on a body of the wrong shape. */
  datatype SearchError = RuntimeError(message: string) | ShapeError

  const MaxOffers: nat := 5
  const MissingKeyMessage: string := "SKYSCANNER_API_KEY not set in environment"
  const FailurePrefix: string := "Flight search failed: "

  /** `d.get(key, default)`. */
  function GetOr(field: Option<Value>, default: Value): Value {
    if field.Some? then field.value else default
  }

  function SegmentItems(s: Segments): seq<Segment>
    requires !s.SegmentsOther?
  {
    if s.SegmentList? then s.items else []
  }

  /** A segment the comprehension can read: an object whose carrier, if
      present, is a string (anything else fails to hash or to join). */
  predicate ReadableSegment(s: Segment) {
    s.SegmentDict? && (s.carrier.None? || s.carrier.value.VStr?)
  }

  function CarrierName(s: Segment): string
    requires ReadableSegment(s)
  {
    if s.carrier.Some? then s.carrier.value.s else "Unknown"
  }

  function Carriers(segs: seq<Segment>): set<string>
    requires forall k :: 0 <= k < |segs| ==> ReadableSegment(segs[k])
  {
    set k | 0 <= k < |segs| :: CarrierName(segs[k])
  }

  /** The `try` block building one offer from the first leg: `None` where
      it raises (and the loop continues). */
  function TryOffer(leg: Leg, price: Price, deeplink: Option<Value>, currency: Value): Option<Offer> {
    if leg.LegOther? || leg.segments.SegmentsOther? || price.PriceOther? then None
    else
      var segs := SegmentItems(leg.segments);
      if exists k :: 0 <= k < |segs| && !ReadableSegment(segs[k]) then None
      else Some(Offer(
        Carriers(segs),
        GetOr(leg.departure, VStr("N/A")),
        GetOr(leg.arrival, VStr("N/A")),
        GetOr(leg.duration, VStr("N/A")),
        |segs| - 1,
        GetOr(price.amount, VStr("N/A")),
        GetOr(price.currencyCode, currency),
        GetOr(deeplink, VStr(""))))
  }

  /** One pass of the loop body: an itinerary without legs is skipped,
      otherwise only its first leg is read. */
  function ParseOne(it: Itinerary, currency: Value): Option<Offer> {
    if it.ItineraryUnreadable? || it.legs == [] then None else TryOffer(it.legs[0], it.price, it.deeplink, currency)
  }

  /** The offers of the itineraries, in order. */
  function ParsedOffers(its: seq<Itinerary>, currency: Value): seq<Offer> {
    if |its| == 0 then []
    else
      var last := ParseOne(its[|its| - 1], currency);
      ParsedOffers(its[..|its| - 1], currency) + (if last.Some? then [last.value] else [])
  }

  /** `itineraries[:5]`. */
  function TopItineraries(data: Response): seq<Itinerary>
    requires data.Response?
  {
    if |data.itineraries| <= MaxOffers then data.itineraries else data.itineraries[..MaxOffers]
  }

  /** Each entry can be read by the loop. */
  predicate AllReadable(its: seq<Itinerary>) {
    forall k :: 0 <= k < |its| ==> its[k].Itinerary?
  }

  /** The loop gets through the body without raising outside its `try`:
      the list can be sliced and each of its first five entries read. */
  predicate ReadableBody(data: Response) {
    data.Response? && AllReadable(TopItineraries(data))
  }

  /** The parse loop of search_flights_oneway (lines 54-79) over the first
      five itineraries: the offers, or the exception an entry that cannot
      be read raises. */
  method ParseItineraries(its: seq<Itinerary>, currency: Value) returns (r: Result<seq<Offer>, SearchError>)
    ensures AllReadable(its) ==> r == Ok(ParsedOffers(its, currency))
    ensures !AllReadable(its) ==> r == Raised(ShapeError)
  {
    var results := [];
    for i := 0 to |its|
      invariant results == ParsedOffers(its[..i], currency)
      invariant AllReadable(its[..i])
    {
      assert its[..i + 1][..i] == its[..i];
      var it := its[i];
      if it.ItineraryUnreadable? {
        return Raised(ShapeError);
      }
      if it.legs == [] {
        continue;
      }
      var offer := TryOffer(it.legs[0], it.price, it.deeplink, currency);
      if offer.Some? {
        results := results + [offer.value];
      }
    }
    assert its[..|its|] == its;
    r := Ok(results);
  }

  /** search_flights_oneway: raises RuntimeError when no API key is set;
      a failed request becomes the error dict quoting the exception; a body
      of the wrong shape raises; otherwise the parsed offers. `fetched` is
      the decoded body or the request exception's message. */
  function OnewaySearch(keySet: bool, fetched: Result<Response, string>, currency: Value): Result<SearchResult, SearchError> {
    if !keySet then Raised(RuntimeError(MissingKeyMessage))
    else if fetched.Raised? then Ok(SearchFailed(FailurePrefix + fetched.error))
    else if !ReadableBody(fetched.value) then Raised(ShapeError)
    else Ok(Offers(ParsedOffers(TopItineraries(fetched.value), currency)))
  }

  /** The method form of search_flights_oneway, running the parse loop. */
  method SearchOneway(keySet: bool, fetched: Result<Response, string>, currency: Value)
    returns (r: Result<SearchResult, SearchError>)
    ensures r == OnewaySearch(keySet, fetched, currency)
  {
    if !keySet {
      return Raised(RuntimeError(MissingKeyMessage));
    }
    if fetched.Raised? {
      return Ok(SearchFailed(FailurePrefix + fetched.error));
    }
    if fetched.value.ResponseUnreadable? {
      return Raised(ShapeError);
    }
    var parsed := ParseItineraries(TopItineraries(fetched.value), currency);
    if parsed.Raised? {
      return Raised(parsed.error);
    }
    r := Ok(Offers(parsed.value));
  }

  // ---------------------------------------------------------------------
  // Round trip

  datatype Summary = Summary(
    route: string, outboundDate: string, returnDate: string, adults: Value,
    outboundOptions: nat, returnOptions: nat)

  datatype RoundTripResult = RoundTripResult(outbound: SearchResult, inbound: SearchResult, summary: Summary)

  /** `len(results) if isinstance(results, list) else 0`. */
  function OptionCount(r: SearchResult): nat {
    if r.Offers? then |r.offers| else 0
  }

  /** search_flights_roundtrip: the key test first, then one search each
      way (the return search from destination back to origin), and the
      summary dict. An exception of the outbound search propagates before
      the return search runs; one of the return search propagates too. */
  function RoundTrip(
    keySet: bool, origin: Value, destination: Value, outboundDate: Value, returnDate: Value,
    adults: Value, outFetched: Result<Response, string>, backFetched: Result<Response, string>,
    currency: Value): (r: Result<RoundTripResult, SearchError>)
  {
    if !keySet then Raised(RuntimeError(MissingKeyMessage))
    else
      var out := OnewaySearch(keySet, outFetched, currency);
      if out.Raised? then Raised(out.error)
      else
      var back := OnewaySearch(keySet, backFetched, currency);
      if back.Raised? then Raised(back.error)
      else
      Ok(RoundTripResult(out.value, back.value, Summary(
        Str(origin) + " → " + Str(destination) + " → " + Str(origin),
        Str(outboundDate), Str(returnDate), adults,
        OptionCount(out.value), OptionCount(back.value))))
  }

  // ---------------------------------------------------------------------
  // Rendering

  /** The stop label: "Non-stop" for zero or fewer stops, "1 stop", "n stops". */
  function StopsText(stops: int): string {
    if stops > 0 then DecimalString(stops) + " stop" + (if stops != 1 then "s" else "") else "Non-stop"
  }

  /** The booking line, present only for a truthy deeplink. */
  function BookingLine(deeplink: Value): (line: string)
    ensures line == "" <==> !Truthy(deeplink)
  {
    if Truthy(deeplink) then "- [Book here](" + Str(deeplink) + ")\n" else ""
  }

  /** The text of option number i. `joinCarriers` is `", ".join` over the
      carrier set in Python's iteration order. */
  function OptionBlock(i: nat, f: Offer, joinCarriers: set<string> -> string): string {
    "\n**Option " + DecimalString(i) + ":**\n"
    + "- Airline: " + joinCarriers(f.carriers) + "\n"
    + "- Departure: " + Str(f.departure) + "\n"
    + "- Arrival: " + Str(f.arrival) + "\n"
    + "- Duration: " + Str(f.duration) + " minutes\n"
    + "- " + StopsText(f.stops) + "\n"
    + "- Price: " + Str(f.currency) + " " + Str(f.price) + "\n"
    + BookingLine(f.deeplink)
  }

  /** The renderer of numbered options for one joining of carrier sets. */
  function Renderer(joinCarriers: set<string> -> string): (nat, Offer) -> string {
    (i: nat, f: Offer) => OptionBlock(i, f, joinCarriers)
  }

  /** The options rendered one after another, numbered from `first` in list order. */
  function OptionsText(fs: seq<Offer>, first: nat, block: (nat, Offer) -> string): string {
    if |fs| == 0 then "" else block(first, fs[0]) + OptionsText(fs[1..], first + 1, block)
  }

  function NotFound(direction: string): string {
    "No " + direction + " flights found."
  }

  function Header(direction: string): string {
    "\n### " + Upper(direction) + " FLIGHTS\n"
  }

  /** format_flight_options on a one-way result: the not-found message for
      an empty list or the error dict, otherwise the header and the options
      numbered from 1. */
  method FormatFlightOptions(flights: SearchResult, direction: string, joinCarriers: set<string> -> string)
    returns (output: string)
    ensures flights.SearchFailed? || flights.offers == [] ==> output == NotFound(direction)
    ensures flights.Offers? && flights.offers != [] ==>
      output == Header(direction) + OptionsText(flights.offers, 1, Renderer(joinCarriers))
  {
    if flights.SearchFailed? || flights.offers == [] {
      return NotFound(direction);
    }
    output := Header(direction);
    output := AppendOptions(output, flights.offers, Renderer(joinCarriers));
  }

  /** The loop of format_flight_options: `output += ...` once per option,
      numbered from 1. */
  method AppendOptions(start: string, fs: seq<Offer>, block: (nat, Offer) -> string) returns (output: string)
    ensures output == start + OptionsText(fs, 1, block)
  {
    output := start;
    for i := 0 to |fs|
      invariant output == start + OptionsText(fs[..i], 1, block)
    {
      OptionsTextPrefix(fs, i, 1, block);
      output := output + block(i + 1, fs[i]);
    }
    assert fs[..|fs|] == fs;
  }

  /** Appending an offer appends its block, numbered after the others. */
  lemma {:induction false} OptionsTextSnoc(fs: seq<Offer>, f: Offer, first: nat, block: (nat, Offer) -> string)
    ensures OptionsText(fs + [f], first, block) == OptionsText(fs, first, block) + block(first + |fs|, f)
  {
    if |fs| > 0 {
      assert (fs + [f])[1..] == fs[1..] + [f];
      OptionsTextSnoc(fs[1..], f, first + 1, block);
    } else {
      assert fs + [f] == [f];
    }
  }

  /** The text of a one-longer prefix: one more block. */
  lemma OptionsTextPrefix(fs: seq<Offer>, i: nat, first: nat, block: (nat, Offer) -> string)
    requires i < |fs|
    ensures OptionsText(fs[..i + 1], first, block) == OptionsText(fs[..i], first, block) + block(first + i, fs[i])
  {
    assert fs[..i + 1] == fs[..i] + [fs[i]];
    OptionsTextSnoc(fs[..i], fs[i], first, block);
  }

  // ---------------------------------------------------------------------
  // Properties

  /** Parsing a concatenation parses each part, keeping the input order. */
  lemma {:induction false} ParsedOffersAppend(a: seq<Itinerary>, b: seq<Itinerary>, currency: Value)
    ensures ParsedOffers(a + b, currency) == ParsedOffers(a, currency) + ParsedOffers(b, currency)
    decreases |b|
  {
    if |b| == 0 {
      assert a + b == a;
    } else {
      var b0 := b[..|b| - 1];
      assert (a + b)[..|a + b| - 1] == a + b0;
      assert (a + b)[|a + b| - 1] == b[|b| - 1];
      ParsedOffersAppend(a, b0, currency);
    }
  }

  /** Every offer comes from one itinerary that parses to it, and every
      itinerary that parses contributes its offer; there are never more
      offers than itineraries. */
  lemma {:induction false} ParsedOffersMembers(its: seq<Itinerary>, currency: Value)
    ensures |ParsedOffers(its, currency)| <= |its|
    ensures forall o :: o in ParsedOffers(its, currency) <==>
      exists j :: 0 <= j < |its| && ParseOne(its[j], currency) == Some(o)
  {
    if |its| > 0 {
      var init := its[..|its| - 1];
      ParsedOffersMembers(init, currency);
      forall o ensures o in ParsedOffers(its, currency) <==>
        exists j :: 0 <= j < |its| && ParseOne(its[j], currency) == Some(o)
      {
        if exists j :: 0 <= j < |init| && ParseOne(init[j], currency) == Some(o) {
          var j :| 0 <= j < |init| && ParseOne(init[j], currency) == Some(o);
          assert its[j] == init[j];
        }
        if exists j :: 0 <= j < |its| && ParseOne(its[j], currency) == Some(o) {
          var j :| 0 <= j < |its| && ParseOne(its[j], currency) == Some(o);
          if j < |init| { assert init[j] == its[j]; }
        }
      }
    }
  }

  /** When every itinerary parses, there is one offer per itinerary, offer
      k coming from itinerary k. */
  lemma {:induction false} ParsedOffersAllParse(its: seq<Itinerary>, currency: Value)
    requires forall j :: 0 <= j < |its| ==> ParseOne(its[j], currency).Some?
    ensures |ParsedOffers(its, currency)| == |its|
    ensures forall k :: 0 <= k < |its| ==> Some(ParsedOffers(its, currency)[k]) == ParseOne(its[k], currency)
  {
    if |its| > 0 {
      ParsedOffersAllParse(its[..|its| - 1], currency);
    }
  }

  /** Only the first five itineraries of the response matter, even when a
      later entry could not be read. */
  lemma OnlyTopFive(keySet: bool, its: seq<Itinerary>, rest: seq<Itinerary>, currency: Value)
    requires |its| == MaxOffers
    ensures OnewaySearch(keySet, Ok(Response(its + rest)), currency) == OnewaySearch(keySet, Ok(Response(its)), currency)
  {
    if rest == [] {
      assert its + rest == its;
    } else {
      assert (its + rest)[..MaxOffers] == its;
    }
  }

  /** A search returns at most five offers. */
  lemma AtMostFive(keySet: bool, data: Response, currency: Value)
    ensures OnewaySearch(keySet, Ok(data), currency).Ok? ==>
      |OnewaySearch(keySet, Ok(data), currency).value.offers| <= MaxOffers
  {
    if data.Response? {
      ParsedOffersMembers(TopItineraries(data), currency);
    }
  }

  /** An itinerary without legs is skipped; of one with legs only the first
      leg is read. */
  lemma ParseOneReadsFirstLeg(it: Itinerary, currency: Value)
    ensures it.Itinerary? && it.legs == [] ==> ParseOne(it, currency) == None
    ensures it.Itinerary? && it.legs != [] ==>
      ParseOne(it, currency) == ParseOne(Itinerary([it.legs[0]], it.price, it.deeplink), currency)
  {
  }

  /** The `try` block succeeds exactly when the leg and price are objects,
      the segments are a list (or absent) of objects with string carriers;
      then stops is one less than the number of segments (-1 for none), a
      missing carrier reads "Unknown", missing times, duration and amount
      read "N/A", a missing currency code is the requested currency and a
      missing deeplink is empty. */
  lemma TryOfferFields(leg: Leg, price: Price, deeplink: Option<Value>, currency: Value)
    ensures TryOffer(leg, price, deeplink, currency).Some? <==>
      && leg.LegDict? && !leg.segments.SegmentsOther? && price.PriceDict?
      && forall k :: 0 <= k < |SegmentItems(leg.segments)| ==> ReadableSegment(SegmentItems(leg.segments)[k])
    ensures TryOffer(leg, price, deeplink, currency).Some? ==>
      var o := TryOffer(leg, price, deeplink, currency).value;
      var segs := SegmentItems(leg.segments);
      && o.stops == |segs| - 1
      && (leg.segments.SegmentsAbsent? ==> o.stops == -1 && o.carriers == {})
      && (forall k :: 0 <= k < |segs| && segs[k].carrier.Some? ==> segs[k].carrier.value.s in o.carriers)
      && (forall c :: c in o.carriers ==> exists k :: 0 <= k < |segs| && CarrierName(segs[k]) == c)
      && ("Unknown" in o.carriers <==> exists k :: 0 <= k < |segs| && CarrierName(segs[k]) == "Unknown")
      && (leg.departure.None? ==> o.departure == VStr("N/A"))
      && (leg.arrival.None? ==> o.arrival == VStr("N/A"))
      && (leg.duration.None? ==> o.duration == VStr("N/A"))
      && (price.amount.None? ==> o.price == VStr("N/A"))
      && (price.currencyCode.None? ==> o.currency == currency)
      && (deeplink.None? ==> o.deeplink == VStr(""))
      && (leg.departure.Some? ==> o.departure == leg.departure.value)
      && (leg.arrival.Some? ==> o.arrival == leg.arrival.value)
      && (leg.duration.Some? ==> o.duration == leg.duration.value)
      && (price.amount.Some? ==> o.price == price.amount.value)
      && (price.currencyCode.Some? ==> o.currency == price.currencyCode.value)
      && (deeplink.Some? ==> o.deeplink == deeplink.value)
  {
    if TryOffer(leg, price, deeplink, currency).Some? {
      var segs := SegmentItems(leg.segments);
      var o := TryOffer(leg, price, deeplink, currency).value;
      forall k | 0 <= k < |segs| && segs[k].carrier.Some? ensures segs[k].carrier.value.s in o.carriers {
        assert CarrierName(segs[k]) == segs[k].carrier.value.s;
      }
    }
  }

  /** A missing API key raises before anything else. With a key, a failed
      request gives the error dict quoting the exception after "Flight
      search failed: "; a decoded body raises exactly when it cannot be
      read, and otherwise gives the offers. */
  lemma OnewayOutcomes(keySet: bool, fetched: Result<Response, string>, currency: Value)
    ensures OnewaySearch(keySet, fetched, currency).Raised? <==>
      !keySet || (fetched.Ok? && !ReadableBody(fetched.value))
    ensures !keySet ==> OnewaySearch(keySet, fetched, currency).error == RuntimeError(MissingKeyMessage)
    ensures keySet && fetched.Ok? && !ReadableBody(fetched.value) ==>
      OnewaySearch(keySet, fetched, currency).error == ShapeError
    ensures keySet && fetched.Raised? ==>
      var r := OnewaySearch(keySet, fetched, currency).value;
      && r.SearchFailed?
      && r.error[..|FailurePrefix|] == FailurePrefix
      && r.error[|FailurePrefix|..] == fetched.error
    ensures keySet && fetched.Ok? && ReadableBody(fetched.value) ==>
      OnewaySearch(keySet, fetched, currency).value.Offers?
  {
  }

  /** The body shapes the loop cannot read: a null "itineraries", a body
      that is not an object, and an entry that is not an object among the
      first five. */
  lemma UnreadableBodiesRaise(it: Itinerary, rest: seq<Itinerary>, currency: Value)
    ensures OnewaySearch(true, Ok(ResponseUnreadable), currency) == Raised(ShapeError)
    ensures OnewaySearch(true, Ok(Response([it, ItineraryUnreadable] + rest)), currency) == Raised(ShapeError)
  {
    var data := Response([it, ItineraryUnreadable] + rest);
    assert TopItineraries(data)[1] == ItineraryUnreadable;
  }

  /** A round trip raises when the key is missing, with the missing-key
      message, or when either search raises, with that search's exception,
      the outbound one first. */
  lemma RoundTripRaises(
    keySet: bool, origin: Value, destination: Value, outboundDate: Value, returnDate: Value,
    adults: Value, outFetched: Result<Response, string>, backFetched: Result<Response, string>,
    currency: Value)
    ensures var r := RoundTrip(keySet, origin, destination, outboundDate, returnDate, adults, outFetched, backFetched, currency);
      var out := OnewaySearch(keySet, outFetched, currency);
      var back := OnewaySearch(keySet, backFetched, currency);
      && (r.Raised? <==> out.Raised? || back.Raised?)
      && (r.Raised? && out.Raised? ==> r.error == out.error)
      && (r.Raised? && out.Ok? ==> r.error == back.error)
      && (r.Raised? ==> (r.error == RuntimeError(MissingKeyMessage) <==> !keySet))
  {
  }

  /** With a key, a round trip succeeds exactly when each answer is a
      failed request or a readable body, and then holds the outbound search
      and the return search. */
  lemma RoundTripHoldsBothSearches(
    origin: Value, destination: Value, outboundDate: Value, returnDate: Value,
    adults: Value, outFetched: Result<Response, string>, backFetched: Result<Response, string>,
    currency: Value)
    ensures var r := RoundTrip(true, origin, destination, outboundDate, returnDate, adults, outFetched, backFetched, currency);
      && (r.Ok? <==>
           (outFetched.Ok? ==> ReadableBody(outFetched.value)) && (backFetched.Ok? ==> ReadableBody(backFetched.value)))
      && (r.Ok? ==>
           && r.value.outbound == OnewaySearch(true, outFetched, currency).value
           && r.value.inbound == OnewaySearch(true, backFetched, currency).value
           && r.value.summary.outboundOptions == OptionCount(r.value.outbound)
           && r.value.summary.returnOptions == OptionCount(r.value.inbound)
           && r.value.summary.outboundDate == Str(outboundDate)
           && r.value.summary.returnDate == Str(returnDate))
  {
  }

  /** The summary shows the two dates through str(): a date
      object gives its str() text ("2024-01-01"), not its repr(). */
  lemma RoundTripSummaryText(
    origin: Value, destination: Value, outboundDate: Value, returnDate: Value,
    adults: Value, outFetched: Result<Response, string>, backFetched: Result<Response, string>,
    currency: Value)
    ensures var r := RoundTrip(true, origin, destination, outboundDate, returnDate, adults, outFetched, backFetched, currency);
      r.Ok? ==>
        && (outboundDate.VOther? ==> r.value.summary.outboundDate == outboundDate.text)
        && (returnDate.VOther? ==> r.value.summary.returnDate == returnDate.text)
        && (outboundDate.VStr? ==> r.value.summary.outboundDate == outboundDate.s)
        && (returnDate.VStr? ==> r.value.summary.returnDate == returnDate.s)
  {
    RoundTripHoldsBothSearches(origin, destination, outboundDate, returnDate, adults, outFetched, backFetched, currency);
  }

  /** The summary of a round trip counts the offers of each direction, 0
      for a direction whose request failed, each count at most five. */
  lemma RoundTripSummaryCounts(
    origin: Value, destination: Value, outboundDate: Value, returnDate: Value,
    adults: Value, outFetched: Result<Response, string>, backFetched: Result<Response, string>,
    currency: Value)
    ensures var r := RoundTrip(true, origin, destination, outboundDate, returnDate, adults, outFetched, backFetched, currency);
      r.Ok? ==>
        && (r.value.outbound.Offers? ==> r.value.summary.outboundOptions == |r.value.outbound.offers|)
        && (r.value.inbound.Offers? ==> r.value.summary.returnOptions == |r.value.inbound.offers|)
        && (outFetched.Raised? ==> r.value.summary.outboundOptions == 0)
        && (backFetched.Raised? ==> r.value.summary.returnOptions == 0)
        && r.value.summary.outboundOptions <= MaxOffers
        && r.value.summary.returnOptions <= MaxOffers
  {
    RoundTripHoldsBothSearches(origin, destination, outboundDate, returnDate, adults, outFetched, backFetched, currency);
    if outFetched.Ok? { AtMostFive(true, outFetched.value, currency); }
    if backFetched.Ok? { AtMostFive(true, backFetched.value, currency); }
  }

  /** The stop labels: "Non-stop" for no stops or fewer (an empty leg has
      -1), "1 stop" for one, "n stops" for more. */
  lemma StopsLabels(n: int)
    ensures StopsText(n) == "Non-stop" <==> n <= 0
    ensures StopsText(1) == "1 stop"
    ensures n >= 2 ==> StopsText(n) == DecimalString(n) + " stops"
  {
    if n > 0 {
      assert IsDigit(StopsText(n)[0]);
    }
  }

  /** Rendering a concatenation renders each part, the second numbered on
      from the first: option k of the text is offer k - 1, numbered k. */
  lemma {:induction false} OptionsTextAppend(a: seq<Offer>, b: seq<Offer>, first: nat, block: (nat, Offer) -> string)
    ensures OptionsText(a + b, first, block) == OptionsText(a, first, block) + OptionsText(b, first + |a|, block)
    decreases |a|
  {
    if |a| > 0 {
      assert (a + b)[1..] == a[1..] + b;
      OptionsTextAppend(a[1..], b, first + 1, block);
    } else {
      assert a + b == b;
    }
  }

  /** The not-found message and a rendered list never coincide: the list
      starts with a newline. */
  lemma NotFoundIsDistinct(direction: string, body: string)
    ensures Header(direction) + body != NotFound(direction)
  {
    assert (Header(direction) + body)[0] == '\n';
    assert NotFound(direction)[0] == 'N';
  }
}
