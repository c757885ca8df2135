/**
 * Venue lookup and the weather-impact classifier (weather.py). The
 * forecast fetch is left out; its numbers are the classifier's inputs,
 * each `None` when the forecast lacks it.
 */
module Weather {
  import opened Wrappers
  import opened Text
  import opened Scanners

  // ===========================================================================
  // Venues

  datatype VenueInfo = VenueInfo(lat: real, lon: real, roof: bool, city: string)

  /** `VENUE_DATA`, in its order. */
  const VenueData: seq<(string, VenueInfo)> := [
    ("MCG", VenueInfo(-37.8200, 144.9834, false, "Melbourne")),
    ("Marvel Stadium", VenueInfo(-37.8165, 144.9475, true, "Melbourne")),
    ("GMHBA Stadium", VenueInfo(-38.1579, 144.3547, false, "Geelong")),
    ("Mars Stadium", VenueInfo(-37.5622, 143.8503, false, "Ballarat")),
    ("Cazaly's Stadium", VenueInfo(-16.9167, 145.7667, false, "Cairns")),
    ("SCG", VenueInfo(-33.8914, 151.2246, false, "Sydney")),
    ("Engie Stadium", VenueInfo(-33.8471, 151.0635, false, "Sydney")),
    ("Giants Stadium", VenueInfo(-33.8471, 150.9862, false, "Sydney")),
    ("Gabba", VenueInfo(-27.4858, 153.0381, false, "Brisbane")),
    ("People First Stadium", VenueInfo(-27.9834, 153.3639, false, "Gold Coast")),
    ("Adelaide Oval", VenueInfo(-34.9156, 138.5960, false, "Adelaide")),
    ("Optus Stadium", VenueInfo(-31.9514, 115.8875, false, "Perth")),
    ("TIO Stadium", VenueInfo(-12.4139, 130.8865, false, "Darwin")),
    ("University of Tasmania Stadium", VenueInfo(-41.4332, 147.1441, false, "Launceston")),
    ("Blundstone Arena", VenueInfo(-42.8826, 147.3468, false, "Hobart")),
    ("Manuka Oval", VenueInfo(-35.3192, 149.1310, false, "Canberra"))]

  /** `VENUE_ALIASES`: other names the feed uses, with the canonical name. */
  const VenueAliases: seq<(string, string)> := [
    ("Docklands", "Marvel Stadium"),
    ("Etihad Stadium", "Marvel Stadium"),
    ("Kardinia Park", "GMHBA Stadium"),
    ("Carrara", "People First Stadium"),
    ("Stadium Australia", "Engie Stadium"),
    ("Spotless Stadium", "Engie Stadium"),
    ("GIANTS Stadium", "Giants Stadium"),
    ("Traeger Park", "TIO Stadium"),
    ("Aurora Stadium", "University of Tasmania Stadium")]

  /** `table.get(name)` on a dictionary given as its entries in order. */
  function Get<V>(table: seq<(string, V)>, name: string): (r: Option<V>)
    ensures r.None? <==> forall i :: 0 <= i < |table| ==> table[i].0 != name
    ensures r.Some? ==> exists i :: 0 <= i < |table| && table[i] == (name, r.value)
  {
    match FirstWhere(table, (e: (string, V)) => e.0 == name)
    case None => None
    case Some(e) => Some(e.1)
  }

  /** The table name and the given name contain one another, case-insensitively. */
  predicate NamesOverlap(tableName: string, venue: string) {
    Contains(Lower(venue), Lower(tableName)) || Contains(Lower(tableName), Lower(venue))
  }

  /**
   * The lookup over a venue table and an alias table: the exact name, then
   * an alias whose canonical name is in the table, then the first table
   * entry (in table order) overlapping the name; `(None, venue)` when all
   * three fail.
   */
  function VenueLookup(data: seq<(string, VenueInfo)>, aliases: seq<(string, string)>, venue: string): (r: (Option<VenueInfo>, string))
    ensures Get(data, venue).Some? ==> r == (Get(data, venue), venue)
    ensures Get(data, venue).None? && Get(aliases, venue).Some? && Get(data, Get(aliases, venue).value).Some? ==>
              r == (Get(data, Get(aliases, venue).value), Get(aliases, venue).value)
    ensures r.0.None? ==> r.1 == venue && forall i :: 0 <= i < |data| ==> !NamesOverlap(data[i].0, venue)
    ensures (Get(data, venue).None? && (Get(aliases, venue).None? || Get(data, Get(aliases, venue).value).None?)
             && (forall i :: 0 <= i < |data| ==> !NamesOverlap(data[i].0, venue))) ==> r == (None, venue)
    ensures r.0.Some? ==> exists i :: 0 <= i < |data| && data[i] == (r.1, r.0.value)
  {
    match Get(data, venue)
    case Some(d) => (Some(d), venue)
    case None =>
      var canonical := Get(aliases, venue);
      if canonical.Some? && Get(data, canonical.value).Some? then
        (Get(data, canonical.value), canonical.value)
      else
        match FirstWhere(data, (e: (string, VenueInfo)) => NamesOverlap(e.0, venue))
        case None => (None, venue)
        case Some(e) => (Some(e.1), e.0)
  }

  /** When the substring search decides, it is the first overlapping entry of the table. */
  lemma VenueBySubstringIsFirstOverlap(data: seq<(string, VenueInfo)>, aliases: seq<(string, string)>, venue: string, n: nat)
    requires Get(data, venue).None?
    requires Get(aliases, venue).None? || Get(data, Get(aliases, venue).value).None?
    requires n < |data| && NamesOverlap(data[n].0, venue)
    requires forall m :: 0 <= m < n ==> !NamesOverlap(data[m].0, venue)
    ensures VenueLookup(data, aliases, venue) == (Some(data[n].1), data[n].0)
  {
    var e := FirstWhere(data, (e: (string, VenueInfo)) => NamesOverlap(e.0, venue));
    var k :| 0 <= k < |data| && data[k] == e.value && forall m :: 0 <= m < k ==> !NamesOverlap(data[m].0, venue);
    assert k == n;
  }

  /** `get_venue_info` over `VENUE_DATA` and `VENUE_ALIASES`. */
  function GetVenueInfo(venue: string): (r: (Option<VenueInfo>, string))
    ensures r.0.None? ==> r.1 == venue
    ensures r.0.Some? ==> exists i :: 0 <= i < |VenueData| && VenueData[i] == (r.1, r.0.value)
  {
    VenueLookup(VenueData, VenueAliases, venue)
  }

  // ===========================================================================
  // Weather impact

  datatype Factor = HeavyRain | SomeRain | StrongWind | ModerateWind | ExtremeHeat | WarmConditions

  function FactorText(f: Factor): string {
    match f
    case HeavyRain =>
      "HEAVY RAIN LIKELY" + " \U{2014} expect lower scores, more contested play, "
      + "reduced effectiveness of high-marking forwards, "
      + "tends to reduce the margin and benefit underdogs"
    case SomeRain =>
      "SOME RAIN POSSIBLE" + " \U{2014} slightly slippery conditions, may reduce kicking accuracy"
    case StrongWind =>
      "STRONG WIND (>50 km/h)" + " \U{2014} significant advantage kicking with the wind, "
      + "coin-toss to kick direction becomes important, expect lopsided quarter scores"
    case ModerateWind =>
      "MODERATE WIND (30-50 km/h)" + " \U{2014} some directional advantage, may affect goal-kicking accuracy"
    case ExtremeHeat =>
      "EXTREME HEAT (>35\U{00B0}C)" + " \U{2014} fatigue factor in Q4, "
      + "teams with greater bench depth and fitness may have late advantage"
    case WarmConditions =>
      "WARM CONDITIONS (30-35\U{00B0}C)" + " \U{2014} minor fatigue factor in final quarter"
  }

  const FineConditions := "Conditions appear fine" + " \U{2014} weather unlikely to significantly affect the result"

  /** Python's `x or default` for an optional number: `None` and zero both give the default. */
  function OrDefault(x: Option<real>, default: real): real {
    if x.None? || x.value == 0.0 then default else x.value
  }

  function RainFactor(rainMm: real, rainProb: real): seq<Factor> {
    if rainMm > 10.0 || rainProb > 70.0 then [HeavyRain]
    else if rainMm > 3.0 || rainProb > 40.0 then [SomeRain]
    else []
  }

  function WindFactor(windKph: real): seq<Factor> {
    if windKph > 50.0 then [StrongWind] else if windKph > 30.0 then [ModerateWind] else []
  }

  function HeatFactor(tempMax: real): seq<Factor> {
    if tempMax > 35.0 then [ExtremeHeat] else if tempMax > 30.0 then [WarmConditions] else []
  }

  /** The factors in rain, wind, heat order, after the source's defaults. */
  function ImpactFactors(tempMax: Option<real>, rainMm: Option<real>, windKph: Option<real>, rainProb: Option<real>): seq<Factor> {
    RainFactor(OrDefault(rainMm, 0.0), OrDefault(rainProb, 0.0))
    + WindFactor(OrDefault(windKph, 0.0))
    + HeatFactor(OrDefault(tempMax, 20.0))
  }

  function FactorTexts(fs: seq<Factor>): (r: seq<string>)
    ensures |r| == |fs| && forall i :: 0 <= i < |fs| ==> r[i] == FactorText(fs[i])
  {
    seq(|fs|, i requires 0 <= i < |fs| => FactorText(fs[i]))
  }

  function ImpactText(fs: seq<Factor>): string {
    if |fs| == 0 then FineConditions else Join(FactorTexts(fs), " | ")
  }

  /**
   * What the factors say: the two rain factors exclude each other, heavy
   * above 10 mm or 70%, some rain above 3 mm or 40%; wind is strong above
   * 50 and moderate above 30 up to 50, missing wind being 0; a missing or
   * zero temperature is 20 and so gives no heat factor, extreme heat is
   * above 35 and warm above 30 up to 35. At most one factor per category.
   */
  lemma ImpactFactorsMeaning(tempMax: Option<real>, rainMm: Option<real>, windKph: Option<real>, rainProb: Option<real>)
    ensures var fs := ImpactFactors(tempMax, rainMm, windKph, rainProb);
            var r := OrDefault(rainMm, 0.0);
            var p := OrDefault(rainProb, 0.0);
            var w := OrDefault(windKph, 0.0);
            var t := OrDefault(tempMax, 20.0);
            && (HeavyRain in fs <==> r > 10.0 || p > 70.0)
            && (SomeRain in fs <==> !(r > 10.0 || p > 70.0) && (r > 3.0 || p > 40.0))
            && !(HeavyRain in fs && SomeRain in fs)
            && (StrongWind in fs <==> w > 50.0)
            && (ModerateWind in fs <==> 30.0 < w <= 50.0)
            && (windKph.None? ==> StrongWind !in fs && ModerateWind !in fs)
            && (ExtremeHeat in fs <==> t > 35.0)
            && (WarmConditions in fs <==> 30.0 < t <= 35.0)
            && (tempMax.None? || tempMax == Some(0.0) ==> ExtremeHeat !in fs && WarmConditions !in fs)
            && |fs| <= 3
  {
  }

  function Category(f: Factor): nat {
    match f
    case HeavyRain => 0
    case SomeRain => 0
    case StrongWind => 1
    case ModerateWind => 1
    case ExtremeHeat => 2
    case WarmConditions => 2
  }

  /** The factors come in rain, wind, heat order, one at most of each. */
  lemma ImpactFactorsInOrder(tempMax: Option<real>, rainMm: Option<real>, windKph: Option<real>, rainProb: Option<real>)
    ensures var fs := ImpactFactors(tempMax, rainMm, windKph, rainProb);
            forall i, j :: 0 <= i < j < |fs| ==> Category(fs[i]) < Category(fs[j])
  {
  }

  /** The fixed "fine" sentence appears exactly when there are no factors. */
  lemma FineOnlyWithoutFactors(fs: seq<Factor>)
    ensures ImpactText(fs) == FineConditions <==> |fs| == 0
  {
    if |fs| > 0 {
      var parts := FactorTexts(fs);
      JoinStartsWithFirst(parts, " | ");
      FactorTextIsShouted(fs[0]);
      assert ImpactText(fs)[0] == parts[0][0];
      FineConditionsStartsWithC();
    }
  }

  lemma FineConditionsStartsWithC()
    ensures |FineConditions| > 0 && FineConditions[0] == 'C'
  {
  }

  /** No factor opens with the 'C' of the fine sentence. */
  lemma FactorTextIsShouted(f: Factor)
    ensures |FactorText(f)| > 0 && FactorText(f)[0] != 'C'
  {
    match f
    case HeavyRain => assert FactorText(f)[0] == 'H';
    case SomeRain => assert FactorText(f)[0] == 'S';
    case StrongWind => assert FactorText(f)[0] == 'S';
    case ModerateWind => assert FactorText(f)[0] == 'M';
    case ExtremeHeat => assert FactorText(f)[0] == 'E';
    case WarmConditions => assert FactorText(f)[0] == 'W';
  }

  /** A non-empty join begins with its first part. */
  lemma {:induction false} JoinStartsWithFirst(parts: seq<string>, sep: string)
    requires |parts| > 0
    ensures |parts[0]| <= |Join(parts, sep)| && Join(parts, sep)[..|parts[0]|] == parts[0]
  {
    if |parts| > 1 {
      assert Join(parts, sep) == parts[0] + (sep + Join(parts[1..], sep));
    }
  }

  /**
   * `assess_weather_impact`: defaults applied to the inputs, factors
   * appended rain first, then wind, then heat, and joined.
   */
  method AssessWeatherImpact(tempMax: Option<real>, rainMm: Option<real>, windKph: Option<real>, rainProb: Option<real>)
    returns (text: string, factors: seq<Factor>)
    ensures factors == ImpactFactors(tempMax, rainMm, windKph, rainProb)
    ensures text == ImpactText(factors)
  {
    factors := [];
    var rain := OrDefault(rainMm, 0.0);
    var prob := OrDefault(rainProb, 0.0);
    if rain > 10.0 || prob > 70.0 {
      factors := factors + [HeavyRain];
    } else if rain > 3.0 || prob > 40.0 {
      factors := factors + [SomeRain];
    }
    assert factors == RainFactor(rain, prob);
    ghost var afterRain := factors;
    var wind := OrDefault(windKph, 0.0);
    if wind > 50.0 {
      factors := factors + [StrongWind];
    } else if wind > 30.0 {
      factors := factors + [ModerateWind];
    }
    assert factors == afterRain + WindFactor(wind);
    ghost var afterWind := factors;
    var temp := OrDefault(tempMax, 20.0);
    if temp > 35.0 {
      factors := factors + [ExtremeHeat];
    } else if temp > 30.0 {
      factors := factors + [WarmConditions];
    }
    assert factors == afterWind + HeatFactor(temp);
    if |factors| == 0 {
      text := FineConditions;
    } else {
      text := Join(FactorTexts(factors), " | ");
    }
  }
}
