/**
 * The pure parts of the data layer (data_fetcher.py): a team's recent form
 * from already-fetched games, the days-rest flag, the travel-fatigue
 * classifier over its city tables, and the lookup behind the Squiggle tip
 * section of the prompt. Every fetch is left out; the fetched data are
 * parameters.
 */
module DataFetcher {
  import opened Wrappers
  import opened Text
  import opened Scanners

  // ===========================================================================
  // Form

  /** A completed game as the feed gives it; every field may be missing. */
  datatype SquiggleGame = SquiggleGame(
    hteam: Option<string>,
    ateam: Option<string>,
    hscore: Option<int>,
    ascore: Option<int>,
    date: Option<string>,
    venue: Option<string>)

  datatype FormEntry = FormEntry(
    date: string,
    opponent: Option<string>,
    result: string,
    score: string,
    margin: int,
    teamScore: int,
    oppScore: int,
    venue: string,
    homeAway: string)

  /** One game seen from `team`'s side; a missing (or zero) score counts as 0. */
  function FormOf(team: string, g: SquiggleGame): FormEntry {
    var isHome := g.hteam == Some(team);
    var hs := g.hscore.GetOr(0);
    var aw := g.ascore.GetOr(0);
    var teamScore := if isHome then hs else aw;
    var oppScore := if isHome then aw else hs;
    FormEntry(
      Take(g.date.GetOr(""), 10),
      if isHome then g.ateam else g.hteam,
      if teamScore > oppScore then "W" else "L",
      IntToString(teamScore) + "-" + IntToString(oppScore),
      teamScore - oppScore,
      teamScore, oppScore,
      g.venue.GetOr(""),
      if isHome then "Home" else "Away")
  }

  /**
   * What a form entry says: a win exactly when the team outscored its
   * opponent (a draw is a loss), the margin from the team's side, and
   * "Home" exactly when the team is the home side.
   */
  lemma FormEntryMeaning(team: string, g: SquiggleGame)
    ensures var e := FormOf(team, g);
            && (e.result == "W" <==> e.teamScore > e.oppScore)
            && (e.result == "W" || e.result == "L")
            && e.margin == e.teamScore - e.oppScore
            && (e.homeAway == "Home" <==> g.hteam == Some(team))
            && (e.homeAway == "Home" ==> e.teamScore == g.hscore.GetOr(0) && e.opponent == g.ateam)
            && (e.homeAway == "Away" ==> e.teamScore == g.ascore.GetOr(0) && e.opponent == g.hteam)
            && |e.date| <= 10
  {
  }

  /**
   * The two sides of one game see opposite margins and each other as
   * opponent, never both win, and both lose exactly on a draw.
   */
  lemma BothSidesOfAGame(g: SquiggleGame, home: string, away: string)
    requires g.hteam == Some(home) && g.ateam == Some(away) && home != away
    ensures FormOf(home, g).margin == -FormOf(away, g).margin
    ensures FormOf(home, g).opponent == Some(away) && FormOf(away, g).opponent == Some(home)
    ensures !(FormOf(home, g).result == "W" && FormOf(away, g).result == "W")
    ensures FormOf(home, g).result == "L" && FormOf(away, g).result == "L" <==> g.hscore.GetOr(0) == g.ascore.GetOr(0)
  {
  }

  /** `get_form_from_games`: one entry per game of `games[:numGames]`, in order. */
  method GetFormFromGames(team: string, games: seq<SquiggleGame>, numGames: nat) returns (form: seq<FormEntry>)
    ensures |form| == Min(numGames, |games|)
    ensures forall i :: 0 <= i < |form| ==> form[i] == FormOf(team, games[i])
  {
    form := [];
    var recent := Take(games, numGames);
    for i := 0 to |recent|
      invariant |form| == i
      invariant forall k :: 0 <= k < i ==> form[k] == FormOf(team, games[k])
    {
      form := form + [FormOf(team, recent[i])];
    }
  }

  // ===========================================================================
  // Days rest

  /**
   * A completed game's date text and that date as a day number; the day is
   * `None` when the date is missing or does not parse.
   */
  datatype PlayedGame = PlayedGame(date: string, day: Option<int>)

  datatype Rest = Rest(days: int, lastGame: string, flag: string, description: string)

  const ShortTurnaround := "\U{26A0}\U{FE0F} SHORT TURNAROUND"
  const GoodRest := "\U{2705} GOOD REST"

  function RestFlag(days: int): (f: string)
    ensures f == ShortTurnaround <==> days <= 6
    ensures f == GoodRest <==> days >= 10
    ensures f == "" <==> 7 <= days <= 9
  {
    if days <= 6 then ShortTurnaround else if days >= 10 then GoodRest else ""
  }

  function RestDescription(days: int): string {
    if days <= 6 then IntToString(days) + " days rest (SHORT TURNAROUND \U{2014} fatigue risk)"
    else IntToString(days) + " days rest"
  }

  predicate PlayedBefore(g: PlayedGame, upcoming: int) {
    g.day.Some? && g.day.value < upcoming
  }

  /**
   * `get_days_rest`: the rest before the upcoming game (a day number, `None`
   * when missing or unparseable), measured from the first listed game dated
   * strictly earlier; games whose date does not parse are skipped.
   */
  function GetDaysRest(games: seq<PlayedGame>, upcoming: Option<int>): (r: Option<Rest>)
    ensures upcoming.None? ==> r.None?
    ensures upcoming.Some? ==> (r.None? <==> forall n :: 0 <= n < |games| ==> !PlayedBefore(games[n], upcoming.value))
    ensures r.Some? ==>
              && upcoming.Some?
              && r.value.days > 0
              && r.value.flag == RestFlag(r.value.days)
              && r.value.description == RestDescription(r.value.days)
              && exists n :: 0 <= n < |games| && PlayedBefore(games[n], upcoming.value)
                             && r.value.days == upcoming.value - games[n].day.value
                             && r.value.lastGame == Take(games[n].date, 10)
                             && forall m :: 0 <= m < n ==> !PlayedBefore(games[m], upcoming.value)
  {
    match upcoming
    case None => None
    case Some(u) =>
      match FirstWhere(games, g => PlayedBefore(g, u))
      case None => None
      case Some(g) =>
        var days := u - g.day.value;
        Some(Rest(days, Take(g.date, 10), RestFlag(days), RestDescription(days)))
  }

  // ===========================================================================
  // Travel fatigue

  const TeamHomeCities: seq<(string, string)> := [
    ("Adelaide", "Adelaide"), ("Port Adelaide", "Adelaide"), ("Brisbane Lions", "Brisbane"),
    ("Gold Coast", "Gold Coast"), ("GWS Giants", "Sydney"), ("Sydney", "Sydney"),
    ("West Coast", "Perth"), ("Fremantle", "Perth"), ("Geelong", "Geelong"),
    ("Carlton", "Melbourne"), ("Collingwood", "Melbourne"), ("Essendon", "Melbourne"),
    ("Hawthorn", "Melbourne"), ("Melbourne", "Melbourne"), ("North Melbourne", "Melbourne"),
    ("Richmond", "Melbourne"), ("St Kilda", "Melbourne"), ("Western Bulldogs", "Melbourne")]

  const VenueCities: seq<(string, string)> := [
    ("MCG", "Melbourne"), ("Marvel Stadium", "Melbourne"), ("Docklands", "Melbourne"),
    ("Etihad Stadium", "Melbourne"), ("GMHBA Stadium", "Geelong"), ("Kardinia Park", "Geelong"),
    ("Mars Stadium", "Ballarat"), ("Adelaide Oval", "Adelaide"), ("Optus Stadium", "Perth"),
    ("Gabba", "Brisbane"), ("People First Stadium", "Gold Coast"), ("Carrara", "Gold Coast"),
    ("SCG", "Sydney"), ("Giants Stadium", "Sydney"), ("GIANTS Stadium", "Sydney"),
    ("Engie Stadium", "Sydney"), ("Spotless Stadium", "Sydney"), ("TIO Stadium", "Darwin"),
    ("Traeger Park", "Alice Springs"), ("Cazaly's Stadium", "Cairns"),
    ("University of Tasmania Stadium", "Launceston"), ("Blundstone Arena", "Hobart"),
    ("Manuka Oval", "Canberra")]

  const HighTravelPairs: set<(string, string)> := {
    ("Perth", "Melbourne"), ("Melbourne", "Perth"),
    ("Perth", "Sydney"), ("Sydney", "Perth"),
    ("Perth", "Brisbane"), ("Brisbane", "Perth"),
    ("Perth", "Adelaide"), ("Adelaide", "Perth"),
    ("Perth", "Geelong"), ("Geelong", "Perth"),
    ("Darwin", "Melbourne"), ("Melbourne", "Darwin"),
    ("Darwin", "Sydney"), ("Sydney", "Darwin"),
    ("Darwin", "Perth"), ("Perth", "Darwin"),
    ("Cairns", "Melbourne"), ("Melbourne", "Cairns"),
    ("Cairns", "Sydney"), ("Sydney", "Cairns"),
    ("Alice Springs", "Melbourne"), ("Melbourne", "Alice Springs")}

  const MediumTravelPairs: set<(string, string)> := {
    ("Adelaide", "Melbourne"), ("Melbourne", "Adelaide"),
    ("Adelaide", "Sydney"), ("Sydney", "Adelaide"),
    ("Adelaide", "Geelong"), ("Geelong", "Adelaide"),
    ("Brisbane", "Melbourne"), ("Melbourne", "Brisbane"),
    ("Brisbane", "Geelong"), ("Geelong", "Brisbane"),
    ("Gold Coast", "Melbourne"), ("Melbourne", "Gold Coast"),
    ("Canberra", "Melbourne"), ("Melbourne", "Canberra"),
    ("Launceston", "Melbourne"), ("Melbourne", "Launceston"),
    ("Hobart", "Melbourne"), ("Melbourne", "Hobart")}

  /** `table.get(key)` on a dictionary given as its entries in order. */
  function Lookup(table: seq<(string, string)>, key: string): (r: Option<string>)
    ensures r.None? <==> forall i :: 0 <= i < |table| ==> table[i].0 != key
    ensures r.Some? ==> exists i :: 0 <= i < |table| && table[i].0 == key && table[i].1 == r.value
  {
    match FirstWhere(table, (e: (string, string)) => e.0 == key)
    case None => None
    case Some(e) => Some(e.1)
  }

  /** A table key and the venue contain one another, case-insensitively. */
  predicate VenueNameOverlaps(key: string, venue: string) {
    Contains(Lower(venue), Lower(key)) || Contains(Lower(key), Lower(venue))
  }

  /** A city table's answer for a venue: exact lookup, then the first entry overlapping the name. */
  function CityOfVenue(table: seq<(string, string)>, venue: string): (r: Option<string>)
    ensures Lookup(table, venue).Some? ==> r == Lookup(table, venue)
    ensures Lookup(table, venue).None? ==>
              (r.None? <==> forall i :: 0 <= i < |table| ==> !VenueNameOverlaps(table[i].0, venue))
    ensures Lookup(table, venue).None? && r.Some? ==>
              exists i :: 0 <= i < |table| && VenueNameOverlaps(table[i].0, venue) && r.value == table[i].1
                          && forall j :: 0 <= j < i ==> !VenueNameOverlaps(table[j].0, venue)
  {
    match Lookup(table, venue)
    case Some(c) => Some(c)
    case None =>
      match FirstWhere(table, (e: (string, string)) => VenueNameOverlaps(e.0, venue))
      case None => None
      case Some(e) =>
        assert exists i :: 0 <= i < |table| && table[i] == e
                           && forall j :: 0 <= j < i ==> !VenueNameOverlaps(table[j].0, venue);
        Some(e.1)
  }

  /** The venue's city in the real table (`VENUE_CITIES.get`, then the partial-match loop). */
  function VenueCity(venue: string): (r: Option<string>)
    ensures Lookup(VenueCities, venue).Some? ==> r == Lookup(VenueCities, venue)
    ensures Lookup(VenueCities, venue).None? ==>
              (r.None? <==> forall i :: 0 <= i < |VenueCities| ==> !VenueNameOverlaps(VenueCities[i].0, venue))
    ensures Lookup(VenueCities, venue).None? && r.Some? ==>
              exists i :: 0 <= i < |VenueCities| && VenueNameOverlaps(VenueCities[i].0, venue)
                          && r.value == VenueCities[i].1
                          && forall j :: 0 <= j < i ==> !VenueNameOverlaps(VenueCities[j].0, venue)
  {
    CityOfVenue(VenueCities, venue)
  }

  datatype TravelInfo = TravelInfo(
    travelling: bool,
    fatigueLevel: string,
    homeCity: Option<string>,
    venueCity: Option<string>,
    description: string)

  /** `get_travel_info`. */
  function GetTravelInfo(team: string, venue: string): (r: TravelInfo)
    ensures Lookup(TeamHomeCities, team).None? || VenueCity(venue).None? ==>
              !r.travelling && r.fatigueLevel == "unknown" && r.description == ""
    ensures r.fatigueLevel == "none" <==>
              Lookup(TeamHomeCities, team).Some? && Lookup(TeamHomeCities, team) == VenueCity(venue)
    ensures (Lookup(TeamHomeCities, team).Some? && VenueCity(venue).Some?
             && Lookup(TeamHomeCities, team) != VenueCity(venue)) ==> r.travelling
    ensures r.travelling <==> r.fatigueLevel in {"high", "medium", "low"}
    ensures r.travelling ==>
              && r.homeCity == Lookup(TeamHomeCities, team) && r.venueCity == VenueCity(venue)
              && r.homeCity.Some? && r.venueCity.Some? && r.homeCity != r.venueCity
              && (r.fatigueLevel == "high" <==> (r.homeCity.value, r.venueCity.value) in HighTravelPairs)
              && (r.fatigueLevel == "medium" <==>
                    (r.homeCity.value, r.venueCity.value) !in HighTravelPairs
                    && (r.homeCity.value, r.venueCity.value) in MediumTravelPairs)
  {
    var homeCity := Lookup(TeamHomeCities, team);
    var venueCity := VenueCity(venue);
    if homeCity.None? || venueCity.None? then TravelInfo(false, "unknown", None, None, "")
    else
      var h := homeCity.value;
      var v := venueCity.value;
      if h == v then TravelInfo(false, "none", None, None, "Playing at home in " + h)
      else if (h, v) in HighTravelPairs then
        TravelInfo(true, "high", homeCity, venueCity,
                   "\U{26A0}\U{FE0F} LONG-HAUL TRAVEL: " + h + " \U{2192} " + v + " (significant fatigue factor)")
      else if (h, v) in MediumTravelPairs then
        TravelInfo(true, "medium", homeCity, venueCity, "Moderate travel: " + h + " \U{2192} " + v)
      else
        TravelInfo(true, "low", homeCity, venueCity, "Short travel: " + h + " \U{2192} " + v)
  }

  /** A team not in the home-city table is never travelling, wherever it plays. */
  lemma UnknownTeamNeverTravels(team: string, venue: string)
    requires forall i :: 0 <= i < |TeamHomeCities| ==> TeamHomeCities[i].0 != team
    ensures GetTravelInfo(team, venue) == TravelInfo(false, "unknown", None, None, "")
  {
  }

  // ===========================================================================
  // The Squiggle tip section of the prompt

  datatype SquiggleTip = SquiggleTip(homeTeam: Option<string>, awayTeam: Option<string>, tip: Option<string>)

  /** The tips keyed "Home vs Away", in the order they were fetched. */
  type SquiggleData = seq<(string, SquiggleTip)>

  const NotAvailableText := "Squiggle model predictions not available this week."
  const NotFoundText := "Squiggle model prediction not found for this match."

  /** Either one of the two fixed messages, or the lines for the tip found (whose numbers are not modelled). */
  datatype SquiggleSection = Message(text: string) | TipLines(tip: SquiggleTip)

  predicate ExactTeams(e: (string, SquiggleTip), home: string, away: string) {
    e.1.homeTeam == Some(home) && e.1.awayTeam == Some(away)
  }

  /** Each team's last word occurs in the key. */
  predicate LastWordsInKey(e: (string, SquiggleTip), homeWord: string, awayWord: string) {
    Contains(e.0, homeWord) && Contains(e.0, awayWord)
  }

  /** A team name with a word in it (`split()[-1]` raises on a blank name). */
  predicate Named(team: string) { LastWord(team).Some? }

  /**
   * The lookup as written: the first entry that matches either exactly or
   * by the teams' last words, tried together entry by entry.
   */
  function FindTipAsWritten(data: SquiggleData, home: string, away: string): (r: Option<SquiggleTip>)
    requires Named(home) && Named(away)
  {
    var hw := LastWord(home).value;
    var aw := LastWord(away).value;
    match FirstWhere(data, (e: (string, SquiggleTip)) => ExactTeams(e, home, away) || LastWordsInKey(e, hw, aw))
    case None => None
    case Some(e) => Some(e.1)
  }

  lemma LastWordNorthMelbourne()
    ensures LastWord("North Melbourne") == Some("Melbourne")
  {
    assert "North Melbourne" == "North" + " " + "Melbourne";
    LastWordAfterSpace("North", "Melbourne");
  }

  lemma LastWordPortAdelaide()
    ensures LastWord("Port Adelaide") == Some("Adelaide")
  {
    assert "Port Adelaide" == "Port" + " " + "Adelaide";
    LastWordAfterSpace("Port", "Adelaide");
  }

  lemma MelbourneAdelaideKey()
    ensures Contains("Melbourne vs Adelaide", "Melbourne") && Contains("Melbourne vs Adelaide", "Adelaide")
  {
    assert OccursAt("Melbourne vs Adelaide", "Melbourne", 0);
    assert OccursAt("Melbourne vs Adelaide", "Adelaide", 13);
  }

  const MelbourneAdelaideTip := SquiggleTip(Some("Melbourne"), Some("Adelaide"), Some("Melbourne"))
  const NorthPortTip := SquiggleTip(Some("North Melbourne"), Some("Port Adelaide"), Some("Port Adelaide"))
  const TwoGames: SquiggleData := [("Melbourne vs Adelaide", MelbourneAdelaideTip), ("North Melbourne vs Port Adelaide", NorthPortTip)]

  /**
   * The as-written lookup can return another game's tip: with Melbourne v
   * Adelaide listed before North Melbourne v Port Adelaide, the lookup for
   * the second game stops at the first, whose last words also match.
   */
  lemma FindTipAsWrittenPicksWrongGame()
    ensures Named("North Melbourne") && Named("Port Adelaide")
    ensures ExactTeams(TwoGames[1], "North Melbourne", "Port Adelaide")
    ensures FindTipAsWritten(TwoGames, "North Melbourne", "Port Adelaide") == Some(MelbourneAdelaideTip)
  {
    LastWordNorthMelbourne();
    LastWordPortAdelaide();
    MelbourneAdelaideKey();
    assert !ExactTeams(TwoGames[0], "North Melbourne", "Port Adelaide");
    assert LastWordsInKey(TwoGames[0], "Melbourne", "Adelaide");
  }

  /**
   * The lookup the section evidently intends: a tip whose teams are exactly
   * this match's wins over any entry that only matches by last words.
   */
  function FindTip(data: SquiggleData, home: string, away: string): (r: Option<SquiggleTip>)
    requires Named(home) && Named(away)
    ensures (exists i :: 0 <= i < |data| && ExactTeams(data[i], home, away)) ==>
              r.Some? && r.value.homeTeam == Some(home) && r.value.awayTeam == Some(away)
    ensures r.None? <==> FindTipAsWritten(data, home, away).None?
  {
    var hw := LastWord(home).value;
    var aw := LastWord(away).value;
    match FirstWhere(data, (e: (string, SquiggleTip)) => ExactTeams(e, home, away))
    case Some(e) => Some(e.1)
    case None =>
      match FirstWhere(data, (e: (string, SquiggleTip)) => LastWordsInKey(e, hw, aw))
      case None => None
      case Some(e) => Some(e.1)
  }

  /** On the same two games the corrected search returns the game that was asked for. */
  lemma FindTipPicksRightGame()
    ensures Named("North Melbourne") && Named("Port Adelaide")
    ensures FindTip(TwoGames, "North Melbourne", "Port Adelaide") == Some(NorthPortTip)
  {
    LastWordNorthMelbourne();
    LastWordPortAdelaide();
    assert !ExactTeams(TwoGames[0], "North Melbourne", "Port Adelaide");
    assert ExactTeams(TwoGames[1], "North Melbourne", "Port Adelaide");
  }

  /** `format_squiggle_tips_for_prompt`, up to the tip's own lines. */
  function FormatSquiggleTips(data: SquiggleData, home: string, away: string): (r: SquiggleSection)
    requires Named(home) && Named(away)
    ensures |data| == 0 ==> r == Message(NotAvailableText)
    ensures |data| > 0 && FindTip(data, home, away).None? ==> r == Message(NotFoundText)
    ensures r.TipLines? ==> Some(r.tip) == FindTip(data, home, away)
    ensures |data| > 0 && FindTip(data, home, away).Some? ==> r == TipLines(FindTip(data, home, away).value)
  {
    if |data| == 0 then Message(NotAvailableText)
    else
      match FindTip(data, home, away)
      case None => Message(NotFoundText)
      case Some(t) => TipLines(t)
  }

  /** The not-found message appears exactly when no entry matches this game either way. */
  lemma SquiggleNotFoundMeansNoEntryMatches(data: SquiggleData, home: string, away: string)
    requires Named(home) && Named(away) && |data| > 0
    ensures FormatSquiggleTips(data, home, away) == Message(NotFoundText) <==>
              forall i :: 0 <= i < |data| ==>
                !ExactTeams(data[i], home, away) && !LastWordsInKey(data[i], LastWord(home).value, LastWord(away).value)
  {
  }
}
