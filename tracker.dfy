/**
 * The prediction history and accuracy tracker (tracker.py).
 *
 * The history is one document, `{predictions: [...], accuracy_summary: {...}}`.
 * Each record is a pending prediction until a completed game with the same
 * home team, away team and round resolves it; the summary is recomputed
 * from every resolved record each time results are checked.
 *
 * The operations that change the document in place are methods of the class
 * `History`, proved against the specification functions SaveAll, ReconcileAll
 * and SummaryOf; the lemmas below state what those functions promise.
 */
module Tracker {
  import opened Wrappers
  import opened Text
  import opened Scanners
  import opened Seqs

  // ===========================================================================
  // Data model

  /** One saved prediction. The three outcome fields are `None` until the game is resolved. */
  datatype PredictionRecord = PredictionRecord(
    year: int,
    round: int,
    date: string,
    venue: string,
    homeTeam: string,
    awayTeam: string,
    predictedWinner: string,
    predictedProbability: Option<real>,
    predictionText: string,
    actualWinner: Option<string>,
    actualMargin: Option<nat>,
    correct: Option<bool>,
    savedAt: string,
    resultCheckedAt: Option<string>)

  /** One freshly generated prediction handed to SavePredictions; `date` and `venue` may be absent. */
  datatype NewPrediction = NewPrediction(
    homeTeam: string,
    awayTeam: string,
    date: Option<string>,
    venue: Option<string>,
    prediction: string)

  /** A game from the results feed; any field may be missing from the feed's JSON. */
  datatype Game = Game(
    hteam: Option<string>,
    ateam: Option<string>,
    round: Option<int>,
    hscore: Option<int>,
    ascore: Option<int>,
    complete: Option<int>)

  datatype Tally = Tally(correct: nat, total: nat)

  /** One entry of `by_round`. */
  datatype RoundTally = RoundTally(round: int, correct: nat, total: nat)

  /** `{}` when nothing is resolved; otherwise the counts (percentages are derived from them). */
  datatype AccuracySummary =
    | NoSummary
    | Summary(
        overallCorrect: nat,
        overallTotal: nat,
        byRound: seq<RoundTally>,
        favouritePicks: Tally,
        upsetPicks: Tally,
        lastUpdated: string)

  datatype Document = Document(predictions: seq<PredictionRecord>, accuracySummary: AccuracySummary)

  const UnknownWinner := "Unknown"
  const DrawResult := "Draw"

  predicate IsResolved(p: PredictionRecord) { p.correct.Some? }
  predicate IsPendingRecord(p: PredictionRecord) { p.correct.None? }
  predicate IsPendingFor(p: PredictionRecord, year: int) { p.correct.None? && p.year == year }
  predicate IsCorrect(p: PredictionRecord) { p.correct == Some(true) }
  predicate IsWrong(p: PredictionRecord) { p.correct == Some(false) }

  /** The uniqueness key (home team, away team, round, year). */
  function KeyOf(p: PredictionRecord): (string, string, int, int) {
    (p.homeTeam, p.awayTeam, p.round, p.year)
  }

  predicate UniqueKeys(ps: seq<PredictionRecord>) {
    forall i, j :: 0 <= i < j < |ps| ==> KeyOf(ps[i]) != KeyOf(ps[j])
  }

  /**
   * The tri-state outcome is consistent: `correct` is `None` exactly when the
   * actual winner and margin are, and otherwise says whether the tip was the
   * actual winner.
   */
  predicate WellFormed(p: PredictionRecord) {
    && (p.correct.None? <==> p.actualWinner.None?)
    && (p.correct.None? <==> p.actualMargin.None?)
    && (p.correct.Some? ==> p.correct.value == (p.predictedWinner == p.actualWinner.value))
  }

  predicate AllWellFormed(ps: seq<PredictionRecord>) {
    forall i :: 0 <= i < |ps| ==> WellFormed(ps[i])
  }

  // ===========================================================================
  // Extracting the tip from the model's text

  const WinnerMarker := "PREDICTED WINNER"
  const WinnerWindowWidth := 200
  const MentionWindowWidth := 300

  /** The team mentioned strictly more often in the first 300 characters, else "Unknown". */
  function WinnerByMentions(text: string, home: string, away: string): (r: string)
    ensures r == home || r == away || r == UnknownWinner
  {
    var head := Upper(Take(text, MentionWindowWidth));
    var homeCount := Count(head, Upper(home));
    var awayCount := Count(head, Upper(away));
    if homeCount > awayCount then home
    else if awayCount > homeCount then away
    else UnknownWinner
  }

  /**
   * The tipped team: the full name found first in the 200 characters from
   * the marker, falling back to mention counts when the marker is absent or
   * neither name is in that window.
   */
  function ExtractPredictedWinner(text: string, home: string, away: string): (r: string)
    ensures r == home || r == away || r == UnknownWinner
  {
    var fromMarker :=
      match MarkerWindow(Upper(text), WinnerMarker, WinnerWindowWidth)
      case None => None
      case Some(w) => EarlierName(w, home, away);
    if fromMarker.Some? then fromMarker.value else WinnerByMentions(text, home, away)
  }

  /** Neither full name is in the marker's window (or there is no marker): counting decides. */
  predicate NoNameInWindow(text: string, home: string, away: string) {
    match MarkerWindow(Upper(text), WinnerMarker, WinnerWindowWidth)
    case None => true
    case Some(w) => !Contains(w, Upper(home)) && !Contains(w, Upper(away))
  }

  /** With the marker present, the home team wins when its full name is in the window before any occurrence of the away team's. */
  lemma PredictedWinnerHomeFirst(text: string, home: string, away: string, w: string, k: nat)
    requires MarkerWindow(Upper(text), WinnerMarker, WinnerWindowWidth) == Some(w)
    requires OccursAt(w, Upper(home), k)
    requires forall j :: 0 <= j <= k ==> !OccursAt(w, Upper(away), j)
    ensures ExtractPredictedWinner(text, home, away) == home
  {
    EarlierNameHome(w, home, away, k);
  }

  /** With the marker present, the away team wins when its full name is in the window and the home team's does not occur earlier. */
  lemma PredictedWinnerAwayFirst(text: string, home: string, away: string, w: string, k: nat)
    requires MarkerWindow(Upper(text), WinnerMarker, WinnerWindowWidth) == Some(w)
    requires OccursAt(w, Upper(away), k)
    requires forall j :: 0 <= j < k ==> !OccursAt(w, Upper(home), j)
    ensures ExtractPredictedWinner(text, home, away) == away
  {
    EarlierNameAway(w, home, away, k);
  }

  /** Without a name in the window, the strictly larger mention count wins and a tie is "Unknown". */
  lemma PredictedWinnerByMentions(text: string, home: string, away: string)
    requires NoNameInWindow(text, home, away)
    ensures var head := Upper(Take(text, MentionWindowWidth));
            var hc := Count(head, Upper(home));
            var ac := Count(head, Upper(away));
            && (hc > ac ==> ExtractPredictedWinner(text, home, away) == home)
            && (ac > hc ==> ExtractPredictedWinner(text, home, away) == away)
            && (hc == ac ==> ExtractPredictedWinner(text, home, away) == UnknownWinner)
  {
  }

  predicate InWinBand(v: real) { 50.0 <= v <= 99.0 }

  /** The first percentage token in [50, 99]; the tipped team is not consulted. */
  function ExtractPredictedProbability(text: string, winner: string): (r: Option<real>)
    ensures r.Some? ==> InWinBand(r.value) && r.value in PercentTokens(text, 0)
    ensures r.None? <==> forall n :: 0 <= n < |PercentTokens(text, 0)| ==> !InWinBand(PercentTokens(text, 0)[n])
    ensures r.Some? ==> exists n :: 0 <= n < |PercentTokens(text, 0)| && PercentTokens(text, 0)[n] == r.value
                          && forall m :: 0 <= m < n ==> !InWinBand(PercentTokens(text, 0)[m])
  {
    FirstWhere(PercentTokens(text, 0), InWinBand)
  }

  /** The tipped team has no influence on the probability read from the text. */
  lemma ProbabilityIgnoresWinner(text: string, w1: string, w2: string)
    ensures ExtractPredictedProbability(text, w1) == ExtractPredictedProbability(text, w2)
  {
  }

  const NorthText := "PREDICTED WINNER: NORTH MELBOURNE"

  lemma NorthTextWindow()
    ensures MarkerWindow(Upper(NorthText), WinnerMarker, WinnerWindowWidth) == Some(NorthText)
  {
    assert Upper(NorthText) == NorthText;
    assert OccursAt(NorthText, WinnerMarker, 0);
  }

  lemma MelbourneNotBefore18()
    ensures forall j :: 0 <= j < 18 ==> !OccursAt(NorthText, "MELBOURNE", j)
  {
    var head := "PREDICTED WINNER: ";
    assert NorthText == head + "NORTH MELBOURNE";
    assert forall i :: 0 <= i < |head| ==> head[i] != 'M';
    forall j | 0 <= j < 18
      ensures !OccursAt(NorthText, "MELBOURNE", j)
    {
      assert NorthText[j] == head[j] != 'M';
      assert NorthText[j..j + 9][0] == NorthText[j];
    }
  }

  lemma UpperMelbourneNames()
    ensures Upper("North Melbourne") == "NORTH MELBOURNE" && Upper("Melbourne") == "MELBOURNE"
  {
    assert Upper("Melbourne") == "MELBOURNE";
    assert Upper("North Melbourne") == "NORTH " + Upper("Melbourne");
  }

  /** Full-name matching tells "Melbourne" from "North Melbourne". */
  lemma NorthMelbourneIsNotMelbourne()
    ensures ExtractPredictedWinner(NorthText, "Melbourne", "North Melbourne") == "North Melbourne"
  {
    NorthTextWindow();
    MelbourneNotBefore18();
    UpperMelbourneNames();
    assert OccursAt(NorthText, "NORTH MELBOURNE", 18);
    PredictedWinnerAwayFirst(NorthText, "Melbourne", "North Melbourne", NorthText, 18);
  }

  // The scenario "PREDICTED WINNER: Port Adelaide is backed at 61% to beat Adelaide",
  // built from pieces so that each piece's characters can be inspected.
  const PortHead := "PREDICTED WINNER: "
  const PortName := "Port Adelaide"
  const PortMid := " is backed at "
  const PortTail := " to beat Adelaide"
  const PortText := PortHead + PortName + PortMid + "61%" + PortTail

  lemma PortTextUpper()
    ensures Upper(PortText) == PortHead + "PORT ADELAIDE" + Upper(PortMid) + "61%" + Upper(PortTail)
  {
    assert Upper(PortHead) == PortHead;
    assert Upper(PortName) == "PORT ADELAIDE";
    assert Upper("61%") == "61%";
    var u := PortHead + "PORT ADELAIDE" + Upper(PortMid) + "61%" + Upper(PortTail);
    assert |u| == |PortText|;
    forall i | 0 <= i < |PortText|
      ensures Upper(PortText)[i] == u[i]
    {
      if i < 18 { assert PortText[i] == PortHead[i] && u[i] == PortHead[i]; }
      else if i < 31 { assert PortText[i] == PortName[i - 18] && u[i] == "PORT ADELAIDE"[i - 18]; }
      else if i < 45 { assert PortText[i] == PortMid[i - 31] && u[i] == Upper(PortMid)[i - 31]; }
      else if i < 48 { assert PortText[i] == "61%"[i - 45] && u[i] == "61%"[i - 45]; }
      else { assert PortText[i] == PortTail[i - 48] && u[i] == Upper(PortTail)[i - 48]; }
    }
  }

  /** The whole upper-cased text is the marker's window, and Port Adelaide is named there before Adelaide. */
  lemma PortTextWindow()
    ensures MarkerWindow(Upper(PortText), WinnerMarker, WinnerWindowWidth) == Some(Upper(PortText))
    ensures OccursAt(Upper(PortText), Upper("Port Adelaide"), 18)
    ensures forall j :: 0 <= j < 18 ==> !OccursAt(Upper(PortText), Upper("Adelaide"), j)
  {
    PortTextUpper();
    var u := Upper(PortText);
    assert u[..16] == WinnerMarker;
    assert OccursAt(u, WinnerMarker, 0);
    assert Upper("Port Adelaide") == "PORT ADELAIDE";
    assert Upper("Adelaide") == "ADELAIDE";
    assert u[18..31] == "PORT ADELAIDE";
    assert forall i :: 0 <= i < |PortHead| ==> PortHead[i] != 'A';
    forall j | 0 <= j < 18
      ensures !OccursAt(u, "ADELAIDE", j)
    {
      assert u[j] == PortHead[j] != 'A';
      assert u[j..j + 8][0] == u[j];
    }
  }

  /** The only percentage before any other digit is "61%", so it is the first token. */
  lemma PortTextTokens()
    ensures |PercentTokens(PortText, 0)| > 0 && PercentTokens(PortText, 0)[0] == 61.0
  {
    var s := PortText;
    assert forall i :: 0 <= i < |PortHead| ==> !IsDigit(PortHead[i]);
    assert forall i :: 0 <= i < |PortName| ==> !IsDigit(PortName[i]);
    assert forall i :: 0 <= i < |PortMid| ==> !IsDigit(PortMid[i]);
    forall j | 0 <= j < 45
      ensures !IsDigit(s[j])
    {
      if j < 18 { assert s[j] == PortHead[j]; }
      else if j < 31 { assert s[j] == PortName[j - 18]; }
      else { assert s[j] == PortMid[j - 31]; }
    }
    PercentTokensSkip(s, 0, 45);
    assert s[45] == '6' && s[46] == '1' && s[47] == '%';
    assert DigitRun(s, 47, 1) == 0;
    assert DigitRun(s, 45, 3) == 2;
    assert s[45..47] == "61";
    assert DigitsValue("61") == 61;
    assert SkipSpace(s, 47) == 47;
    assert PercentAt(s, 45) == Some(Token(61.0, 48));
  }

  /** "PREDICTED WINNER: Port Adelaide is backed at 61% to beat Adelaide" tips Port Adelaide at 61%. */
  lemma ScenarioPortAdelaide()
    ensures ExtractPredictedWinner(PortText, "Adelaide", "Port Adelaide") == "Port Adelaide"
    ensures ExtractPredictedProbability(PortText, "Port Adelaide") == Some(61.0)
  {
    PortTextWindow();
    PredictedWinnerAwayFirst(PortText, "Adelaide", "Port Adelaide", Upper(PortText), 18);
    PortTextTokens();
  }

  // ===========================================================================
  // Recording a batch of predictions (save_predictions)

  /** `p` is the saved record of this game for that round and year. */
  predicate SameGame(p: PredictionRecord, pred: NewPrediction, round: int, year: int) {
    p.homeTeam == pred.homeTeam && p.awayTeam == pred.awayTeam && p.round == round && p.year == year
  }

  predicate HasRecord(ps: seq<PredictionRecord>, pred: NewPrediction, round: int, year: int) {
    exists i :: 0 <= i < |ps| && SameGame(ps[i], pred, round, year)
  }

  /** The record appended for a prediction not yet saved: tip extracted, outcome pending. */
  function NewRecord(pred: NewPrediction, round: int, year: int, savedAt: string): PredictionRecord {
    var winner := ExtractPredictedWinner(pred.prediction, pred.homeTeam, pred.awayTeam);
    PredictionRecord(
      year, round, pred.date.GetOr(""), pred.venue.GetOr(""), pred.homeTeam, pred.awayTeam,
      winner, ExtractPredictedProbability(pred.prediction, winner), pred.prediction,
      None, None, None, savedAt, None)
  }

  function SaveOne(ps: seq<PredictionRecord>, pred: NewPrediction, round: int, year: int, savedAt: string): seq<PredictionRecord> {
    if HasRecord(ps, pred, round, year) then ps else ps + [NewRecord(pred, round, year, savedAt)]
  }

  /** The records after saving `batch` in order; a prediction is skipped when its game is already saved. */
  function SaveAll(ps: seq<PredictionRecord>, batch: seq<NewPrediction>, round: int, year: int, savedAt: string): seq<PredictionRecord>
    decreases |batch|
  {
    if |batch| == 0 then ps
    else SaveOne(SaveAll(ps, batch[..|batch| - 1], round, year, savedAt), batch[|batch| - 1], round, year, savedAt)
  }

  /** Saving one more prediction of the batch saves it after the ones before. */
  lemma SaveAllSnoc(ps: seq<PredictionRecord>, batch: seq<NewPrediction>, i: nat, round: int, year: int, savedAt: string)
    requires i < |batch|
    ensures SaveAll(ps, batch[..i + 1], round, year, savedAt)
            == SaveOne(SaveAll(ps, batch[..i], round, year, savedAt), batch[i], round, year, savedAt)
  {
    assert batch[..i + 1][..i] == batch[..i];
  }

  /** A freshly saved record is pending, well formed, and tips one of its two teams or "Unknown". */
  predicate FreshRecord(p: PredictionRecord, round: int, year: int) {
    && p.year == year && p.round == round
    && p.actualWinner.None? && p.actualMargin.None? && p.correct.None?
    && (p.predictedWinner == p.homeTeam || p.predictedWinner == p.awayTeam || p.predictedWinner == UnknownWinner)
    && (p.predictedProbability.Some? ==> InWinBand(p.predictedProbability.value))
  }

  /**
   * Saving only appends: the earlier records stay as they were, in order,
   * and each appended record is fresh; at most one record per prediction.
   */
  lemma {:induction false} SaveAllAppends(ps: seq<PredictionRecord>, batch: seq<NewPrediction>, round: int, year: int, savedAt: string)
    ensures var r := SaveAll(ps, batch, round, year, savedAt);
            && |ps| <= |r| <= |ps| + |batch| && r[..|ps|] == ps
            && forall i :: |ps| <= i < |r| ==> FreshRecord(r[i], round, year)
    decreases |batch|
  {
    if |batch| > 0 {
      SaveAllAppends(ps, batch[..|batch| - 1], round, year, savedAt);
    }
  }

  lemma HasRecordExtends(ps: seq<PredictionRecord>, qs: seq<PredictionRecord>, pred: NewPrediction, round: int, year: int)
    requires |ps| <= |qs| && qs[..|ps|] == ps
    requires HasRecord(ps, pred, round, year)
    ensures HasRecord(qs, pred, round, year)
  {
    var i :| 0 <= i < |ps| && SameGame(ps[i], pred, round, year);
    assert qs[i] == ps[i];
  }

  /** Saving one prediction keeps the records before it and leaves its game recorded. */
  lemma SaveOneCovers(ps: seq<PredictionRecord>, pred: NewPrediction, round: int, year: int, savedAt: string)
    ensures var r := SaveOne(ps, pred, round, year, savedAt);
            |ps| <= |r| && r[..|ps|] == ps && HasRecord(r, pred, round, year)
  {
    if !HasRecord(ps, pred, round, year) {
      var r := ps + [NewRecord(pred, round, year, savedAt)];
      assert SameGame(r[|ps|], pred, round, year);
    }
  }

  /** After saving, every prediction of the batch has a record of its game. */
  lemma {:induction false} SaveAllCovers(ps: seq<PredictionRecord>, batch: seq<NewPrediction>, round: int, year: int, savedAt: string)
    ensures forall j :: 0 <= j < |batch| ==> HasRecord(SaveAll(ps, batch, round, year, savedAt), batch[j], round, year)
    decreases |batch|
  {
    if |batch| > 0 {
      var init := batch[..|batch| - 1];
      var mid := SaveAll(ps, init, round, year, savedAt);
      var r := SaveAll(ps, batch, round, year, savedAt);
      SaveAllCovers(ps, init, round, year, savedAt);
      SaveOneCovers(mid, batch[|batch| - 1], round, year, savedAt);
      forall j | 0 <= j < |batch| - 1
        ensures HasRecord(r, batch[j], round, year)
      {
        assert batch[j] == init[j];
        HasRecordExtends(mid, r, batch[j], round, year);
      }
    }
  }

  /** A batch whose games are all saved already changes nothing. */
  lemma {:induction false} SaveAllSkipsSaved(ps: seq<PredictionRecord>, batch: seq<NewPrediction>, round: int, year: int, savedAt: string)
    requires forall j :: 0 <= j < |batch| ==> HasRecord(ps, batch[j], round, year)
    ensures SaveAll(ps, batch, round, year, savedAt) == ps
    decreases |batch|
  {
    if |batch| > 0 {
      SaveAllSkipsSaved(ps, batch[..|batch| - 1], round, year, savedAt);
    }
  }

  /** Saving the same batch twice leaves the records as saving it once did, whatever the second timestamp. */
  lemma SaveAllIdempotent(ps: seq<PredictionRecord>, batch: seq<NewPrediction>, round: int, year: int, t1: string, t2: string)
    ensures var once := SaveAll(ps, batch, round, year, t1);
            SaveAll(once, batch, round, year, t2) == once
  {
    SaveAllCovers(ps, batch, round, year, t1);
    SaveAllSkipsSaved(SaveAll(ps, batch, round, year, t1), batch, round, year, t2);
  }

  /** Saving never creates a second record with the same (home, away, round, year). */
  lemma {:induction false} SaveAllKeepsKeysUnique(ps: seq<PredictionRecord>, batch: seq<NewPrediction>, round: int, year: int, savedAt: string)
    requires UniqueKeys(ps)
    ensures UniqueKeys(SaveAll(ps, batch, round, year, savedAt))
    decreases |batch|
  {
    if |batch| > 0 {
      var mid := SaveAll(ps, batch[..|batch| - 1], round, year, savedAt);
      SaveAllKeepsKeysUnique(ps, batch[..|batch| - 1], round, year, savedAt);
      var pred := batch[|batch| - 1];
      if !HasRecord(mid, pred, round, year) {
        var r := mid + [NewRecord(pred, round, year, savedAt)];
        forall i, j | 0 <= i < j < |r|
          ensures KeyOf(r[i]) != KeyOf(r[j])
        {
          if j == |mid| {
            assert !SameGame(mid[i], pred, round, year);
          }
        }
      }
    }
  }

  // ===========================================================================
  // Resolving pending records against completed games (check_and_update_results)

  predicate IsCompleteGame(g: Game) { g.complete == Some(100) }

  function CompletedGames(games: seq<Game>): seq<Game> {
    Filter(games, IsCompleteGame)
  }

  /** Home team, away team and round agree (the round compared as text, which for integers is equality). */
  predicate GameMatches(g: Game, p: PredictionRecord) {
    g.hteam == Some(p.homeTeam) && g.ateam == Some(p.awayTeam) && g.round == Some(p.round)
  }

  function Abs(x: int): nat { if x < 0 then -x else x }

  /** The higher-scoring team, or "Draw". */
  function ActualWinner(homeScore: int, awayScore: int, home: string, away: string): string {
    if homeScore > awayScore then home else if awayScore > homeScore then away else DrawResult
  }

  /** The record once `g` is known to be its game; scores missing from the feed count as 0. */
  function Resolve(p: PredictionRecord, g: Game, checkedAt: string): PredictionRecord {
    var hs := g.hscore.GetOr(0);
    var aw := g.ascore.GetOr(0);
    var winner := ActualWinner(hs, aw, p.homeTeam, p.awayTeam);
    p.(actualWinner := Some(winner),
       actualMargin := Some(Abs(hs - aw)),
       correct := Some(p.predictedWinner == winner),
       resultCheckedAt := Some(checkedAt))
  }

  /** A pending record of `year` is resolved by its first matching completed game; every other record is left alone. */
  function ReconcileRecord(p: PredictionRecord, completed: seq<Game>, year: int, checkedAt: string): PredictionRecord {
    if !IsPendingFor(p, year) then p
    else
      match FirstWhere(completed, g => GameMatches(g, p))
      case None => p
      case Some(g) => Resolve(p, g, checkedAt)
  }

  function ReconcileAll(ps: seq<PredictionRecord>, completed: seq<Game>, year: int, checkedAt: string): seq<PredictionRecord> {
    seq(|ps|, i requires 0 <= i < |ps| => ReconcileRecord(ps[i], completed, year, checkedAt))
  }

  predicate AnyPending(ps: seq<PredictionRecord>, year: int) {
    exists i :: 0 <= i < |ps| && IsPendingFor(ps[i], year)
  }

  /**
   * A pending record is resolved by its first matching completed game `g`:
   * it gets the higher-scoring team (or "Draw") as actual winner, the
   * absolute score difference as margin, and `correct` saying whether that
   * was the tip; nothing else about it changes.
   */
  lemma ReconcileResolvesMatched(ps: seq<PredictionRecord>, completed: seq<Game>, year: int, t: string, i: nat, g: Game)
    requires i < |ps| && IsPendingFor(ps[i], year)
    requires exists k :: 0 <= k < |completed| && completed[k] == g && GameMatches(g, ps[i])
                         && forall n :: 0 <= n < k ==> !GameMatches(completed[n], ps[i])
    ensures var r := ReconcileAll(ps, completed, year, t)[i];
            var hs := g.hscore.GetOr(0);
            var aw := g.ascore.GetOr(0);
            && r.actualWinner == Some(if hs > aw then ps[i].homeTeam else if aw > hs then ps[i].awayTeam else DrawResult)
            && r.actualMargin == Some(Abs(hs - aw))
            && r.correct == Some(ps[i].predictedWinner == r.actualWinner.value)
            && KeyOf(r) == KeyOf(ps[i]) && r.predictedWinner == ps[i].predictedWinner
            && r.predictedProbability == ps[i].predictedProbability
  {
    var k :| 0 <= k < |completed| && completed[k] == g && GameMatches(g, ps[i])
             && forall n :: 0 <= n < k ==> !GameMatches(completed[n], ps[i]);
    var m := FirstWhere(completed, h => GameMatches(h, ps[i]));
    assert m.Some?;
    var n :| 0 <= n < |completed| && completed[n] == m.value
             && forall j :: 0 <= j < n ==> !GameMatches(completed[j], ps[i]);
    assert GameMatches(completed[n], ps[i]);
    assert n == k;
  }

  /** A pending record with no matching completed game stays exactly as it was. */
  lemma ReconcileLeavesUnmatched(ps: seq<PredictionRecord>, completed: seq<Game>, year: int, t: string, i: nat)
    requires i < |ps|
    requires forall g :: g in completed ==> !GameMatches(g, ps[i])
    ensures ReconcileAll(ps, completed, year, t)[i] == ps[i]
  {
    assert forall n :: 0 <= n < |completed| ==> completed[n] in completed;
  }

  /**
   * Resolution is one way: resolved records and records of other years are
   * untouched, no key changes, and every record stays or becomes well formed.
   */
  lemma ReconcileOneWay(ps: seq<PredictionRecord>, completed: seq<Game>, year: int, t: string)
    ensures var r := ReconcileAll(ps, completed, year, t);
            && |r| == |ps|
            && (forall i :: 0 <= i < |ps| && !IsPendingFor(ps[i], year) ==> r[i] == ps[i])
            && (forall i :: 0 <= i < |ps| ==> KeyOf(r[i]) == KeyOf(ps[i]))
            && (forall i :: 0 <= i < |ps| && IsResolved(ps[i]) ==> IsResolved(r[i]))
            && (AllWellFormed(ps) ==> AllWellFormed(r))
            && (UniqueKeys(ps) ==> UniqueKeys(r))
  {
    var r := ReconcileAll(ps, completed, year, t);
    assert forall i :: 0 <= i < |ps| ==> KeyOf(r[i]) == KeyOf(ps[i]);
  }

  /** Checking the same results again changes nothing, whatever the second timestamp. */
  lemma ReconcileIdempotent(ps: seq<PredictionRecord>, completed: seq<Game>, year: int, t1: string, t2: string)
    ensures var once := ReconcileAll(ps, completed, year, t1);
            ReconcileAll(once, completed, year, t2) == once
  {
    var once := ReconcileAll(ps, completed, year, t1);
    var twice := ReconcileAll(once, completed, year, t2);
    forall i | 0 <= i < |ps|
      ensures twice[i] == once[i]
    {
      if IsPendingFor(ps[i], year) && FirstWhere(completed, g => GameMatches(g, ps[i])).None? {
        assert once[i] == ps[i];
      }
    }
  }

  /** The number of resolved records never goes down. */
  lemma {:induction false} ReconcileResolvedGrows(ps: seq<PredictionRecord>, completed: seq<Game>, year: int, t: string)
    ensures |Filter(ps, IsResolved)| <= |Filter(ReconcileAll(ps, completed, year, t), IsResolved)|
    decreases |ps|
  {
    if |ps| > 0 {
      var init := ps[..|ps| - 1];
      var r := ReconcileAll(ps, completed, year, t);
      ReconcileResolvedGrows(init, completed, year, t);
      assert r[..|r| - 1] == ReconcileAll(init, completed, year, t);
    }
  }

  /** Richmond 90, Carlton 75, Richmond tipped: Richmond by 15, correct. */
  lemma ScenarioRichmondWins()
    ensures var p := PredictionRecord(2026, 5, "", "", "Richmond", "Carlton", "Richmond", Some(62.0), "",
                                      None, None, None, "", None);
            var r := Resolve(p, Game(Some("Richmond"), Some("Carlton"), Some(5), Some(90), Some(75), Some(100)), "");
            r.actualWinner == Some("Richmond") && r.actualMargin == Some(15) && r.correct == Some(true)
  {
  }

  /** Richmond 75, Carlton 90, Richmond tipped: Carlton by 15, wrong. */
  lemma ScenarioCarltonWins()
    ensures var p := PredictionRecord(2026, 5, "", "", "Richmond", "Carlton", "Richmond", Some(62.0), "",
                                      None, None, None, "", None);
            var r := Resolve(p, Game(Some("Richmond"), Some("Carlton"), Some(5), Some(75), Some(90), Some(100)), "");
            r.actualWinner == Some("Carlton") && r.actualMargin == Some(15) && r.correct == Some(false)
  {
  }

  /** A draw is wrong for any tip that is not literally "Draw". */
  lemma DrawIsNeverCorrect(p: PredictionRecord, g: Game, t: string)
    requires g.hscore.GetOr(0) == g.ascore.GetOr(0) && p.predictedWinner != DrawResult
    ensures Resolve(p, g, t).actualWinner == Some(DrawResult) && Resolve(p, g, t).correct == Some(false)
  {
  }

  /** An "Unknown" tip is wrong once resolved, unless a team is itself called "Unknown". */
  lemma UnknownIsNeverCorrect(p: PredictionRecord, g: Game, t: string)
    requires p.predictedWinner == UnknownWinner && p.homeTeam != UnknownWinner && p.awayTeam != UnknownWinner
    ensures Resolve(p, g, t).correct == Some(false)
  {
  }

  // ===========================================================================
  // The accuracy summary (calculate_accuracy_summary)

  function Resolved(ps: seq<PredictionRecord>): seq<PredictionRecord> { Filter(ps, IsResolved) }

  function CountCorrect(ps: seq<PredictionRecord>): nat { |Filter(ps, IsCorrect)| }

  /** A probability that Python treats as present (`p.get("predicted_probability")` is truthy). */
  predicate HasProbability(p: PredictionRecord) {
    p.predictedProbability.Some? && p.predictedProbability.value != 0.0
  }

  predicate IsFavouritePick(p: PredictionRecord) {
    HasProbability(p) && p.predictedProbability.value >= 55.0
  }

  predicate IsUpsetPick(p: PredictionRecord) {
    HasProbability(p) && p.predictedProbability.value < 55.0
  }

  /** Where `round` already has an entry (`r in rounds`). */
  function RoundIndex(rounds: seq<RoundTally>, round: int): (k: Option<nat>)
    ensures k.Some? ==> k.value < |rounds| && rounds[k.value].round == round
    ensures k.None? ==> forall j :: 0 <= j < |rounds| ==> rounds[j].round != round
    decreases |rounds|
  {
    if |rounds| == 0 then None
    else match RoundIndex(rounds[..|rounds| - 1], round)
      case Some(k) => Some(k)
      case None => if rounds[|rounds| - 1].round == round then Some(|rounds| - 1) else None
  }

  /** One step of the per-round loop: create the round's entry if needed, then count the record. */
  function TallyRound(rounds: seq<RoundTally>, p: PredictionRecord): seq<RoundTally> {
    var bump := if IsCorrect(p) then 1 else 0;
    match RoundIndex(rounds, p.round)
    case None => rounds + [RoundTally(p.round, bump, 1)]
    case Some(k) => rounds[k := RoundTally(p.round, rounds[k].correct + bump, rounds[k].total + 1)]
  }

  /** `by_round`, in order of each round's first appearance. */
  function GroupByRound(ps: seq<PredictionRecord>): seq<RoundTally>
    decreases |ps|
  {
    if |ps| == 0 then [] else TallyRound(GroupByRound(ps[..|ps| - 1]), ps[|ps| - 1])
  }

  /** One more record tallies one more record into the rounds. */
  lemma GroupByRoundSnoc(ps: seq<PredictionRecord>, i: nat)
    requires i < |ps|
    ensures GroupByRound(ps[..i + 1]) == TallyRound(GroupByRound(ps[..i]), ps[i])
  {
    assert ps[..i + 1][..i] == ps[..i];
  }

  /** The whole summary, recomputed from every record, of every year. */
  function SummaryOf(ps: seq<PredictionRecord>, now: string): AccuracySummary {
    var done := Resolved(ps);
    if |done| == 0 then NoSummary
    else
      var fav := Filter(done, IsFavouritePick);
      var upset := Filter(done, IsUpsetPick);
      Summary(CountCorrect(done), |done|, GroupByRound(done),
              Tally(CountCorrect(fav), |fav|), Tally(CountCorrect(upset), |upset|), now)
  }

  function CountRound(ps: seq<PredictionRecord>, round: int): nat
    decreases |ps|
  {
    if |ps| == 0 then 0
    else CountRound(ps[..|ps| - 1], round) + (if ps[|ps| - 1].round == round then 1 else 0)
  }

  function CountRoundCorrect(ps: seq<PredictionRecord>, round: int): nat
    decreases |ps|
  {
    if |ps| == 0 then 0
    else CountRoundCorrect(ps[..|ps| - 1], round) + (if ps[|ps| - 1].round == round && IsCorrect(ps[|ps| - 1]) then 1 else 0)
  }

  function SumTotals(rounds: seq<RoundTally>): nat
    decreases |rounds|
  {
    if |rounds| == 0 then 0 else SumTotals(rounds[..|rounds| - 1]) + rounds[|rounds| - 1].total
  }

  function SumCorrect(rounds: seq<RoundTally>): nat
    decreases |rounds|
  {
    if |rounds| == 0 then 0 else SumCorrect(rounds[..|rounds| - 1]) + rounds[|rounds| - 1].correct
  }

  lemma {:induction false} SumCorrectUpdate(rounds: seq<RoundTally>, k: nat, e: RoundTally)
    requires k < |rounds|
    ensures SumCorrect(rounds[k := e]) == SumCorrect(rounds) - rounds[k].correct + e.correct
    decreases |rounds|
  {
    var n := |rounds| - 1;
    if k < n {
      assert rounds[k := e][..n] == rounds[..n][k := e];
      SumCorrectUpdate(rounds[..n], k, e);
    } else {
      assert rounds[k := e][..n] == rounds[..n];
    }
  }

  lemma {:induction false} SumTotalsUpdate(rounds: seq<RoundTally>, k: nat, e: RoundTally)
    requires k < |rounds|
    ensures SumTotals(rounds[k := e]) == SumTotals(rounds) - rounds[k].total + e.total
    decreases |rounds|
  {
    var n := |rounds| - 1;
    if k < n {
      assert rounds[k := e][..n] == rounds[..n][k := e];
      SumTotalsUpdate(rounds[..n], k, e);
    } else {
      assert rounds[k := e][..n] == rounds[..n];
    }
  }

  lemma {:induction false} CountRoundAbsent(ps: seq<PredictionRecord>, round: int)
    requires forall n :: 0 <= n < |ps| ==> ps[n].round != round
    ensures CountRound(ps, round) == 0 && CountRoundCorrect(ps, round) == 0
    decreases |ps|
  {
    if |ps| > 0 {
      CountRoundAbsent(ps[..|ps| - 1], round);
    }
  }

  /** The rounds of `rounds` are pairwise distinct: `by_round` is a dictionary. */
  predicate DistinctRounds(rounds: seq<RoundTally>) {
    forall i, j :: 0 <= i < j < |rounds| ==> rounds[i].round != rounds[j].round
  }

  /** Every entry of `g` counts exactly the records of its round in `ps`, and none is empty. */
  predicate CountsMatch(ps: seq<PredictionRecord>, g: seq<RoundTally>) {
    forall k :: 0 <= k < |g| ==>
      && g[k].total == CountRound(ps, g[k].round)
      && g[k].correct == CountRoundCorrect(ps, g[k].round)
      && 0 < g[k].total && g[k].correct <= g[k].total
  }

  /** Every record's round has an entry in `g`. */
  predicate CoversRounds(ps: seq<PredictionRecord>, g: seq<RoundTally>) {
    forall n :: 0 <= n < |ps| ==> RoundIndex(g, ps[n].round).Some?
  }

  predicate GroupInv(ps: seq<PredictionRecord>, g: seq<RoundTally>) {
    DistinctRounds(g) && CountsMatch(ps, g) && CoversRounds(ps, g) && SumTotals(g) == |ps|
  }

  lemma CountRoundSnoc(q: seq<PredictionRecord>, x: PredictionRecord, round: int)
    ensures CountRound(q + [x], round) == CountRound(q, round) + (if x.round == round then 1 else 0)
    ensures CountRoundCorrect(q + [x], round)
            == CountRoundCorrect(q, round) + (if x.round == round && IsCorrect(x) then 1 else 0)
  {
    assert (q + [x])[..|q|] == q;
  }

  /** A record of a round not seen before opens a new entry. */
  lemma TallyNewRound(q: seq<PredictionRecord>, x: PredictionRecord, h: seq<RoundTally>)
    requires GroupInv(q, h) && RoundIndex(h, x.round).None?
    ensures GroupInv(q + [x], TallyRound(h, x))
  {
    var ps := q + [x];
    var g := TallyRound(h, x);
    assert g[..|g| - 1] == h;
    assert forall n :: 0 <= n < |q| ==> q[n].round != x.round;
    CountRoundAbsent(q, x.round);
    forall k | 0 <= k < |g|
      ensures g[k].total == CountRound(ps, g[k].round) && g[k].correct == CountRoundCorrect(ps, g[k].round)
    {
      CountRoundSnoc(q, x, g[k].round);
    }
    forall n | 0 <= n < |ps|
      ensures RoundIndex(g, ps[n].round).Some?
    {
      if n < |q| {
        var k := RoundIndex(h, q[n].round).value;
        assert g[k].round == ps[n].round;
      } else {
        assert g[|g| - 1].round == ps[n].round;
      }
    }
  }

  /** A record of a round already seen bumps that round's entry. */
  lemma TallyKnownRound(q: seq<PredictionRecord>, x: PredictionRecord, h: seq<RoundTally>, k: nat)
    requires GroupInv(q, h) && RoundIndex(h, x.round) == Some(k)
    ensures GroupInv(q + [x], TallyRound(h, x))
  {
    var ps := q + [x];
    var g := TallyRound(h, x);
    SumTotalsUpdate(h, k, g[k]);
    forall j | 0 <= j < |g|
      ensures g[j].total == CountRound(ps, g[j].round) && g[j].correct == CountRoundCorrect(ps, g[j].round)
    {
      CountRoundSnoc(q, x, g[j].round);
    }
    forall n | 0 <= n < |ps|
      ensures RoundIndex(g, ps[n].round).Some?
    {
      if n < |q| {
        var j := RoundIndex(h, q[n].round).value;
        assert g[j].round == ps[n].round;
      } else {
        assert g[k].round == ps[n].round;
      }
    }
  }

  /**
   * `by_round` has one entry per round that occurs, each counting exactly
   * the records of its round, with 0 < total and correct <= total, and the
   * totals add up to the number of records.
   */
  lemma {:induction false} GroupByRoundCounts(ps: seq<PredictionRecord>)
    ensures GroupInv(ps, GroupByRound(ps))
    decreases |ps|
  {
    if |ps| > 0 {
      var q := ps[..|ps| - 1];
      var x := ps[|ps| - 1];
      assert ps == q + [x];
      GroupByRoundCounts(q);
      match RoundIndex(GroupByRound(q), x.round)
      case None => TallyNewRound(q, x, GroupByRound(q));
      case Some(k) => TallyKnownRound(q, x, GroupByRound(q), k);
    }
  }

  /** The per-round correct counts add up to the number of correct records. */
  lemma {:induction false} GroupByRoundCorrect(ps: seq<PredictionRecord>)
    ensures SumCorrect(GroupByRound(ps)) == CountCorrect(ps)
    decreases |ps|
  {
    if |ps| > 0 {
      var q := ps[..|ps| - 1];
      var x := ps[|ps| - 1];
      var h := GroupByRound(q);
      GroupByRoundCorrect(q);
      assert CountCorrect(ps) == CountCorrect(q) + (if IsCorrect(x) then 1 else 0);
      match RoundIndex(h, x.round)
      case None =>
        var g := TallyRound(h, x);
        assert g[..|g| - 1] == h;
      case Some(k) =>
        SumCorrectUpdate(h, k, TallyRound(h, x)[k]);
    }
  }

  /**
   * What the summary states: it is `{}` exactly when nothing is resolved.
   * Otherwise:
   * - the overall counts are the resolved records and the correct ones
   *   among them, and the per-round counts add up to both;
   * - the favourite bucket counts the resolved records whose probability
   *   is present (non-zero) and at least 55, the upset bucket those below
   *   55, each with its correct ones;
   * - so every resolved record with a probability is in exactly one bucket
   *   and records without one are in neither.
   */
  lemma SummaryAgreesWithRecords(ps: seq<PredictionRecord>, now: string)
    ensures var s := SummaryOf(ps, now);
            && (s.NoSummary? <==> |Resolved(ps)| == 0)
            && (s.Summary? ==>
                  && s.overallTotal == |Resolved(ps)|
                  && s.overallCorrect == |Filter(Resolved(ps), IsCorrect)|
                  && s.overallCorrect <= s.overallTotal
                  && GroupInv(Resolved(ps), s.byRound)
                  && SumCorrect(s.byRound) == s.overallCorrect
                  && s.favouritePicks.total == |Filter(Resolved(ps), IsFavouritePick)|
                  && s.favouritePicks.correct == |Filter(Filter(Resolved(ps), IsCorrect), IsFavouritePick)|
                  && s.upsetPicks.total == |Filter(Resolved(ps), IsUpsetPick)|
                  && s.upsetPicks.correct == |Filter(Filter(Resolved(ps), IsCorrect), IsUpsetPick)|
                  && s.favouritePicks.total + s.upsetPicks.total == |Filter(Resolved(ps), HasProbability)|
                  && s.favouritePicks.correct + s.upsetPicks.correct
                     == |Filter(Filter(Resolved(ps), IsCorrect), HasProbability)|
                  && s.favouritePicks.total + s.upsetPicks.total <= s.overallTotal
                  && s.favouritePicks.correct <= s.favouritePicks.total
                  && s.upsetPicks.correct <= s.upsetPicks.total)
  {
    var done := Resolved(ps);
    GroupByRoundCounts(done);
    GroupByRoundCorrect(done);
    FilterDisjoint(done, IsFavouritePick, IsUpsetPick, HasProbability);
    FilterDisjoint(Filter(done, IsCorrect), IsFavouritePick, IsUpsetPick, HasProbability);
    FilterCommute(done, IsCorrect, IsFavouritePick);
    FilterCommute(done, IsCorrect, IsUpsetPick);
  }

  /** Which bucket a resolved record counts in: at least 55 is a favourite pick, below 55 an upset pick, no probability neither. */
  lemma BucketOfRecord(ps: seq<PredictionRecord>, p: PredictionRecord)
    requires p in Resolved(ps)
    ensures p in Filter(Resolved(ps), IsFavouritePick) <==> HasProbability(p) && p.predictedProbability.value >= 55.0
    ensures p in Filter(Resolved(ps), IsUpsetPick) <==> HasProbability(p) && p.predictedProbability.value < 55.0
    ensures !(p in Filter(Resolved(ps), IsFavouritePick) && p in Filter(Resolved(ps), IsUpsetPick))
  {
    FilterMembership(Resolved(ps), IsFavouritePick, p);
    FilterMembership(Resolved(ps), IsUpsetPick, p);
  }

  /**
   * The per-round counters of `calculate_accuracy_summary`, built by its loop
   * over the resolved records: one entry per round, in order of first
   * appearance, each counting that round's records and correct tips.
   */
  method CountRounds(completed: seq<PredictionRecord>) returns (rounds: seq<RoundTally>)
    ensures rounds == GroupByRound(completed)
    ensures GroupInv(completed, rounds)
  {
    rounds := [];
    var i := 0;
    while i < |completed|
      invariant 0 <= i <= |completed|
      invariant rounds == GroupByRound(completed[..i])
    {
      rounds := CountRecord(rounds, completed[i]);
      GroupByRoundSnoc(completed, i);
      i := i + 1;
    }
    assert completed[..i] == completed;
    GroupByRoundCounts(completed);
  }

  /** The loop body: create the record's round entry if missing, count the record, and count it correct if it is. */
  method CountRecord(rounds: seq<RoundTally>, p: PredictionRecord) returns (r: seq<RoundTally>)
    ensures r == TallyRound(rounds, p)
  {
    r := rounds;
    var k := RoundIndex(r, p.round);
    if k.None? {
      r := r + [RoundTally(p.round, 0, 0)];
      k := Some(|r| - 1);
    }
    r := r[k.value := r[k.value].(total := r[k.value].total + 1)];
    if IsCorrect(p) {
      r := r[k.value := r[k.value].(correct := r[k.value].correct + 1)];
    }
  }

  /** `calculate_accuracy_summary`: `{}` without resolved records, else the counts over all of them. */
  method CalculateAccuracySummary(ps: seq<PredictionRecord>, now: string) returns (s: AccuracySummary)
    ensures s == SummaryOf(ps, now)
    ensures s.NoSummary? <==> |Resolved(ps)| == 0
    ensures s.Summary? ==> s.overallTotal == |Resolved(ps)| && s.overallCorrect <= s.overallTotal
    ensures s.Summary? ==> s.overallCorrect == |Filter(Resolved(ps), IsCorrect)|
    ensures s.Summary? ==> SumTotals(s.byRound) == s.overallTotal && DistinctRounds(s.byRound)
    ensures s.Summary? ==> SumCorrect(s.byRound) == s.overallCorrect
    ensures s.Summary? ==> s.favouritePicks.total == |Filter(Resolved(ps), IsFavouritePick)|
                           && s.favouritePicks.correct == |Filter(Filter(Resolved(ps), IsCorrect), IsFavouritePick)|
    ensures s.Summary? ==> s.upsetPicks.total == |Filter(Resolved(ps), IsUpsetPick)|
                           && s.upsetPicks.correct == |Filter(Filter(Resolved(ps), IsCorrect), IsUpsetPick)|
    ensures s.Summary? ==> s.favouritePicks.total + s.upsetPicks.total <= s.overallTotal
  {
    var completed := Resolved(ps);
    if |completed| == 0 {
      return NoSummary;
    }
    var rounds := CountRounds(completed);
    var favourites := Filter(completed, IsFavouritePick);
    var upsets := Filter(completed, IsUpsetPick);
    s := Summary(CountCorrect(completed), |completed|, rounds,
                 Tally(CountCorrect(favourites), |favourites|),
                 Tally(CountCorrect(upsets), |upsets|), now);
    SummaryAgreesWithRecords(ps, now);
  }

  // ===========================================================================
  // The history digest for the next prompt (format_history_for_ai)

  /**
   * One line of the digest. Percentages are left as the counts they are
   * computed from; names are carried as the line shows them.
   */
  datatype Line =
    | AccuracyHeader
    | OverallLine(correct: nat, total: nat)
    | FavouriteLine(correct: nat, total: nat)
    | UnderdogLine(correct: nat, total: nat)
    | RecentRoundsLine(rounds: seq<RoundTally>)
    | TeamHeader(home: string, away: string)
    | TeamLine(round: int, homeTeam: string, awayTeam: string, tipped: string, confidence: string, wasCorrect: bool, actualWinner: string)
    | WrongHeader
    | WrongLine(round: int, tipped: string, actualWinner: string, margin: string)

  /** The digest: the first-round sentence when there is no history, else the lines joined by newlines. */
  datatype Digest = FirstRound | Sections(lines: seq<Line>)

  const FirstRoundText := "No prediction history yet \U{2014} this is the first round of the season."

  /** Python's `str` of an optional string. */
  function OptText(o: Option<string>): string { o.GetOr("None") }

  function MarginText(m: Option<nat>): string {
    match m
    case Some(v) => NatToString(v)
    case None => "None"
  }

  /** Round half to even, as `'%.0f'` rounds. */
  function RoundHalfEven(v: real): (r: int)
    ensures -0.5 <= v - r as real <= 0.5
    ensures (v - r as real == 0.5 || v - r as real == -0.5) ==> r % 2 == 0
  {
    var f := v.Floor;
    var d := v - f as real;
    if d > 0.5 then f + 1
    else if d < 0.5 then f
    else if f % 2 == 0 then f
    else f + 1
  }

  /** `'%.0f' % p` as written: only defined when there is a probability. */
  function ConfidenceTextAsWritten(prob: Option<real>): string
    requires prob.Some?
  {
    IntToString(RoundHalfEven(prob.value))
  }

  /** The confidence text with the missing-probability gap filled by "?". */
  function ConfidenceText(prob: Option<real>): (r: string)
    ensures prob.Some? ==> r == ConfidenceTextAsWritten(prob)
    ensures prob.None? ==> r == "?"
  {
    match prob
    case Some(v) => IntToString(RoundHalfEven(v))
    case None => "?"
  }

  predicate InvolvesEither(p: PredictionRecord, home: string, away: string) {
    p.homeTeam in [home, away] || p.awayTeam in [home, away]
  }

  /** The sort key `(year, int(round))`. */
  function Recency(p: PredictionRecord): (int, int) { (p.year, p.round) }

  /** Ascending by round, as `sorted(keys, key=int)` orders them. */
  function RoundAscending(t: RoundTally): (int, int) { (-t.round, 0) }

  /** The entries of the three highest rounds, lowest first. */
  function RecentRounds(byRound: seq<RoundTally>): seq<RoundTally> {
    var asc := SortDesc(byRound, RoundAscending);
    asc[|asc| - Min(3, |asc|)..]
  }

  lemma SortedByRoundAscending(s: seq<RoundTally>)
    requires SortedDesc(s, RoundAscending)
    ensures forall i, j :: 0 <= i < j < |s| ==> s[i].round <= s[j].round
  {
    forall i, j | 0 <= i < j < |s|
      ensures s[i].round <= s[j].round
    {
      assert KeyLe(RoundAscending(s[j]), RoundAscending(s[i]));
    }
  }

  /** In a sequence ascending by round, an element before the suffix has a round no higher than any in it. */
  lemma SuffixHoldsHighest(asc: seq<RoundTally>, start: nat, x: RoundTally)
    requires start <= |asc|
    requires forall i, j :: 0 <= i < j < |asc| ==> asc[i].round <= asc[j].round
    requires x in asc && x !in asc[start..]
    ensures forall y :: y in asc[start..] ==> x.round <= y.round
  {
    var ix :| 0 <= ix < |asc| && asc[ix] == x;
    forall y | y in asc[start..]
      ensures x.round <= y.round
    {
      var iy :| 0 <= iy < |asc[start..]| && asc[start..][iy] == y;
      assert asc[start + iy] == y;
    }
  }

  /**
   * The recent-rounds line shows at most three entries, in ascending round
   * order, each taken from `by_round`; any entry left out has a round no
   * higher than every entry shown.
   */
  lemma RecentRoundsAreTheLatest(byRound: seq<RoundTally>)
    ensures var r := RecentRounds(byRound);
            && |r| == Min(3, |byRound|)
            && (forall i, j :: 0 <= i < j < |r| ==> r[i].round <= r[j].round)
            && (forall x :: x in r ==> x in byRound)
            && (forall x :: x in byRound && x !in r ==> forall y :: y in r ==> x.round <= y.round)
  {
    var asc := SortDesc(byRound, RoundAscending);
    SortDescSpec(byRound, RoundAscending);
    SortedByRoundAscending(asc);
    AscendingSuffix(asc, byRound, |asc| - Min(3, |asc|));
  }

  /** A suffix of an ascending permutation of `byRound` is ascending, drawn from `byRound`, and holds its highest rounds. */
  lemma AscendingSuffix(asc: seq<RoundTally>, byRound: seq<RoundTally>, start: nat)
    requires start <= |asc|
    requires multiset(asc) == multiset(byRound)
    requires forall i, j :: 0 <= i < j < |asc| ==> asc[i].round <= asc[j].round
    ensures var r := asc[start..];
            && (forall i, j :: 0 <= i < j < |r| ==> r[i].round <= r[j].round)
            && (forall x :: x in r ==> x in byRound)
            && (forall x :: x in byRound && x !in r ==> forall y :: y in r ==> x.round <= y.round)
  {
    var r := asc[start..];
    forall x | x in r
      ensures x in byRound
    {
      assert x in multiset(asc);
    }
    forall x | x in byRound && x !in r
      ensures forall y :: y in r ==> x.round <= y.round
    {
      assert x in multiset(byRound);
      SuffixHoldsHighest(asc, start, x);
    }
    forall i, j | 0 <= i < j < |r|
      ensures r[i].round <= r[j].round
    {
      assert r[i] == asc[start + i] && r[j] == asc[start + j];
    }
  }

  /** The accuracy block, shown only when the summary is not `{}`. */
  function AccuracyLines(s: AccuracySummary): seq<Line> {
    match s
    case NoSummary => []
    case Summary(oc, ot, byRound, fav, upset, _) =>
      [AccuracyHeader, OverallLine(oc, ot)]
      + (if fav.total > 0 then [FavouriteLine(fav.correct, fav.total)] else [])
      + (if upset.total > 0 then [UnderdogLine(upset.correct, upset.total)] else [])
      + (if |byRound| > 0 then [RecentRoundsLine(RecentRounds(byRound))] else [])
  }

  predicate InTeamHistory(p: PredictionRecord, home: string, away: string) {
    InvolvesEither(p, home, away) && IsResolved(p)
  }

  /** The team-history condition for one pair of teams, as a function value. */
  function TeamFilter(home: string, away: string): PredictionRecord -> bool {
    p => InTeamHistory(p, home, away)
  }

  /** Resolved records involving either team, most recent first. */
  function TeamHistory(ps: seq<PredictionRecord>, home: string, away: string): seq<PredictionRecord> {
    SortDesc(Filter(ps, TeamFilter(home, away)), Recency)
  }

  /** Wrong predictions, most recent first. */
  function WrongRecent(ps: seq<PredictionRecord>): seq<PredictionRecord> {
    SortDesc(Filter(ps, IsWrong), Recency)
  }

  function TeamLineOf(p: PredictionRecord): Line {
    TeamLine(p.round, p.homeTeam, p.awayTeam, p.predictedWinner, ConfidenceText(p.predictedProbability),
             IsCorrect(p), OptText(p.actualWinner))
  }

  function WrongLineOf(p: PredictionRecord): Line {
    WrongLine(p.round, p.predictedWinner, OptText(p.actualWinner), MarginText(p.actualMargin))
  }

  /** The lines of the first `n` records. */
  function LinesOf(rs: seq<PredictionRecord>, n: nat, line: PredictionRecord -> Line): (r: seq<Line>)
    requires n <= |rs|
    ensures |r| == n && forall i :: 0 <= i < n ==> r[i] == line(rs[i])
  {
    if n == 0 then [] else LinesOf(rs, n - 1, line) + [line(rs[n - 1])]
  }

  function TeamSection(ps: seq<PredictionRecord>, home: string, away: string): seq<Line> {
    var h := TeamHistory(ps, home, away);
    if |h| == 0 then []
    else [TeamHeader(Upper(home), Upper(away))] + LinesOf(h, Min(6, |h|), TeamLineOf)
  }

  function WrongSection(ps: seq<PredictionRecord>): seq<Line> {
    var w := WrongRecent(ps);
    if |w| == 0 then []
    else [WrongHeader] + LinesOf(w, Min(4, |w|), WrongLineOf)
  }

  /**
   * The per-team history holds exactly the resolved records involving
   * either team, most recent (year, round) first, and records of the same
   * (year, round) in the order they were saved; the digest shows its first
   * six.
   */
  lemma TeamHistoryIsNewestFirst(ps: seq<PredictionRecord>, home: string, away: string)
    ensures var h := TeamHistory(ps, home, away);
            && SortedDesc(h, Recency)
            && (forall p :: p in h <==> p in ps && InvolvesEither(p, home, away) && IsResolved(p))
            && (forall k :: Filter(h, KeyIs(Recency, k)) == Filter(Filter(ps, TeamFilter(home, away)), KeyIs(Recency, k)))
            && |TeamSection(ps, home, away)| <= 7
  {
    var f := Filter(ps, TeamFilter(home, away));
    SortDescSpec(f, Recency);
    forall p
      ensures p in TeamHistory(ps, home, away) <==> p in ps && InvolvesEither(p, home, away) && IsResolved(p)
    {
      FilterMembership(ps, TeamFilter(home, away), p);
      assert p in TeamHistory(ps, home, away) <==> p in multiset(f);
    }
  }

  /**
   * The calibration warnings are wrong predictions only, most recent first
   * and in saving order within a (year, round), at most four.
   */
  lemma WrongRecentIsNewestFirst(ps: seq<PredictionRecord>)
    ensures var w := WrongRecent(ps);
            && SortedDesc(w, Recency)
            && (forall p :: p in w <==> p in ps && IsWrong(p))
            && (forall k :: Filter(w, KeyIs(Recency, k)) == Filter(Filter(ps, IsWrong), KeyIs(Recency, k)))
            && |WrongSection(ps)| <= 5
  {
    var f := Filter(ps, IsWrong);
    SortDescSpec(f, Recency);
    forall p
      ensures p in WrongRecent(ps) <==> p in ps && IsWrong(p)
    {
      FilterMembership(ps, IsWrong, p);
      assert p in WrongRecent(ps) <==> p in multiset(f);
    }
  }

  /** The accuracy block, line by line. */
  method AccuracyBlock(summary: AccuracySummary) returns (lines: seq<Line>)
    ensures lines == AccuracyLines(summary)
  {
    lines := [];
    match summary {
      case NoSummary =>
      case Summary(oc, ot, byRound, fav, upset, _) =>
        lines := lines + [AccuracyHeader, OverallLine(oc, ot)];
        if fav.total > 0 {
          lines := lines + [FavouriteLine(fav.correct, fav.total)];
        }
        if upset.total > 0 {
          lines := lines + [UnderdogLine(upset.correct, upset.total)];
        }
        if |byRound| > 0 {
          lines := lines + [RecentRoundsLine(RecentRounds(byRound))];
        }
    }
  }

  /** The per-team block: a header, then the six most recent resolved records involving either team. */
  method TeamBlock(ps: seq<PredictionRecord>, home: string, away: string) returns (lines: seq<Line>)
    ensures lines == TeamSection(ps, home, away)
  {
    lines := [];
    var teamHistory := TeamHistory(ps, home, away);
    if |teamHistory| > 0 {
      var block: seq<Line> := [];
      for i := 0 to Min(6, |teamHistory|)
        invariant block == LinesOf(teamHistory, i, TeamLineOf)
      {
        block := block + [TeamLineOf(teamHistory[i])];
      }
      lines := [TeamHeader(Upper(home), Upper(away))] + block;
    }
  }

  /** The calibration block: a header, then the four most recent wrong predictions. */
  method WrongBlock(ps: seq<PredictionRecord>) returns (lines: seq<Line>)
    ensures lines == WrongSection(ps)
  {
    lines := [];
    var wrongRecent := WrongRecent(ps);
    if |wrongRecent| > 0 {
      var block: seq<Line> := [];
      for i := 0 to Min(4, |wrongRecent|)
        invariant block == LinesOf(wrongRecent, i, WrongLineOf)
      {
        block := block + [WrongLineOf(wrongRecent[i])];
      }
      lines := [WrongHeader] + block;
    }
  }

  /** `format_history_for_ai`: the first-round sentence without history, else the three blocks in order. */
  method FormatHistoryForAi(doc: Document, home: string, away: string) returns (d: Digest)
    ensures d == FirstRound <==> |doc.predictions| == 0
    ensures d.Sections? ==>
              d.lines == AccuracyLines(doc.accuracySummary) + TeamSection(doc.predictions, home, away)
                         + WrongSection(doc.predictions)
  {
    if |doc.predictions| == 0 {
      return FirstRound;
    }
    var accuracy := AccuracyBlock(doc.accuracySummary);
    var team := TeamBlock(doc.predictions, home, away);
    var wrong := WrongBlock(doc.predictions);
    return Sections(accuracy + team + wrong);
  }

  /**
   * The as-written confidence text is undefined for a record without a
   * probability, and such a record reaches it: a prediction text with no
   * percentage in [50, 99], once saved and resolved, is in the team
   * history of its own teams.
   */
  lemma MissingProbabilityReachesConfidenceText()
    ensures var saved := NewRecord(NewPrediction("Richmond", "Carlton", None, None, ""), 5, 2026, "");
            var r := Resolve(saved, Game(Some("Richmond"), Some("Carlton"), Some(5), Some(90), Some(75), Some(100)), "");
            && InTeamHistory(r, "Richmond", "Carlton")
            && r.predictedProbability.None?
            && ConfidenceText(r.predictedProbability) == "?"
  {
  }

  // ===========================================================================
  // Dashboard data (get_accuracy_display_data)

  datatype DisplayData = DisplayData(
    accuracySummary: AccuracySummary,
    completedPredictions: seq<PredictionRecord>,
    pendingPredictions: seq<PredictionRecord>,
    allPredictions: seq<PredictionRecord>)

  /** The stored summary, and the records split into resolved and pending. */
  function GetAccuracyDisplayData(doc: Document): (r: DisplayData)
    ensures r.accuracySummary == doc.accuracySummary && r.allPredictions == doc.predictions
    ensures forall i :: 0 <= i < |r.completedPredictions| ==> IsResolved(r.completedPredictions[i])
    ensures forall i :: 0 <= i < |r.pendingPredictions| ==> IsPendingRecord(r.pendingPredictions[i])
    ensures multiset(r.completedPredictions) + multiset(r.pendingPredictions) == multiset(doc.predictions)
  {
    FilterSplit(doc.predictions, IsResolved, IsPendingRecord);
    DisplayData(doc.accuracySummary, Filter(doc.predictions, IsResolved),
                Filter(doc.predictions, IsPendingRecord), doc.predictions)
  }

  // ===========================================================================
  // The history document, updated in place

  class History {
    var predictions: seq<PredictionRecord>
    var accuracySummary: AccuracySummary

    /** `load_history`: the stored document, or the empty one when it is missing or unreadable (`None`). */
    constructor Load(stored: Option<Document>)
      ensures stored.None? ==> predictions == [] && accuracySummary == NoSummary
      ensures stored.Some? ==> predictions == stored.value.predictions && accuracySummary == stored.value.accuracySummary
    {
      match stored {
        case None =>
          predictions := [];
          accuracySummary := NoSummary;
        case Some(doc) =>
          predictions := doc.predictions;
          accuracySummary := doc.accuracySummary;
      }
    }

    /** The document `save_history` writes. */
    function Snapshot(): Document
      reads this
    {
      Document(predictions, accuracySummary)
    }

    /** `save_predictions`: append one fresh record per prediction whose game is not yet saved. */
    method SavePredictions(batch: seq<NewPrediction>, round: int, year: int, savedAt: string)
      modifies this
      ensures predictions == SaveAll(old(predictions), batch, round, year, savedAt)
      ensures accuracySummary == old(accuracySummary)
      ensures |old(predictions)| <= |predictions| && predictions[..|old(predictions)|] == old(predictions)
      ensures forall i :: |old(predictions)| <= i < |predictions| ==> FreshRecord(predictions[i], round, year)
      ensures forall j :: 0 <= j < |batch| ==> HasRecord(predictions, batch[j], round, year)
      ensures UniqueKeys(old(predictions)) ==> UniqueKeys(predictions)
    {
      ghost var ps := predictions;
      var i := 0;
      while i < |batch|
        invariant 0 <= i <= |batch|
        invariant predictions == SaveAll(ps, batch[..i], round, year, savedAt)
        invariant accuracySummary == old(accuracySummary)
      {
        var pred := batch[i];
        ghost var before := predictions;
        if !HasRecord(predictions, pred, round, year) {
          predictions := predictions + [NewRecord(pred, round, year, savedAt)];
        }
        assert predictions == SaveOne(before, pred, round, year, savedAt);
        SaveAllSnoc(ps, batch, i, round, year, savedAt);
        i := i + 1;
      }
      assert batch[..i] == batch;
      SaveAllAppends(ps, batch, round, year, savedAt);
      SaveAllCovers(ps, batch, round, year, savedAt);
      if UniqueKeys(ps) {
        SaveAllKeepsKeysUnique(ps, batch, round, year, savedAt);
      }
    }

    /**
     * `check_and_update_results`, with the results feed as a parameter
     * (`None` when fetching it failed). Nothing changes unless some record
     * of `year` is pending and the feed arrived; then every pending record
     * with a completed game is resolved and the summary is recomputed.
     */
    method CheckAndUpdateResults(feed: Option<seq<Game>>, year: int, now: string) returns (result: Option<AccuracySummary>)
      modifies this
      ensures !AnyPending(old(predictions), year) || feed.None? ==>
                result.None? && predictions == old(predictions) && accuracySummary == old(accuracySummary)
      ensures AnyPending(old(predictions), year) && feed.Some? ==>
                && predictions == ReconcileAll(old(predictions), CompletedGames(feed.value), year, now)
                && accuracySummary == SummaryOf(predictions, now)
                && result == Some(accuracySummary)
    {
      if !AnyPending(predictions, year) {
        return None;
      }
      if feed.None? {
        return None;
      }
      var completed := CompletedGames(feed.value);
      var i := 0;
      while i < |predictions|
        invariant 0 <= i <= |predictions| == |old(predictions)|
        invariant forall k :: 0 <= k < i ==> predictions[k] == ReconcileRecord(old(predictions)[k], completed, year, now)
        invariant forall k :: i <= k < |predictions| ==> predictions[k] == old(predictions)[k]
      {
        var pred := predictions[i];
        if IsPendingFor(pred, year) {
          var game := FirstWhere(completed, g => GameMatches(g, pred));
          if game.Some? {
            predictions := predictions[i := Resolve(pred, game.value, now)];
          }
        }
        i := i + 1;
      }
      assert predictions == ReconcileAll(old(predictions), completed, year, now);
      accuracySummary := CalculateAccuracySummary(predictions, now);
      result := Some(accuracySummary);
    }
  }
}
