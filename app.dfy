/**
 * The dashboard's readers of a prediction text (app.py): confidence label,
 * tipped winner, win probability and margin, plus the label colours and the
 * performance banner's bands.
 *
 * These deliberately differ from the tracker's extractors: the winner needs
 * the marker with its colon, looks only 120 characters ahead and gives
 * `None` rather than counting mentions; the probability needs a winner.
 */
module App {
  import opened Wrappers
  import opened Text
  import opened Scanners
  import Tracker

  // ---------------------------------------------------------------------------
  // Confidence

  /** The text (already upper-cased) marks `level` with or without the bold markup. */
  predicate Marked(t: string, level: string) {
    Contains(t, "CONFIDENCE:** " + level) || Contains(t, "CONFIDENCE: " + level)
  }

  /** High is checked first, then Medium, then Low; with no marker the label is Medium. */
  function ExtractConfidence(text: string): (r: string)
    ensures r == "High" || r == "Medium" || r == "Low"
    ensures r == "High" <==> Marked(Upper(text), "HIGH")
    ensures r == "Low" <==> !Marked(Upper(text), "HIGH") && !Marked(Upper(text), "MEDIUM") && Marked(Upper(text), "LOW")
    ensures r == "Medium" <==> !Marked(Upper(text), "HIGH") && (Marked(Upper(text), "MEDIUM") || !Marked(Upper(text), "LOW"))
  {
    var t := Upper(text);
    if Marked(t, "HIGH") then "High"
    else if Marked(t, "MEDIUM") then "Medium"
    else if Marked(t, "LOW") then "Low"
    else "Medium"
  }

  // ---------------------------------------------------------------------------
  // Winner, probability, margin

  const WinnerMarker := "PREDICTED WINNER:"
  const WinnerWindowWidth := 120

  /**
   * The team whose full name occurs first in the 120 characters from the
   * marker; `None` without the marker or when neither name is there.
   */
  function ExtractWinner(text: string, home: string, away: string): (r: Option<string>)
    ensures !Contains(Upper(text), WinnerMarker) ==> r.None?
    ensures r.Some? ==> r.value == home || r.value == away
  {
    match MarkerWindow(Upper(text), WinnerMarker, WinnerWindowWidth)
    case None => None
    case Some(w) => EarlierName(w, home, away)
  }

  /** Home's full name in the window, before any occurrence of away's: home. */
  lemma WinnerHomeFirst(text: string, home: string, away: string, w: string, k: nat)
    requires MarkerWindow(Upper(text), WinnerMarker, WinnerWindowWidth) == Some(w)
    requires OccursAt(w, Upper(home), k)
    requires forall j :: 0 <= j <= k ==> !OccursAt(w, Upper(away), j)
    ensures ExtractWinner(text, home, away) == Some(home)
  {
    EarlierNameHome(w, home, away, k);
  }

  /** Away's full name in the window, with home's not occurring earlier: away. */
  lemma WinnerAwayFirst(text: string, home: string, away: string, w: string, k: nat)
    requires MarkerWindow(Upper(text), WinnerMarker, WinnerWindowWidth) == Some(w)
    requires OccursAt(w, Upper(away), k)
    requires forall j :: 0 <= j < k ==> !OccursAt(w, Upper(home), j)
    ensures ExtractWinner(text, home, away) == Some(away)
  {
    EarlierNameAway(w, home, away, k);
  }

  /** Neither name in the window: `None`, where the tracker would go on to count mentions. */
  lemma WinnerNeitherInWindow(text: string, home: string, away: string, w: string)
    requires MarkerWindow(Upper(text), WinnerMarker, WinnerWindowWidth) == Some(w)
    requires !Contains(w, Upper(home)) && !Contains(w, Upper(away))
    ensures ExtractWinner(text, home, away).None?
  {
  }

  /** `None` for a falsy winner (`None` or empty); otherwise the first percentage in [50, 99]. */
  function ExtractProbability(text: string, winner: Option<string>): (r: Option<real>)
    ensures winner.None? || winner == Some("") ==> r.None?
    ensures r.Some? ==> Tracker.InWinBand(r.value) && r.value in PercentTokens(text, 0)
    ensures r.Some? ==> exists n :: 0 <= n < |PercentTokens(text, 0)| && PercentTokens(text, 0)[n] == r.value
                          && forall m :: 0 <= m < n ==> !Tracker.InWinBand(PercentTokens(text, 0)[m])
    ensures winner.Some? && winner.value != "" ==> r == Tracker.ExtractPredictedProbability(text, winner.value)
  {
    if winner.None? || winner.value == "" then None
    else FirstWhere(PercentTokens(text, 0), Tracker.InWinBand)
  }

  /** A present winner gives `None` exactly when no percentage token is in [50, 99]. */
  lemma ProbabilityNoneWhenNoBandToken(text: string, winner: string)
    requires winner != ""
    ensures ExtractProbability(text, Some(winner)).None?
            <==> forall n :: 0 <= n < |PercentTokens(text, 0)| ==> !Tracker.InWinBand(PercentTokens(text, 0)[n])
  {
  }

  /** The dashboard reads the same Port Adelaide tip as the tracker: the marker there has its colon. */
  lemma ScenarioPortAdelaide()
    ensures ExtractWinner(Tracker.PortText, "Adelaide", "Port Adelaide") == Some("Port Adelaide")
    ensures ExtractProbability(Tracker.PortText, Some("Port Adelaide")) == Some(61.0)
  {
    Tracker.PortTextUpper();
    Tracker.PortTextWindow();
    var u := Upper(Tracker.PortText);
    assert u[..17] == WinnerMarker;
    assert OccursAt(u, WinnerMarker, 0);
    assert MarkerWindow(u, WinnerMarker, WinnerWindowWidth) == Some(u);
    WinnerAwayFirst(Tracker.PortText, "Adelaide", "Port Adelaide", u, 18);
    Tracker.ScenarioPortAdelaide();
  }

  predicate InMarginBand(v: nat) { 1 <= v <= 150 }

  /** The first "N point(s)" number in [1, 150], read from the lower-cased text. */
  function ExtractMargin(text: string): (r: Option<nat>)
    ensures r.Some? ==> InMarginBand(r.value) && r.value in MarginTokens(Lower(text), 0)
    ensures r.None? <==> forall n :: 0 <= n < |MarginTokens(Lower(text), 0)| ==> !InMarginBand(MarginTokens(Lower(text), 0)[n])
    ensures r.Some? ==> exists n :: 0 <= n < |MarginTokens(Lower(text), 0)| && MarginTokens(Lower(text), 0)[n] == r.value
                          && forall m :: 0 <= m < n ==> !InMarginBand(MarginTokens(Lower(text), 0)[m])
  {
    FirstWhere(MarginTokens(Lower(text), 0), InMarginBand)
  }

  // ---------------------------------------------------------------------------
  // Styles

  datatype Style = Style(color: string, bg: string, labelText: string)

  const HighStyle := Style("#3fb950", "rgba(63,185,80,0.06)", "HIGH CONFIDENCE")
  const MediumStyle := Style("#d29922", "rgba(210,153,34,0.06)", "MEDIUM CONFIDENCE")
  const LowStyle := Style("#f85149", "rgba(248,81,73,0.06)", "LOW CONFIDENCE")

  /** The style of a label; any label other than the three gets the Medium style. */
  function ConfidenceStyle(confidence: string): (s: Style)
    ensures confidence == "High" ==> s == HighStyle
    ensures confidence == "Low" ==> s == LowStyle
    ensures confidence != "High" && confidence != "Low" ==> s == MediumStyle
  {
    if confidence == "High" then HighStyle
    else if confidence == "Medium" then MediumStyle
    else if confidence == "Low" then LowStyle
    else MediumStyle
  }

  /** Every text gets a style distinct per label, and it is the style of its extracted label. */
  lemma StyleOfExtractedLabel(text: string)
    ensures var s := ConfidenceStyle(ExtractConfidence(text));
            s == HighStyle || s == MediumStyle || s == LowStyle
    ensures HighStyle != MediumStyle && MediumStyle != LowStyle && HighStyle != LowStyle
  {
  }

  /** The performance banner's band of the latest round's percentage. */
  datatype Band = Green | Amber | Red

  function BannerBand(pct: real): (b: Band)
    ensures b == Green <==> pct >= 70.0
    ensures b == Amber <==> 55.0 <= pct < 70.0
    ensures b == Red <==> pct < 55.0
  {
    if pct >= 70.0 then Green else if pct >= 55.0 then Amber else Red
  }

  function BannerColor(b: Band): string {
    match b
    case Green => "#3fb950"
    case Amber => "#d29922"
    case Red => "#f85149"
  }

  function BannerEmoji(b: Band): string {
    match b
    case Green => "\U{1F525}"
    case Amber => "\U{2705}"
    case Red => "\U{1F4C9}"
  }

  /** The banner's emoji tells the three bands apart, so it agrees with the colour band for band. */
  lemma BannerEmojiPerBand(pct: real)
    ensures BannerEmoji(BannerBand(pct)) == "\U{1F525}" <==> pct >= 70.0
    ensures BannerEmoji(BannerBand(pct)) == "\U{2705}" <==> 55.0 <= pct < 70.0
    ensures BannerEmoji(BannerBand(pct)) == "\U{1F4C9}" <==> pct < 55.0
  {
  }

  /** The banner's colours are those of the three confidence labels, in the same order. */
  lemma BannerColoursMatchLabels(pct: real)
    ensures BannerColor(BannerBand(pct)) in {HighStyle.color, MediumStyle.color, LowStyle.color}
    ensures BannerColor(Green) == HighStyle.color && BannerColor(Amber) == MediumStyle.color
            && BannerColor(Red) == LowStyle.color
  {
  }
}
