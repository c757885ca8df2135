/**
 * The prompt formatters of the prediction engine (predict.py): recent form,
 * head-to-head history and ladder position, each rendered as one line of
 * text.
 */
module Predict {
  import opened Wrappers
  import opened Text
  import DataFetcher
  import Tracker

  // ---------------------------------------------------------------------------
  // Recent form

  predicate IsWin(g: DataFetcher.FormEntry) { g.result == "W" }

  /** `sum(1 for g in form_list if g["result"] == "W")`. */
  function Wins(form: seq<DataFetcher.FormEntry>): (w: nat)
    ensures w <= |form|
    ensures w == 0 <==> forall i :: 0 <= i < |form| ==> !IsWin(form[i])
    ensures w == |form| <==> forall i :: 0 <= i < |form| ==> IsWin(form[i])
    decreases |form|
  {
    if |form| == 0 then 0
    else
      var rest := Wins(form[1..]);
      assert forall i :: 0 < i < |form| ==> form[i] == form[1..][i - 1];
      (if IsWin(form[0]) then 1 else 0) + rest
  }

  /** One game: "{result} vs {opponent} ({score}) on {date}", a missing opponent shown as "None". */
  function FormDetail(g: DataFetcher.FormEntry): string {
    g.result + " vs " + Tracker.OptText(g.opponent) + " (" + g.score + ") on " + g.date
  }

  function FormDetails(form: seq<DataFetcher.FormEntry>): (r: seq<string>)
    ensures |r| == |form| && forall i :: 0 <= i < |form| ==> r[i] == FormDetail(form[i])
  {
    seq(|form|, i requires 0 <= i < |form| => FormDetail(form[i]))
  }

  const NoFormText := "No recent data available"

  /** The opening "{wins}/{games} wins. " of a form line. */
  function Tally(wins: nat, games: nat): string {
    NatToString(wins) + "/" + NatToString(games) + " wins. "
  }

  /** `format_form`; the team name is not used in the text. */
  function FormatForm(form: seq<DataFetcher.FormEntry>, teamName: string): (r: string)
    ensures |form| == 0 <==> r == NoFormText
  {
    if |form| == 0 then NoFormText
    else
      var t := Tally(Wins(form), |form|);
      var r := t + Join(FormDetails(form), " | ");
      assert r[0] == t[0] == NatToString(Wins(form))[0] && IsDigit(r[0]);
      r
  }

  /** A non-empty form line opens with its tally, the details of the games following. */
  lemma FormatFormOpensWithTally(form: seq<DataFetcher.FormEntry>, teamName: string)
    requires |form| > 0
    ensures var r := FormatForm(form, teamName);
            var t := Tally(Wins(form), |form|);
            && Wins(form) <= |form|
            && |t| <= |r| && r[..|t|] == t && r[|t|..] == Join(FormDetails(form), " | ")
  {
  }

  /**
   * The tally is the number of wins, "/", the number of games and " wins. ",
   * and both numbers read back as printed.
   */
  lemma TallyReadsBack(wins: nat, games: nat)
    ensures var t := Tally(wins, games);
            var w := NatToString(wins);
            var n := NatToString(games);
            && |t| == |w| + 1 + |n| + 7
            && t[..|w|] == w && AllDigits(w) && DigitsValue(w) == wins
            && t[|w|] == '/'
            && t[|w| + 1..|w| + 1 + |n|] == n && AllDigits(n) && DigitsValue(n) == games
            && t[|w| + 1 + |n|..] == " wins. "
  {
    var w := NatToString(wins);
    var n := NatToString(games);
    TallySlices(Tally(wins, games), w, n);
    DigitsValueOfNatToString(wins);
    DigitsValueOfNatToString(games);
  }

  /** Where the pieces of "{w}/{n} wins. " sit. */
  lemma TallySlices(t: string, w: string, n: string)
    requires t == w + "/" + n + " wins. "
    ensures && |t| == |w| + 1 + |n| + 7
            && t[..|w|] == w && t[|w|] == '/'
            && t[|w| + 1..|w| + 1 + |n|] == n
            && t[|w| + 1 + |n|..] == " wins. "
  {
    assert t == w + ("/" + (n + " wins. "));
    assert t[|w| + 1..] == n + " wins. ";
  }

  // ---------------------------------------------------------------------------
  // Head to head

  /** A past meeting as `get_head_to_head` records it; `winner` and `year` may be missing. */
  datatype Meeting = Meeting(winner: Option<string>, score: string, venue: string, year: Option<int>)

  function YearText(y: Option<int>): string {
    match y
    case Some(v) => IntToString(v)
    case None => "None"
  }

  /** "{winner} won ({score}) at {venue} in {year}". */
  function MeetingLine(g: Meeting): string {
    Tracker.OptText(g.winner) + " won (" + g.score + ") at " + g.venue + " in " + YearText(g.year)
  }

  function MeetingLines(h2h: seq<Meeting>): (r: seq<string>)
    ensures |r| == |h2h| && forall i :: 0 <= i < |h2h| ==> r[i] == MeetingLine(h2h[i])
  {
    seq(|h2h|, i requires 0 <= i < |h2h| => MeetingLine(h2h[i]))
  }

  const MaxMeetings := 6
  const NoH2hText := "No H2H data available"

  /** `format_h2h`: the first six meetings, one line each, joined by " | ". */
  function FormatH2h(h2h: seq<Meeting>): (r: string)
    ensures |h2h| == 0 ==> r == NoH2hText
    ensures |h2h| > 0 ==> r == Join(MeetingLines(Take(h2h, MaxMeetings)), " | ")
  {
    if |h2h| == 0 then NoH2hText
    else Join(MeetingLines(Take(h2h, MaxMeetings)), " | ")
  }

  /** Only the first six meetings reach the text: two lists agreeing on them render alike. */
  lemma H2hShowsOnlyFirstSix(h1: seq<Meeting>, h2: seq<Meeting>)
    requires |h1| > 0 && |h2| > 0
    requires Take(h1, MaxMeetings) == Take(h2, MaxMeetings)
    ensures FormatH2h(h1) == FormatH2h(h2)
  {
  }

  /** Every meeting shown is one of the first six, in order, and no more than six are shown. */
  lemma H2hLinesAreTheFirstSix(h2h: seq<Meeting>)
    requires |h2h| > 0
    ensures var shown := MeetingLines(Take(h2h, MaxMeetings));
            && |shown| == Min(MaxMeetings, |h2h|) <= MaxMeetings
            && forall i :: 0 <= i < |shown| ==> shown[i] == MeetingLine(h2h[i])
  {
  }

  // ---------------------------------------------------------------------------
  // Ladder

  /** A present field as printed, or "?" when the key is missing. */
  function Field(ladder: map<string, string>, key: string): (r: string)
    ensures key !in ladder ==> r == "?"
    ensures key in ladder ==> r == ladder[key]
  {
    if key in ladder then ladder[key] else "?"
  }

  const NoLadderText := "Ladder data unavailable"

  /** `format_ladder` over the team's ladder entry, its values already printed. */
  function FormatLadder(ladder: map<string, string>): (r: string)
    ensures |ladder| == 0 <==> r == NoLadderText
  {
    if |ladder| == 0 then NoLadderText
    else
      var r := "Position " + Field(ladder, "rank") + " | " + Field(ladder, "wins") + "W-"
               + Field(ladder, "losses") + "L | " + Field(ladder, "pts") + " pts | "
               + Field(ladder, "percentage") + "% percentage";
      assert r[0] == 'P';
      r
  }

  /** Only the five fields reach the text: entries agreeing on them render alike. */
  lemma LadderReadsOnlyItsFields(a: map<string, string>, b: map<string, string>)
    requires |a| > 0 && |b| > 0
    requires forall k :: k in {"rank", "wins", "losses", "pts", "percentage"} ==> Field(a, k) == Field(b, k)
    ensures FormatLadder(a) == FormatLadder(b)
  {
    assert Field(a, "rank") == Field(b, "rank");
    assert Field(a, "wins") == Field(b, "wins");
    assert Field(a, "losses") == Field(b, "losses");
    assert Field(a, "pts") == Field(b, "pts");
    assert Field(a, "percentage") == Field(b, "percentage");
  }
}
