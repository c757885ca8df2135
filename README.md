# AFL prediction agent: history tracker and text helpers, in Dafny

This project models the deterministic core of an AFL match-prediction agent.
The agent asks a language model for a tip on each game of the week. It saves
every tip to a prediction history, settles the tips against Squiggle's
completed-game feed, and keeps an accuracy summary. It feeds a digest of its
own record back into the next prompt.

The centre of the model is the history tracker (`tracker.py`). The history
is one document holding a sequence of prediction records and an accuracy
summary. Each record has a tri-state `correct`: `None` while pending, then
`Some(true)` or `Some(false)`.

- `Tracker.History` is a class over that document. `SavePredictions` and
  `CheckAndUpdateResults` update it in place.
  - Each method is proved against a function on values (`SaveAll`,
    `ReconcileAll`, `SummaryOf`).
  - The properties proved about those functions: append-only and idempotent
    saving, one-way pending-to-resolved moves, the margin and `correct` rules,
    and summary counts that are exactly the resolved, correct, favourite and
    upset records, with per-round counts adding up to the overall ones.
- The winner and probability extractors turn the model's free text into a
  tipped team and a win percentage.
- The digest for the next prompt is built as structured lines.
- The dashboard's data is a partition of the records.

Around the tracker sit smaller pure helpers:

- the dashboard's readers of a prediction (`app.py`: confidence label,
  winner, probability, margin, label style, banner band);
- recent form, rest days, travel fatigue and the Squiggle tip lookup
  (`data_fetcher.py`);
- venue lookup and the weather classifier (`weather.py`);
- relevance of news articles, the per-team feed filter and the de-duplication
  by title (`team_news.py`);
- the prompt formatters for form, head-to-head and ladder (`predict.py`).

Modules:

- `Wrappers`: `Option`.
- `Text`: ASCII case folding, `find`/`count`/`join`, printing and reading
  decimal numbers.
- `Scanners`: hand-written versions of the percentage and margin regular
  expressions, first-match search, the marker window.
- `Seqs`: filter and the stable descending sort.
- `Tracker`, `App`, `DataFetcher`, `Weather`, `TeamNews`, `Predict`: one per
  source file.

Conventions of the model:

- Timestamps (`datetime.now()`) are string parameters.
- Dates are day numbers, `None` where the source's `strptime` fails.
- The results feed and the RSS feeds are parameters, `None` where fetching
  fails.
- Probabilities are `real`. Percentages are kept as the counts they are
  computed from.

## Model

| member | source | states |
|---|---|---|
| Tracker.History.Load | tracker.py:27-35 | A missing or unreadable history file gives no predictions and the empty summary; otherwise the stored document. |
| Tracker.History.SavePredictions | tracker.py:46-95 | The new record list is the batch saved onto the old one. The old records are a prefix and stay unchanged. Every appended record is fresh. Every game of the batch ends up recorded. Unique (home, away, round, year) keys stay unique. The summary is untouched. |
| Tracker.SaveAllAppends | tracker.py:75-91 | Saving only appends: the old records are a prefix. Every appended record is pending, with winner, margin and `correct` unset, the given round and year, a tip naming a team or "Unknown", and a probability in [50, 99] when present. At most one record is added per prediction. |
| Tracker.SaveAllCovers | tracker.py:53-91 | After saving, each prediction of the batch has a record with its home team, away team, round and year. |
| Tracker.SaveAllSkipsSaved | tracker.py:55-65 | A batch whose games are all recorded already leaves the records unchanged. |
| Tracker.SaveAllIdempotent | tracker.py:55-65 | Saving the same batch a second time, at any timestamp, changes nothing. |
| Tracker.SaveAllKeepsKeysUnique | tracker.py:55-91 | The existence check keeps the (home, away, round, year) key unique. |
| Tracker.ExtractPredictedWinner | tracker.py:100-139 | The tipped team is always the home team, the away team or "Unknown". |
| Tracker.PredictedWinnerHomeFirst | tracker.py:116-125 | With the marker present, home's full name in the 200-character window, with no occurrence of away's at or before it, gives home. |
| Tracker.PredictedWinnerAwayFirst | tracker.py:121-127 | With the marker present, away's full name in the window, with no occurrence of home's before it, gives away. |
| Tracker.PredictedWinnerByMentions | tracker.py:129-139 | Without the marker, or with neither name in the window: the strictly larger full-name count in the first 300 characters wins, and a tie gives "Unknown". |
| Tracker.WinnerByMentions | tracker.py:130-139 | The mention count gives home, away or "Unknown". |
| Tracker.NorthMelbourneIsNotMelbourne | tracker.py:105-127 | Full-name matching picks "North Melbourne" in a text tipping North Melbourne, even though "Melbourne" is the other team. |
| Tracker.ExtractPredictedProbability | tracker.py:142-153 | The result is `None` exactly when no percentage token of the text is in [50, 99]. Otherwise it is the first token, in text order, that lies in that band. |
| Tracker.ScenarioPortAdelaide | tracker.py:116-153 | "PREDICTED WINNER: Port Adelaide is backed at 61% to beat Adelaide", with Adelaide at home, tips Port Adelaide at 61. |
| Tracker.ProbabilityIgnoresWinner | tracker.py:142-153 | The tipped-team argument has no effect on the probability. |
| Tracker.History.CheckAndUpdateResults | tracker.py:158-225 | With no pending record of the year, or no feed, nothing changes and the result is `None`. Otherwise every record is reconciled against the completed games, the summary is recomputed over all records, and that summary is returned. |
| Tracker.ReconcileResolvesMatched | tracker.py:185-213 | Take a pending record of the year and its first matching completed game in feed order. The record gets the higher scorer (or "Draw") as winner and the absolute score difference as margin. Its `correct` says whether the tip was that winner. Its key, tip and probability are kept. |
| Tracker.ReconcileLeavesUnmatched | tracker.py:183-193 | A record with no matching completed game is left as it was. |
| Tracker.ReconcileOneWay | tracker.py:168-213 | The number of records is kept. A record that is resolved, or of another year, is unchanged. No key changes, and a resolved record stays resolved. Well-formed records stay well formed, and unique keys stay unique. |
| Tracker.ReconcileIdempotent | tracker.py:168-213 | Reconciling twice against the same games gives the same records as reconciling once. |
| Tracker.ReconcileResolvedGrows | tracker.py:168-213 | Reconciling never lowers the number of resolved records. |
| Tracker.ScenarioRichmondWins | tracker.py:196-212 | Richmond tipped, Richmond 90 to Carlton 75: winner Richmond, margin 15, correct. |
| Tracker.ScenarioCarltonWins | tracker.py:196-212 | Richmond tipped, Richmond 75 to Carlton 90: winner Carlton, margin 15, wrong. |
| Tracker.DrawIsNeverCorrect | tracker.py:203-207 | Equal scores give "Draw", and `correct == false` for any tip other than "Draw". |
| Tracker.UnknownIsNeverCorrect | tracker.py:199-207 | A tip of "Unknown" is never correct, unless a team is itself called "Unknown". |
| Tracker.RoundIndex | tracker.py:243-245 | The position of a round's entry, or `None` when no entry has that round. |
| Tracker.GroupByRoundCounts | tracker.py:241-248 | The per-round entries have distinct rounds and cover exactly the rounds of the records. Each entry counts that round's records and correct tips, and the totals sum to the number of records. |
| Tracker.CountRecord | tracker.py:243-248 | One step of the per-round loop is one record tallied into its round. |
| Tracker.CountRounds | tracker.py:241-248 | The per-round loop builds the grouping by round, with the counts above. |
| Tracker.SummaryAgreesWithRecords | tracker.py:230-276 | The summary is `{}` exactly when nothing is resolved. Otherwise: the overall total is the number of resolved records and the overall correct the number of correct ones among them; the per-round totals and per-round correct counts add up to those two, over distinct rounds; the favourite total is the number of resolved records whose probability is at least 55, the underdog total those below 55, and each bucket's correct the correct records among its own; together the buckets count the resolved records with a (non-zero) probability, at most the total. |
| Tracker.GroupByRoundCorrect | tracker.py:240-248 | The per-round correct counts add up to the number of correct records. |
| Tracker.BucketOfRecord | tracker.py:250-253 | A resolved record is a favourite pick exactly when its probability is present, non-zero and at least 55, an upset pick exactly when it is present, non-zero and below 55, and never both. |
| Tracker.CalculateAccuracySummary | tracker.py:230-276 | The summary of all records. It is `{}` exactly when nothing is resolved. Otherwise the overall total is the number of resolved records and the overall correct the correct ones among them. The per-round totals and correct counts sum to those, over distinct rounds. The favourite bucket counts the resolved records with probability at least 55 and its correct ones, the upset bucket those below 55; together at most the overall total. |
| Tracker.RoundHalfEven | tracker.py:341 | `'%.0f'` rounding: the printed integer is within one half of the value, and ties go to the even neighbour. |
| Tracker.ConfidenceText | tracker.py:341 | A present probability prints as `'%.0f'` prints it; a missing one prints "?". |
| Tracker.MissingProbabilityReachesConfidenceText | tracker.py:71-83 | A record saved from a text without a probability, once resolved, is in its teams' history with probability `None`. There the as-written confidence text has no value, and the corrected one prints "?". |
| Tracker.RecentRoundsAreTheLatest | tracker.py:317-324 | The recent-rounds line shows min(3, rounds) entries in ascending round order, all from `by_round`. Every entry left out has a round no higher than every entry shown. |
| Seqs.SortDescSpec | tracker.py:332 | `sort(key=..., reverse=True)`: the result is sorted largest key first and is a permutation of the input. Elements with equal keys keep their input order (the sort is stable). |
| Tracker.TeamHistoryIsNewestFirst | tracker.py:327-343 | The team history holds exactly the resolved records involving either team, sorted newest (year, round) first. Records of the same (year, round) stay in saving order. The team block has at most seven lines. |
| Tracker.WrongRecentIsNewestFirst | tracker.py:346-358 | The wrong list holds exactly the records with `correct == false`, newest first. Records of the same (year, round) stay in saving order. The calibration block has at most five lines. |
| Tracker.AccuracyBlock | tracker.py:299-324 | The block built line by line is the accuracy section. It is empty for an empty summary and otherwise a header and the overall line. A bucket line follows only when that bucket is non-empty, and the recent-rounds line only when there are rounds. |
| Tracker.TeamBlock | tracker.py:334-343 | The block built by the loop is the team section: a header and lines for the first min(6, n) records of the team history, or nothing when it is empty. |
| Tracker.WrongBlock | tracker.py:352-358 | The block built by the loop is the calibration section: a header and lines for the first min(4, n) wrong predictions, or nothing. |
| Tracker.FormatHistoryForAi | tracker.py:281-360 | The first-round sentinel appears exactly when there are no predictions. Otherwise the lines are the accuracy block, then the team block, then the wrong block. |
| Tracker.GetAccuracyDisplayData | tracker.py:365-381 | The summary and all records pass through. The completed list holds only resolved records and the pending list only pending ones. Together they are a permutation of the records. |
| App.ExtractConfidence | app.py:89-94 | "High" exactly when a High marker is present. "Low" exactly when Low is marked and neither High nor Medium is. "Medium" otherwise, including when no marker is present. |
| App.ExtractWinner | app.py:96-111 | `None` without "PREDICTED WINNER:". A result is always home or away. |
| App.WinnerHomeFirst | app.py:104-109 | Home's full name first in the 120-character window gives home. |
| App.WinnerAwayFirst | app.py:104-110 | Away's full name, with home's not earlier, gives away. |
| App.WinnerNeitherInWindow | app.py:104-111 | Neither name in the window gives `None`. |
| App.ExtractProbability | app.py:113-118 | A missing or empty winner gives `None`. Otherwise the result is the tracker's probability: the first percentage token in [50, 99], or `None`. |
| App.ProbabilityNoneWhenNoBandToken | app.py:113-118 | With a winner, `None` exactly when no percentage token is in [50, 99]. |
| App.ExtractMargin | app.py:120-124 | The first "N point(s)" number, in text order, that lies in [1, 150] in the lower-cased text; `None` exactly when there is none. |
| App.ScenarioPortAdelaide | app.py:104-118 | The dashboard reads the same Port Adelaide text as Port Adelaide at 61. |
| App.ConfidenceStyle | app.py:126-131 | High and Low get their styles; every other label gets the Medium style. |
| App.StyleOfExtractedLabel | app.py:126-131 | Every text's extracted label maps to one of the three styles, and the three are distinct. |
| App.BannerBand | app.py:146-147 | Green exactly at 70 and above, amber exactly in [55, 70), red exactly below 55. |
| App.BannerEmojiPerBand | app.py:147 | The banner's emoji is the flame exactly at 70 and above, the tick exactly in [55, 70), and the falling chart exactly below 55. |
| App.BannerColoursMatchLabels | app.py:146-147 | The banner's colours are the High, Medium and Low label colours, band for band. |
| DataFetcher.GetFormFromGames | data_fetcher.py:205-227 | Exactly min(num_games, games) entries, entry i describing game i from the team's side. |
| DataFetcher.FormEntryMeaning | data_fetcher.py:209-225 | "W" exactly when the team outscored the opponent, so a draw is "L". The margin is team score minus opponent score. "Home" exactly when the team is the home team. |
| DataFetcher.BothSidesOfAGame | data_fetcher.py:209-214 | The two teams' entries of one game have opposite margins and name each other, and at most one is a win. Both are losses exactly on a draw. |
| DataFetcher.RestFlag | data_fetcher.py:299 | Short turnaround exactly at 6 days or fewer, good rest exactly at 10 or more, and no flag at 7 to 9. |
| DataFetcher.GetDaysRest | data_fetcher.py:283-309 | `None` without an upcoming date, or when no listed game is earlier. Otherwise the rest since the first listed game before the upcoming date, with the flag and description of that many days. |
| DataFetcher.CityOfVenue | data_fetcher.py:320-327 | Over any city table: an exact venue name gives its city. Otherwise the result is the city of the first entry, in table order, whose name overlaps case-insensitively, or `None` when none overlaps. |
| DataFetcher.VenueCity | data_fetcher.py:320-327 | The same rule over the real venue table: exact name, else the city of the first overlapping venue, else `None`. |
| DataFetcher.GetTravelInfo | data_fetcher.py:314-364 | An unresolved home or venue city gives not travelling, fatigue "unknown". Fatigue is "none" exactly for the same city. Two known, different cities always mean travelling. A travelling team gets "high" for a high pair, else "medium" for a medium pair, else "low". |
| DataFetcher.UnknownTeamNeverTravels | data_fetcher.py:319-330 | A team with no home city is reported as not travelling, fatigue "unknown", with an empty description. |
| DataFetcher.FindTipAsWrittenPicksWrongGame | data_fetcher.py:575-581 | As written, the last-word test on an earlier key returns the Melbourne v Adelaide tip when asked for North Melbourne v Port Adelaide. |
| DataFetcher.FindTip | data_fetcher.py:575-581 | Corrected search: when any entry names both teams exactly, the tip found names them. It finds a tip exactly when the search as written does. |
| DataFetcher.FindTipPicksRightGame | data_fetcher.py:575-581 | On the same data the corrected search returns the North Melbourne v Port Adelaide tip. |
| DataFetcher.FormatSquiggleTips | data_fetcher.py:569-598 | Empty data gives the not-available message. No matching entry gives the not-found message. Otherwise the section is the lines of the tip found by the corrected search `FindTip`. |
| DataFetcher.SquiggleNotFoundMeansNoEntryMatches | data_fetcher.py:575-584 | With data present, the not-found message appears exactly when no entry matches exactly or by last words. |
| Weather.VenueLookup | weather.py:66-82 | An exact name gives its data and name. An alias to a listed venue gives that venue. Otherwise the result is a listed (name, data) pair. It is `(None, venue)` exactly when there is no exact name, no alias to a listed venue and no overlapping table name. |
| Weather.VenueBySubstringIsFirstOverlap | weather.py:77-80 | Without exact or alias hits, the result is the first table entry, in table order, that overlaps case-insensitively. |
| Weather.GetVenueInfo | weather.py:66-82 | Over the venue and alias tables: a result is an entry of the venue table, and a miss keeps the venue name. |
| Weather.AssessWeatherImpact | weather.py:181-231 | The factors are the rain, wind and heat factors of the defaulted inputs, in that order. The text is "Conditions appear fine ..." without factors, and the factor texts joined by " \| " otherwise. |
| Weather.ImpactFactorsMeaning | weather.py:188-226 | Heavy rain exactly above 10 mm or 70%. Some rain exactly when not heavy and above 3 mm or 40%. Strong wind above 50, moderate above 30 up to 50, with missing wind as 0. Extreme heat above 35, warm above 30 up to 35, and no heat factor for a missing or zero temperature. |
| Weather.ImpactFactorsInOrder | weather.py:186-226 | At most one factor of each kind, in rain, wind, heat order. |
| Weather.FineOnlyWithoutFactors | weather.py:228-231 | The fine-conditions text appears exactly when there are no factors. |
| TeamNews.IsRelevantArticle | team_news.py:50-53 | True exactly when some injury keyword occurs in the lower-cased title, a space and the summary. |
| TeamNews.GetTeamNews | team_news.py:56-94 | `[]` for a team without a feed address. Otherwise at most one article per entry, each for the team, with the summary cut to 300 characters. |
| TeamNews.TeamNewsIsTheKeptEntries | team_news.py:70-89 | For a known team, every relevant entry that is not dated before the cut-off yields its article, and every article comes from such an entry. |
| TeamNews.TeamNewsInFeedOrder | team_news.py:70-89 | For a known team, the articles are those of the kept entries in feed order: kept entries at increasing positions, and every kept entry among them. |
| TeamNews.DedupByTitle | team_news.py:134-142 | The loop with its seen-set yields the first article of each title. The titles are pairwise distinct and the set of titles is unchanged. |
| TeamNews.KeepFirstTitles | team_news.py:134-142 | The de-duplicated titles are pairwise distinct, and every input title appears. |
| TeamNews.KeepFirstIsSubsequence | team_news.py:136-140 | The output is a subsequence of the input in its order, and each kept article is the first of its title. |
| Predict.FormatForm | predict.py:24-33 | "No recent data available" exactly for an empty list. |
| Predict.Wins | predict.py:28 | The number of wins is at most the number of games. It is zero exactly when no game is a win, and all of them exactly when every game is. |
| Predict.FormatFormOpensWithTally | predict.py:28-33 | A non-empty form line is the tally followed by the " \| "-joined details, one per game. |
| Predict.TallyReadsBack | predict.py:33 | The tally is wins, "/", games and " wins. ", and both numbers read back as the counts. |
| Predict.FormatH2h | predict.py:36-44 | "No H2H data available" for an empty list; otherwise the lines of at most the first six meetings joined by " \| ". |
| Predict.H2hShowsOnlyFirstSix | predict.py:41-43 | Lists agreeing on their first six meetings render alike. |
| Predict.H2hLinesAreTheFirstSix | predict.py:40-43 | min(6, n) lines are shown, line i rendering meeting i. |
| Predict.Field | predict.py:51-55 | A missing field renders as "?", a present one as its value. |
| Predict.FormatLadder | predict.py:47-56 | "Ladder data unavailable" exactly for an empty entry. |
| Predict.LadderReadsOnlyItsFields | predict.py:51-56 | Entries agreeing on rank, wins, losses, points and percentage render alike. |

## Left out

- Network and feed I/O is not modelled.
  - This covers every `requests.get` (including the results fetch at tracker.py:175-181) and `feedparser.parse`.
  - The odds, fixtures, head-to-head and venue-record fetchers are left out too.
  - The fetched data is a parameter instead. A failed results fetch is `feed == None`.
- File I/O is not modelled. `History.Load` takes the parsed file (or `None`) and `History.Snapshot` is what `save_history` writes.
- The language-model call (`generate_prediction`) and `run_weekly_predictions` are left out.
  - `run_weekly_predictions` skips saving when the round number is 0, because its test is truthiness (predict.py:207).
  - This sits behind the model call and is not modelled.
- Streamlit rendering, the countdown script, `Archive/app.py` and `run_weekly.py` are left out.
- Floating-point arithmetic is left out.
  - The one-decimal percentages of the summary and the digest are kept as the counts they are computed from.
  - `get_scoring_stats` and the odds averaging are not modelled.
  - The Squiggle margin and probability lines (data_fetcher.py:586-597) are carried as the tip record, not as text.
- Timestamps are opaque string parameters, one per call.
- Dates are day numbers. `GetDaysRest` takes each game's parsed day, or `None` when the source's `strptime` would fail, so such a game is skipped.
- The regular expressions are hand-written scanners.
  - `\d{2,3}(?:\.\d)?\s*%` becomes `PercentTokens` and `~?(\d{1,3})\s*points?` becomes `MarginTokens`.
  - `.upper()` and `.lower()` are ASCII case folding.
- Tracker.FormatHistoryForAi: returns the digest as structured lines, not the final emoji text joined by newlines. Its team lines print a missing probability as "?" instead of raising (see Findings).
- Character classes are ASCII only. Python 3's `\s`, `\d` and `str.split()` also accept Unicode whitespace (such as U+00A0) and Unicode decimal digits; the scanners and `LastWord` do not. So "61\u00a0%" gives no percentage token in the model.
- Weather.GetVenueInfo: states only the weaker wrapper facts over the real tables. The full exact/alias/substring/no-match contract, in both directions, is stated and proved on `Weather.VenueLookup`, which takes the tables as parameters.
- DataFetcher.FormatSquiggleTips: follows the corrected search `FindTip`, not the search as written (see Findings). On the Findings input it shows the North Melbourne v Port Adelaide tip, where the source shows Melbourne v Adelaide. An empty tip dictionary, which Python treats as "not found", is shown as a tip.
- DataFetcher.FormatSquiggleTips: requires both team names to contain a word. `home_team.split()[-1]` raises on a blank name, and this is not modelled as an error.
- DataFetcher.GetFormFromGames: `num_games` is a `nat`. Python's negative slice bounds are not modelled.
- DataFetcher.GetTravelInfo: the travel tables are used as written. No symmetry of the pair tables is claimed.
- DataFetcher.RestFlag: the docstring of `get_days_rest` (data_fetcher.py:281) calls 7 days or fewer a short turnaround, but the code flags at 6 or fewer. The model follows the code.
- TeamNews.GetTeamNews: a feed that raises part-way is not modelled. The entries are given whole.

## Findings

| source | as written | input that shows it | evidently intended | confidence | as-written member | corrected member |
|---|---|---|---|---|---|---|
| tracker.py:341 | `'%.0f' % p['predicted_probability']` formats the probability of every team-history record. | A record saved from a text with no percentage in [50, 99] has probability `None` (tracker.py:71-83). Once resolved, it reaches this line and the string formatting raises. | Records without a probability are shown with a placeholder. | not executed | Tracker.MissingProbabilityReachesConfidenceText | Tracker.ConfidenceText |
| data_fetcher.py:575-581 | For each key in order, the exact team test is tried, then the last-word test, and the loop stops at the first hit of either. | Keys "Melbourne vs Adelaide" then "North Melbourne vs Port Adelaide". Asking for North Melbourne v Port Adelaide returns the Melbourne v Adelaide tip. | An exact match anywhere wins over a last-word match, the collision that `extract_winner` (app.py:96-101) is written to avoid. | not executed | DataFetcher.FindTipAsWrittenPicksWrongGame | DataFetcher.FindTip |
