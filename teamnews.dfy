/**
 * Selection and injury news (team_news.py): which articles are relevant,
 * the per-team feed filter behind its unknown-team guard, and the
 * de-duplication of the league-wide feeds by title. The feeds themselves
 * are parameters: each entry's publication day is `None` when it does not
 * parse, and the cut-off is a day number.
 */
module TeamNews {
  import opened Wrappers
  import opened Text
  import opened Seqs
  import opened Scanners

  const TeamUrls: seq<(string, string)> := [
    ("Adelaide", "https://www.afl.com.au/rss/news/team/adelaide-crows"),
    ("Brisbane Lions", "https://www.afl.com.au/rss/news/team/brisbane-lions"),
    ("Carlton", "https://www.afl.com.au/rss/news/team/carlton"),
    ("Collingwood", "https://www.afl.com.au/rss/news/team/collingwood"),
    ("Essendon", "https://www.afl.com.au/rss/news/team/essendon"),
    ("Fremantle", "https://www.afl.com.au/rss/news/team/fremantle"),
    ("Geelong", "https://www.afl.com.au/rss/news/team/geelong-cats"),
    ("Gold Coast", "https://www.afl.com.au/rss/news/team/gold-coast-suns"),
    ("GWS Giants", "https://www.afl.com.au/rss/news/team/gws-giants"),
    ("Hawthorn", "https://www.afl.com.au/rss/news/team/hawthorn"),
    ("Melbourne", "https://www.afl.com.au/rss/news/team/melbourne"),
    ("North Melbourne", "https://www.afl.com.au/rss/news/team/north-melbourne"),
    ("Port Adelaide", "https://www.afl.com.au/rss/news/team/port-adelaide"),
    ("Richmond", "https://www.afl.com.au/rss/news/team/richmond"),
    ("St Kilda", "https://www.afl.com.au/rss/news/team/st-kilda"),
    ("Sydney", "https://www.afl.com.au/rss/news/team/sydney-swans"),
    ("West Coast", "https://www.afl.com.au/rss/news/team/west-coast-eagles"),
    ("Western Bulldogs", "https://www.afl.com.au/rss/news/team/western-bulldogs")]

  const InjuryKeywords: seq<string> := [
    "injury", "injured", "out", "ruled out", "unavailable", "hamstring",
    "knee", "ankle", "shoulder", "concussion", "suspension", "banned",
    "delisted", "omitted", "dropped", "recalled", "returns", "debut",
    "selection", "named", "team list", "ins and outs", "changes",
    "indefinitely", "surgery", "fractured", "torn", "strain"]

  /** Some keyword of `keywords` occurs in `text`. */
  function AnyKeyword(text: string, keywords: seq<string>): (r: bool)
    ensures r <==> exists k :: 0 <= k < |keywords| && Contains(text, keywords[k])
    decreases |keywords|
  {
    if |keywords| == 0 then false
    else if Contains(text, keywords[0]) then true
    else
      var r := AnyKeyword(text, keywords[1..]);
      assert forall k :: 0 < k < |keywords| ==> keywords[k] == keywords[1..][k - 1];
      r
  }

  /** `is_relevant_article`: some injury keyword occurs in the lower-cased title and summary. */
  function IsRelevantArticle(title: string, summary: string): (r: bool)
    ensures r <==> exists k :: 0 <= k < |InjuryKeywords| && Contains(Lower(title + " " + summary), InjuryKeywords[k])
  {
    AnyKeyword(Lower(title + " " + summary), InjuryKeywords)
  }

  /** A feed entry; `day` is the parsed publication date, `None` when it does not parse. */
  datatype FeedEntry = FeedEntry(title: string, summary: string, published: string, day: Option<int>)

  datatype Article = Article(team: string, title: string, summary: string, published: string)

  /** An entry is kept unless its date parses and is before the cut-off, and only when relevant (judged on the first 300 characters of its summary). */
  predicate Keep(e: FeedEntry, cutoff: int) {
    !(e.day.Some? && e.day.value < cutoff) && IsRelevantArticle(e.title, Take(e.summary, 300))
  }

  /** The filter of a given cut-off, as a function value. */
  function KeepFrom(cutoff: int): FeedEntry -> bool {
    e => Keep(e, cutoff)
  }

  /** `TEAM_URLS.get(team)` gives an address: the team has a feed. */
  predicate KnownTeam(team: string) {
    exists i :: 0 <= i < |TeamUrls| && TeamUrls[i].0 == team
  }

  function ArticleOf(team: string, e: FeedEntry): Article {
    Article(team, e.title, Take(e.summary, 300), e.published)
  }

  function Articles(team: string, entries: seq<FeedEntry>): (r: seq<Article>)
    ensures |r| == |entries| && forall i :: 0 <= i < |entries| ==> r[i] == ArticleOf(team, entries[i])
  {
    seq(|entries|, i requires 0 <= i < |entries| => ArticleOf(team, entries[i]))
  }

  /** `get_team_news` over the team's feed: `[]` for a team without a feed address, else the kept entries in feed order. */
  function GetTeamNews(team: string, entries: seq<FeedEntry>, cutoff: int): (r: seq<Article>)
    ensures !KnownTeam(team) ==> r == []
    ensures |r| <= |entries|
    ensures forall i :: 0 <= i < |r| ==> r[i].team == team && |r[i].summary| <= 300
  {
    if !KnownTeam(team) then [] else Articles(team, Filter(entries, KeepFrom(cutoff)))
  }

  /**
   * A known team's news holds the article of every entry kept, and nothing
   * but articles of entries kept.
   */
  lemma TeamNewsIsTheKeptEntries(team: string, entries: seq<FeedEntry>, cutoff: int)
    requires KnownTeam(team)
    ensures forall e :: e in entries && Keep(e, cutoff) ==> ArticleOf(team, e) in GetTeamNews(team, entries, cutoff)
    ensures forall a :: a in GetTeamNews(team, entries, cutoff) ==>
              exists e :: e in entries && Keep(e, cutoff) && a == ArticleOf(team, e)
  {
    var keep := KeepFrom(cutoff);
    var kept := Filter(entries, keep);
    assert GetTeamNews(team, entries, cutoff) == Articles(team, kept);
    forall e | e in entries && Keep(e, cutoff)
      ensures ArticleOf(team, e) in Articles(team, kept)
    {
      FilterMembership(entries, keep, e);
      var i :| 0 <= i < |kept| && kept[i] == e;
      assert Articles(team, kept)[i] == ArticleOf(team, e);
    }
    forall a | a in Articles(team, kept)
      ensures exists e :: e in entries && Keep(e, cutoff) && a == ArticleOf(team, e)
    {
      var i :| 0 <= i < |kept| && Articles(team, kept)[i] == a;
      FilterMembership(entries, keep, kept[i]);
    }
  }

  /**
   * A known team's news is in feed order: the articles of the kept entries
   * at increasing positions, every kept entry among them.
   */
  lemma TeamNewsInFeedOrder(team: string, entries: seq<FeedEntry>, cutoff: int) returns (idx: seq<nat>)
    requires KnownTeam(team)
    ensures var r := GetTeamNews(team, entries, cutoff);
            && |idx| == |r|
            && (forall k :: 0 <= k < |idx| ==>
                  idx[k] < |entries| && Keep(entries[idx[k]], cutoff) && r[k] == ArticleOf(team, entries[idx[k]]))
            && (forall k, l :: 0 <= k < l < |idx| ==> idx[k] < idx[l])
            && (forall j :: 0 <= j < |entries| && Keep(entries[j], cutoff) ==> j in idx)
  {
    idx := FilterSubsequence(entries, KeepFrom(cutoff));
  }

  // ---------------------------------------------------------------------------
  // De-duplication by title

  function Titles(articles: seq<Article>): set<string> {
    set i | 0 <= i < |articles| :: articles[i].title
  }

  /** The first article of each title, in input order. */
  function KeepFirst(articles: seq<Article>): seq<Article>
    decreases |articles|
  {
    if |articles| == 0 then []
    else
      var u := KeepFirst(articles[..|articles| - 1]);
      var a := articles[|articles| - 1];
      if a.title in Titles(u) then u else u + [a]
  }

  /**
   * The de-duplicated list has pairwise distinct titles and the same set of
   * titles as the input.
   */
  lemma {:induction false} KeepFirstTitles(articles: seq<Article>)
    ensures var u := KeepFirst(articles);
            && (forall i, j :: 0 <= i < j < |u| ==> u[i].title != u[j].title)
            && Titles(u) == Titles(articles)
    decreases |articles|
  {
    if |articles| > 0 {
      var init := articles[..|articles| - 1];
      var a := articles[|articles| - 1];
      var u := KeepFirst(init);
      KeepFirstTitles(init);
      assert Titles(articles) == Titles(init) + {a.title} by {
        forall t | t in Titles(articles)
          ensures t in Titles(init) + {a.title}
        {
          var i :| 0 <= i < |articles| && articles[i].title == t;
          if i < |init| {
            assert init[i] == articles[i];
          }
        }
        forall t | t in Titles(init)
          ensures t in Titles(articles)
        {
          var i :| 0 <= i < |init| && init[i].title == t;
          assert articles[i] == init[i];
        }
        assert articles[|articles| - 1].title == a.title;
      }
      if a.title !in Titles(u) {
        var v := u + [a];
        assert Titles(v) == Titles(u) + {a.title} by {
          forall t | t in Titles(v)
            ensures t in Titles(u) + {a.title}
          {
            var i :| 0 <= i < |v| && v[i].title == t;
            if i < |u| {
              assert v[i] == u[i];
            }
          }
          forall t | t in Titles(u)
            ensures t in Titles(v)
          {
            var i :| 0 <= i < |u| && u[i].title == t;
            assert v[i] == u[i];
          }
          assert v[|u|] == a;
        }
        forall i, j | 0 <= i < j < |v|
          ensures v[i].title != v[j].title
        {
          if j == |u| {
            assert u[i].title in Titles(u);
          }
        }
      }
    }
  }

  /**
   * The de-duplicated list is a subsequence of the input, and each article
   * kept is the first of its title: `idx` gives the input position of each.
   */
  lemma {:induction false} KeepFirstIsSubsequence(articles: seq<Article>) returns (idx: seq<nat>)
    ensures var u := KeepFirst(articles);
            && |idx| == |u|
            && (forall k :: 0 <= k < |idx| ==> idx[k] < |articles| && u[k] == articles[idx[k]])
            && (forall k, l :: 0 <= k < l < |idx| ==> idx[k] < idx[l])
            && (forall k, j :: 0 <= k < |idx| && 0 <= j < idx[k] ==> articles[j].title != u[k].title)
    decreases |articles|
  {
    if |articles| == 0 {
      return [];
    }
    var init := articles[..|articles| - 1];
    var a := articles[|articles| - 1];
    var u := KeepFirst(init);
    var prev := KeepFirstIsSubsequence(init);
    assert forall j :: 0 <= j < |init| ==> articles[j] == init[j];
    if a.title in Titles(u) {
      idx := prev;
    } else {
      KeepFirstTitles(init);
      forall j | 0 <= j < |init|
        ensures articles[j].title != a.title
      {
        assert init[j].title in Titles(init);
      }
      idx := prev + [|articles| - 1];
      var v := u + [a];
      assert KeepFirst(articles) == v;
      forall k | 0 <= k < |idx|
        ensures idx[k] < |articles| && v[k] == articles[idx[k]]
      {
        if k < |prev| {
          assert v[k] == u[k];
        }
      }
      forall k, j | 0 <= k < |idx| && 0 <= j < idx[k]
        ensures articles[j].title != v[k].title
      {
        if k < |prev| {
          assert v[k] == u[k];
        }
      }
    }
  }

  /** The de-dup loop of `get_afl_wide_selection_news`, with the set of titles seen so far. */
  method DedupByTitle(articles: seq<Article>) returns (unique: seq<Article>)
    ensures unique == KeepFirst(articles)
    ensures forall i, j :: 0 <= i < j < |unique| ==> unique[i].title != unique[j].title
    ensures Titles(unique) == Titles(articles)
  {
    var seen: set<string> := {};
    unique := [];
    for i := 0 to |articles|
      invariant unique == KeepFirst(articles[..i])
      invariant seen == Titles(unique)
    {
      var a := articles[i];
      assert articles[..i + 1][..i] == articles[..i];
      if a.title !in seen {
        seen := seen + {a.title};
        unique := unique + [a];
        assert Titles(unique) == Titles(unique[..|unique| - 1]) + {a.title} by {
          var v := unique;
          var u := v[..|v| - 1];
          forall t | t in Titles(v)
            ensures t in Titles(u) + {a.title}
          {
            var k :| 0 <= k < |v| && v[k].title == t;
            if k < |u| {
              assert v[k] == u[k];
            }
          }
          forall t | t in Titles(u)
            ensures t in Titles(v)
          {
            var k :| 0 <= k < |u| && u[k].title == t;
            assert v[k] == u[k];
          }
          assert v[|u|] == a;
        }
      }
    }
    assert articles[..|articles|] == articles;
    KeepFirstTitles(articles);
  }
}
