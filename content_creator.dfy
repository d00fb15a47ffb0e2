/** content_creator_system.py: the flattened list of monitored sources, the fixed weekly
    calendar with its day-to-suggestion rule, and the post builders for news, tool launches,
    learning/news mixes and search-history posts. Post texts are copied as the file holds them,
    including its mis-decoded emoji and arrows. */
module ContentCreator {
  import opened Text
  import opened Dicts

  // ContentAggregator: sources

  /** A dict of dicts: category -> (source name -> feed URL), in insertion order. */
  type Sources = seq<(string, seq<(string, string)>)>

  /** _initialize_sources: 5 categories, 27 sources. */
  const BuiltInSources: Sources :=
    [
    ("youtube", [
        ("Two Minute Papers",
         ("https://www.yout" + "ube.com/feeds/vi" + "deos.xml?channel" + "_id=UCbfYPyITQ-7"
           + "l4upoX8nvctg")),
        ("Yannic Kilcher",
         ("https://www.yout" + "ube.com/feeds/vi" + "deos.xml?channel" + "_id=UCZHmQk67mSJ"
           + "gfCCTn7xBfew")),
        ("AI Explained",
         ("https://www.yout" + "ube.com/feeds/vi" + "deos.xml?channel" + "_id=UCNJ1Ymd5yFu"
           + "UPtn21xtRbbw")),
        ("Sentdex",
         ("https://www.yout" + "ube.com/feeds/vi" + "deos.xml?channel" + "_id=UCfzlCWGWYyI"
           + "Q0aLC5w48gBQ")),
        ("3Blue1Brown",
         ("https://www.yout" + "ube.com/feeds/vi" + "deos.xml?channel" + "_id=UCYO_jab_esu"
           + "FRV4b17AJtAw")),
        ("Andrej Karpathy",
         ("https://www.yout" + "ube.com/@AndrejK" + "arpathy"))
    ]),
    ("reddit", [
        ("r/MachineLearning",
         ("https://www.redd" + "it.com/r/Machine" + "Learning/.rss")),
        ("r/artificial",
         ("https://www.redd" + "it.com/r/artific" + "ial/.rss")),
        ("r/LocalLLaMA",
         ("https://www.redd" + "it.com/r/LocalLL" + "aMA/.rss")),
        ("r/MLQuestions",
         ("https://www.redd" + "it.com/r/MLQuest" + "ions/.rss")),
        ("r/learnmachinelearning",
         ("https://www.redd" + "it.com/r/learnma" + "chinelearning/.r" + "ss"))
    ]),
    ("blogs", [
        ("OpenAI Blog",
         ("https://openai.c" + "om/blog/rss.xml")),
        ("Google AI Blog",
         ("https://blog.res" + "earch.google/fee" + "ds/posts/default")),
        ("DeepMind Blog",
         ("https://deepmind" + ".google/blog/rss" + ".xml")),
        ("Meta AI",
         ("https://ai.meta." + "com/blog/rss/")),
        ("Anthropic",
         ("https://www.anth" + "ropic.com/index/" + "rss.xml")),
        ("NVIDIA Blog",
         ("https://blogs.nv" + "idia.com/feed/")),
        ("Hugging Face",
         ("https://huggingf" + "ace.co/blog/feed" + ".xml")),
        ("Papers with Code",
         ("https://paperswi" + "thcode.com/feeds" + "/latest.xml"))
    ]),
    ("news", [
        ("VentureBeat AI",
         ("https://ventureb" + "eat.com/category" + "/ai/feed/")),
        ("TechCrunch AI",
         ("https://techcrun" + "ch.com/category/" + "artificial-intel" + "ligence/feed/")),
        ("The Verge AI",
         ("https://www.thev" + "erge.com/ai-arti" + "ficial-intellige" + "nce/rss/index.xm"
           + "l")),
        ("Ars Technica AI",
         ("https://arstechn" + "ica.com/ai/feed/"))
    ]),
    ("research", [
        ("arXiv CS.AI",
         ("http://export.ar" + "xiv.org/rss/cs.A" + "I")),
        ("arXiv CS.LG",
         ("http://export.ar" + "xiv.org/rss/cs.L" + "G")),
        ("arXiv CS.CV",
         ("http://export.ar" + "xiv.org/rss/cs.C" + "V")),
        ("arXiv CS.CL",
         ("http://export.ar" + "xiv.org/rss/cs.C" + "L"))
    ])
    ]

  datatype SourceRecord = SourceRecord(category: string, name: string, url: string, kind: string)

  /** The records of one category, in the category's order. */
  function Records(category: string, entries: seq<(string, string)>): (r: seq<SourceRecord>)
    ensures |r| == |entries|
  {
    if entries == [] then []
    else Records(category, entries[..|entries| - 1]) +
         [SourceRecord(category, entries[|entries| - 1].0, entries[|entries| - 1].1, "rss")]
  }

  /** One record per (category, name), categories in order and names in order within each. */
  function Flatten(sources: Sources): seq<SourceRecord>
  {
    if sources == [] then []
    else Flatten(sources[..|sources| - 1]) +
         Records(sources[|sources| - 1].0, sources[|sources| - 1].1)
  }

  lemma FlattenStep(sources: Sources, i: nat)
    requires i < |sources|
    ensures Flatten(sources[..i + 1]) == Flatten(sources[..i]) + Records(sources[i].0, sources[i].1)
  {
    assert sources[..i + 1][..i] == sources[..i];
  }

  lemma RecordsStep(category: string, entries: seq<(string, string)>, j: nat)
    requires j < |entries|
    ensures Records(category, entries[..j + 1]) ==
      Records(category, entries[..j]) + [SourceRecord(category, entries[j].0, entries[j].1, "rss")]
  {
    assert entries[..j + 1][..j] == entries[..j];
  }

  /** get_all_sources_list: the nested loops appending one record per source. */
  method GetAllSourcesList(sources: Sources) returns (all: seq<SourceRecord>)
    ensures all == Flatten(sources)
  {
    all := [];
    var i := 0;
    while i < |sources|
      invariant 0 <= i <= |sources|
      invariant all == Flatten(sources[..i])
    {
      var category, entries := sources[i].0, sources[i].1;
      var j := 0;
      while j < |entries|
        invariant 0 <= j <= |entries|
        invariant all == Flatten(sources[..i]) + Records(category, entries[..j])
      {
        RecordsStep(category, entries, j);
        all := all + [SourceRecord(category, entries[j].0, entries[j].1, "rss")];
        j := j + 1;
      }
      assert entries[..j] == entries;
      FlattenStep(sources, i);
      i := i + 1;
    }
    assert sources[..i] == sources;
  }

  /** There are as many records as sources summed over the categories. */
  lemma {:induction false} FlattenCount(sources: Sources)
    ensures |Flatten(sources)| == TotalLength(sources)
  {
    if sources != [] {
      var init := sources[..|sources| - 1];
      FlattenCount(init);
      TotalLengthAppend(init, sources[|sources| - 1]);
      assert init + [sources[|sources| - 1]] == sources;
    }
  }

  /** Record k of a category is that category's entry k, typed "rss". */
  lemma {:induction false} RecordsAt(category: string, entries: seq<(string, string)>, k: nat)
    requires k < |entries|
    ensures Records(category, entries)[k] == SourceRecord(category, entries[k].0, entries[k].1, "rss")
  {
    if k < |entries| - 1 {
      RecordsAt(category, entries[..|entries| - 1], k);
    }
  }

  /** Every (category, name, url) of the sources has its record, and every record comes from
      one of them with type "rss". */
  lemma {:induction false} FlattenMembers(sources: Sources, r: SourceRecord)
    ensures r in Flatten(sources) <==>
      r.kind == "rss" && (exists i, j :: 0 <= i < |sources| && 0 <= j < |sources[i].1| &&
                                         sources[i].0 == r.category && sources[i].1[j] == (r.name, r.url))
  {
    if sources != [] {
      var n := |sources| - 1;
      var init := sources[..n];
      FlattenMembers(init, r);
      var recs := Records(sources[n].0, sources[n].1);
      if r in recs {
        var j :| 0 <= j < |recs| && recs[j] == r;
        RecordsAt(sources[n].0, sources[n].1, j);
      }
      if r.kind == "rss" {
        if i, j :| 0 <= i < |sources| && 0 <= j < |sources[i].1| &&
                  sources[i].0 == r.category && sources[i].1[j] == (r.name, r.url) {
          if i < n {
            assert init[i] == sources[i];
          } else {
            RecordsAt(sources[n].0, sources[n].1, j);
          }
        }
      }
    }
  }

  /** The built-in sources give 27 records. */
  lemma BuiltInCount()
    ensures |Flatten(BuiltInSources)| == 27
  {
    FlattenCount(BuiltInSources);
    var s := BuiltInSources;
    assert |s[0].1| == 6 && |s[1].1| == 5 && |s[2].1| == 8 && |s[3].1| == 4 && |s[4].1| == 4;
    assert s[1..][1..][1..][1..][1..] == [];
    assert TotalLength(s[1..][1..][1..][1..]) == 4;
    assert TotalLength(s[1..][1..][1..]) == 8;
    assert TotalLength(s[1..][1..]) == 16;
    assert TotalLength(s[1..]) == 21;
  }

  // ContentCalendar

  datatype DayPlan = DayPlan(kind: string, time: string, contentFocus: string)

  const WeekDays: seq<string> :=
    ["Monday", "Tuesday", "Wednesday", "Thursday", "Friday", "Saturday", "Sunday"]

  /** create_weekly_mix: the same seven-day calendar whatever it is given; the two day lists
      only receive defaults and are never read. */
  function CreateWeeklyMix(personalLearningDays: Option<seq<string>>, newsDays: Option<seq<string>>)
    : (calendar: seq<(string, DayPlan)>)
    ensures Keys(calendar) == WeekDays
  {
    [
      ("Monday", DayPlan(("personal_learnin" + "g"), "8:30 AM IST",
        ("Weekend " + "learning or " + "project progress"))),
      ("Tuesday", DayPlan("news_update", "5:30 PM IST",
        ("Major " + "announcement or " + "breakthrough"))),
      ("Wednesday", DayPlan(("app_launch / " + "tool_review"), "9:00 AM IST",
        ("New tools or " + "interesting " + "finds"))),
      ("Thursday", DayPlan(("personal_learnin" + "g"), "8:30 AM IST",
        ("Deep dive or " + "concept " + "breakdown"))),
      ("Friday", DayPlan(("news_roundup / " + "trend_analysis"), "5:00 PM IST",
        ("Week\'s " + "highlights or " + "trends"))),
      ("Saturday", DayPlan(("optional_reflect" + "ion"), "10:00 AM IST",
        ("Week recap or " + "weekend project"))),
      ("Sunday", DayPlan(("rest / " + "engage_only"), "N/A",
        ("Comment on " + "others\' posts, " + "no posting")))
    ]
  }

  const NewsUpdate: string := "news_update"

  /** calendar.get(day, {}).get("type", "news_update") */
  function ContentType(day: string): string
  {
    match Get(CreateWeeklyMix(None, None), day)
    case None => NewsUpdate
    case Some(plan) => plan.kind
  }

  /** A day that is not a calendar key, wrong case included, is a news day. */
  lemma UnknownDayIsNews(day: string)
    requires day !in WeekDays
    ensures ContentType(day) == NewsUpdate
  {
  }

  /** The three suggestions of each content type that has them; any other type has none. */
  function SuggestionsFor(contentType: string): (r: seq<string>)
    ensures |r| == 3 <==> contentType == NewsUpdate || contentType == "personal_learning" ||
                          contentType == "app_launch / tool_review"
    ensures |r| == 0 <==> !(contentType == NewsUpdate || contentType == "personal_learning" ||
                            contentType == "app_launch / tool_review")
  {
    if contentType == NewsUpdate then
      [("Pick top 1-2 " + "news items from " + "today\'s " + "aggregated "
         + "content"),
       ("Focus on " + "high-impact " + "developments"),
       ("Add your unique " + "perspective")]
    else if contentType == "personal_learning" then
      [("Share what you " + "learned this " + "week"),
       ("Use your study " + "notes template"),
       ("Include " + "practical " + "examples")]
    else if contentType == "app_launch / tool_review" then
      [("Check new tool " + "launches from " + "aggregated " + "content"),
       ("Try the tool if " + "possible and " + "share experience"),
       ("Compare with " + "existing " + "solutions")]
    else []
  }

  /** generate_daily_suggestions: the day's type from the calendar, then the suggestions of
      that type. aggregated_content is never read. */
  method GenerateDailySuggestions<C>(day: string, aggregatedContent: C) returns (suggestions: seq<string>)
    ensures suggestions == SuggestionsFor(ContentType(day))
  {
    suggestions := AppendSuggestions(ContentType(day));
  }

  /** The branch of generate_daily_suggestions: one append per suggestion of the type. */
  method AppendSuggestions(contentType: string) returns (suggestions: seq<string>)
    ensures suggestions == SuggestionsFor(contentType)
  {
    suggestions := [];
    if contentType == NewsUpdate {
      suggestions := suggestions + [("Pick top 1-2 " + "news items from " + "today\'s " + "aggregated "
         + "content")];
      suggestions := suggestions + [("Focus on " + "high-impact " + "developments")];
      suggestions := suggestions + [("Add your unique " + "perspective")];
    } else if contentType == "personal_learning" {
      suggestions := suggestions + [("Share what you " + "learned this " + "week")];
      suggestions := suggestions + [("Use your study " + "notes template")];
      suggestions := suggestions + [("Include " + "practical " + "examples")];
    } else if contentType == "app_launch / tool_review" {
      suggestions := suggestions + [("Check new tool " + "launches from " + "aggregated " + "content")];
      suggestions := suggestions + [("Try the tool if " + "possible and " + "share experience")];
      suggestions := suggestions + [("Compare with " + "existing " + "solutions")];
    }
  }

  // ContentTypeGenerator: news posts

  /** The "excited" news post. */
  function ExcitedNews(title: string, summary: string, source: string, link: string): (r: string)
    ensures Contains(r, title) && Contains(r, summary) && Contains(r, source) &&
      Contains(r, link)
  {
    var t1 := ("\U{F8FF}\U{FC}\U{F6}\U{C4} Just saw " + "this - ");
    var t2 := ("\n" + "\n");
    var t3 := ("\n" + "\n" + "This is HUGE " + "because:\n"
       + "\U{201A}\U{DC}\U{ED} [Your " + "insight 1]\n" + "\U{201A}\U{DC}\U{ED} [Your " + "insight 2]\n"
       + "\U{201A}\U{DC}\U{ED} [Your " + "insight 3]\n" + "\n" + "What are your "
       + "thoughts on " + "this " + "development?\n" + "\n"
       + "Source: ");
    var t4 := ("\n" + "Read more: ");
    var t5 := ("\n" + "\n" + "#AI " + "#MachineLearning"
       + " #TechNews " + "#Innovation");
    var parts := [t1, title, t2, summary, t3, source, t4, link, t5];
    assert parts[1] == title && parts[3] == summary && parts[5] == source && parts[7] == link;
    JoinWithContains(parts, "", 1);
    JoinWithContains(parts, "", 3);
    JoinWithContains(parts, "", 5);
    JoinWithContains(parts, "", 7);
    JoinWith(parts, "")
  }

  /** The "analytical" news post: the summary cut to 100 characters. */
  function AnalyticalNews(title: string, summary: string, link: string): (r: string)
    ensures Contains(r, title) && Contains(r, Take(summary, 100)) && Contains(r, link)
  {
    var t1 := "\U{F8FF}\U{FC}\U{EC}\U{E4} Analysis: ";
    var t2 := ("\n" + "\n" + "Key points:\n" + "\U{201A}\U{C4}\U{A2} ");
    var t3 := ("...\n" + "\n" + "My take:\n" + "This signals "
       + "[your " + "analysis]. The " + "implications " + "for AI/ML are "
       + "significant " + "because [your " + "reasoning].\n" + "\n"
       + "Worth watching: " + "[what to watch " + "next]\n" + "\n"
       + "Full details: ");
    var t4 := ("\n" + "\n" + "#ArtificialIntel" + "ligence "
       + "#AITrends " + "#TechAnalysis");
    var parts := [t1, title, t2, Take(summary, 100), t3, link, t4];
    assert parts[1] == title && parts[3] == Take(summary, 100) && parts[5] == link;
    JoinWithContains(parts, "", 1);
    JoinWithContains(parts, "", 3);
    JoinWithContains(parts, "", 5);
    JoinWith(parts, "")
  }

  /** The "informative" news post, whose last hashtag is the source name without spaces. */
  function InformativeNews(title: string, summary: string, source: string): (r: string)
    ensures Contains(r, title) && Contains(r, summary) && Contains(r, source)
    ensures |r| >= |RemoveChar(source, ' ')| + 1 &&
      r[|r| - |RemoveChar(source, ' ')| - 1..] == "#" + RemoveChar(source, ' ')
  {
    var t1 := ("\U{F8FF}\U{FC}\U{EC}\U{221E} Update " + "from ");
    var t2 := (":\n" + "\n");
    var t3 := ("\n" + "\n");
    var t4 := ("\n" + "\n" + "Why this " + "matters:\n"
       + "\U{201A}\U{DC}\U{ED} " + "[Implication 1]\n" + "\U{201A}\U{DC}\U{ED} " + "[Implication 2]\n"
       + "\n" + "Link in " + "comments \U{F8FF}\U{FC}\U{EB}\U{E1}\n" + "\n"
       + "#AI " + "#MachineLearning" + " #TechUpdate ");
    var parts := [t1, source, t2, title, t3, summary, t4];
    assert parts[1] == source && parts[3] == title && parts[5] == summary;
    JoinWithContains(parts, "", 1);
    JoinWithContains(parts, "", 3);
    JoinWithContains(parts, "", 5);
    var front := JoinWith(parts, "");
    ContainsExtend(front, ("#" + RemoveChar(source, ' ')), source);
    ContainsExtend(front, ("#" + RemoveChar(source, ' ')), title);
    ContainsExtend(front, ("#" + RemoveChar(source, ' ')), summary);
    front + ("#" + RemoveChar(source, ' '))
  }

  /** generate_news_post: "excited" and "analytical" pick their templates; every other style,
      the default included, gives the informative post. */
  function NewsPost(title: string, summary: string, source: string, link: string, postStyle: string)
    : (r: string)
    ensures Contains(r, title)
    ensures postStyle == "excited" ==>
      Contains(r, summary) && Contains(r, source) && Contains(r, link)
    ensures postStyle == "analytical" ==> Contains(r, Take(summary, 100)) && Contains(r, link)
    ensures postStyle != "excited" && postStyle != "analytical" ==>
      Contains(r, summary) && Contains(r, source) && |r| >= |RemoveChar(source, ' ')| + 1 &&
      r[|r| - |RemoveChar(source, ' ')| - 1..] == "#" + RemoveChar(source, ' ')
  {
    if postStyle == "excited" then ExcitedNews(title, summary, source, link)
    else if postStyle == "analytical" then AnalyticalNews(title, summary, link)
    else InformativeNews(title, summary, source)
  }

  /** An unknown style gives the same post as "informative". */
  lemma UnknownStyleIsInformative(title: string, summary: string, source: string, link: string,
                                  postStyle: string)
    requires postStyle != "excited" && postStyle != "analytical"
    ensures NewsPost(title, summary, source, link, postStyle) ==
            NewsPost(title, summary, source, link, "informative")
  {
    assert "informative"[0] != "excited"[0] && "informative"[0] != "analytical"[0];
  }

  /** The analytical post reads only the first 100 characters of the summary. */
  lemma AnalyticalReadsPrefix(title: string, summary: string, summary': string, source: string,
                              link: string)
    requires Take(summary, 100) == Take(summary', 100)
    ensures NewsPost(title, summary, source, link, "analytical") ==
            NewsPost(title, summary', source, link, "analytical")
  {
    assert "analytical"[0] != "excited"[0];
  }


  // ContentTypeGenerator: tool launches

  const FeatureMark: string := "\U{201A}\U{FA}\U{EC} "

  /** The bullet lines of the first four features. */
  function FeatureLines(features: seq<string>): (r: seq<string>)
    ensures |r| == if |features| <= 4 then |features| else 4
    ensures forall k :: 0 <= k < |r| ==> r[k] == FeatureMark + features[k]
  {
    var shown := Take(features, 4);
    seq(|shown|, k requires 0 <= k < |shown| => FeatureMark + shown[k])
  }

  /** "\n".join of the feature lines */
  function FeaturesText(features: seq<string>): string
  {
    JoinWith(FeatureLines(features), "\n")
  }

  /** Only the first four features are listed, one per line in order: with no newline in a
      feature, splitting the list at '\n' gives back exactly those lines. */
  lemma FeaturesTextLines(features: seq<string>)
    requires forall k :: 0 <= k < |features| ==> '\n' !in features[k]
    ensures features == [] ==> FeaturesText(features) == []
    ensures features != [] ==> SplitOn(FeaturesText(features), '\n') == FeatureLines(features)
  {
    var ls := FeatureLines(features);
    if features != [] {
      forall k | 0 <= k < |ls| ensures '\n' !in ls[k] {
        assert ls[k] == FeatureMark + features[k];
      }
      SplitJoin(ls, '\n');
    }
  }

  /** generate_app_launch_post */
  function AppLaunchPost(appName: string, description: string, features: seq<string>, link: string): (r: string)
    ensures Contains(r, appName) && Contains(r, description) && Contains(r, FeaturesText(features))
    ensures Contains(r, link)
  {
    var t1 := ("\U{F8FF}\U{FC}\U{EE}\U{2022} New tool " + "alert: ");
    var t2 := ("\n" + "\n");
    var t3 := ("\n" + "\n" + "Key features:\n");
    var t4 := ("\n" + "\n" + "Perfect for: " + "[your use case]\n"
       + "\n" + "I\'m " + "particularly " + "excited about "
       + "[specific " + "feature] " + "because " + "[reason].\n"
       + "\n" + "Who\'s planning " + "to try this?\n" + "\n"
       + "Check it out: ");
    var t5 := ("\n" + "\n" + "#AITools " + "#MachineLearning"
       + " #ProductLaunch " + "#TechTools");
    var parts := [t1, appName, t2, description, t3, FeaturesText(features), t4, link, t5];
    assert parts[1] == appName && parts[3] == description && parts[5] == FeaturesText(features) && parts[7] == link;
    JoinWithContains(parts, "", 1);
    JoinWithContains(parts, "", 3);
    JoinWithContains(parts, "", 5);
    JoinWithContains(parts, "", 7);
    JoinWith(parts, "")
  }


  /** generate_learning_news_mix */
  function LearningNewsMix(learningContent: string, newsContent: string): (r: string)
    ensures Contains(r, learningContent) && Contains(r, newsContent)
  {
    var t1 := ("\U{F8FF}\U{FC}\U{E9}\U{D8} Connecting " + "the dots...\n" + "\n" + "While studying ");
    var t2 := (", I came across " + "this news:\n" + "\n");
    var t3 := ("\n" + "\n" + "Interesting " + "timing! This "
       + "real-world " + "development " + "validates " + "exactly what "
       + "I\'ve been " + "learning about. " + "\n" + "\n"
       + "The practical " + "implications " + "are clear: " + "[your insight]\n"
       + "\n" + "Anyone else " + "seeing this " + "pattern?\n"
       + "\n" + "#MachineLearning" + " #AI " + "#ContinuousLearn"
       + "ing #TechNews");
    var parts := [t1, learningContent, t2, newsContent, t3];
    assert parts[1] == learningContent && parts[3] == newsContent;
    JoinWithContains(parts, "", 1);
    JoinWithContains(parts, "", 3);
    JoinWith(parts, "")
  }

  // SearchHistoryIntegrator

  const InsightMark: string := "\U{201A}\U{DC}\U{ED} "

  /** chr(10).join of one arrow line per insight, all of them. */
  function InsightsText(insights: seq<string>): string
  {
    JoinWith(seq(|insights|, k requires 0 <= k < |insights| => InsightMark + insights[k]), "\n")
  }

  /** suggest_post_from_search */
  function SuggestPostFromSearch(searchTopic: string, insights: seq<string>): (r: string)
    ensures Contains(r, searchTopic) && Contains(r, InsightsText(insights))
  {
    var t1 := ("\U{F8FF}\U{FC}\U{ED}\U{2260} Down the " + "rabbit hole of ");
    var t2 := ("...\n" + "\n" + "Used multiple " + "AI assistants "
       + "today (ChatGPT, " + "Gemini, Claude) " + "to understand " + "this better. \n"
       + "\n" + "Here\'s what I " + "learned:\n" + "\n");
    var t3 := ("\n" + "\n" + "The fascinating " + "part? Each AI "
       + "explained it " + "differently, " + "which actually " + "helped me grasp "
       + "the full " + "picture.\n" + "\n" + "What\'s your "
       + "experience " + "using multiple " + "AI tools for " + "learning?\n"
       + "\n" + "#AI " + "#MachineLearning" + " #AITools "
       + "#LearningInPubli" + "c");
    var parts := [t1, searchTopic, t2, InsightsText(insights), t3];
    assert parts[1] == searchTopic && parts[3] == InsightsText(insights);
    JoinWithContains(parts, "", 1);
    JoinWithContains(parts, "", 3);
    JoinWith(parts, "")
  }


}
