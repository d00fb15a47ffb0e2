/** run_daily.py: the daily runner's rules. JSON files are read through load_json's default
    rule; the feed fetch caps categories and items and counts what it stores; the calendar
    branch is chosen by substring; the top news takes one item per source; the weekly review
    counts recent days and application statuses; the activity log grows by one entry. */
module DailyRunner {
  import opened Text
  import opened Dicts

  // load_json

  /** A value read by json.load. */
  datatype Json = Null | Bool(b: bool) | Num(n: int) | Str(s: string) | Arr(items: seq<Json>)
                | Obj(fields: seq<(string, Json)>)

  /** Python truthiness of a JSON value. */
  predicate Truthy(j: Json)
  {
    match j
    case Null => false
    case Bool(b) => b
    case Num(n) => n != 0
    case Str(s) => s != []
    case Arr(a) => a != []
    case Obj(o) => o != []
  }

  /** load_json(filepath, default): the parsed file when it opens and parses (read is Some),
      else `default or {}`: a falsy default, None and [] included, becomes {}. */
  function LoadJson(read: Option<Json>, default: Json): (r: Json)
    ensures read.Some? ==> r == read.value
    ensures read.None? && Truthy(default) ==> r == default
    ensures read.None? && !Truthy(default) ==> r == Obj([])
    ensures read.None? ==> Truthy(r) || r == Obj([])
  {
    match read
    case Some(j) => j
    case None => if Truthy(default) then default else Obj([])
  }

  // fetch_rss_feeds

  /** A parsed feed entry: entry.get reads its fields. */
  type Entry = map<string, string>

  datatype NewsItem = NewsItem(title: string, link: string, summary: string)

  /** entry.get(key, default) */
  function EntryGet(e: Entry, key: string, default: string): string
  {
    if key in e then e[key] else default
  }

  /** The stored item of an entry: title defaults to 'No title', link to '', and the summary is
      cut to 150 characters. */
  function ItemOf(e: Entry): (item: NewsItem)
    ensures |item.summary| <= 150
    ensures "title" !in e ==> item.title == "No title"
  {
    NewsItem(EntryGet(e, "title", "No title"), EntryGet(e, "link", ""),
             Take(EntryGet(e, "summary", ""), 150))
  }

  /** The items of a fetched feed: its first three entries. */
  function FeedItems(entries: seq<Entry>): (items: seq<NewsItem>)
    ensures |items| == if |entries| <= 3 then |entries| else 3
    ensures forall k :: 0 <= k < |items| ==> items[k] == ItemOf(entries[k])
  {
    var top := Take(entries, 3);
    seq(|top|, k requires 0 <= k < |top| => ItemOf(top[k]))
  }

  /** What is stored for one feed: its items, or [] when fetching or reading it raised (the
      parser gives None). */
  function FeedResult(parse: string -> Option<seq<Entry>>, url: string): (items: seq<NewsItem>)
    ensures |items| <= 3
    ensures parse(url).None? ==> items == []
  {
    match parse(url)
    case None => []
    case Some(entries) => FeedItems(entries)
  }

  type Feeds = seq<(string, string)>
  type Stored = seq<(string, seq<NewsItem>)>
  type Content = seq<(string, Stored)>

  /** The stored feeds of one category: its first two feeds, each under its name. */
  function CategoryContent(parse: string -> Option<seq<Entry>>, feeds: Feeds): (stored: Stored)
    ensures |stored| == if |feeds| <= 2 then |feeds| else 2
    ensures forall k :: 0 <= k < |stored| ==>
      stored[k] == (feeds[k].0, FeedResult(parse, feeds[k].1))
  {
    var shown := Take(feeds, 2);
    seq(|shown|, k requires 0 <= k < |shown| => (shown[k].0, FeedResult(parse, shown[k].1)))
  }

  /** all_content: every category, in order, with its stored feeds. */
  function Aggregate(parse: string -> Option<seq<Entry>>, sources: seq<(string, Feeds)>)
    : (content: Content)
    ensures Keys(content) == Keys(sources)
    ensures forall i :: 0 <= i < |content| ==>
      content[i].1 == CategoryContent(parse, sources[i].1)
  {
    seq(|sources|, i requires 0 <= i < |sources| =>
      (sources[i].0, CategoryContent(parse, sources[i].1)))
  }

  /** The number of items stored for a category. */
  function StoredCount(stored: Stored): nat
  {
    if stored == [] then 0 else StoredCount(stored[..|stored| - 1]) + |stored[|stored| - 1].1|
  }

  /** The number of items stored over all categories. */
  function ItemCount(content: Content): nat
  {
    if content == [] then 0
    else ItemCount(content[..|content| - 1]) + StoredCount(content[|content| - 1].1)
  }

  lemma StoredCountStep(stored: Stored, e: (string, seq<NewsItem>))
    ensures StoredCount(stored + [e]) == StoredCount(stored) + |e.1|
  {
    assert (stored + [e])[..|stored|] == stored;
  }

  lemma ItemCountStep(content: Content, e: (string, Stored))
    ensures ItemCount(content + [e]) == ItemCount(content) + StoredCount(e.1)
  {
    assert (content + [e])[..|content|] == content;
  }

  /** The items loop: the first three entries, one append each. */
  method ReadItems(entries: seq<Entry>) returns (items: seq<NewsItem>)
    ensures items == FeedItems(entries)
  {
    items := [];
    var top := Take(entries, 3);
    var k := 0;
    while k < |top|
      invariant 0 <= k <= |top|
      invariant items == FeedItems(entries)[..k]
    {
      assert FeedItems(entries)[..k + 1] == FeedItems(entries)[..k] + [ItemOf(top[k])];
      items := items + [ItemOf(top[k])];
      k := k + 1;
    }
  }

  lemma CategoryContentStep(parse: string -> Option<seq<Entry>>, feeds: Feeds, j: nat)
    requires j < |feeds| && j < 2
    ensures var spec := CategoryContent(parse, feeds);
      spec[..j + 1] == spec[..j] + [(feeds[j].0, FeedResult(parse, feeds[j].1))]
  {
  }

  /** One feed: its first three items, or none when fetching or parsing it fails. */
  method ReadFeed(parse: string -> Option<seq<Entry>>, url: string) returns (items: seq<NewsItem>)
    ensures items == FeedResult(parse, url)
  {
    items := [];
    match parse(url) {
      case None =>
      case Some(entries) =>
        items := ReadItems(entries);
    }
  }

  /** The feeds loop of one category: its first two feeds, each fetched and read. */
  method ReadCategory(parse: string -> Option<seq<Entry>>, feeds: Feeds)
    returns (stored: Stored, count: nat)
    ensures stored == CategoryContent(parse, feeds)
    ensures count == StoredCount(stored)
  {
    var shown := Take(feeds, 2);
    ghost var spec := CategoryContent(parse, feeds);
    stored, count := [], 0;
    var j := 0;
    while j < |shown|
      invariant 0 <= j <= |shown|
      invariant stored == spec[..j]
      invariant count == StoredCount(stored)
    {
      var name, url := shown[j].0, shown[j].1;
      var items := ReadFeed(parse, url);
      CategoryContentStep(parse, feeds, j);
      StoredCountStep(stored, (name, items));
      stored := stored + [(name, items)];
      count := count + |items|;
      j := j + 1;
    }
    assert stored == spec;
  }

  lemma AggregateStep(parse: string -> Option<seq<Entry>>, sources: seq<(string, Feeds)>, i: nat)
    requires i < |sources|
    ensures var all := Aggregate(parse, sources);
      all[..i + 1] == all[..i] + [(sources[i].0, CategoryContent(parse, sources[i].1))]
  {
  }

  /** fetch_rss_feeds: without feedparser the cached content is returned; otherwise each
      category keeps its first two feeds, each feed its first three items (or [] when it
      fails), and the count is the number of items stored. */
  method FetchRssFeeds(feedparserInstalled: bool, sources: Dict<string, Dict<string, string>>,
                       parse: string -> Option<seq<Entry>>, cached: Content)
    returns (content: Content, count: nat)
    ensures feedparserInstalled ==> content == Aggregate(parse, sources)
    ensures feedparserInstalled ==> count == ItemCount(content)
    ensures !feedparserInstalled ==> content == cached && count == 0
  {
    if !feedparserInstalled {
      return cached, 0;
    }
    ghost var all := Aggregate(parse, sources);
    content, count := [], 0;
    var i := 0;
    while i < |sources|
      invariant 0 <= i <= |sources|
      invariant content == all[..i]
      invariant count == ItemCount(content)
    {
      var stored, n := ReadCategory(parse, sources[i].1);
      ItemCountStep(content, (sources[i].0, stored));
      AggregateStep(parse, sources, i);
      content := content + [(sources[i].0, stored)];
      count := count + n;
      i := i + 1;
    }
    assert content == all;
  }

  /** A category stores at most two feeds of at most three items, so the count is at most six
      per category. */
  lemma {:induction false} StoredCountBound(stored: Stored)
    requires forall k :: 0 <= k < |stored| ==> |stored[k].1| <= 3
    ensures StoredCount(stored) <= 3 * |stored|
  {
    if stored != [] {
      StoredCountBound(stored[..|stored| - 1]);
    }
  }

  lemma {:induction false} ItemCountBound(content: Content)
    requires forall i :: 0 <= i < |content| ==> |content[i].1| <= 2
    requires forall i, k :: 0 <= i < |content| && 0 <= k < |content[i].1| ==>
      |content[i].1[k].1| <= 3
    ensures ItemCount(content) <= 6 * |content|
  {
    if content != [] {
      StoredCountBound(content[|content| - 1].1);
      ItemCountBound(content[..|content| - 1]);
    }
  }

  /** The fetched content: the categories of the sources, at most two feeds each, at most
      three items per feed with summaries of at most 150 characters, at most six items per
      category in all. */
  lemma AggregateBounds(parse: string -> Option<seq<Entry>>, sources: seq<(string, Feeds)>)
    ensures var content := Aggregate(parse, sources);
      Keys(content) == Keys(sources) && ItemCount(content) <= 6 * |sources| &&
      (forall i :: 0 <= i < |content| ==> |content[i].1| <= 2) &&
      (forall i, k :: 0 <= i < |content| && 0 <= k < |content[i].1| ==>
        |content[i].1[k].1| <= 3) &&
      (forall i, k, m ::
        0 <= i < |content| && 0 <= k < |content[i].1| && 0 <= m < |content[i].1[k].1| ==>
        |content[i].1[k].1[m].summary| <= 150)
  {
    var content := Aggregate(parse, sources);
    forall i, k, m | 0 <= i < |content| && 0 <= k < |content[i].1| && 0 <= m < |content[i].1[k].1|
      ensures |content[i].1[k].1[m].summary| <= 150
    {
      var url := sources[i].1[k].1;
      match parse(url)
      case None =>
      case Some(entries) =>
        assert content[i].1[k].1[m] == ItemOf(entries[m]);
    }
    ItemCountBound(content);
  }

  // check_content_calendar

  /** The instructions check_content_calendar prints. */
  datatype Branch = LearningSteps | NewsSteps | ToolSteps | RestDay | FlexibleDay

  /** The first of 'learning', 'news', 'tool', 'rest' found in the lower-cased type. */
  function ContentBranch(contentType: string): (b: Branch)
    ensures b == LearningSteps <==> Contains(Lower(contentType), "learning")
    ensures b == NewsSteps <==>
      !Contains(Lower(contentType), "learning") && Contains(Lower(contentType), "news")
    ensures b == ToolSteps <==>
      !Contains(Lower(contentType), "learning") && !Contains(Lower(contentType), "news") &&
      Contains(Lower(contentType), "tool")
    ensures b == RestDay <==>
      !Contains(Lower(contentType), "learning") && !Contains(Lower(contentType), "news") &&
      !Contains(Lower(contentType), "tool") && Contains(Lower(contentType), "rest")
  {
    var t := Lower(contentType);
    if Contains(t, "learning") then LearningSteps
    else if Contains(t, "news") then NewsSteps
    else if Contains(t, "tool") then ToolSteps
    else if Contains(t, "rest") then RestDay
    else FlexibleDay
  }

  /** A day's plan as the calendar file holds it. */
  type Plan = Dict<string, string>

  datatype Today = Today(plan: Plan, contentType: string, focus: string, time: string,
                         branch: Branch)

  /** check_content_calendar for the day name: the day's plan or {}, its type, focus and time
      with their defaults, and the branch of instructions. */
  function CheckContentCalendar(calendar: seq<(string, Plan)>, dayName: string): (r: Today)
    ensures dayName !in Keys(calendar) ==> r.plan == [] && r.contentType == "flexible"
    ensures r.branch == ContentBranch(r.contentType)
  {
    var plan := match Get(calendar, dayName) case None => [] case Some(p) => p;
    var contentType := GetOr(plan, "type", "flexible");
    Today(plan, contentType, GetOr(plan, "focus", "Your choice"), GetOr(plan, "time", "Flexible"),
          ContentBranch(contentType))
  }

  /** Lower-casing twice changes nothing more. */
  lemma LowerIdempotent(s: string)
    ensures Lower(Lower(s)) == Lower(s)
  {
    var l := Lower(s);
    forall i | 0 <= i < |s| ensures Lower(l)[i] == l[i] {
      assert l[i] == LowerChar(s[i]);
    }
  }

  /** The branch ignores letter case. */
  lemma BranchIgnoresCase(contentType: string)
    ensures ContentBranch(Lower(contentType)) == ContentBranch(contentType)
  {
    LowerIdempotent(contentType);
  }

  /** A string without some character of a word does not contain the word. */
  lemma Lacks(s: string, word: string, c: char)
    requires c in word && c !in s
    ensures !Contains(s, word)
  {
    if Contains(s, word) {
      ContainsKeepsChars(s, word, c);
    }
  }

  /** A string of lower-case letters is its own lower-case form. */
  lemma LowerKeepsLowerCase(s: string)
    requires forall i :: 0 <= i < |s| ==> IsLower(s[i])
    ensures Lower(s) == s
  {
  }

  /** A day missing from the calendar has type 'flexible', which takes the last branch. */
  lemma MissingDayIsFlexible(calendar: seq<(string, Plan)>, dayName: string)
    requires dayName !in Keys(calendar)
    ensures CheckContentCalendar(calendar, dayName).branch == FlexibleDay
  {
    FlexibleBranch("flexible");
  }

  /** 'flexible' contains none of the four words. The literal comes in as a parameter equal
      to it: with the literal written in the ensures, the verifier unrolls Contains and Lower
      on its characters and the proof becomes several times as costly. */
  lemma FlexibleBranch(t: string)
    requires t == "flexible"
    ensures ContentBranch(t) == FlexibleDay
  {
    assert |t| == 8 && forall i :: 0 <= i < |t| ==> t[i] in "flexib";
    LowerKeepsLowerCase(t);
    PlainBranch(t);
  }

  /** A lower-case type without 'n', 'o' and 'r' takes the last branch. */
  lemma PlainBranch(t: string)
    requires Lower(t) == t && 'n' !in t && 'o' !in t && 'r' !in t
    ensures ContentBranch(t) == FlexibleDay
  {
    Lacks(t, "learning", 'n');
    Lacks(t, "news", 'n');
    Lacks(t, "tool", 'o');
    Lacks(t, "rest", 'r');
  }

  // show_top_news

  /** A stored item as JSON: item.get reads it. */
  type StoredItem = map<string, string>
  type StoredContent = seq<(string, seq<(string, seq<StoredItem>)>)>

  /** The lines shown for an item: its source, title (default 'No title') and the first 60
      characters of its link (default 'No link'). */
  datatype Headline = Headline(source: string, title: string, link: string)

  function HeadlineOf(source: string, item: StoredItem): (h: Headline)
    ensures h.source == source && |h.link| <= 60
  {
    Headline(source, EntryGet(item, "title", "No title"), Take(EntryGet(item, "link", "No link"), 60))
  }

  /** The first item of each source of a category, in order; sources with no item give none. */
  function SourceFirsts(sources: seq<(string, seq<StoredItem>)>): seq<Headline>
  {
    if sources == [] then []
    else
      var last := sources[|sources| - 1];
      SourceFirsts(sources[..|sources| - 1]) +
      (if last.1 == [] then [] else [HeadlineOf(last.0, last.1[0])])
  }

  /** The first items over all categories, in category then source order. */
  function Firsts(content: StoredContent): seq<Headline>
  {
    if content == [] then []
    else Firsts(content[..|content| - 1]) + SourceFirsts(content[|content| - 1].1)
  }

  /** What show_top_news shows: the first five of those. */
  function TopNews(content: StoredContent): (shown: seq<Headline>)
    ensures |shown| <= 5
  {
    Take(Firsts(content), 5)
  }

  lemma SourceFirstsStep(sources: seq<(string, seq<StoredItem>)>, j: nat)
    requires j < |sources|
    ensures SourceFirsts(sources[..j + 1]) == SourceFirsts(sources[..j]) +
      (if sources[j].1 == [] then [] else [HeadlineOf(sources[j].0, sources[j].1[0])])
  {
    assert sources[..j + 1][..j] == sources[..j];
  }

  lemma FirstsStep(content: StoredContent, i: nat)
    requires i < |content|
    ensures Firsts(content[..i + 1]) == Firsts(content[..i]) + SourceFirsts(content[i].1)
  {
    assert content[..i + 1][..i] == content[..i];
  }

  /** A prefix of at least n elements fixes the first n. */
  lemma TakePrefix<T>(a: seq<T>, b: seq<T>, n: nat)
    requires a <= b && |a| >= n
    ensures Take(a, n) == Take(b, n)
  {
    assert a[..n] == b[..n];
  }

  /** One source while fewer than five are shown: its first item, if any, is shown next. */
  lemma TopNewsStep(done: seq<Headline>, sources: seq<(string, seq<StoredItem>)>, j: nat)
    requires j < |sources| && |done + SourceFirsts(sources[..j])| < 5
    ensures Take(done + SourceFirsts(sources[..j + 1]), 5) == done + SourceFirsts(sources[..j]) +
      (if sources[j].1 == [] then [] else [HeadlineOf(sources[j].0, sources[j].1[0])])
  {
    SourceFirstsStep(sources, j);
    var next := if sources[j].1 == [] then [] else [HeadlineOf(sources[j].0, sources[j].1[0])];
    assert done + SourceFirsts(sources[..j + 1]) == done + SourceFirsts(sources[..j]) + next;
  }

  /** Stopping inside a category once five items are shown. */
  lemma TopNewsStop(done: seq<Headline>, sources: seq<(string, seq<StoredItem>)>, j: nat)
    requires j <= |sources| && |done + SourceFirsts(sources[..j])| >= 5
    ensures Take(done + SourceFirsts(sources[..j]), 5) == Take(done + SourceFirsts(sources), 5)
  {
    SourceFirstsPrefix(sources, j);
    var x, y := SourceFirsts(sources[..j]), SourceFirsts(sources);
    assert done + x == (done + y)[..|done + x|];
    TakePrefix(done + x, done + y, 5);
  }

  /** The sources loop of one category: each source's first item is shown until five are. */
  method ShowSources(ghost done: seq<Headline>, sources: seq<(string, seq<StoredItem>)>,
                     shown0: seq<Headline>) returns (shown: seq<Headline>)
    requires shown0 == Take(done, 5)
    ensures shown == Take(done + SourceFirsts(sources), 5)
  {
    shown := shown0;
    var count := |shown|;
    var j := 0;
    assert sources[..0] == [] && done + [] == done;
    while j < |sources|
      invariant 0 <= j <= |sources|
      invariant count == |shown| <= 5
      invariant shown == Take(done + SourceFirsts(sources[..j]), 5)
    {
      if count >= 5 {
        break;
      }
      TopNewsStep(done, sources, j);
      // `for item in items[:1]`: at most one pass, whose closing break ends that loop only
      if sources[j].1 != [] {
        shown := shown + [HeadlineOf(sources[j].0, sources[j].1[0])];
        count := count + 1;
      }
      j := j + 1;
    }
    if j < |sources| {
      TopNewsStop(done, sources, j);
    } else {
      assert sources[..j] == sources;
    }
  }

  /** show_top_news: the loops over categories and sources, one item per source, stopping
      once five are shown. Returns the items shown. */
  method ShowTopNews(content: StoredContent) returns (shown: seq<Headline>)
    ensures shown == TopNews(content)
  {
    shown := [];
    if content == [] {
      return;
    }
    var i := 0;
    while i < |content|
      invariant 0 <= i <= |content|
      invariant shown == Take(Firsts(content[..i]), 5)
    {
      if |shown| >= 5 {
        break;
      }
      shown := ShowSources(Firsts(content[..i]), content[i].1, shown);
      FirstsStep(content, i);
      i := i + 1;
    }
    if i < |content| {
      FirstsPrefix(content, i);
      TakePrefix(Firsts(content[..i]), Firsts(content), 5);
    } else {
      assert content[..i] == content;
    }
  }

  /** The firsts of a prefix of the sources are a prefix of the firsts. */
  lemma {:induction false} SourceFirstsPrefix(sources: seq<(string, seq<StoredItem>)>, j: nat)
    requires j <= |sources|
    ensures SourceFirsts(sources[..j]) <= SourceFirsts(sources)
    decreases |sources| - j
  {
    if j < |sources| {
      SourceFirstsStep(sources, j);
      SourceFirstsPrefix(sources, j + 1);
    } else {
      assert sources[..j] == sources;
    }
  }

  /** The firsts of a prefix of the categories are a prefix of the firsts. */
  lemma {:induction false} FirstsPrefix(content: StoredContent, i: nat)
    requires i <= |content|
    ensures Firsts(content[..i]) <= Firsts(content)
    decreases |content| - i
  {
    if i < |content| {
      FirstsStep(content, i);
      FirstsPrefix(content, i + 1);
    } else {
      assert content[..i] == content;
    }
  }

  /** Each source gives at most one item, so there are at most as many as there are sources;
      every item shown is the first item of a source with items. */
  lemma {:induction false} FirstsPerSource(sources: seq<(string, seq<StoredItem>)>, h: Headline)
    ensures |SourceFirsts(sources)| <= |sources|
    ensures h in SourceFirsts(sources) ==>
      exists j :: 0 <= j < |sources| && sources[j].1 != [] && h == HeadlineOf(sources[j].0, sources[j].1[0])
  {
    if sources != [] {
      var n := |sources| - 1;
      FirstsPerSource(sources[..n], h);
      if h in SourceFirsts(sources[..n]) {
        var j :| 0 <= j < n && sources[..n][j].1 != [] &&
                 h == HeadlineOf(sources[..n][j].0, sources[..n][j].1[0]);
        assert sources[j] == sources[..n][j];
      }
    }
  }

  // weekly_review

  /** logs[-7:] if len(logs) >= 7 else logs */
  function Recent<T>(logs: seq<T>): (r: seq<T>)
    ensures |r| == if |logs| <= 7 then |logs| else 7
    ensures r == logs[|logs| - |r|..]
  {
    if |logs| >= 7 then logs[|logs| - 7..] else logs
  }

  /** An application's status, 'Unknown' when it has none. */
  function StatusOf(app: map<string, string>): string
  {
    if "status" in app then app["status"] else "Unknown"
  }

  function Bump(d: Dict<string, nat>, s: string): Dict<string, nat>
  {
    Put(d, s, GetOr(d, s, 0) + 1)
  }

  /** The statuses dict after counting the applications in order. */
  function StatusCounts(apps: seq<map<string, string>>): Dict<string, nat>
  {
    if apps == [] then []
    else
      Bump(StatusCounts(apps[..|apps| - 1]), StatusOf(apps[|apps| - 1]))
  }

  /** The number of applications with status s. */
  function CountStatus(apps: seq<map<string, string>>, s: string): nat
  {
    if apps == [] then 0
    else CountStatus(apps[..|apps| - 1], s) + (if StatusOf(apps[|apps| - 1]) == s then 1 else 0)
  }

  /** The sum of a dict's counts. */
  function SumCounts<K>(d: seq<(K, nat)>): nat
  {
    if d == [] then 0 else d[0].1 + SumCounts(d[1..])
  }

  lemma {:induction false} SumCountsAppend<K>(d: seq<(K, nat)>, e: (K, nat))
    ensures SumCounts(d + [e]) == SumCounts(d) + e.1
  {
    if d != [] {
      assert (d + [e])[1..] == d[1..] + [e];
      SumCountsAppend(d[1..], e);
    }
  }

  lemma {:induction false} SumCountsUpdate<K>(d: seq<(K, nat)>, i: nat, e: (K, nat))
    requires i < |d|
    ensures SumCounts(d[i := e]) == SumCounts(d) - d[i].1 + e.1
  {
    if i > 0 {
      assert d[i := e][1..] == d[1..][i - 1 := e];
      SumCountsUpdate(d[1..], i - 1, e);
    }
  }

  /** Adding one to a key's count adds one to the sum. */
  lemma Increment(d: Dict<string, nat>, s: string)
    ensures SumCounts(Bump(d, s)) == SumCounts(d) + 1
  {
    match IndexOf(d, s)
    case None =>
      SumCountsAppend(d, (s, 1));
    case Some(i) =>
      SumCountsUpdate(d, i, (s, d[i].1 + 1));
  }

  /** Adding one to a key's count reads one more under that key and the same elsewhere. */
  lemma BumpGet(d: Dict<string, nat>, s: string, t: string)
    ensures GetOr(Bump(d, s), t, 0) == GetOr(d, t, 0) + (if s == t then 1 else 0)
    ensures t in Keys(Bump(d, s)) <==> t in Keys(d) || s == t
  {
    var v := GetOr(d, s, 0) + 1;
    PutGet(d, s, v, t);
    assert Get(Bump(d, s), t) == if t == s then Some(v) else Get(d, t);
  }

  /** The counts sum to the number of applications. */
  lemma {:induction false} StatusCountsSum(apps: seq<map<string, string>>)
    ensures SumCounts(StatusCounts(apps)) == |apps|
  {
    if apps != [] {
      var n := |apps| - 1;
      StatusCountsSum(apps[..n]);
      StatusCountsStep(apps, n);
      Increment(StatusCounts(apps[..n]), StatusOf(apps[n]));
      assert apps[..n + 1] == apps;
    }
  }

  /** Each status is counted once per application holding it, and the keys are exactly the
      statuses that occur. */
  lemma {:induction false} StatusCountsCount(apps: seq<map<string, string>>, s: string)
    ensures GetOr(StatusCounts(apps), s, 0) == CountStatus(apps, s)
    ensures s in Keys(StatusCounts(apps)) <==> CountStatus(apps, s) > 0
  {
    if apps != [] {
      var n := |apps| - 1;
      StatusCountsCount(apps[..n], s);
      StatusCountsStep(apps, n);
      BumpGet(StatusCounts(apps[..n]), StatusOf(apps[n]), s);
      assert apps[..n + 1] == apps;
    }
  }

  lemma StatusCountsStep(apps: seq<map<string, string>>, k: nat)
    requires k < |apps|
    ensures StatusCounts(apps[..k + 1]) == Bump(StatusCounts(apps[..k]), StatusOf(apps[k]))
  {
    var p := apps[..k + 1];
    assert p[..|p| - 1] == apps[..k] && p[|p| - 1] == apps[k];
  }

  /** The statuses loop: statuses[status] = statuses.get(status, 0) + 1 per application. */
  method CountStatuses(apps: seq<map<string, string>>) returns (statuses: Dict<string, nat>)
    ensures statuses == StatusCounts(apps)
  {
    statuses := [];
    var k := 0;
    while k < |apps|
      invariant 0 <= k <= |apps|
      invariant statuses == StatusCounts(apps[..k])
    {
      StatusCountsStep(apps, k);
      var status := StatusOf(apps[k]);
      statuses := Bump(statuses, status);
      k := k + 1;
    }
    assert apps[..k] == apps;
  }

  datatype Review = NoLogs | Review(daysActive: nat, applications: nat, statuses: Dict<string, nat>)

  /** weekly_review: nothing when the log cannot be read; otherwise the days active over the
      last seven entries, the number of applications and, when there are any, their status
      counts. */
  method WeeklyReview<T>(logs: Option<seq<T>>, apps: seq<map<string, string>>) returns (r: Review)
    ensures logs.None? ==> r == NoLogs
    ensures logs.Some? ==> r == Review(|Recent(logs.value)|, |apps|, StatusCounts(apps))
  {
    if logs.None? {
      return NoLogs;
    }
    var recent := Recent(logs.value);
    var statuses: Dict<string, nat> := [];
    if |apps| > 0 {
      statuses := CountStatuses(apps);
    }
    r := Review(|recent|, |apps|, statuses);
  }

  // log_activity

  datatype LogEntry = LogEntry(date: string, day: string, status: string, timestamp: string)

  /** log_activity: the existing log (none when it cannot be read) with the day's entry, whose
      date, day name and timestamp come from the clock, appended. */
  method LogActivity(existing: Option<seq<LogEntry>>, date: string, day: string, timestamp: string)
    returns (logs: seq<LogEntry>)
    ensures logs == (if existing.Some? then existing.value else []) +
                    [LogEntry(date, day, "prep_completed", timestamp)]
  {
    var entry := LogEntry(date, day, "prep_completed", timestamp);
    if existing.Some? {
      logs := existing.value;
    } else {
      logs := [];
    }
    logs := logs + [entry];
  }

  /** After logging, the weekly review counts min(n + 1, 7) days, the newest being the entry
      just logged, and the earlier entries are still there in order. */
  lemma ReviewAfterLog(earlier: seq<LogEntry>, entry: LogEntry)
    ensures |Recent(earlier + [entry])| == if |earlier| + 1 <= 7 then |earlier| + 1 else 7
    ensures Recent(earlier + [entry])[|Recent(earlier + [entry])| - 1] == entry
    ensures (earlier + [entry])[..|earlier|] == earlier
  {
    var r := Recent(earlier + [entry]);
    assert r[|r| - 1] == (earlier + [entry])[|earlier|];
  }
}
