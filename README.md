# AI content creator: a verified model of its deterministic rules

The repository is a set of Python scripts that help a job seeker in AI/ML. The scripts read
RSS and Atom feeds, fill cold-email templates, score and generate LinkedIn posts, plan a
posting calendar and run a daily checklist. Most of the code is fixed template text and
console output. This project models the small, deterministic rules inside it and proves what
they promise.

Modules, one per source file, built on three shared ones:

- `Text` (text.dfy): Python string operations on ASCII text.
  - `lower`, `title`, one-character `replace`, `in`, `count`, slicing, `join`, `split(c)`.
  - `split()` and `' '.join(s.split())`, with the proofs that tie the character-level
    definition to the word-level one.
- `Dicts` (dicts.dfy): a Python dict as a sequence of (key, value) pairs with distinct keys,
  in insertion order. Covers `get`, `get(k, default)` and `d[k] = v`.
- `Templates` (templates.dfy): a `str.format` template as literal runs and named fields.
- `HtmlText` (html_text.dfy): `clean_html` of rss_reader.py. It decodes references, strips
  tags, collapses whitespace and cuts the result to 300 characters.
- `RssReader` (rss_reader.dfy): `fetch_feed` over an already-parsed element tree, and
  `aggregate_all_feeds`.
  - The network and the parser are one outcome value per URL.
  - `find` is modelled for both ElementTree implementations, chosen by a `Runtime` value.
    CPython's default C accelerator compares a name without path characters directly with
    the child tags. There `'content:encoded'` is a tag no parsed child carries: an item whose
    description and summary lack text falls through to the namespaced content field and
    then to the placeholder. The pure-Python `ElementPath` reads the ':' as a namespace
    prefix and raises, and that error turns the whole fetch into `[]`. The accelerated
    reading is what the source gets when run under CPython.
- `EmailFill` and `EmailCatalog`: `ColdEmailGenerator.generate_personalized_email` of
  job_hunting_system.py.
  - The six templates are copied as written.
  - When every placeholder has a value, the template is filled by `str.format`.
  - Otherwise the `KeyError` fallback runs. It leaves present placeholders untouched and
    replaces each missing one by its bracketed title-case name.
  - The demo's sample profile is included too.
- `JobHunting`: `analyze_job_description` (substring keyword matching) and
  `calculate_follow_up_dates`, with dates as day numbers.
- `AiPostGenerator`: `analyze_post_quality`, `_generate_post_template` and `_create_prompt` of
  ai_linkedin_generator.py.
- `PostGenerator`: `_format_points`, the three post builders, `generate_post_variations` and
  `create_posting_schedule` of linkedin_post_generator.py.
- `ContentCreator`: the built-in sources and `get_all_sources_list`, the weekly calendar and
  `generate_daily_suggestions`, and the post builders of content_creator_system.py.
- `DailyRunner`: run_daily.py.
  - `load_json`'s default rule.
  - The capping loops of `fetch_rss_feeds`.
  - The branch of `check_content_calendar`.
  - The selection of `show_top_news`.
  - The window and status histogram of `weekly_review`.
  - The append of `log_activity`.

The Python classes only hold constant tables built in `__init__`, so they have no Dafny
class. Each loop of the source is a method with loop invariants. The method is proved equal
to a specification function, and the properties are proved about that function.

Where the code and the repository's description disagree, the model follows the code:

- A feed item's link and published values can be Python `None`, so they are `Option`s. The
  link is `None` for an Atom `<link>` without `href`; published is `None` for an empty
  `<pubDate/>` or `<updated/>`.
- `calculate_follow_up_dates` returns a dict, not a list.

## Model

| member | source | states |
|---|---|---|
| Text.Lower | run_daily.py:104 | `str.lower()`: same length, each character lower-cased on its own |
| Text.Title | job_hunting_system.py:302 | `str.title()`: a letter is upper-cased at the start of a word and lower-cased after a letter; the length is kept |
| Text.TitleKeepsNonLetters | job_hunting_system.py:302 | title-casing changes letters only, and only into letters |
| Text.RemoveChar | content_creator_system.py:309 | `replace(' ', '')` leaves no space and keeps every other character as often as it occurs |
| Text.RemoveCharAppend | content_creator_system.py:309 | removal works piece by piece, so the kept characters stay in order |
| Text.CountChar | ai_linkedin_generator.py:229 | `str.count('#')` is the number of occurrences of '#' |
| Text.Take | run_daily.py:61 | `s[:n]` is a prefix of length min(n, len(s)) |
| Text.SliceTo | linkedin_post_generator.py:143 | `s[:k]` for any integer k is a prefix; its length is min(k, len) for k >= 0 and counts from the end for k < 0 |
| Text.SplitOn | ai_linkedin_generator.py:123 | `s.split(c)` has at least one piece and no piece contains c |
| Text.SplitFirst | ai_linkedin_generator.py:123 | the first piece of `split('\n')` is the longest newline-free prefix |
| Text.JoinSplit | linkedin_post_generator.py:106 | joining the pieces of a split with the separator gives the string back |
| Text.SplitJoin | linkedin_post_generator.py:106 | splitting a join of separator-free pieces gives the pieces back |
| Text.JoinWithContains | linkedin_post_generator.py:106 | every part occurs in the joined text |
| Text.WordsAreWords | ai_linkedin_generator.py:227 | `split()` yields non-empty runs without whitespace |
| Text.SqueezeIsJoinedWords | rss_reader.py:26 | the one-pass whitespace collapse equals `' '.join(s.split())` |
| Text.SqueezeShape | rss_reader.py:26 | the collapsed text has no whitespace but single inner spaces |
| Text.SqueezeChars | rss_reader.py:26 | collapsing adds no character other than ' ' |
| Text.NatToString | linkedin_post_generator.py:103 | `str(i)` is a decimal digit string that reads back as i, with no leading zero |
| Dicts.Keys | run_daily.py:159 | `d.keys()`: one key per entry, in insertion order |
| Dicts.IndexOf | run_daily.py:89 | the position of a key, or none exactly when the key is absent |
| Dicts.Get | run_daily.py:89 | `d.get(k)` has a value exactly when k is a key |
| Dicts.GetAt | content_creator_system.py:433 | each entry is what `get` returns for its key |
| Dicts.Put | run_daily.py:291 | `d[k] = v` keeps the keys when k is present and appends k otherwise |
| Dicts.PutGet | run_daily.py:291 | after `d[k] = v`, k reads v and every other key reads as before |
| Templates.Names | job_hunting_system.py:300 | the placeholder names found are exactly the fields of the template |
| Templates.RenderContainsValue | job_hunting_system.py:295 | `format` puts each used parameter's value into the text |
| Templates.RenderIgnoresUnused | job_hunting_system.py:295 | a parameter no placeholder names does not change the text |
| Templates.RenderBraceFree | job_hunting_system.py:295 | a well-formed template filled with brace-free values leaves no brace |
| HtmlText.CleanHtml | rss_reader.py:13-28 | at most 300 characters; empty input gives "" |
| HtmlText.TagFreeHasNoTag | rss_reader.py:23 | a string in the stripped form has no match of `<[^>]+>` |
| HtmlText.StripTagsKeeps | rss_reader.py:23 | stripping only removes characters |
| HtmlText.StripTagsTagFree | rss_reader.py:23 | after stripping, whatever the input, no tag is left |
| HtmlText.SqueezeTagFree | rss_reader.py:26 | collapsing whitespace cannot create a tag |
| HtmlText.CleanHtmlShape | rss_reader.py:15-28 | the output has at most 300 characters and no tag; it has no whitespace but single inner spaces, except perhaps one trailing space from the cut; empty input gives "" |
| RssReader.TextOr | rss_reader.py:70 | `text or default`: the text when it is non-empty, the default for None or "" |
| RssReader.Find | rss_reader.py:49-50 | `find(tag)` returns the first direct child with that tag, or none exactly when no child has it |
| RssReader.WithTag | rss_reader.py:48 | `findall` keeps an element exactly when it has the tag |
| RssReader.WithTagAppend | rss_reader.py:48 | filtering works piece by piece, so the kept elements stay in document order |
| RssReader.FindPath | rss_reader.py:55 | a lookup raises exactly for a prefixed name under the pure-Python reading; otherwise it is `find`'s answer |
| RssReader.PickSummary | rss_reader.py:53-58 | the summary loop with its break equals the field search |
| RssReader.SummaryFieldNames | rss_reader.py:54 | of the summary field names only 'content:encoded' has a ':' outside Clark braces |
| RssReader.RssSummaryChoice | rss_reader.py:53-58 | CPython's accelerated find: the cleaned text of the first of description, summary, content:encoded and the namespaced content field with text, else ""; nothing raises |
| RssReader.RssSummaryChoicePure | rss_reader.py:53-58 | pure-Python ElementPath: description, then summary; with neither, the 'content:encoded' lookup raises |
| RssReader.AtomSummaryChoice | rss_reader.py:84-89 | the Atom summary is the cleaned text of summary, else of content, else ""; it never raises |
| RssReader.RssStepFields | rss_reader.py:49-74 | an RSS item raises exactly under the pure-Python lookup when neither description nor summary has text; it is emitted exactly when it has a title and a link, with the picked summary or the placeholder, the cleaned title, the link text or "", and pubDate or 'Unknown' |
| RssReader.BareItemRuntimes | rss_reader.py:49-74 | an item with only a title and a link gets the placeholder summary and 'Unknown' under the accelerated find, and raises under the pure-Python one |
| RssReader.DescriptionFallbackInert | rss_reader.py:60-64 | the description fallback after the loop never changes the summary the loop picked |
| RssReader.ReadRssItem | rss_reader.py:49-74 | one RSS loop body equals the item step |
| RssReader.RssPassBound | rss_reader.py:48-74 | the RSS pass keeps at most one item per element, each from some element |
| RssReader.RssPassRaises | rss_reader.py:54-58 | one raising item makes the whole RSS pass raise |
| RssReader.RssPassAccelerated | rss_reader.py:48-74 | under the accelerated find the RSS pass never raises |
| RssReader.ReadAtomEntry | rss_reader.py:80-100 | one Atom loop body equals the entry step |
| RssReader.AtomPass | rss_reader.py:79-100 | the Atom pass keeps at most one item per entry |
| RssReader.AtomStepFields | rss_reader.py:80-100 | an entry is emitted exactly when it has a title, with the cleaned title; link is the href (None without one) or "" without a link; summary is the picked summary or the placeholder; published is the updated text or 'Unknown' |
| RssReader.AtomOnlyWithoutRss | rss_reader.py:77-79 | Atom entries are read only when the RSS pass produced nothing: a non-empty RSS pass is the result as it is, an empty one gives way to the Atom pass |
| RssReader.RaisingItemEmptiesFeed | rss_reader.py:54-117 | one raising item among the first ten makes the whole fetch give [] |
| RssReader.FetchedItemsShape | rss_reader.py:34-117 | at most ten items; any failed request or parse gives []; an RSS pass that raised gives []; every summary is non-empty |
| RssReader.AtomPassSummaries | rss_reader.py:98 | every Atom summary is non-empty |
| RssReader.ReadRssItems | rss_reader.py:48-74 | the RSS loop raises exactly when the pass does, else it returns the pass's items |
| RssReader.ReadAtomEntries | rss_reader.py:79-100 | the Atom loop returns the Atom pass |
| RssReader.FetchFeed | rss_reader.py:30-117 | fetch_feed returns the specified items, at most ten |
| RssReader.WithSummaries | rss_reader.py:148 | the with-summary count is at most the item count |
| RssReader.WithSummariesAll | rss_reader.py:148 | the with-summary count equals the item count exactly when no item has the placeholder |
| RssReader.TotalsOrdered | rss_reader.py:148-151 | the with-summaries total never exceeds the item total |
| RssReader.StoreLookup | rss_reader.py:155-158 | storing one source's items changes only its own category and name |
| RssReader.AggregateLookup | rss_reader.py:138-158 | result[category][name] holds the items of the last source with that category and name |
| RssReader.AggregateCategories | rss_reader.py:155-156 | the result has a category exactly when some source has it |
| RssReader.Tally | rss_reader.py:146-151 | a fetched feed adds its item count and its with-summary count to the totals |
| RssReader.FetchAll | rss_reader.py:138-158 | the sources loop yields the specified map and the two totals |
| RssReader.AggregateAllFeeds | rss_reader.py:119-165 | a missing sources file gives {} and zero counts; otherwise the map and the two totals are the specified ones, with-summaries at most total |
| EmailFill.Bracket | job_hunting_system.py:302 | the replacement text is '[' + name + ']' with the name's length, brace-free when the name is |
| EmailFill.BracketChar | job_hunting_system.py:302 | between the brackets, each character is '_' read as ' ', then title-cased |
| EmailFill.Fallback | job_hunting_system.py:299-302 | after the fallback, each field without a value has become its bracket text, and every other segment is kept |
| EmailFill.ReplaceField | job_hunting_system.py:302 | `replace('{name}', text)` changes exactly the fields with that name |
| EmailFill.ReplaceMissing | job_hunting_system.py:298-302 | the replace loop over the found names yields the fallback template |
| EmailFill.FillPlaceholders | job_hunting_system.py:294-302 | the try/except yields `format` when all keys are present, the fallback otherwise |
| EmailFill.MergeProfileWins | job_hunting_system.py:291 | `{**job, **profile}`: a shared key takes the profile's value |
| EmailFill.AllPresentIgnoresUnused | job_hunting_system.py:295 | a parameter no placeholder uses does not decide which path runs |
| EmailFill.FallbackIgnoresUnused | job_hunting_system.py:300-302 | a parameter no placeholder uses does not change the fallback |
| EmailFill.FillIgnoresUnusedKey | job_hunting_system.py:291-302 | a parameter no placeholder uses does not change the email |
| EmailFill.FillFull | job_hunting_system.py:294-295 | with every placeholder present, each value occurs in the email; a well-formed template with brace-free values leaves no brace |
| EmailFill.FillFallback | job_hunting_system.py:296-302 | with some placeholder missing, present ones stay literally `{name}`, missing ones become their bracket text, and no missing field remains |
| EmailCatalog.GeneratePersonalizedEmail | job_hunting_system.py:272-304 | the email is the selected template filled with the merged parameters |
| EmailCatalog.UnknownKindTemplate | job_hunting_system.py:288 | a key outside the six selects the empty template |
| EmailCatalog.EmailUnknownKind | job_hunting_system.py:288-295 | an unknown template key gives "" |
| EmailCatalog.EmailProfileWins | job_hunting_system.py:291 | a job value under a key the profile also has never reaches the email |
| EmailCatalog.SampleProfileLacksBrief | job_hunting_system.py:773-796 | the sample profile has no brief_description |
| EmailCatalog.DemoPlaceholders | job_hunting_system.py:145-190 | the cold email uses your_name and brief_description; the connection request uses your_name |
| EmailCatalog.ConnectionRequestComplete | job_hunting_system.py:145-155 | every placeholder of the connection request has a value in the sample profile |
| EmailCatalog.ColdEmailFallback | job_hunting_system.py:177-179 | without brief_description the cold email takes the fallback: `{your_name}` stays literal and `[Brief Description]` appears |
| EmailCatalog.ConnectionRequestFilled | job_hunting_system.py:145-155 | a fully filled connection request carries the sender's name |
| EmailCatalog.DemoColdEmail | job_hunting_system.py:799-803 | the demo's cold email keeps `{your_name}` and shows `[Brief Description]` |
| EmailCatalog.DemoConnectionRequest | job_hunting_system.py:808-812 | the demo's connection request is fully filled and carries "Rahul Sharma" |
| JobHunting.Matching | job_hunting_system.py:341-343 | the kept skills are at most the keyword list |
| JobHunting.MatchingMembers | job_hunting_system.py:341-343 | a keyword is kept exactly when its lower-case form occurs in the text |
| JobHunting.MatchingSubsequence | job_hunting_system.py:341-343 | the kept keywords keep the list order |
| JobHunting.MatchingDistinct | job_hunting_system.py:318-343 | a keyword list without repeats yields no keyword twice |
| JobHunting.SkillKeywordsDistinct | job_hunting_system.py:318-323 | the skill list names each skill once |
| JobHunting.KeywordSignatures | job_hunting_system.py:318-323 | no two skills share both first letter and length |
| JobHunting.MatchKeywords | job_hunting_system.py:341-343 | the append loop yields exactly the matching keywords |
| JobHunting.AnalyzeJobDescription | job_hunting_system.py:306-345 | key_skills are the skills matched in the lower-cased text, each at most once; the other three lists are empty |
| JobHunting.SqlKeywords | job_hunting_system.py:322 | both SQL and NoSQL are skill keywords |
| JobHunting.NoSqlAlsoSql | job_hunting_system.py:318-343 | a description mentioning NoSQL yields both NoSQL and SQL |
| JobHunting.FollowUpDates | job_hunting_system.py:505-517 | three keys in order at +7, +14 and +21 days, seven days apart |
| AiPostGenerator.AnalyzePostQuality | ai_linkedin_generator.py:215-262 | the counting and appending steps yield the specified analysis |
| AiPostGenerator.ScoreRange | ai_linkedin_generator.py:250-260 | the score lies in [35, 95], so the clamp never changes it |
| AiPostGenerator.SuggestionConditions | ai_linkedin_generator.py:233-247 | each suggestion appears exactly when its condition holds |
| AiPostGenerator.SuggestionOrder | ai_linkedin_generator.py:231-247 | suggestions come in check order, at most one per check, at most four |
| AiPostGenerator.Topic | ai_linkedin_generator.py:123 | the topic has at most 50 characters and no newline; empty notes give 'AI/ML concepts' |
| AiPostGenerator.TopicIsFirstLine | ai_linkedin_generator.py:123 | the topic is a prefix of the notes ending at the first newline or the 50-character cut; notes starting with a newline give "" |
| AiPostGenerator.StoryTemplate | ai_linkedin_generator.py:126-139 | the story post names the topic |
| AiPostGenerator.TipsTemplate | ai_linkedin_generator.py:141-153 | the tips post names the topic |
| AiPostGenerator.AchievementTemplate | ai_linkedin_generator.py:155-165 | the achievement post names the topic |
| AiPostGenerator.OtherStylesGetStory | ai_linkedin_generator.py:168 | any style other than tips and achievement gets the story post |
| AiPostGenerator.BreakdownGetsStory | ai_linkedin_generator.py:187 | the breakdown style that create_from_notes requests gets the story post |
| AiPostGenerator.TemplateMentionsTopic | ai_linkedin_generator.py:123-168 | whatever the style, the post names the topic |
| AiPostGenerator.UnknownStyleGetsStory | ai_linkedin_generator.py:102 | an unlisted style gets the story instructions |
| AiPostGenerator.CreatePrompt | ai_linkedin_generator.py:95-114 | the prompt holds the profile text, the notes, the style name and the instructions for the style |
| AiPostGenerator.PromptText | ai_linkedin_generator.py:95-112 | the prompt's f-string holds its four parts |
| PostGenerator.PointLinesAt | linkedin_post_generator.py:100-105 | one line per point; line i is point i numbered i + 1, or with an arrow |
| PostGenerator.FormatPointsLoop | linkedin_post_generator.py:98-106 | the enumerate loop and join yield the formatted text |
| PostGenerator.FormatPointsSplits | linkedin_post_generator.py:106 | no points give ""; n newline-free points give exactly their n lines back on splitting |
| PostGenerator.ContextLine | linkedin_post_generator.py:49 | "while working through my X" when the learning context X is non-empty, "in my AI/ML journey" otherwise |
| PostGenerator.StoryPost | linkedin_post_generator.py:45-63 | the story post holds the topic, the context line and the arrow lines |
| PostGenerator.TipsPost | linkedin_post_generator.py:65-78 | the tips post holds the topic and the numbered lines |
| PostGenerator.BreakdownPost | linkedin_post_generator.py:80-96 | the breakdown post holds the topic, the analogy and the component lines |
| PostGenerator.BreakdownParts | linkedin_post_generator.py:85-88 | analogy is the first point or the default; components are points[1:] for more than one point, else all of them |
| PostGenerator.GeneratePostVariations | linkedin_post_generator.py:21-43 | the dict has keys story, tips, breakdown in order, holding the three posts |
| PostGenerator.FillVariations | linkedin_post_generator.py:32-43 | three assignments into {} give that dict |
| PostGenerator.VariationsDict | linkedin_post_generator.py:32-43 | the three puts give keys story, tips, breakdown with their values |
| PostGenerator.EntriesAt | linkedin_post_generator.py:134-141 | one entry per topic; entry i has topic i, day days[i mod 5], status pending |
| PostGenerator.CreatePostingSchedule | linkedin_post_generator.py:129-143 | the loop and the final slice yield the first posts_per_week entries |
| PostGenerator.ScheduleShape | linkedin_post_generator.py:132-143 | length min(len, n) for n >= 0 and from-the-end for n < 0; each entry on the day cycle, pending |
| ContentCreator.Records | content_creator_system.py:86-92 | one record per source of a category |
| ContentCreator.GetAllSourcesList | content_creator_system.py:80-93 | the nested append loops yield the flattened records |
| ContentCreator.FlattenCount | content_creator_system.py:84-93 | there are as many records as sources |
| ContentCreator.RecordsAt | content_creator_system.py:87-92 | record k of a category is its source k, typed 'rss' |
| ContentCreator.FlattenMembers | content_creator_system.py:85-92 | a record occurs exactly when it is some category's source, typed 'rss' |
| ContentCreator.BuiltInCount | content_creator_system.py:27-78 | the built-in sources give 27 records |
| ContentCreator.CreateWeeklyMix | content_creator_system.py:369-424 | the calendar has the seven days in order, whatever the arguments |
| ContentCreator.UnknownDayIsNews | content_creator_system.py:432-434 | a day outside the calendar, wrong case included, is a news day |
| ContentCreator.SuggestionsFor | content_creator_system.py:436-453 | three suggestions exactly for the three listed types, none otherwise |
| ContentCreator.GenerateDailySuggestions | content_creator_system.py:426-453 | the suggestions of the day's type; the aggregated content is not read |
| ContentCreator.AppendSuggestions | content_creator_system.py:436-453 | the append branches yield the type's suggestions |
| ContentCreator.ExcitedNews | content_creator_system.py:264-279 | the excited post holds title, summary, source and link |
| ContentCreator.AnalyticalNews | content_creator_system.py:281-294 | the analytical post holds the title, the first 100 summary characters and the link |
| ContentCreator.InformativeNews | content_creator_system.py:296-309 | the informative post holds title, summary and source, and ends with '#' and the source without spaces |
| ContentCreator.NewsPost | content_creator_system.py:251-311 | each style's post holds its parts; any other style is informative |
| ContentCreator.UnknownStyleIsInformative | content_creator_system.py:296 | an unknown style gives the informative post |
| ContentCreator.AnalyticalReadsPrefix | content_creator_system.py:285 | the analytical post depends only on the first 100 summary characters |
| ContentCreator.FeatureLines | content_creator_system.py:317 | at most four lines, line k being the mark and feature k |
| ContentCreator.FeaturesTextLines | content_creator_system.py:317 | newline-free features give exactly those lines back on splitting |
| ContentCreator.AppLaunchPost | content_creator_system.py:313-336 | the post holds name, description, feature lines and link |
| ContentCreator.LearningNewsMix | content_creator_system.py:338-358 | the post holds the learning and the news content |
| ContentCreator.SuggestPostFromSearch | content_creator_system.py:499-519 | the post holds the topic and every insight line |
| DailyRunner.LoadJson | run_daily.py:18-24 | the parsed file when it reads; else the default when truthy, else {} |
| DailyRunner.ItemOf | run_daily.py:57-61 | a summary of at most 150 characters; title 'No title' when missing |
| DailyRunner.FeedItems | run_daily.py:55-62 | the first three entries, one item each |
| DailyRunner.FeedResult | run_daily.py:47-70 | at most three items; a failing feed gives [] |
| DailyRunner.CategoryContent | run_daily.py:45-70 | the first two feeds, each under its name with its result |
| DailyRunner.Aggregate | run_daily.py:43-70 | every category in order with its stored feeds |
| DailyRunner.ReadItems | run_daily.py:55-62 | the items loop yields the feed's items |
| DailyRunner.ReadFeed | run_daily.py:47-70 | the try/except of one feed yields its result |
| DailyRunner.ReadCategory | run_daily.py:45-70 | the feeds loop yields the category's content and its item count |
| DailyRunner.FetchRssFeeds | run_daily.py:34-80 | with feedparser, the aggregated content and count = items stored; without it, the cached content |
| DailyRunner.StoredCountBound | run_daily.py:55-66 | a category of feeds with at most three items counts at most three per feed |
| DailyRunner.ItemCountBound | run_daily.py:43-66 | at most six items per category |
| DailyRunner.AggregateBounds | run_daily.py:43-66 | same categories, ≤2 feeds each, ≤3 items per feed, summaries ≤150, ≤6 items per category |
| DailyRunner.ContentBranch | run_daily.py:104-143 | each branch exactly when its word is the first of learning, news, tool, rest found in the lower-cased type |
| DailyRunner.CheckContentCalendar | run_daily.py:83-145 | a missing day gives the empty plan and type 'flexible'; the branch is that of the type |
| DailyRunner.BranchIgnoresCase | run_daily.py:104-134 | the branch does not depend on letter case |
| DailyRunner.MissingDayIsFlexible | run_daily.py:89-143 | a day missing from the calendar reaches the flexible branch |
| DailyRunner.FlexibleBranch | run_daily.py:93-143 | the type 'flexible' matches none of the four words |
| DailyRunner.HeadlineOf | run_daily.py:166-168 | the shown link has at most 60 characters |
| DailyRunner.TopNews | run_daily.py:158-171 | at most five items are shown |
| DailyRunner.ShowSources | run_daily.py:162-171 | the sources loop adds each source's first item until five are shown |
| DailyRunner.ShowTopNews | run_daily.py:148-171 | the nested loops with breaks show the first five first-items in category then source order |
| DailyRunner.FirstsPerSource | run_daily.py:162-165 | at most one item per source; every shown item is the first item of a source that has items |
| DailyRunner.FirstsPrefix | run_daily.py:159-161 | stopping after some categories shows a prefix of the full order |
| DailyRunner.Recent | run_daily.py:275 | the window is the last min(len, 7) entries |
| DailyRunner.StatusCountsSum | run_daily.py:287-291 | the status counts sum to the number of applications |
| DailyRunner.StatusCountsCount | run_daily.py:287-291 | each status's count is the number of applications with it ('Unknown' when missing); the keys are exactly the statuses that occur |
| DailyRunner.CountStatuses | run_daily.py:288-291 | the increment loop yields the status counts |
| DailyRunner.WeeklyReview | run_daily.py:266-308 | unreadable logs give no review; otherwise days active over the window, the application count and the status counts |
| DailyRunner.LogActivity | run_daily.py:240-263 | the existing log, or [] when unreadable, with exactly one entry appended |
| DailyRunner.ReviewAfterLog | run_daily.py:252-275 | after logging, the review counts min(n + 1, 7) days, the newest being the new entry, and the earlier entries are kept in order |

## Left out

- I/O: file reads and writes, `json.load`/`json.dump`, `os.makedirs` and console output are not modelled. A file read is an `Option` or a typed parameter; printed text is a result value or a branch.
- The network and XML parsing: `requests.get`, `raise_for_status` and `ET.fromstring` are one outcome per URL. `feedparser.parse` is a function from URL to entries or failure. Timeouts and HTTP codes only matter by giving `[]`.
- The clock: `datetime.now()`, `strftime` and `isoformat` values are parameters. Dates in `calculate_follow_up_dates` are day numbers, not calendar dates.
- RssReader.FindPath: only the one-step names of fetch_feed are modelled. A path with path characters, which both runtimes hand to `ElementPath`, is not.
- HtmlText.CleanHtml: `html.unescape` decodes only `&amp; &lt; &gt; &quot; &apos;` with the semicolon. The rest of the HTML5 entity table and numeric references are not modelled.
- Text: `lower`, `title` and `split()` are ASCII-only. Non-ASCII letters are left unchanged, and only ASCII whitespace splits words.
- EmailFill.ReplaceField: `str.replace('{name}', ...)` is applied to the template's placeholder segments, not to raw text. The two agree when the literal text holds no braces. The catalog literals (job_hunting_system.py:140-272) hold none, but this is not proved: the verifier cannot check the characters of the catalog text within its resource limit. So no lemma states that the catalog templates are well formed, and `FillFull`'s brace-free clause is not applied to them.
- JSON values: a generic `Json` type is used only for `load_json`. The run_daily files are typed parameters (feed entries, stored items, calendar plans, application records, log entries). Content of the wrong JSON shape, which makes the Python raise, is not modelled.
- `show_job_hunting_tasks`, `show_posting_checklist`, `print_header` and `main` of run_daily.py only print fixed text. `save_posts`, `create_from_notes`, `create_rss_reader_script`, `create_search_log_template`, the recruiter and profile builders and the two `create_complete_*` scaffolds write or print fixed text. None of them is modelled.
- `generate_ai_post` calls `_create_prompt` and discards the result, then returns `_generate_post_template`. The model keeps the two parts and not the wrapper.
- The `hours_back` parameters are never used by the source and are not modelled.
- Template texts of the posts are copied as written, including the mis-encoded emoji and arrows of content_creator_system.py. The posts' contracts state which inputs each one holds, not the full literal text.
- AiPostGenerator.CreatePrompt: `json.dumps(self.user_profile, indent=2)` is a string parameter, not derived from the profile.
