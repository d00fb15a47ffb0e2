/** LinkedInPostGenerator of linkedin_post_generator.py: bullet formatting of the key points,
    the three post variants and the round-robin posting schedule. */
module PostGenerator {
  import opened Text
  import opened Dicts

  // _format_points

  /** One formatted line: "{i}. point" when numbered, "→ point" otherwise. */
  function PointLine(i: nat, point: string, numbered: bool): string
  {
    if numbered then NatToString(i) + ". " + point else "\U{2192} " + point
  }

  /** The formatted lines, numbered from 1 in input order. */
  function PointLines(points: seq<string>, numbered: bool): seq<string>
  {
    if points == [] then []
    else PointLines(points[..|points| - 1], numbered) + [PointLine(|points|, points[|points| - 1], numbered)]
  }

  /** "\n".join(formatted) */
  function FormatPoints(points: seq<string>, numbered: bool): string
  {
    JoinWith(PointLines(points, numbered), "\n")
  }

  /** Line i (from 0) is the formatted point i, numbered i + 1. */
  lemma {:induction false} PointLinesAt(points: seq<string>, numbered: bool, k: nat)
    requires k < |points|
    ensures |PointLines(points, numbered)| == |points|
    ensures PointLines(points, numbered)[k] == PointLine(k + 1, points[k], numbered)
    decreases |points|
  {
    var init := points[..|points| - 1];
    if k < |points| - 1 {
      PointLinesAt(init, numbered, k);
    } else if init != [] {
      PointLinesAt(init, numbered, 0);
    }
  }

  lemma PointLinesStep(points: seq<string>, numbered: bool, i: nat)
    requires i < |points|
    ensures PointLines(points[..i + 1], numbered) ==
      PointLines(points[..i], numbered) + [PointLine(i + 1, points[i], numbered)]
  {
    assert points[..i + 1][..i] == points[..i];
  }

  /** _format_points: the enumerate loop appending one line per point, then the join. */
  method FormatPointsLoop(points: seq<string>, numbered: bool) returns (text: string)
    ensures text == FormatPoints(points, numbered)
  {
    var formatted: seq<string> := [];
    var i := 0;
    while i < |points|
      invariant 0 <= i <= |points|
      invariant formatted == PointLines(points[..i], numbered)
    {
      PointLinesStep(points, numbered, i);
      var line := if numbered then NatToString(i + 1) + ". " + points[i] else "\U{2192} " + points[i];
      formatted := formatted + [line];
      i := i + 1;
    }
    assert points[..i] == points;
    text := JoinWith(formatted, "\n");
  }

  /** n points without newlines give exactly n lines, line i being the formatted point i:
      splitting at '\n' gives back the lines, so there is no trailing newline. No point
      gives "". */
  lemma FormatPointsSplits(points: seq<string>, numbered: bool)
    requires forall k :: 0 <= k < |points| ==> '\n' !in points[k]
    ensures points == [] ==> FormatPoints(points, numbered) == []
    ensures points != [] ==> SplitOn(FormatPoints(points, numbered), '\n') == PointLines(points, numbered)
  {
    if points != [] {
      var ls := PointLines(points, numbered);
      PointLinesAt(points, numbered, 0);
      forall k | 0 <= k < |ls| ensures '\n' !in ls[k] {
        PointLinesAt(points, numbered, k);
        assert '\n' !in NatToString(k + 1);
      }
      SplitJoin(ls, '\n');
    }
  }

  // The three post builders

  /** "while working through my X" for a non-empty context, the fixed phrase otherwise. */
  function ContextLine(learningContext: string): (r: string)
    ensures learningContext != [] ==> r == "while working through my " + learningContext
    ensures learningContext == [] ==> r == "in my AI/ML journey"
  {
    if learningContext != [] then ("while working " + "through my ") + learningContext
    else ("in my AI/ML " + "journey")
  }

  /** _generate_story_post: the topic, the context line, the points as arrow lines. */
  function StoryPost(topic: string, keyPoints: seq<string>, learningContext: string): (r: string)
    ensures Contains(r, topic) && Contains(r, ContextLine(learningContext))
    ensures Contains(r, FormatPoints(keyPoints, false))
  {
    var t1 := ("Just had a " + "breakthrough " + "moment with ");
    var t2 := " ";
    var t3 := ("! \U{1F680}\n" + "\n" + "Here\'s what " + "clicked for me:\n"
       + "\n");
    var t4 := ("\n" + "\n" + "The real \'aha!\' " + "moment was "
       + "understanding " + "how all these " + "pieces connect. " + "It\'s amazing "
       + "how ");
    var t5 := (" bridges theory " + "and practical " + "implementation.\n" + "\n"
       + "What\'s been " + "your biggest " + "learning moment " + "recently in "
       + "AI/ML?\n" + "\n" + "#MachineLearning" + " #AI "
       + "#DataScience " + "#Learning " + "#TechCareer");
    var context := ContextLine(learningContext);
    var points := FormatPoints(keyPoints, false);
    var lowered := Lower(topic);
    var parts := [t1, topic, t2, context, t3, points, t4, lowered, t5];
    assert parts[1] == topic && parts[3] == context && parts[5] == points;
    JoinWithContains(parts, "", 1);
    JoinWithContains(parts, "", 3);
    JoinWithContains(parts, "", 5);
    JoinWith(parts, "")
  }

  /** _generate_tips_post: the topic and the points as numbered lines. */
  function TipsPost(topic: string, keyPoints: seq<string>): (r: string)
    ensures Contains(r, topic) && Contains(r, FormatPoints(keyPoints, true))
  {
    var t1 := ("\U{1F4DA} Key insights " + "from studying ");
    var t2 := (":\n" + "\n");
    var t3 := ("\n" + "\n" + "These " + "fundamentals "
       + "are crucial for " + "anyone diving " + "into AI/ML. " + "Save this for "
       + "later " + "reference!\n" + "\n" + "What would you "
       + "add to this " + "list?\n" + "\n" + "#ArtificialIntel"
       + "ligence " + "#MachineLearning" + " #DataScience " + "#TechTips "
       + "#AIMLCommunity");
    var parts := [t1, topic, t2, FormatPoints(keyPoints, true), t3];
    assert parts[1] == topic && parts[3] == FormatPoints(keyPoints, true);
    JoinWithContains(parts, "", 1);
    JoinWithContains(parts, "", 3);
    JoinWith(parts, "")
  }

  const DefaultAnalogy: string :=
    ("complex " + "concepts become " + "simple with the " + "right mental "
       + "model")

  /** key_points[0] if key_points else the default sentence */
  function BreakdownAnalogy(keyPoints: seq<string>): string
  {
    if keyPoints != [] then keyPoints[0] else DefaultAnalogy
  }

  /** key_points[1:] if len(key_points) > 1 else key_points */
  function BreakdownComponents(keyPoints: seq<string>): (r: seq<string>)
  {
    if |keyPoints| > 1 then keyPoints[1..] else keyPoints
  }

  /** _generate_breakdown_post: the topic, the analogy and the component lines. */
  function BreakdownPost(topic: string, keyPoints: seq<string>): (r: string)
    ensures Contains(r, topic) && Contains(r, BreakdownAnalogy(keyPoints))
    ensures Contains(r, FormatPoints(BreakdownComponents(keyPoints), false))
  {
    var t1 := "\U{1F9E0} Breaking down ";
    var t2 := (" - simplified:\n" + "\n" + "Think of it " + "this way: ");
    var t3 := ("\n" + "\n" + "Key components:\n");
    var t4 := ("\n" + "\n" + "The beauty of ");
    var t5 := (" is how it " + "transforms raw " + "data into " + "actionable "
       + "insights. " + "That\'s the " + "power of modern " + "AI/ML.\n"
       + "\n" + "Questions? Drop " + "them in the " + "comments - "
       + "happy to " + "discuss!\n" + "\n" + "#MachineLearning"
       + " #AI " + "#TechExplained " + "#DataScience " + "#LearningInPubli"
       + "c");
    var parts := [t1, topic, t2, BreakdownAnalogy(keyPoints), t3,
                  FormatPoints(BreakdownComponents(keyPoints), false), t4, topic, t5];
    assert parts[1] == topic && parts[3] == BreakdownAnalogy(keyPoints) && parts[5] == FormatPoints(BreakdownComponents(keyPoints), false);
    JoinWithContains(parts, "", 1);
    JoinWithContains(parts, "", 3);
    JoinWithContains(parts, "", 5);
    JoinWith(parts, "")
  }

  /** The breakdown post with one point shows it twice: as the analogy and as the only
      component line. With no point it shows the default sentence and no component line;
      with several, the first is the analogy and the rest are the components. */
  lemma BreakdownParts(keyPoints: seq<string>)
    ensures |keyPoints| == 1 ==> (BreakdownAnalogy(keyPoints) == keyPoints[0] &&
      FormatPoints(BreakdownComponents(keyPoints), false) == "\U{2192} " + keyPoints[0])
    ensures keyPoints == [] ==> (BreakdownAnalogy(keyPoints) == DefaultAnalogy &&
      FormatPoints(BreakdownComponents(keyPoints), false) == [])
    ensures |keyPoints| > 1 ==> (BreakdownAnalogy(keyPoints) == keyPoints[0] &&
      BreakdownComponents(keyPoints) == keyPoints[1..])
  {
    if |keyPoints| == 1 {
      assert keyPoints[..0] == [];
      assert PointLines(keyPoints, false) == [PointLine(1, keyPoints[0], false)];
    }
  }

  // generate_post_variations

  /** The dict generate_post_variations returns: keys "story", "tips", "breakdown" in that
      order, holding the three posts. */
  predicate IsVariations(d: Dict<string, string>, story: string, tips: string, breakdown: string)
  {
    Keys(d) == ["story", "tips", "breakdown"] && Get(d, "story") == Some(story) &&
    Get(d, "tips") == Some(tips) && Get(d, "breakdown") == Some(breakdown)
  }

  /** generate_post_variations: the three posts built, then the dict filled key by key. */
  method GeneratePostVariations(topic: string, keyPoints: seq<string>, learningContext: string)
    returns (posts: Dict<string, string>)
    ensures IsVariations(posts, StoryPost(topic, keyPoints, learningContext),
                         TipsPost(topic, keyPoints), BreakdownPost(topic, keyPoints))
  {
    posts := FillVariations(StoryPost(topic, keyPoints, learningContext),
                            TipsPost(topic, keyPoints), BreakdownPost(topic, keyPoints));
  }

  /** posts = {}; posts['story'] = ...; posts['tips'] = ...; posts['breakdown'] = ... */
  method FillVariations(story: string, tips: string, breakdown: string)
    returns (posts: Dict<string, string>)
    ensures IsVariations(posts, story, tips, breakdown)
  {
    posts := [];
    posts := Put(posts, "story", story);
    posts := Put(posts, "tips", tips);
    posts := Put(posts, "breakdown", breakdown);
    VariationsDict(story, tips, breakdown);
  }

  /** The three insertions into an empty dict, over arbitrary post texts. */
  lemma VariationsDict(story: string, tips: string, breakdown: string)
    ensures IsVariations(Put(Put(Put([], "story", story), "tips", tips), "breakdown", breakdown),
                         story, tips, breakdown)
  {
    assert "story"[0] != "tips"[0] && "story"[0] != "breakdown"[0] && "tips"[0] != "breakdown"[0];
    ThreePuts("story", "tips", "breakdown", story, tips, breakdown);
  }

  /** Three distinct keys put into an empty dict keep their order and their values. */
  lemma ThreePuts<V>(k1: string, k2: string, k3: string, v1: V, v2: V, v3: V)
    requires k1 != k2 && k1 != k3 && k2 != k3
    ensures var d := Put(Put(Put([], k1, v1), k2, v2), k3, v3);
      Keys(d) == [k1, k2, k3] && Get(d, k1) == Some(v1) && Get(d, k2) == Some(v2) &&
      Get(d, k3) == Some(v3)
  {
    var p1 := Put([], k1, v1);
    var p2 := Put(p1, k2, v2);
    var p3 := Put(p2, k3, v3);
    PutFresh([], k1, v1);
    assert p1 == [(k1, v1)];
    PutFresh(p1, k2, v2);
    assert p2 == [(k1, v1), (k2, v2)];
    PutFresh(p2, k3, v3);
    assert p3 == [(k1, v1), (k2, v2), (k3, v3)];
    ThreeEntries(p3, k1, k2, k3, v1, v2, v3);
  }

  /** Putting a new key appends its entry. */
  lemma PutFresh<V>(d: Dict<string, V>, k: string, v: V)
    requires k !in Keys(d)
    ensures Put(d, k, v) == d + [(k, v)]
  {
  }

  lemma ThreeEntries<V>(d: Dict<string, V>, k1: string, k2: string, k3: string, v1: V, v2: V, v3: V)
    requires k1 != k2 && k1 != k3 && k2 != k3
    requires d == [(k1, v1), (k2, v2), (k3, v3)]
    ensures Keys(d) == [k1, k2, k3] && Get(d, k1) == Some(v1) && Get(d, k2) == Some(v2) &&
      Get(d, k3) == Some(v3)
  {
    GetAt(d, 0);
    GetAt(d, 1);
    GetAt(d, 2);
  }

  // create_posting_schedule

  /** The day cycle of the schedule. */
  const Days: seq<string> := ["Monday", "Wednesday", "Friday", "Tuesday", "Thursday"]

  const SuggestedTime: string := "9:00 AM or 5:00 " + "PM IST"

  datatype ScheduleEntry = ScheduleEntry(topic: string, suggestedDay: string,
                                         suggestedTime: string, status: string)

  /** The entry for topic number i (from 0). */
  function Entry(i: nat, topic: string): ScheduleEntry
  {
    ScheduleEntry(topic, Days[i % |Days|], SuggestedTime, "pending")
  }

  /** One entry per topic, in order. */
  function Entries(topics: seq<string>): seq<ScheduleEntry>
  {
    if topics == [] then []
    else Entries(topics[..|topics| - 1]) + [Entry(|topics| - 1, topics[|topics| - 1])]
  }

  lemma {:induction false} EntriesAt(topics: seq<string>, k: nat)
    requires k < |topics|
    ensures |Entries(topics)| == |topics|
    ensures Entries(topics)[k] == Entry(k, topics[k])
    decreases |topics|
  {
    var init := topics[..|topics| - 1];
    if k < |topics| - 1 {
      EntriesAt(init, k);
    } else if init != [] {
      EntriesAt(init, 0);
    }
  }

  /** create_posting_schedule: the enumerate loop, then schedule[:posts_per_week]. */
  method CreatePostingSchedule(topics: seq<string>, postsPerWeek: int)
    returns (schedule: seq<ScheduleEntry>)
    ensures schedule == SliceTo(Entries(topics), postsPerWeek)
  {
    schedule := [];
    var i := 0;
    while i < |topics|
      invariant 0 <= i <= |topics|
      invariant schedule == Entries(topics[..i])
    {
      assert topics[..i + 1][..i] == topics[..i];
      var dayIndex := i % |Days|;
      schedule := schedule + [ScheduleEntry(topics[i], Days[dayIndex], SuggestedTime, "pending")];
      i := i + 1;
    }
    assert topics[..i] == topics;
    schedule := SliceTo(schedule, postsPerWeek);
  }

  /** For a non-negative posts_per_week the schedule has min(len(topics), posts_per_week)
      entries; entry i has topic i, the day at i mod 5 of the cycle and status "pending".
      A negative posts_per_week drops that many entries from the end. */
  lemma ScheduleShape(topics: seq<string>, postsPerWeek: int)
    ensures postsPerWeek >= 0 ==> (|SliceTo(Entries(topics), postsPerWeek)| ==
      if postsPerWeek <= |topics| then postsPerWeek else |topics|)
    ensures postsPerWeek < 0 ==> (|SliceTo(Entries(topics), postsPerWeek)| ==
      if |topics| + postsPerWeek >= 0 then |topics| + postsPerWeek else 0)
    ensures forall k :: 0 <= k < |SliceTo(Entries(topics), postsPerWeek)| ==>
      SliceTo(Entries(topics), postsPerWeek)[k] == Entry(k, topics[k]) &&
      SliceTo(Entries(topics), postsPerWeek)[k].suggestedDay == Days[k % 5] &&
      SliceTo(Entries(topics), postsPerWeek)[k].status == "pending"
  {
    var all := Entries(topics);
    if topics != [] {
      EntriesAt(topics, 0);
    }
    var s := SliceTo(all, postsPerWeek);
    forall k | 0 <= k < |s| ensures s[k] == Entry(k, topics[k]) {
      EntriesAt(topics, k);
      assert s[k] == all[k];
    }
  }
}
