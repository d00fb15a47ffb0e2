/** AILinkedInPostGenerator of ai_linkedin_generator.py: the quality analysis of a post, the
    topic taken from the study notes, the template post for a style and the prompt text. */
module AiPostGenerator {
  import opened Text

  // analyze_post_quality

  /** The emojis the engagement score rewards: direct hit, light bulb, rocket, sparkles. */
  const ScoredEmojis: seq<char> := ['\U{1F3AF}', '\U{1F4A1}', '\U{1F680}', '\U{2728}']

  /** The six suggestions the analysis can make. */
  datatype Suggestion = AddContext | SplitLongPost | AddQuestion | AddHashtags | FewerHashtags | GreatHook

  /** The text of each suggestion. */
  function SuggestionText(s: Suggestion): string
  {
    match s
    case AddContext =>
      ("Consider adding " + "more context - " + "posts 150-200 " + "words perform "
       + "best")
    case SplitLongPost =>
      ("Might be too " + "long - consider " + "breaking into " + "two posts")
    case AddQuestion =>
      ("Add a question " + "at the end to " + "boost engagement")
    case AddHashtags =>
      ("Add 3-5 " + "relevant " + "hashtags for " + "better "
       + "discoverability")
    case FewerHashtags =>
      ("Too many " + "hashtags can " + "look spammy - " + "stick to 3-5")
    case GreatHook =>
      ("Great hook! " + "Exclamation in " + "first line " + "grabs attention")
  }

  /** The dict analyze_post_quality returns. */
  datatype Quality = Quality(wordCount: nat, hasQuestion: bool, hashtagCount: nat,
                             engagementScore: int, suggestions: seq<Suggestion>)

  /** Which check a suggestion comes from, in the order the checks run: length, question,
      hashtags, hook. */
  function Rank(s: Suggestion): nat
  {
    match s
    case AddContext => 0
    case SplitLongPost => 0
    case AddQuestion => 1
    case AddHashtags => 2
    case FewerHashtags => 2
    case GreatHook => 3
  }

  function LengthTip(words: nat): seq<Suggestion>
  {
    if words < 100 then [AddContext] else if words > 300 then [SplitLongPost] else []
  }

  function QuestionTip(hasQuestion: bool): seq<Suggestion>
  {
    if hasQuestion then [] else [AddQuestion]
  }

  function HashtagTip(hashtags: nat): seq<Suggestion>
  {
    if hashtags < 3 then [AddHashtags] else if hashtags > 7 then [FewerHashtags] else []
  }

  function HookTip(hook: bool): seq<Suggestion>
  {
    if hook then [GreatHook] else []
  }

  /** The suggestions, check by check, from the word count, whether there is a '?', the
      '#' count and whether there is a '!' among the first 50 characters. */
  function Suggestions(words: nat, hasQuestion: bool, hashtags: nat, hook: bool): seq<Suggestion>
  {
    LengthTip(words) + QuestionTip(hasQuestion) + HashtagTip(hashtags) + HookTip(hook)
  }

  function SuggestionsFor(post: string): seq<Suggestion>
  {
    Suggestions(|Words(post)|, '?' in post, CountChar(post, '#'), '!' in Take(post, 50))
  }

  predicate HasScoredEmoji(post: string)
  {
    exists e :: e in ScoredEmojis && e in post
  }

  /** The engagement score before the clamp. */
  function RawScore(words: nat, hasQuestion: bool, hashtags: nat, emoji: bool): int
  {
    50 + (if 150 <= words <= 200 then 10 else -10) + (if hasQuestion then 15 else 0)
      + (if 3 <= hashtags <= 5 then 10 else -5) + (if emoji then 10 else 0)
  }

  /** max(lo, min(hi, x)) */
  function Clamp(x: int, lo: int, hi: int): int
  {
    if x > hi then (if hi < lo then lo else hi) else if x < lo then lo else x
  }

  /** What analyze_post_quality reports about a post. */
  function Analysis(post: string): Quality
  {
    var words := |Words(post)|;
    var hasQuestion := '?' in post;
    var hashtags := CountChar(post, '#');
    Quality(words, hasQuestion, hashtags,
            Clamp(RawScore(words, hasQuestion, hashtags, HasScoredEmoji(post)), 0, 100),
            SuggestionsFor(post))
  }

  /** analyze_post_quality: the counts, then the suggestions appended check by check, then
      the score accumulated term by term and clamped to 0..100. */
  method AnalyzePostQuality(post: string) returns (q: Quality)
    ensures q == Analysis(post)
  {
    var words := |Words(post)|;
    var hasQuestion := '?' in post;
    var hashtags := CountChar(post, '#');
    var suggestions: seq<Suggestion> := [];
    if words < 100 {
      suggestions := suggestions + [AddContext];
    } else if words > 300 {
      suggestions := suggestions + [SplitLongPost];
    }
    assert suggestions == LengthTip(words);
    if !hasQuestion {
      suggestions := suggestions + [AddQuestion];
    }
    assert suggestions == LengthTip(words) + QuestionTip(hasQuestion);
    if hashtags < 3 {
      suggestions := suggestions + [AddHashtags];
    } else if hashtags > 7 {
      suggestions := suggestions + [FewerHashtags];
    }
    assert suggestions == LengthTip(words) + QuestionTip(hasQuestion) + HashtagTip(hashtags);
    var hook := '!' in Take(post, 50);
    if hook {
      suggestions := suggestions + [GreatHook];
    }
    assert suggestions == Suggestions(words, hasQuestion, hashtags, hook);
    var score := 50;
    score := score + if 150 <= words <= 200 then 10 else -10;
    score := score + if hasQuestion then 15 else 0;
    score := score + if 3 <= hashtags <= 5 then 10 else -5;
    var emoji := exists e :: e in ScoredEmojis && e in post;
    score := score + if emoji then 10 else 0;
    q := Quality(words, hasQuestion, hashtags, Clamp(score, 0, 100), suggestions);
  }

  /** The score always lies between 35 and 95, so the clamp never changes it. */
  lemma ScoreRange(post: string)
    ensures 35 <= Analysis(post).engagementScore <= 95
    ensures Analysis(post).engagementScore ==
      RawScore(|Words(post)|, '?' in post, CountChar(post, '#'), HasScoredEmoji(post))
  {
  }

  /** Each suggestion is made exactly when its condition holds; in particular a length
      between 100 and 300 words and a hashtag count between 3 and 7 draw none. */
  lemma SuggestionConditions(words: nat, hasQuestion: bool, hashtags: nat, hook: bool)
    ensures AddContext in Suggestions(words, hasQuestion, hashtags, hook) <==> words < 100
    ensures SplitLongPost in Suggestions(words, hasQuestion, hashtags, hook) <==> words > 300
    ensures AddQuestion in Suggestions(words, hasQuestion, hashtags, hook) <==> !hasQuestion
    ensures AddHashtags in Suggestions(words, hasQuestion, hashtags, hook) <==> hashtags < 3
    ensures FewerHashtags in Suggestions(words, hasQuestion, hashtags, hook) <==> hashtags > 7
    ensures GreatHook in Suggestions(words, hasQuestion, hashtags, hook) <==> hook
  {
    var a, b, c, d := LengthTip(words), QuestionTip(hasQuestion), HashtagTip(hashtags),
                      HookTip(hook);
    forall x ensures x in Suggestions(words, hasQuestion, hashtags, hook) <==>
      x in a || x in b || x in c || x in d
    {
      assert Suggestions(words, hasQuestion, hashtags, hook) == a + b + c + d;
    }
  }

  /** Every suggestion from an earlier check comes before every one from a later check, and
      each check adds at most one. */
  predicate RanksIncrease(s: seq<Suggestion>)
  {
    forall i, j :: 0 <= i < j < |s| ==> Rank(s[i]) < Rank(s[j])
  }

  lemma RanksIncreaseAppend(x: seq<Suggestion>, y: seq<Suggestion>)
    requires RanksIncrease(x) && |y| <= 1
    requires forall i, j :: 0 <= i < |x| && 0 <= j < |y| ==> Rank(x[i]) < Rank(y[j])
    ensures RanksIncrease(x + y)
  {
    var s := x + y;
    forall i, j | 0 <= i < j < |s| ensures Rank(s[i]) < Rank(s[j]) {
      if j < |x| {
        assert s[i] == x[i] && s[j] == x[j];
      } else {
        assert s[j] == y[j - |x|];
      }
    }
  }

  /** The suggestions come in the order length, question, hashtags, hook, at most one from
      each check, so there are at most four. */
  lemma SuggestionOrder(words: nat, hasQuestion: bool, hashtags: nat, hook: bool)
    ensures RanksIncrease(Suggestions(words, hasQuestion, hashtags, hook))
    ensures |Suggestions(words, hasQuestion, hashtags, hook)| <= 4
  {
    var a, b, c, d := LengthTip(words), QuestionTip(hasQuestion), HashtagTip(hashtags),
                      HookTip(hook);
    assert RanksIncrease(a);
    RanksIncreaseAppend(a, b);
    RanksIncreaseAppend(a + b, c);
    RanksIncreaseAppend(a + b + c, d);
  }

  // _generate_post_template

  const DefaultTopic: string := "AI/ML concepts"

  /** study_notes.split('\n')[0][:50], or the default topic for empty notes. */
  function Topic(notes: string): (t: string)
    ensures |t| <= 50 && '\n' !in t
    ensures notes == [] ==> t == DefaultTopic
  {
    if notes == [] then DefaultTopic else Take(SplitOn(notes, '\n')[0], 50)
  }

  /** The topic of non-empty notes is their first line cut to 50 characters: a prefix of the
      notes that stops at the first newline or after 50 characters. Notes that begin with a
      newline give an empty topic. */
  lemma TopicIsFirstLine(notes: string)
    requires notes != []
    ensures Topic(notes) <= notes
    ensures |Topic(notes)| < 50 && |Topic(notes)| < |notes| ==> notes[|Topic(notes)|] == '\n'
    ensures notes[0] == '\n' ==> Topic(notes) == []
  {
    SplitFirst(notes, '\n');
  }

  /** The story post: a breakthrough with the topic, three insight lines, a closing question. */
  function StoryTemplate(topic: string): (r: string)
    ensures Contains(r, topic)
  {
    var opening := ("\U{1F3AF} Just had a " + "breakthrough " + "with ");
    var rest := ("!\n" + "\n" + "While working " + "through my GUVI "
       + "AI/ML " + "certification, " + "something " + "finally "
       + "clicked. \n" + "\n" + "Here\'s what I " + "learned:\n"
       + "\U{2192} [Key insight " + "1 from your " + "notes]\n" + "\U{2192} [Key insight "
       + "2 from your " + "notes]\n" + "\U{2192} [Key insight " + "3 from your "
       + "notes]\n" + "\n" + "The real " + "game-changer "
       + "was seeing how " + "theory " + "translates to " + "real-world "
       + "problems. " + "That\'s when " + "everything made " + "sense.\n"
       + "\n" + "For anyone else " + "on this " + "learning "
       + "journey - " + "what\'s been " + "your biggest " + "\"aha\" moment?\n"
       + "\n" + "#MachineLearning" + " #AI " + "#LearningInPubli"
       + "c #TechCareer");
    ContainsMiddle(opening, topic, rest);
    opening + topic + rest
  }

  /** The tips post: five numbered learnings about the topic. */
  function TipsTemplate(topic: string): (r: string)
    ensures Contains(r, topic)
  {
    var opening := ("\U{1F4A1} 5 things I " + "wish I knew " + "earlier about ");
    var rest := (":\n" + "\n" + "1. [First key " + "learning]\n"
       + "2. [Second key " + "learning]\n" + "3. [Third key " + "learning]\n"
       + "4. [Fourth key " + "learning]\n" + "5. [Fifth key " + "learning]\n"
       + "\n" + "These " + "fundamentals " + "are "
       + "game-changers. " + "Bookmark this " + "if you\'re " + "learning AI/ML!\n"
       + "\n" + "What would you " + "add to this " + "list?\n"
       + "\n" + "#AI " + "#MachineLearning" + " #DataScience "
       + "#TechTips");
    ContainsMiddle(opening, topic, rest);
    opening + topic + rest
  }

  /** The achievement post: the completed certification, the topic among the lessons. */
  function AchievementTemplate(topic: string): (r: string)
    ensures Contains(r, topic)
  {
    var opening := ("\U{1F393} Excited to " + "share: Just " + "completed my " + "AI/ML "
       + "certification " + "from GUVI!\n" + "\n" + "The journey "
       + "taught me way " + "more than I " + "expected:\n" + "\n"
       + "\U{2192} ");
    var rest := (" isn\'t just " + "theory - it\'s " + "solving real " + "problems\n"
       + "\U{2192} Hands-on " + "projects beat " + "passive " + "learning every "
       + "time\n" + "\U{2192} The AI/ML " + "community is " + "incredibly "
       + "supportive\n" + "\n" + "Now actively " + "looking for "
       + "opportunities " + "to apply these " + "skills in a " + "professional "
       + "setting. If " + "your team needs " + "someone " + "passionate "
       + "about AI/ML " + "with fresh " + "perspectives, " + "let\'s connect!\n"
       + "\n" + "#AIMLCertificati" + "on " + "#CareerTransitio"
       + "n " + "#MachineLearning" + " #OpenToWork");
    ContainsMiddle(opening, topic, rest);
    opening + topic + rest
  }

  /** templates.get(style, templates["story"]) with the topic of the notes filled in. */
  function PostTemplate(notes: string, style: string): string
  {
    var topic := Topic(notes);
    if style == "tips" then TipsTemplate(topic)
    else if style == "achievement" then AchievementTemplate(topic)
    else StoryTemplate(topic)
  }

  /** Any style other than tips and achievement gets the story template. */
  lemma OtherStylesGetStory(notes: string, style: string)
    requires style != "tips" && style != "achievement"
    ensures PostTemplate(notes, style) == StoryTemplate(Topic(notes))
  {
  }

  /** The breakdown style, which create_from_notes asks for, gets the story template. */
  lemma BreakdownGetsStory(notes: string)
    ensures PostTemplate(notes, "breakdown") == StoryTemplate(Topic(notes))
  {
    assert |"breakdown"| != |"tips"| && |"breakdown"| != |"achievement"|;
    OtherStylesGetStory(notes, "breakdown");
  }

  /** Whatever the style, the post names the topic of the notes. */
  lemma TemplateMentionsTopic(notes: string, style: string)
    ensures Contains(PostTemplate(notes, style), Topic(notes))
  {
  }

  // _create_prompt

  /** The keys of style_instructions. */
  datatype PromptStyle = StoryStyle | TipsStyle | BreakdownStyle | AchievementStyle | QuestionStyle

  /** style_instructions.get(style, style_instructions['story']): which entry is used. */
  function StyleOf(style: string): PromptStyle
  {
    if style == "tips" then TipsStyle
    else if style == "breakdown" then BreakdownStyle
    else if style == "achievement" then AchievementStyle
    else if style == "question" then QuestionStyle
    else StoryStyle
  }

  function Instructions(s: PromptStyle): string
  {
    match s
    case StoryStyle =>
      ("\n" + "            " + "Create a " + "personal, "
       + "engaging story " + "about learning " + "this topic.\n" + "            - "
       + "Start with a " + "hook about a " + "breakthrough " + "moment\n"
       + "            - " + "Include 3-4 key " + "insights in a " + "natural flow\n"
       + "            - " + "End with a " + "question to " + "engage audience\n"
       + "            - " + "Keep it " + "authentic and " + "humble\n"
       + "            ")
    case TipsStyle =>
      ("\n" + "            " + "Format as " + "actionable "
       + "takeaways:\n" + "            - " + "Lead with value " + "proposition\n"
       + "            - " + "3-5 numbered " + "insights\n" + "            - "
       + "Make each tip " + "practical and " + "clear\n" + "            - "
       + "End with a call " + "to save/share\n" + "            ")
    case BreakdownStyle =>
      ("\n" + "            " + "Explain the " + "concept simply:\n"
       + "            - " + "Use an analogy " + "or metaphor to " + "start\n"
       + "            - " + "Break down into " + "digestible " + "parts\n"
       + "            - " + "Show practical " + "application\n" + "            - "
       + "Invite " + "questions/discus" + "sion\n" + "            ")
    case AchievementStyle =>
      ("\n" + "            " + "Celebrate the " + "milestone "
       + "professionally:\n" + "            - " + "Mention the " + "achievement "
       + "(certification/p" + "roject)\n" + "            - " + "Share 2-3 "
       + "biggest " + "learnings\n" + "            - " + "Express "
       + "gratitude where " + "appropriate\n" + "            - " + "Look forward to "
       + "next steps\n" + "            ")
    case QuestionStyle =>
      ("\n" + "            " + "Pose a " + "thought-provokin"
       + "g question:\n" + "            - " + "Share brief " + "context/insight\n"
       + "            - " + "Ask specific, " + "answerable " + "question\n"
       + "            - " + "Encourage " + "diverse " + "perspectives\n"
       + "            - " + "Show genuine " + "curiosity\n" + "            ")
  }

  /** A style the table does not list is given the story instructions. */
  lemma UnknownStyleGetsStory(style: string)
    requires style !in ["story", "tips", "breakdown", "achievement", "question"]
    ensures StyleOf(style) == StoryStyle
  {
  }

  /** The prompt: the profile as JSON text (json.dumps is not modelled; its output is a
      parameter), the notes, the style name and the instructions for the style, then the
      fixed requirements. Each of them occurs in the prompt. */
  function CreatePrompt(profileJson: string, notes: string, style: string): (r: string)
    ensures Contains(r, profileJson) && Contains(r, notes) && Contains(r, style)
    ensures Contains(r, Instructions(StyleOf(style)))
  {
    PromptText(profileJson, notes, style, Instructions(StyleOf(style)))
  }

  /** The prompt's f-string around its four parts. */
  function PromptText(profileJson: string, notes: string, style: string, instructions: string)
    : (r: string)
    ensures Contains(r, profileJson) && Contains(r, notes) && Contains(r, style)
    ensures Contains(r, instructions)
  {
    var p1 := ("You are helping " + "create a " + "LinkedIn post " + "for someone "
       + "with this " + "background:\n");
    var p2 := ("\n" + "\n" + "Their study " + "notes:\n");
    var p3 := ("\n" + "\n" + "Create a " + "LinkedIn post "
       + "in \'");
    var p4 := ("\' style " + "following these " + "guidelines:\n");
    var p5 := ("\n" + "\n" + "Requirements:\n" + "- 150-200 words "
       + "(LinkedIn sweet " + "spot)\n" + "- Professional " + "but "
       + "conversational " + "tone\n" + "- Include 3-4 " + "relevant "
       + "hashtags at the " + "end\n" + "- Use emojis " + "sparingly (1-2 "
       + "max)\n" + "- Make it " + "authentic - " + "avoid corporate "
       + "jargon\n" + "- Focus on " + "value for " + "readers\n"
       + "\n" + "Return only the " + "post text, " + "ready to "
       + "copy-paste.");
    var parts := [p1, profileJson, p2, notes, p3, style, p4, instructions, p5];
    assert parts[1] == profileJson && parts[3] == notes && parts[5] == style &&
           parts[7] == instructions;
    JoinWithContains(parts, "", 1);
    JoinWithContains(parts, "", 3);
    JoinWithContains(parts, "", 5);
    JoinWithContains(parts, "", 7);
    JoinWith(parts, "")
  }
}
