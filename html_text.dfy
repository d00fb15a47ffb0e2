/** clean_html of rss_reader.py: decode character references, strip markup tags, collapse
    whitespace, cut to 300 characters. */
module HtmlText {
  import opened Text

  const MaxLength: nat := 300

  /** The character references decoded: &amp; &lt; &gt; &quot; &apos; (with the semicolon).
      Gives the decoded character and the length of the reference. */
  function EntityAt(s: string): Option<(char, nat)>
  {
    if |s| >= 5 && s[..5] == "&amp;" then Some(('&', 5))
    else if |s| >= 4 && s[..4] == "&lt;" then Some(('<', 4))
    else if |s| >= 4 && s[..4] == "&gt;" then Some(('>', 4))
    else if |s| >= 6 && s[..6] == "&quot;" then Some(('"', 6))
    else if |s| >= 6 && s[..6] == "&apos;" then Some(('\'', 6))
    else None
  }

  /** html.unescape: one left-to-right pass, so a decoded '&' never starts another reference. */
  function Unescape(s: string): string
    decreases |s|
  {
    if s == [] then []
    else match EntityAt(s)
      case Some((c, n)) => [c] + Unescape(s[n..])
      case None => [s[0]] + Unescape(s[1..])
  }

  /** Position of the first '>' in s. */
  function FirstGt(s: string): (r: Option<nat>)
    ensures r.Some? ==> r.value < |s| && s[r.value] == '>' && '>' !in s[..r.value]
    ensures r.None? ==> '>' !in s
  {
    if s == [] then None
    else if s[0] == '>' then Some(0)
    else match FirstGt(s[1..])
      case None => None
      case Some(k) =>
        assert s[..k + 1] == [s[0]] + s[1..][..k];
        Some(k + 1)
  }

  /** re.sub(r'<[^>]+>', '', s): scanning left to right, a '<' starts a tag when the first
      '>' after it is not the very next character; the whole tag is removed and the scan goes
      on after it. Any other character is kept. */
  function StripTags(s: string): string
    decreases |s|
  {
    if s == [] then []
    else if s[0] == '<' then
      match FirstGt(s[1..])
      case Some(k) => if k > 0 then StripTags(s[k + 2..]) else [s[0]] + StripTags(s[1..])
      case None => [s[0]] + StripTags(s[1..])
    else [s[0]] + StripTags(s[1..])
  }

  /** clean_html(text) */
  function CleanHtml(text: string): (r: string)
    ensures |r| <= MaxLength
    ensures text == [] ==> r == []
  {
    if text == [] then [] else Take(Squeeze(StripTags(Unescape(text))), MaxLength)
  }

  /** What the pattern <[^>]+> matches: '<', at least one character other than '>', '>'. */
  predicate HasTag(s: string)
  {
    exists i, j :: 0 <= i && i + 1 < j < |s| && s[i] == '<' && s[j] == '>' &&
      forall k :: i < k < j ==> s[k] != '>'
  }

  /** Every '<' is either closed by the very next character or never closed. */
  predicate TagFree(s: string)
  {
    forall i :: 0 <= i < |s| && s[i] == '<' ==>
      (i + 1 < |s| && s[i + 1] == '>') || '>' !in s[i + 1..]
  }

  lemma TagFreeHasNoTag(s: string)
    requires TagFree(s)
    ensures !HasTag(s)
  {
    forall i, j | 0 <= i && i + 1 < j < |s| && s[i] == '<' && s[j] == '>'
      ensures exists k :: i < k < j && s[k] == '>'
    {
      assert s[i + 1..][j - i - 1] == '>';
      assert s[i + 1] == '>';
    }
  }

  lemma TagFreeCons(c: char, t: string)
    requires TagFree(t)
    requires c == '<' ==> (|t| > 0 && t[0] == '>') || '>' !in t
    ensures TagFree([c] + t)
  {
    var s := [c] + t;
    forall i | 0 <= i < |s| && s[i] == '<'
      ensures (i + 1 < |s| && s[i + 1] == '>') || '>' !in s[i + 1..]
    {
      if i > 0 {
        assert s[i + 1..] == t[i..];
      } else {
        assert s[1..] == t;
      }
    }
  }

  lemma TagFreeSuffix(s: string, n: nat)
    requires TagFree(s) && n <= |s|
    ensures TagFree(s[n..])
  {
    var t := s[n..];
    forall i | 0 <= i < |t| && t[i] == '<'
      ensures (i + 1 < |t| && t[i + 1] == '>') || '>' !in t[i + 1..]
    {
      assert s[n + i] == '<';
      assert t[i + 1..] == s[n + i + 1..];
    }
  }

  lemma TagFreePrefix(s: string, n: nat)
    requires TagFree(s) && n <= |s|
    ensures TagFree(s[..n])
  {
    var t := s[..n];
    forall i | 0 <= i < |t| && t[i] == '<'
      ensures (i + 1 < |t| && t[i + 1] == '>') || '>' !in t[i + 1..]
    {
      assert s[i] == '<';
      if '>' in t[i + 1..] {
        var k :| i + 1 <= k < |t| && t[k] == '>';
        assert s[i + 1..][k - i - 1] == '>';
      }
    }
  }

  lemma {:induction false} StripTagsKeeps(s: string)
    ensures forall c :: c in StripTags(s) ==> c in s
    decreases |s|
  {
    if s != [] {
      if s[0] == '<' {
        match FirstGt(s[1..])
        case Some(k) =>
          if k > 0 {
            StripTagsKeeps(s[k + 2..]);
          } else {
            StripTagsKeeps(s[1..]);
          }
        case None =>
          StripTagsKeeps(s[1..]);
      } else {
        StripTagsKeeps(s[1..]);
      }
    }
  }

  /** Stripping leaves no tag behind, whatever the input. */
  lemma {:induction false} StripTagsTagFree(s: string)
    ensures TagFree(StripTags(s))
    decreases |s|
  {
    if s != [] {
      if s[0] == '<' {
        match FirstGt(s[1..])
        case Some(k) =>
          if k > 0 {
            StripTagsTagFree(s[k + 2..]);
          } else {
            StripTagsTagFree(s[1..]);
            assert s[1] == '>';
            assert StripTags(s[1..]) == [s[1]] + StripTags(s[2..]);
            TagFreeCons(s[0], StripTags(s[1..]));
          }
        case None =>
          StripTagsTagFree(s[1..]);
          StripTagsKeeps(s[1..]);
          TagFreeCons(s[0], StripTags(s[1..]));
      } else {
        StripTagsTagFree(s[1..]);
        TagFreeCons(s[0], StripTags(s[1..]));
      }
    }
  }

  lemma SqueezeHead(s: string)
    requires |s| > 0 && !IsSpace(s[0])
    ensures |Squeeze(s)| > 0 && Squeeze(s)[0] == s[0]
  {
  }

  /** Collapsing whitespace cannot create a tag. */
  lemma {:induction false} SqueezeTagFree(s: string)
    requires TagFree(s)
    ensures TagFree(Squeeze(s))
    decreases |s|
  {
    if s == [] {
    } else if IsSpace(s[0]) {
      TagFreeSuffix(s, 1);
      SqueezeTagFree(s[1..]);
    } else if |s| > 1 && IsSpace(s[1]) {
      TagFreeSuffix(s, 2);
      SqueezeTagFree(s[2..]);
      var t := Squeeze(s[2..]);
      SqueezeShape(s[2..]);
      SqueezeChars(s[2..]);
      if s[0] == '<' {
        assert '>' !in s[1..];
        assert s[2..] == s[1..][1..];
      }
      if t == [] {
        TagFreeCons(s[0], []);
      } else {
        TagFreeCons(' ', t);
        TagFreeCons(s[0], [' '] + t);
        assert [s[0]] + ([' '] + t) == [s[0], ' '] + t;
      }
    } else {
      TagFreeSuffix(s, 1);
      SqueezeTagFree(s[1..]);
      SqueezeShape(s[1..]);
      SqueezeChars(s[1..]);
      if |s| > 1 {
        SqueezeHead(s[1..]);
      }
      TagFreeCons(s[0], Squeeze(s[1..]));
    }
  }

  lemma SqueezedPrefixOf(t: string, n: nat)
    requires Squeezed(t) && n <= |t|
    ensures SqueezedPrefix(t[..n])
  {
  }

  /** clean_html's output: at most 300 characters, no tag, no whitespace but single inner
      spaces (the cut may leave one trailing space), and "" for "". */
  lemma CleanHtmlShape(text: string)
    ensures |CleanHtml(text)| <= MaxLength
    ensures !HasTag(CleanHtml(text))
    ensures SqueezedPrefix(CleanHtml(text))
    ensures text == [] ==> CleanHtml(text) == []
  {
    var r := CleanHtml(text);
    if text != [] {
      var stripped := StripTags(Unescape(text));
      StripTagsTagFree(Unescape(text));
      SqueezeTagFree(stripped);
      SqueezeShape(stripped);
      var sq := Squeeze(stripped);
      TagFreePrefix(sq, if MaxLength <= |sq| then MaxLength else |sq|);
      assert r == sq[..if MaxLength <= |sq| then MaxLength else |sq|];
      SqueezedPrefixOf(sq, if MaxLength <= |sq| then MaxLength else |sq|);
      TagFreeHasNoTag(r);
    }
  }
}
