/** Filling an email template the way ColdEmailGenerator.generate_personalized_email of
    job_hunting_system.py does: str.format when every placeholder has a value, otherwise the
    KeyError fallback that replaces only the placeholders without a value. */
module EmailFill {
  import opened Text
  import opened Templates

  function Spaced(c: char): char { if c == '_' then ' ' else c }

  /** The text a missing placeholder is replaced with: "[" + name with '_' turned to ' ' and
      title-cased + "]". */
  function Bracket(name: string): (r: string)
    ensures |r| == |name| + 2 && r[0] == '[' && r[|r| - 1] == ']'
    ensures '{' !in name && '}' !in name ==> '{' !in r && '}' !in r
  {
    var spaced := ReplaceChar(name, '_', ' ');
    var title := Title(spaced);
    TitleKeepsNonLetters(spaced);
    "[" + title + "]"
  }

  /** Between the brackets, character by character: '_' read as ' ', then title-cased. */
  lemma BracketChar(name: string, i: nat)
    requires i < |name|
    ensures Bracket(name)[i + 1] == TitleChar(Spaced(name[i]), i > 0 && IsLetter(name[i - 1]))
  {
    var spaced := ReplaceChar(name, '_', ' ');
    var title := Title(spaced);
    assert Bracket(name) == "[" + title + "]";
    assert Bracket(name)[i + 1] == title[i];
    assert spaced[i] == Spaced(name[i]);
    assert i > 0 ==> IsLetter(spaced[i - 1]) == IsLetter(name[i - 1]);
  }

  function FallbackSegment(s: Segment, params: map<string, string>): Segment
  {
    if s.Field? && s.name !in params then Lit(Bracket(s.name)) else s
  }

  /** The template after the fallback loop: each placeholder without a value becomes its
      bracket text, every other segment is kept. */
  function Fallback(t: Template, params: map<string, string>): (r: Template)
    ensures |r| == |t|
    ensures forall k :: 0 <= k < |t| ==> r[k] == FallbackSegment(t[k], params)
  {
    if t == [] then [] else [FallbackSegment(t[0], params)] + Fallback(t[1..], params)
  }

  /** Filling a template: str.format with the parameters when every placeholder has a
      value; otherwise (the KeyError path) the template text with only the placeholders
      without a value replaced by their bracket text. */
  function Fill(t: Template, params: map<string, string>): string
  {
    if AllPresent(t, params) then Render(t, params) else Render(Fallback(t, params), map[])
  }

  /** email.replace("{name}", text), on the template's segments. */
  function ReplaceField(t: Template, name: string, text: string): (r: Template)
    ensures |r| == |t|
    ensures forall k :: 0 <= k < |t| ==>
      r[k] == if t[k] == Field(name) then Lit(text) else t[k]
  {
    if t == [] then []
    else [if t[0] == Field(name) then Lit(text) else t[0]] + ReplaceField(t[1..], name, text)
  }

  /** A segment once the placeholder names in `seen` have gone through the fallback loop. */
  function StageSegment(s: Segment, params: map<string, string>, seen: seq<string>): Segment
  {
    if s.Field? && s.name in seen then FallbackSegment(s, params) else s
  }

  ghost predicate AtStage(draft: Template, template: Template, params: map<string, string>,
                          seen: seq<string>)
  {
    |draft| == |template| &&
    forall k :: 0 <= k < |template| ==> draft[k] == StageSegment(template[k], params, seen)
  }

  /** One turn of the fallback loop: the next name is replaced when it has no value. */
  lemma StageStep(draft: Template, template: Template, params: map<string, string>,
                  names: seq<string>, i: nat)
    requires i < |names|
    requires AtStage(draft, template, params, names[..i])
    ensures AtStage(if names[i] !in params then ReplaceField(draft, names[i], Bracket(names[i]))
                    else draft, template, params, names[..i + 1])
  {
    var m := names[i];
    var next := if m !in params then ReplaceField(draft, m, Bracket(m)) else draft;
    assert names[..i + 1] == names[..i] + [m];
    forall k | 0 <= k < |template|
      ensures next[k] == StageSegment(template[k], params, names[..i + 1])
    {
      assert template[k].Field? ==>
        (template[k].name in names[..i + 1] <==> template[k].name in names[..i] || template[k].name == m);
    }
  }

  /** Once every placeholder name has been seen, the draft is the fallback template. */
  lemma StageDone(draft: Template, template: Template, params: map<string, string>,
                  names: seq<string>)
    requires names == Names(template)
    requires AtStage(draft, template, params, names[..|names|])
    ensures draft == Fallback(template, params)
  {
    assert names[..|names|] == names;
    forall k | 0 <= k < |template|
      ensures draft[k] == Fallback(template, params)[k]
    {
      if template[k].Field? {
        assert Field(template[k].name) in template;
      }
    }
  }

  /** The KeyError branch: the replace loop over the placeholder names re.findall finds,
      each name without a value replaced by its bracket text. */
  method ReplaceMissing(template: Template, params: map<string, string>)
    returns (draft: Template)
    ensures draft == Fallback(template, params)
  {
    draft := template;
    var names := Names(template);
    var i := 0;
    while i < |names|
      invariant 0 <= i <= |names|
      invariant AtStage(draft, template, params, names[..i])
    {
      StageStep(draft, template, params, names, i);
      var m := names[i];
      if m !in params {
        draft := ReplaceField(draft, m, Bracket(m));
      }
      i := i + 1;
    }
    StageDone(draft, template, params, names);
  }

  /** The try/except of generate_personalized_email: template.format(**all_params), or the
      fallback when a placeholder has no value. */
  method FillPlaceholders(template: Template, params: map<string, string>)
    returns (email: string)
    ensures email == Fill(template, params)
  {
    if AllPresent(template, params) {
      email := Render(template, params);
    } else {
      var draft := ReplaceMissing(template, params);
      email := Render(draft, map[]);
    }
  }

  lemma MergeProfileWins(job: map<string, string>, profile: map<string, string>)
    ensures job + profile == (job - profile.Keys) + profile
  {
  }

  lemma AllPresentIgnoresUnused(t: Template, params: map<string, string>, name: string,
                                value: string)
    requires Field(name) !in t
    ensures AllPresent(t, params[name := value]) == AllPresent(t, params)
  {
    forall k | 0 <= k < |t| && t[k].Field?
      ensures t[k].name in params[name := value] <==> t[k].name in params
    {
      assert t[k] != Field(name);
    }
  }

  lemma FallbackIgnoresUnused(t: Template, params: map<string, string>, name: string,
                              value: string)
    requires Field(name) !in t
    ensures Fallback(t, params[name := value]) == Fallback(t, params)
  {
    var a, b := Fallback(t, params[name := value]), Fallback(t, params);
    forall k | 0 <= k < |t| ensures a[k] == b[k] {
      assert t[k] != Field(name);
    }
  }

  /** A parameter that matches no placeholder has no effect. */
  lemma FillIgnoresUnusedKey(t: Template, params: map<string, string>, name: string,
                             value: string)
    requires Field(name) !in t
    ensures Fill(t, params[name := value]) == Fill(t, params)
  {
    AllPresentIgnoresUnused(t, params, name, value);
    if AllPresent(t, params) {
      RenderIgnoresUnused(t, params, name, value);
    } else {
      FallbackIgnoresUnused(t, params, name, value);
    }
  }

  /** When every placeholder has a value, each is replaced by it: the email holds every
      value, and with a well-formed template and brace-free values no brace is left. */
  lemma FillFull(t: Template, params: map<string, string>)
    requires AllPresent(t, params)
    ensures forall n :: Field(n) in t ==> Contains(Fill(t, params), params[n])
    ensures (WellFormed(t) && forall n :: n in params ==> '{' !in params[n] && '}' !in params[n])
      ==> '{' !in Fill(t, params) && '}' !in Fill(t, params)
  {
    forall n | Field(n) in t ensures Contains(Render(t, params), params[n]) {
      RenderContainsValue(t, params, n);
    }
    if WellFormed(t) && forall n :: n in params ==> '{' !in params[n] && '}' !in params[n] {
      RenderBraceFree(t, params);
    }
  }

  /** When some placeholder has no value, nothing is substituted: a placeholder with a value
      stays as its literal "{name}" text, every placeholder without one becomes its bracket
      text, and no placeholder without a value is left. */
  lemma FillFallback(t: Template, params: map<string, string>)
    requires !AllPresent(t, params)
    ensures forall n :: Field(n) in t && n in params ==> Contains(Fill(t, params), Placeholder(n))
    ensures forall n :: Field(n) in t && n !in params ==> Contains(Fill(t, params), Bracket(n))
    ensures forall n :: n !in params ==> Field(n) !in Fallback(t, params)
  {
    var f := Fallback(t, params);
    forall n | Field(n) in t
      ensures Contains(Render(f, map[]), if n in params then Placeholder(n) else Bracket(n))
    {
      var k :| 0 <= k < |t| && t[k] == Field(n);
      RenderContainsPiece(f, map[], k);
    }
  }
}
