/** ColdEmailGenerator.analyze_job_description and
    JobApplicationTracker.calculate_follow_up_dates of job_hunting_system.py. */
module JobHunting {
  import opened Text
  import opened Dicts

  /** The skill keywords analyze_job_description looks for, in order. */
  const SkillKeywords: seq<string> := ["Python", "TensorFlow", "PyTorch", "Keras",
    "Scikit-learn", "NLP", "Computer Vision", "Deep Learning", "ML Ops", "AWS", "GCP",
    "Azure", "Docker", "Kubernetes", "SQL", "NoSQL", "Spark", "Hadoop"]

  datatype JobAnalysis = JobAnalysis(keySkills: seq<string>, requirements: seq<string>,
                                     niceToHave: seq<string>, companyValues: seq<string>)

  /** The keywords whose lower-case form occurs in the (already lower-cased) text, in order. */
  function Matching(keywords: seq<string>, text: string): (r: seq<string>)
    ensures |r| <= |keywords|
  {
    if keywords == [] then []
    else
      var head := if Contains(text, Lower(keywords[0])) then [keywords[0]] else [];
      head + Matching(keywords[1..], text)
  }

  /** a can be had from b by deleting elements. */
  predicate SubsequenceOf<T(==)>(a: seq<T>, b: seq<T>)
    decreases |b|
  {
    a == [] ||
    (b != [] && ((a[0] == b[0] && SubsequenceOf(a[1..], b[1..])) || SubsequenceOf(a, b[1..])))
  }

  predicate Distinct<T(==)>(s: seq<T>)
  {
    forall i, j :: 0 <= i < j < |s| ==> s[i] != s[j]
  }

  /** A keyword is kept exactly when its lower-case form occurs in the text. */
  lemma {:induction false} MatchingMembers(keywords: seq<string>, text: string)
    ensures forall s :: s in Matching(keywords, text) <==>
      s in keywords && Contains(text, Lower(s))
  {
    if keywords != [] {
      var rest := keywords[1..];
      MatchingMembers(rest, text);
      assert forall s :: s in keywords <==> s == keywords[0] || s in rest;
    }
  }

  /** The kept keywords keep their list order. */
  lemma {:induction false} MatchingSubsequence(keywords: seq<string>, text: string)
    ensures SubsequenceOf(Matching(keywords, text), keywords)
  {
    if keywords != [] {
      var rest := keywords[1..];
      MatchingSubsequence(rest, text);
      var r := Matching(keywords, text);
      if Contains(text, Lower(keywords[0])) {
        assert r == [keywords[0]] + Matching(rest, text);
        assert r[1..] == Matching(rest, text);
      } else {
        assert r == Matching(rest, text);
      }
    }
  }

  /** No keyword is kept twice when the list has no repeats. */
  lemma {:induction false} MatchingDistinct(keywords: seq<string>, text: string)
    requires Distinct(keywords)
    ensures Distinct(Matching(keywords, text))
  {
    if keywords != [] {
      var rest := keywords[1..];
      assert Distinct(rest);
      MatchingDistinct(rest, text);
      MatchingMembers(rest, text);
      assert keywords[0] !in rest;
      var r := Matching(keywords, text);
      if Contains(text, Lower(keywords[0])) {
        assert r == [keywords[0]] + Matching(rest, text);
        assert keywords[0] !in Matching(rest, text);
      }
    }
  }

  lemma MatchingFrom(keywords: seq<string>, text: string, i: nat)
    requires i < |keywords|
    ensures Matching(keywords[i..], text) ==
      (if Contains(text, Lower(keywords[i])) then [keywords[i]] else []) +
      Matching(keywords[i + 1..], text)
  {
    assert keywords[i..][1..] == keywords[i + 1..];
  }

  /** The keyword loop: each keyword whose lower-case form occurs in the text is appended. */
  method MatchKeywords(keywords: seq<string>, text: string) returns (found: seq<string>)
    ensures found == Matching(keywords, text)
  {
    found := [];
    var i := 0;
    assert keywords[0..] == keywords;
    while i < |keywords|
      invariant 0 <= i <= |keywords|
      invariant found + Matching(keywords[i..], text) == Matching(keywords, text)
    {
      MatchingFrom(keywords, text, i);
      var skill := keywords[i];
      var rest := Matching(keywords[i + 1..], text);
      if Contains(text, Lower(skill)) {
        assert found + ([skill] + rest) == (found + [skill]) + rest;
        found := found + [skill];
      } else {
        assert [] + rest == rest;
      }
      i := i + 1;
    }
    assert found + [] == found;
  }

  /** The skill list names each skill once. */
  lemma SkillKeywordsDistinct()
    ensures Distinct(SkillKeywords)
  {
    // No two keywords share both their first letter and their length.
    var sig := KeywordSignatures();
    forall i, j | 0 <= i < j < |SkillKeywords| ensures SkillKeywords[i] != SkillKeywords[j] {
      assert sig[i] != sig[j];
    }
  }

  const SignatureList: seq<(char, int)> := [('P', 6), ('T', 10), ('P', 7), ('K', 5),
    ('S', 12), ('N', 3), ('C', 15), ('D', 13), ('M', 6), ('A', 3), ('G', 3), ('A', 5),
    ('D', 6), ('K', 10), ('S', 3), ('N', 5), ('S', 5), ('H', 6)]

  lemma KeywordSignatures() returns (sig: seq<(char, int)>)
    ensures |sig| == |SkillKeywords|
    ensures forall k :: 0 <= k < |sig| ==> sig[k] == (SkillKeywords[k][0], |SkillKeywords[k]|)
    ensures Distinct(sig)
  {
    sig := SignatureList;
  }

  /** analyze_job_description: the skill loop over the lower-cased text, which reports each
      skill at most once; the three other lists stay empty. */
  method AnalyzeJobDescription(jobDescription: string) returns (r: JobAnalysis)
    ensures r.keySkills == Matching(SkillKeywords, Lower(jobDescription))
    ensures Distinct(r.keySkills)
    ensures r.requirements == [] && r.niceToHave == [] && r.companyValues == []
  {
    SkillKeywordsDistinct();
    MatchingDistinct(SkillKeywords, Lower(jobDescription));
    var skills := MatchKeywords(SkillKeywords, Lower(jobDescription));
    r := JobAnalysis(skills, [], [], []);
  }

  lemma LowerSql()
    ensures Lower("SQL") == "sql"
  {
    assert "SQL"[1..][1..][1..] == [];
  }

  lemma LowerSqlNames()
    ensures Lower("NoSQL") == "nosql" && Lower("SQL") == "sql"
  {
    LowerSql();
    assert "NoSQL"[1..][1..] == "SQL";
  }

  lemma NoSqlHasSql()
    ensures Contains("nosql", "sql")
  {
    ContainsMiddle("no", "sql", "");
    assert "no" + "sql" + "" == "nosql";
  }

  lemma SqlKeywords()
    ensures "SQL" in SkillKeywords && "NoSQL" in SkillKeywords
  {
    assert SkillKeywords[14] == "SQL" && SkillKeywords[15] == "NoSQL";
  }

  /** Substring matching: a description mentioning NoSQL also yields SQL. */
  lemma NoSqlAlsoSql(jobDescription: string)
    requires Contains(Lower(jobDescription), "nosql")
    ensures "NoSQL" in Matching(SkillKeywords, Lower(jobDescription))
    ensures "SQL" in Matching(SkillKeywords, Lower(jobDescription))
  {
    var text := Lower(jobDescription);
    LowerSqlNames();
    SqlKeywords();
    NoSqlHasSql();
    ContainsTrans(text, "nosql", "sql");
    MatchingMembers(SkillKeywords, text);
  }

  /** calculate_follow_up_dates, with the application date as a day number. */
  function FollowUpDates(applicationDay: int): (r: Dict<string, int>)
    ensures Keys(r) == ["first_follow_up", "second_follow_up", "final_follow_up"]
    ensures r[0].1 == applicationDay + 7
    ensures r[1].1 == r[0].1 + 7 && r[2].1 == r[1].1 + 7
  {
    [("first_follow_up", applicationDay + 7), ("second_follow_up", applicationDay + 14),
     ("final_follow_up", applicationDay + 21)]
  }
}

