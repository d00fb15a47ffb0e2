/** The email template catalog of ColdEmailGenerator in job_hunting_system.py, template
    selection by key, and the demo run on the sample profile. */
module EmailCatalog {
  import opened Text
  import opened Templates
  import opened EmailFill

  // The six templates of ColdEmailGenerator._load_templates, split into literal runs and
  // placeholders.

  function ConnectionRequestMessage(): Template
  {
    [
      Lit("\n"
        + "Hi "),
      Field("recruiter_name"),
      Lit(",\n"
        + "\n"
        + "I noticed you "
        + "recruit for "),
      Field("specialty"),
      Lit(" roles at ")
    ]
    + [
      Field("company"),
      Lit(". I recently "
        + "completed my "
        + "AI/ML "
        + "certification "
        + "from GUVI and "
        + "I\'m actively "
        + "sharing my "
        + "learning "
        + "journey on "
        + "LinkedIn.\n"
        + "\n"
        + "I\'d love to "
        + "connect and "
        + "learn more "
        + "about "
        + "opportunities "
        + "in this space!\n"
        + "\n"
        + "Best regards,\n"),
      Field("your_name"),
      Lit("\n"
        + "            ")
    ]
  }

  function ColdEmailWithJobPost(): Template
  {
    [
      Lit("\n"
        + "Subject: "
        + "Application for "),
      Field("job_title"),
      Lit(" - "),
      Field("your_name"),
      Lit("\n"
        + "\n"
        + "Hi ")
    ]
    + [
      Field("recruiter_name"),
      Lit(",\n"
        + "\n"
        + "I hope this "
        + "email finds you "
        + "well. I came "
        + "across the "),
      Field("job_title"),
      Lit(" position at "),
      Field("company")
    ]
    + [
      Lit(" and I\'m "
        + "excited about "
        + "the opportunity "
        + "to contribute "
        + "to "),
      Field("specific_company_initiative"),
      Lit(".\n"
        + "\n"
        + "**Why I\'m a "
        + "great fit:**\n"
        + "\n"
        + "\U{2022} Recently "
        + "completed AI/ML "
        + "certification "
        + "from GUVI with "
        + "hands-on "
        + "projects in "),
      Field("relevant_skills"),
      Lit("\n"
        + "\U{2022} Built ")
    ]
    + [
      Field("specific_project"),
      Lit(" that achieved "),
      Field("specific_result"),
      Lit("\n"
        + "\U{2022} Actively "
        + "contributing to "
        + "the AI/ML "
        + "community "
        + "through "
        + "technical "
        + "content on "
        + "LinkedIn ("),
      Field("followers_count")
    ]
    + [
      Lit("+ followers)\n"
        + "\U{2022} Strong "
        + "foundation in "),
      Field("key_requirements_from_jd"),
      Lit("\n"
        + "\n"
        + "**What caught "
        + "my attention:**\n"),
      Field("specific_detail_from_job_post"),
      Lit("\n"
        + "\n"
        + "This aligns "
        + "perfectly with "
        + "my project "
        + "experience in ")
    ]
    + [
      Field("your_relevant_experience"),
      Lit(".\n"
        + "\n"
        + "**My "
        + "approach:**\n"
        + "I believe in "
        + "learning by "
        + "doing. My "
        + "portfolio "
        + "includes:\n"
        + "- "),
      Field("Project_1"),
      Lit(": "),
      Field("brief_description")
    ]
    + [
      Lit("\n"
        + "- "),
      Field("Project_2"),
      Lit(": "),
      Field("brief_description"),
      Lit("\n"
        + "- ")
    ]
    + [
      Field("Project_3"),
      Lit(": "),
      Field("brief_description"),
      Lit("\n"
        + "\n"
        + "I\'ve attached "
        + "my resume and "
        + "would love to "
        + "discuss how I "
        + "can contribute "
        + "to "),
      Field("team_name")
    ]
    + [
      Lit(" at "),
      Field("company"),
      Lit(".\n"
        + "\n"
        + "Would you be "
        + "available for a "
        + "brief chat this "
        + "week?\n"
        + "\n"
        + "Best regards,\n"),
      Field("your_name"),
      Lit("\n")
    ]
    + [
      Field("phone_number"),
      Lit("\n"),
      Field("linkedin_profile"),
      Lit("\n"),
      Field("portfolio_link")
    ]
    + [
      Lit("\n"
        + "            ")
    ]
  }

  function ColdEmailNoSpecificJob(): Template
  {
    [
      Lit("\n"
        + "Subject: "
        + "Exploring AI/ML "
        + "Opportunities "
        + "at "),
      Field("company"),
      Lit("\n"
        + "\n"
        + "Hi "),
      Field("recruiter_name"),
      Lit(",\n"
        + "\n"
        + "I\'m ")
    ]
    + [
      Field("your_name"),
      Lit(", a freshly "
        + "certified AI/ML "
        + "professional "
        + "from GUVI, and "
        + "I\'m reaching "
        + "out to explore "
        + "opportunities "
        + "at "),
      Field("company"),
      Lit(".\n"
        + "\n"
        + "**Why "),
      Field("company")
    ]
    + [
      Lit("?**\n"),
      Field("specific_reason_you_admire_company"),
      Lit("\n"
        + "\n"
        + "**What I "
        + "bring:**\n"
        + "\U{2022} Completed "
        + "comprehensive "
        + "AI/ML "
        + "certification "
        + "with focus on "),
      Field("specialization"),
      Lit("\n"
        + "\U{2022} Built "
        + "production-ready "
        + "models for ")
    ]
    + [
      Field("use_case"),
      Lit("\n"
        + "\U{2022} Growing "
        + "presence in the "
        + "AI/ML community "
        + "(sharing "
        + "insights with "),
      Field("followers_count"),
      Lit("+ professionals "
        + "on LinkedIn)\n"
        + "\n"
        + "**My edge:**\n"
        + "While I\'m early "
        + "in my career, I "
        + "combine "
        + "technical "
        + "skills with the "
        + "ability to "
        + "communicate "
        + "complex "
        + "concepts "
        + "clearly - "
        + "something I\'ve "
        + "honed by "
        + "creating "
        + "technical "
        + "content.\n"
        + "\n"
        + "I\'m "
        + "particularly "
        + "interested in "
        + "roles involving "),
      Field("specific_technology_or_domain")
    ]
    + [
      Lit(". Would love to "
        + "connect and "
        + "learn about "
        + "current or "
        + "upcoming "
        + "opportunities "
        + "in your team.\n"
        + "\n"
        + "Best regards,\n"),
      Field("your_name"),
      Lit("\n"),
      Field("contact_info"),
      Lit("\n"
        + "            ")
    ]
  }

  function FollowUpEmailOneWeek(): Template
  {
    [
      Lit("\n"
        + "Subject: "
        + "Following up - "),
      Field("job_title"),
      Lit(" Application\n"
        + "\n"
        + "Hi "),
      Field("recruiter_name"),
      Lit(",\n"
        + "\n"
        + "I wanted to "
        + "follow up on my "
        + "application for "
        + "the ")
    ]
    + [
      Field("job_title"),
      Lit(" position I "
        + "sent last week.\n"
        + "\n"
        + "Since then, "
        + "I\'ve:\n"
        + "\U{2022} "),
      Field("recent_achievement_or_learning"),
      Lit("\n"
        + "\U{2022} "),
      Field("relevant_content_you_posted")
    ]
    + [
      Lit("\n"
        + "\n"
        + "I remain very "
        + "interested in "
        + "the role and "
        + "would be happy "
        + "to provide any "
        + "additional "
        + "information "
        + "needed.\n"
        + "\n"
        + "Looking forward "
        + "to hearing from "
        + "you!\n"
        + "\n"
        + "Best regards,\n"),
      Field("your_name"),
      Lit("\n"
        + "            ")
    ]
  }

  function FollowUpEmailTwoWeeks(): Template
  {
    [
      Lit("\n"
        + "Subject: Still "
        + "interested - "),
      Field("job_title"),
      Lit(" at "),
      Field("company"),
      Lit("\n"
        + "\n"
        + "Hi ")
    ]
    + [
      Field("recruiter_name"),
      Lit(",\n"
        + "\n"
        + "I hope you\'re "
        + "doing well! I\'m "
        + "following up on "
        + "my application "
        + "for the "),
      Field("job_title"),
      Lit(" position.\n"
        + "\n"
        + "I understand "
        + "you\'re likely "
        + "reviewing many "
        + "applications. I "
        + "wanted to share "
        + "that I "
        + "recently:\n"),
      Field("recent_relevant_achievement")
    ]
    + [
      Lit("\n"
        + "\n"
        + "This experience "
        + "has "
        + "strengthened my "
        + "conviction that "
        + "I\'d be a great "
        + "addition to the "),
      Field("team_name"),
      Lit(" team.\n"
        + "\n"
        + "Is there any "
        + "update on the "
        + "hiring "
        + "timeline?\n"
        + "\n"
        + "Best regards,\n"),
      Field("your_name"),
      Lit("\n"
        + "            ")
    ]
  }

  function ValueFirstEmail(): Template
  {
    [
      Lit("\n"
        + "Subject: "),
      Field("insight_or_resource"),
      Lit(" for "),
      Field("company"),
      Lit("\'s ")
    ]
    + [
      Field("specific_project"),
      Lit("\n"
        + "\n"
        + "Hi "),
      Field("recruiter_name"),
      Lit(",\n"
        + "\n"
        + "I recently came "
        + "across "),
      Field("company")
    ]
    + [
      Lit("\'s work on "),
      Field("specific_project"),
      Lit(" and wanted to "
        + "share "),
      Field("something_valuable"),
      Lit(":\n"
        + "\n")
    ]
    + [
      Field("brief_insight_or_resource"),
      Lit("\n"
        + "\n"
        + "I\'m "),
      Field("your_name"),
      Lit(", an AI/ML "
        + "professional "
        + "actively "
        + "working on "
        + "similar "
        + "challenges. I "
        + "recently "
        + "completed my "
        + "certification "
        + "from GUVI and "
        + "have been "
        + "building "
        + "projects in "),
      Field("domain")
    ]
    + [
      Lit(".\n"
        + "\n"
        + "If "),
      Field("company"),
      Lit(" is hiring for "
        + "roles in this "
        + "space, I\'d love "
        + "to explore how "
        + "I can "
        + "contribute!\n"
        + "\n"
        + "Best regards,\n"),
      Field("your_name"),
      Lit("\n"
        + "            ")
    ]
  }

  /** The template keys, in catalog order. */
  const Kinds: seq<string> := ["connection_request_message", "cold_email_with_job_post",
    "cold_email_no_specific_job", "follow_up_email_1_week", "follow_up_email_2_weeks",
    "value_first_email"]

  /** self.email_templates.get(template_type, ""): an unknown key selects the empty text. */
  function TemplateFor(kind: string): Template
  {
    if kind in Kinds then CatalogEntry(kind) else []
  }

  /** self.email_templates[kind] for a key of the catalog. */
  function CatalogEntry(kind: string): Template
    requires kind in Kinds
  {
    if kind == "connection_request_message" then ConnectionRequestMessage()
    else if kind == "cold_email_with_job_post" then ColdEmailWithJobPost()
    else if kind == "cold_email_no_specific_job" then ColdEmailNoSpecificJob()
    else if kind == "follow_up_email_1_week" then FollowUpEmailOneWeek()
    else if kind == "follow_up_email_2_weeks" then FollowUpEmailTwoWeeks()
    else ValueFirstEmail()
  }

  /** generate_personalized_email: the selected template filled with the merged parameters,
      the profile winning on a key both have. */
  function PersonalizedEmail(kind: string, job: map<string, string>,
                             profile: map<string, string>): string
  {
    Fill(TemplateFor(kind), job + profile)
  }

  method GeneratePersonalizedEmail(kind: string, job: map<string, string>,
                                   profile: map<string, string>) returns (email: string)
    ensures email == PersonalizedEmail(kind, job, profile)
  {
    var template := TemplateFor(kind);
    email := FillPlaceholders(template, job + profile);
  }

  /** Only the six catalog keys select a template. */
  lemma UnknownKindTemplate(kind: string)
    requires kind !in Kinds
    ensures TemplateFor(kind) == []
  {
  }

  /** An unknown template key gives the empty email. */
  lemma EmailUnknownKind(kind: string, job: map<string, string>, profile: map<string, string>)
    requires kind !in Kinds
    ensures PersonalizedEmail(kind, job, profile) == ""
  {
    UnknownKindTemplate(kind);
  }

  /** A job value under a key the profile also has never reaches the email. */
  lemma EmailProfileWins(kind: string, job: map<string, string>, profile: map<string, string>)
    ensures PersonalizedEmail(kind, job, profile) ==
      PersonalizedEmail(kind, job - profile.Keys, profile)
  {
    MergeProfileWins(job, profile);
  }

  /** The sample profile of the demo, passed both as the job details and as the profile. */
  function SampleProfile(): map<string, string>
  {
    map[
      "your_name" := "Rahul Sharma",
      "recruiter_name" := "Priya Patel",
      "company" := "Swiggy",
      "job_title" := "ML Engineer - " + "Recommendation " + "Systems",
      "relevant_skills" := "recommendation " + "engines, " + "collaborative " + "filtering",
      "specific_project" := "food " + "recommendation " + "system",
      "specific_result" := "improved " + "click-through " + "rate by 35%",
      "followers_count" := "500",
      "phone_number" := "+91-9876543210",
      "linkedin_profile" := "linkedin.com/in/r" + "ahulsharma-ml",
      "portfolio_link" := "github.com/rahuls" + "harma",
      "specific_company_initiative" := "your " + "personalized " + "food discovery " + "engine",
      "specific_detail_from_job_post" := "building " + "scalable " + "recommendation " + "models for " + "millions of " + "users",
      "your_relevant_experience" := "building a " + "similar " + "recommendation " + "system for my " + "capstone project",
      "key_requirements_from_jd" := "Python, " + "TensorFlow, and " + "A/B testing",
      "Project_1" := "Food " + "Recommendation " + "Engine",
      "Project_2" := "Sentiment " + "Analysis for " + "Reviews",
      "Project_3" := "Demand " + "Forecasting " + "Model",
      "team_name" := "ML Platform",
      "specialty" := "AI/ML",
      "recent_achievement_or_learning" := "published a " + "detailed post " + "on " + "collaborative " + "filtering that " + "got 100+ " + "engagements",
      "relevant_content_you_posted" := "analyzed " + "Swiggy's " + "personalization " + "strategy in a " + "LinkedIn post"
    ]
  }

  lemma SampleProfileLacksBrief()
    ensures "brief_description" !in SampleProfile()
  {
  }

  /** The placeholders the demo's conclusions rest on. */
  lemma DemoPlaceholders()
    ensures Field("your_name") in ColdEmailWithJobPost()
    ensures Field("brief_description") in ColdEmailWithJobPost()
    ensures Field("your_name") in ConnectionRequestMessage()
  {
  }

  /** The connection request's four placeholders all have a value in the sample profile. */
  lemma ConnectionRequestComplete()
    ensures AllPresent(ConnectionRequestMessage(), SampleProfile())
  {
  }

  /** Any parameters with your_name but without brief_description send the cold email with a
      job post down the fallback: "{your_name}" stays literally and brief_description shows
      as its bracket text. */
  lemma ColdEmailFallback(params: map<string, string>)
    requires "brief_description" !in params && "your_name" in params
    ensures !AllPresent(ColdEmailWithJobPost(), params)
    ensures Contains(Fill(ColdEmailWithJobPost(), params), Placeholder("your_name"))
    ensures Contains(Fill(ColdEmailWithJobPost(), params), Bracket("brief_description"))
  {
    DemoPlaceholders();
    var cold := ColdEmailWithJobPost();
    assert !AllPresent(cold, params) by {
      var k :| 0 <= k < |cold| && cold[k] == Field("brief_description");
    }
    FillFallback(cold, params);
  }

  /** With all its placeholders filled, the connection request carries the sender's name. */
  lemma ConnectionRequestFilled(params: map<string, string>)
    requires AllPresent(ConnectionRequestMessage(), params)
    ensures "your_name" in params
    ensures Contains(Fill(ConnectionRequestMessage(), params), params["your_name"])
  {
    DemoPlaceholders();
    var conn := ConnectionRequestMessage();
    var k :| 0 <= k < |conn| && conn[k] == Field("your_name");
    FillFull(conn, params);
  }

  /** The demo run's cold email with a job post, job details and profile both the sample
      profile: it takes the fallback. */
  lemma DemoColdEmail()
    ensures !AllPresent(ColdEmailWithJobPost(), SampleProfile() + SampleProfile())
    ensures Contains(Fill(ColdEmailWithJobPost(), SampleProfile() + SampleProfile()),
                     Placeholder("your_name"))
    ensures Contains(Fill(ColdEmailWithJobPost(), SampleProfile() + SampleProfile()),
                     Bracket("brief_description"))
  {
    SampleProfileLacksBrief();
    ColdEmailFallback(SampleProfile() + SampleProfile());
  }

  /** The demo run's connection request: it is filled in and carries the sender's name. */
  lemma DemoConnectionRequest()
    ensures AllPresent(ConnectionRequestMessage(), SampleProfile() + SampleProfile())
    ensures Contains(Fill(ConnectionRequestMessage(), SampleProfile() + SampleProfile()),
                     "Rahul Sharma")
  {
    var p := SampleProfile() + SampleProfile();
    ConnectionRequestComplete();
    assert p["your_name"] == "Rahul Sharma";
    ConnectionRequestFilled(p);
  }
}
