/**
 * What the ordered, substring-based keyword table does with particular messages:
 * the four canned quick questions, the keywords that an earlier rule shadows, and a
 * message that no rule matches.
 */
module ChatCases {
  import opened JsString
  import opened ChatData

  // ---------------------------------------------------------------------------
  // Substring matching and first-match order at work

  /** "hi" is a keyword of the very first rule, so any message that holds those two
      letters side by side, inside whatever word, is greeted. */
  lemma HiAnywhereGreets(message: string)
    requires Includes(ToLowerCase(message), "hi")
    ensures FindResponse(message) == GreetingsRule.response
  {
    KeywordHitIff(ToLowerCase(message), GreetingsRule.keywords);
    FindResponseFirstMatch(message, 0);
  }

  lemma GreetingStandsApart()
    ensures GreetingsRule.response != ExperienceRule.response
    ensures GreetingsRule.response != ContactRule.response
    ensures GreetingsRule.response != AvailabilityRule.response
  {
    ChatResponsesDistinct();
    assert ChatResponses[0] == GreetingsRule && ChatResponses[4] == ExperienceRule;
    assert ChatResponses[7] == ContactRule && ChatResponses[13] == AvailabilityRule;
  }

  /** "hire" (a keyword of the Contact and the Availability rules) contains "hi": a
      message holding it is greeted and never gets either of those answers. */
  lemma HireIsGreeted(message: string)
    requires Includes(ToLowerCase(message), "hire")
    ensures FindResponse(message) == GreetingsRule.response
    ensures FindResponse(message) != ContactRule.response
    ensures FindResponse(message) != AvailabilityRule.response
  {
    IncludesAt("hire", "hi", 0);
    IncludesTransitive(ToLowerCase(message), "hire", "hi");
    HiAnywhereGreets(message);
    GreetingStandsApart();
  }

  /** "internship" (a keyword of the Experience and the Availability rules) contains
      "hi" as well: a message holding it is greeted and never gets either of those answers. */
  lemma InternshipIsGreeted(message: string)
    requires Includes(ToLowerCase(message), "internship")
    ensures FindResponse(message) == GreetingsRule.response
    ensures FindResponse(message) != ExperienceRule.response
    ensures FindResponse(message) != AvailabilityRule.response
  {
    IncludesAt("internship", "hi", 7);
    IncludesTransitive(ToLowerCase(message), "internship", "hi");
    HiAnywhereGreets(message);
    GreetingStandsApart();
  }

  /** The one-word message "internship" gets the greeting. */
  lemma InternshipWordIsGreeted()
    ensures FindResponse("internship") == GreetingsRule.response
  {
    ToLowerCaseChars("internship", "internship");
    IncludesAt("internship", "hi", 7);
    HiAnywhereGreets("internship");
  }

  /** "job" is a keyword of both the Experience rule and the later Availability rule:
      a message holding it never gets the Availability answer. */
  lemma JobNeverAvailability(message: string)
    requires Includes(ToLowerCase(message), "job")
    ensures FindResponse(message) != AvailabilityRule.response
  {
    ChatResponsesDistinct();
    IncludesAt("job", "job", 0);
    assert "job" in ChatResponses[4].keywords && "job" in ChatResponses[13].keywords;
    ShadowedKeyword(ChatResponses, ToLowerCase(message), DefaultResponse, 4, 13, "job", "job");
  }

  /** The lower-cased question "What are your skills?". */
  const SkillsQuestionLower: string := "what are your skills?"

  /** No keyword of the Greetings rule occurs in it. */
  lemma SkillsMissesGreetings()
    ensures !KeywordHit(SkillsQuestionLower, GreetingsRule.keywords)
  {
    var m := SkillsQuestionLower;
    NotIncludesPair(m, "hi", 0);
    NotIncludesPair(m, "hello", 0);
    NotIncludesPair(m, "hey", 0);
    NotIncludesChar(m, "greetings", 0);
    NotIncludesChar(m, "howdy", 3);
    KeywordHitIff(m, GreetingsRule.keywords);
  }

  /** No keyword of the About rule occurs in it. */
  lemma SkillsMissesAbout()
    ensures !KeywordHit(SkillsQuestionLower, AboutRule.keywords)
  {
    var m := SkillsQuestionLower;
    NotIncludesPair(m, "who", 1);
    NotIncludesChar(m, "about", 1);
    NotIncludesChar(m, "tell me about", 5);
    NotIncludesChar(m, "introduce", 1);
    NotIncludesChar(m, "yourself", 7);
    KeywordHitIff(m, AboutRule.keywords);
  }

  /** No keyword of the Education rule occurs in it. */
  lemma SkillsMissesEducation()
    ensures !KeywordHit(SkillsQuestionLower, EducationRule.keywords)
  {
    var m := SkillsQuestionLower;
    NotIncludesChar(m, "education", 1);
    NotIncludesChar(m, "study", 3);
    NotIncludesChar(m, "college", 0);
    NotIncludesChar(m, "university", 1);
    NotIncludesChar(m, "degree", 0);
    NotIncludesChar(m, "cgpa", 0);
    NotIncludesChar(m, "qualification", 0);
    KeywordHitIff(m, EducationRule.keywords);
  }

  /** "skills" occurs in it, at position 14. */
  lemma SkillsHit()
    ensures KeywordHit(SkillsQuestionLower, SkillsRule.keywords)
  {
    IncludesAt(SkillsQuestionLower, "skills", 14);
    KeywordHitIff(SkillsQuestionLower, SkillsRule.keywords);
  }

  /** The lower-cased question "Tell me about your projects". */
  const AboutQuestionLower: string := "tell me about your projects"

  /** No keyword of the Greetings rule occurs in it. */
  lemma AboutMissesGreetings()
    ensures !KeywordHit(AboutQuestionLower, GreetingsRule.keywords)
  {
    var m := AboutQuestionLower;
    NotIncludesChar(m, "hi", 0);
    NotIncludesChar(m, "hello", 0);
    NotIncludesChar(m, "hey", 0);
    NotIncludesChar(m, "greetings", 0);
    NotIncludesChar(m, "howdy", 0);
    KeywordHitIff(m, GreetingsRule.keywords);
  }

  /** "about" occurs in it, at position 8. */
  lemma AboutHit()
    ensures KeywordHit(AboutQuestionLower, AboutRule.keywords)
  {
    IncludesAt(AboutQuestionLower, "about", 8);
    KeywordHitIff(AboutQuestionLower, AboutRule.keywords);
  }

  /** The lower-cased question "How can I contact you?". */
  const ContactQuestionLower: string := "how can i contact you?"

  /** No keyword of the Greetings rule occurs in it. */
  lemma ContactMissesGreetings()
    ensures !KeywordHit(ContactQuestionLower, GreetingsRule.keywords)
  {
    var m := ContactQuestionLower;
    NotIncludesPair(m, "hi", 0);
    NotIncludesChar(m, "hello", 1);
    NotIncludesChar(m, "hey", 1);
    NotIncludesChar(m, "greetings", 0);
    NotIncludesChar(m, "howdy", 3);
    KeywordHitIff(m, GreetingsRule.keywords);
  }

  /** No keyword of the About rule occurs in it. */
  lemma ContactMissesAbout()
    ensures !KeywordHit(ContactQuestionLower, AboutRule.keywords)
  {
    var m := ContactQuestionLower;
    NotIncludesPair(m, "who", 0);
    NotIncludesChar(m, "about", 1);
    NotIncludesChar(m, "tell me about", 1);
    NotIncludesChar(m, "introduce", 3);
    NotIncludesChar(m, "yourself", 3);
    KeywordHitIff(m, AboutRule.keywords);
  }

  /** No keyword of the Education rule occurs in it. */
  lemma ContactMissesEducation()
    ensures !KeywordHit(ContactQuestionLower, EducationRule.keywords)
  {
    var m := ContactQuestionLower;
    NotIncludesChar(m, "education", 0);
    NotIncludesChar(m, "study", 0);
    NotIncludesChar(m, "college", 2);
    NotIncludesChar(m, "university", 3);
    NotIncludesChar(m, "degree", 0);
    NotIncludesChar(m, "cgpa", 1);
    NotIncludesChar(m, "qualification", 0);
    KeywordHitIff(m, EducationRule.keywords);
  }

  /** No keyword of the Skills rule occurs in it. */
  lemma ContactMissesSkills()
    ensures !KeywordHit(ContactQuestionLower, SkillsRule.keywords)
  {
    var m := ContactQuestionLower;
    NotIncludesChar(m, "skills", 0);
    NotIncludesChar(m, "technologies", 1);
    NotIncludesChar(m, "tech stack", 1);
    NotIncludesChar(m, "programming", 0);
    NotIncludesChar(m, "languages", 0);
    NotIncludesPair(m, "what can", 0);
    KeywordHitIff(m, SkillsRule.keywords);
  }

  /** No keyword of the Experience rule occurs in it. */
  lemma ContactMissesExperience()
    ensures !KeywordHit(ContactQuestionLower, ExperienceRule.keywords)
  {
    var m := ContactQuestionLower;
    NotIncludesChar(m, "experience", 0);
    NotIncludesChar(m, "work", 2);
    NotIncludesChar(m, "internship", 3);
    NotIncludesChar(m, "job", 0);
    NotIncludesChar(m, "career", 2);
    NotIncludesChar(m, "professional", 0);
    KeywordHitIff(m, ExperienceRule.keywords);
  }

  /** No keyword of the Projects rule occurs in it. */
  lemma ContactMissesProjects()
    ensures !KeywordHit(ContactQuestionLower, ProjectsRule.keywords)
  {
    var m := ContactQuestionLower;
    NotIncludesChar(m, "projects", 0);
    NotIncludesChar(m, "portfolio", 0);
    NotIncludesChar(m, "work samples", 2);
    NotIncludesChar(m, "built", 0);
    NotIncludesChar(m, "created", 1);
    NotIncludesChar(m, "developed", 0);
    KeywordHitIff(m, ProjectsRule.keywords);
  }

  /** No keyword of the Achievements rule occurs in it. */
  lemma ContactMissesAchievements()
    ensures !KeywordHit(ContactQuestionLower, AchievementsRule.keywords)
  {
    var m := ContactQuestionLower;
    NotIncludesChar(m, "achievements", 4);
    NotIncludesChar(m, "awards", 3);
    NotIncludesChar(m, "recognition", 0);
    NotIncludesChar(m, "hackathon", 3);
    NotIncludesChar(m, "competition", 2);
    NotIncludesChar(m, "accomplishments", 4);
    KeywordHitIff(m, AchievementsRule.keywords);
  }

  /** "contact" occurs in it, at position 10. */
  lemma ContactHit()
    ensures KeywordHit(ContactQuestionLower, ContactRule.keywords)
  {
    IncludesAt(ContactQuestionLower, "contact", 10);
    KeywordHitIff(ContactQuestionLower, ContactRule.keywords);
  }

  /** The lower-cased question "What's your experience?". */
  const ExperienceQuestionLower: string := "what's your experience?"

  /** No keyword of the Greetings rule occurs in it. */
  lemma ExperienceMissesGreetings()
    ensures !KeywordHit(ExperienceQuestionLower, GreetingsRule.keywords)
  {
    var m := ExperienceQuestionLower;
    NotIncludesPair(m, "hi", 0);
    NotIncludesChar(m, "hello", 2);
    NotIncludesPair(m, "hey", 0);
    NotIncludesChar(m, "greetings", 0);
    NotIncludesChar(m, "howdy", 3);
    KeywordHitIff(m, GreetingsRule.keywords);
  }

  /** No keyword of the About rule occurs in it. */
  lemma ExperienceMissesAbout()
    ensures !KeywordHit(ExperienceQuestionLower, AboutRule.keywords)
  {
    var m := ExperienceQuestionLower;
    NotIncludesPair(m, "who", 1);
    NotIncludesChar(m, "about", 1);
    NotIncludesChar(m, "tell me about", 2);
    NotIncludesChar(m, "introduce", 5);
    NotIncludesChar(m, "yourself", 6);
    KeywordHitIff(m, AboutRule.keywords);
  }

  /** No keyword of the Education rule occurs in it. */
  lemma ExperienceMissesEducation()
    ensures !KeywordHit(ExperienceQuestionLower, EducationRule.keywords)
  {
    var m := ExperienceQuestionLower;
    NotIncludesChar(m, "education", 1);
    NotIncludesChar(m, "study", 3);
    NotIncludesChar(m, "college", 2);
    NotIncludesChar(m, "university", 3);
    NotIncludesChar(m, "degree", 0);
    NotIncludesChar(m, "cgpa", 1);
    NotIncludesChar(m, "qualification", 0);
    KeywordHitIff(m, EducationRule.keywords);
  }

  /** No keyword of the Skills rule occurs in it. */
  lemma ExperienceMissesSkills()
    ensures !KeywordHit(ExperienceQuestionLower, SkillsRule.keywords)
  {
    var m := ExperienceQuestionLower;
    NotIncludesChar(m, "skills", 1);
    NotIncludesChar(m, "technologies", 6);
    NotIncludesChar(m, "tech stack", 9);
    NotIncludesChar(m, "programming", 3);
    NotIncludesChar(m, "languages", 0);
    NotIncludesPair(m, "what can", 3);
    KeywordHitIff(m, SkillsRule.keywords);
  }

  /** "experience" occurs in it, at position 12. */
  lemma ExperienceHit()
    ensures KeywordHit(ExperienceQuestionLower, ExperienceRule.keywords)
  {
    IncludesAt(ExperienceQuestionLower, "experience", 12);
    KeywordHitIff(ExperienceQuestionLower, ExperienceRule.keywords);
  }

  /** 'projects' occurs in it too, at position 19: the Projects rule matches as well. */
  lemma AboutAlsoHitsProjects()
    ensures KeywordHit(AboutQuestionLower, ProjectsRule.keywords)
  {
    IncludesAt(AboutQuestionLower, "projects", 19);
    KeywordHitIff(AboutQuestionLower, ProjectsRule.keywords);
  }

  // ---------------------------------------------------------------------------
  // First match over the rules before the one that answers

  lemma AnsweredByAbout(message: string, m: string)
    requires ToLowerCase(message) == m
    requires !KeywordHit(m, GreetingsRule.keywords)
    requires KeywordHit(m, AboutRule.keywords)
    ensures FindResponse(message) == AboutRule.response
  {
    FindResponseFirstMatch(message, 1);
  }

  lemma AnsweredBySkills(message: string, m: string)
    requires ToLowerCase(message) == m
    requires !KeywordHit(m, GreetingsRule.keywords) && !KeywordHit(m, AboutRule.keywords)
    requires !KeywordHit(m, EducationRule.keywords)
    requires KeywordHit(m, SkillsRule.keywords)
    ensures FindResponse(message) == SkillsRule.response
  {
    FindResponseFirstMatch(message, 3);
  }

  lemma AnsweredByExperience(message: string, m: string)
    requires ToLowerCase(message) == m
    requires !KeywordHit(m, GreetingsRule.keywords) && !KeywordHit(m, AboutRule.keywords)
    requires !KeywordHit(m, EducationRule.keywords) && !KeywordHit(m, SkillsRule.keywords)
    requires KeywordHit(m, ExperienceRule.keywords)
    ensures FindResponse(message) == ExperienceRule.response
  {
    FindResponseFirstMatch(message, 4);
  }

  lemma AnsweredByContact(message: string, m: string)
    requires ToLowerCase(message) == m
    requires !KeywordHit(m, GreetingsRule.keywords) && !KeywordHit(m, AboutRule.keywords)
    requires !KeywordHit(m, EducationRule.keywords) && !KeywordHit(m, SkillsRule.keywords)
    requires !KeywordHit(m, ExperienceRule.keywords) && !KeywordHit(m, ProjectsRule.keywords)
    requires !KeywordHit(m, AchievementsRule.keywords)
    requires KeywordHit(m, ContactRule.keywords)
    ensures FindResponse(message) == ContactRule.response
  {
    FindResponseFirstMatch(message, 7);
  }

  // ---------------------------------------------------------------------------
  // The four quick questions of the chat window

  const SkillsQuestion: string := "What are your skills?"
  const AboutQuestion: string := "Tell me about your projects"
  const ContactQuestion: string := "How can I contact you?"
  const ExperienceQuestion: string := "What's your experience?"

  /** "What are your skills?" gets the Skills answer. */
  lemma SkillsQuestionAnswer()
    ensures FindResponse(SkillsQuestion) == SkillsRule.response
  {
    ToLowerCaseChars(SkillsQuestion, SkillsQuestionLower);
    SkillsMissesGreetings();
    SkillsMissesAbout();
    SkillsMissesEducation();
    SkillsHit();
    AnsweredBySkills(SkillsQuestion, SkillsQuestionLower);
  }

  /** "Tell me about your projects" matches the Projects rule, but the About rule comes
      first and matches through "about": it gets the About answer, not the Projects one. */
  lemma AboutQuestionAnswer()
    ensures KeywordHit(ToLowerCase(AboutQuestion), ProjectsRule.keywords)
    ensures FindResponse(AboutQuestion) == AboutRule.response
    ensures FindResponse(AboutQuestion) != ProjectsRule.response
  {
    ToLowerCaseChars(AboutQuestion, AboutQuestionLower);
    AboutMissesGreetings();
    AboutHit();
    AboutAlsoHitsProjects();
    AnsweredByAbout(AboutQuestion, AboutQuestionLower);
    ChatResponsesDistinct();
    assert ChatResponses[1] == AboutRule && ChatResponses[5] == ProjectsRule;
  }

  /** "How can I contact you?" gets the Contact answer. */
  lemma ContactQuestionAnswer()
    ensures FindResponse(ContactQuestion) == ContactRule.response
  {
    ToLowerCaseChars(ContactQuestion, ContactQuestionLower);
    ContactMissesGreetings();
    ContactMissesAbout();
    ContactMissesEducation();
    ContactMissesSkills();
    ContactMissesExperience();
    ContactMissesProjects();
    ContactMissesAchievements();
    ContactHit();
    AnsweredByContact(ContactQuestion, ContactQuestionLower);
  }

  /** "What's your experience?" gets the Experience answer. */
  lemma ExperienceQuestionAnswer()
    ensures FindResponse(ExperienceQuestion) == ExperienceRule.response
  {
    ToLowerCaseChars(ExperienceQuestion, ExperienceQuestionLower);
    ExperienceMissesGreetings();
    ExperienceMissesAbout();
    ExperienceMissesEducation();
    ExperienceMissesSkills();
    ExperienceHit();
    AnsweredByExperience(ExperienceQuestion, ExperienceQuestionLower);
  }

  // ---------------------------------------------------------------------------
  // A message that matches nothing

  /** A message that no keyword of the table occurs in. */
  const UnrelatedMessage: string := "xyz123 unrelated gibberish"

  lemma UnrelatedMissesGreetings()
    ensures !KeywordHit(UnrelatedMessage, GreetingsRule.keywords)
  {
    var m := UnrelatedMessage;
    NotIncludesPair(m, "hi", 0);
    NotIncludesChar(m, "hello", 4);
    NotIncludesPair(m, "hey", 0);
    NotIncludesPair(m, "greetings", 0);
    NotIncludesChar(m, "howdy", 1);
    KeywordHitIff(m, GreetingsRule.keywords);
  }

  lemma UnrelatedMissesAbout()
    ensures !KeywordHit(UnrelatedMessage, AboutRule.keywords)
  {
    var m := UnrelatedMessage;
    NotIncludesChar(m, "who", 0);
    NotIncludesChar(m, "about", 2);
    NotIncludesChar(m, "tell me about", 5);
    NotIncludesChar(m, "introduce", 4);
    NotIncludesChar(m, "yourself", 1);
    KeywordHitIff(m, AboutRule.keywords);
  }

  lemma UnrelatedMissesEducation()
    ensures !KeywordHit(UnrelatedMessage, EducationRule.keywords)
  {
    var m := UnrelatedMessage;
    NotIncludesChar(m, "education", 3);
    NotIncludesPair(m, "study", 0);
    NotIncludesChar(m, "college", 0);
    NotIncludesChar(m, "university", 3);
    NotIncludesPair(m, "degree", 0);
    NotIncludesChar(m, "cgpa", 0);
    NotIncludesChar(m, "qualification", 0);
    KeywordHitIff(m, EducationRule.keywords);
  }

  lemma UnrelatedMissesSkills()
    ensures !KeywordHit(UnrelatedMessage, SkillsRule.keywords)
  {
    var m := UnrelatedMessage;
    NotIncludesChar(m, "skills", 1);
    NotIncludesChar(m, "technologies", 2);
    NotIncludesChar(m, "tech stack", 2);
    NotIncludesChar(m, "programming", 0);
    NotIncludesPair(m, "languages", 1);
    NotIncludesChar(m, "what can", 0);
    KeywordHitIff(m, SkillsRule.keywords);
  }

  lemma UnrelatedMissesExperience()
    ensures !KeywordHit(UnrelatedMessage, ExperienceRule.keywords)
  {
    var m := UnrelatedMessage;
    NotIncludesChar(m, "experience", 2);
    NotIncludesChar(m, "work", 0);
    NotIncludesChar(m, "internship", 9);
    NotIncludesChar(m, "job", 0);
    NotIncludesChar(m, "career", 0);
    NotIncludesChar(m, "professional", 0);
    KeywordHitIff(m, ExperienceRule.keywords);
  }

  lemma UnrelatedMissesProjects()
    ensures !KeywordHit(UnrelatedMessage, ProjectsRule.keywords)
  {
    var m := UnrelatedMessage;
    NotIncludesChar(m, "projects", 0);
    NotIncludesChar(m, "portfolio", 0);
    NotIncludesChar(m, "work samples", 0);
    NotIncludesPair(m, "built", 0);
    NotIncludesChar(m, "created", 0);
    NotIncludesChar(m, "developed", 2);
    KeywordHitIff(m, ProjectsRule.keywords);
  }

  lemma UnrelatedMissesAchievements()
    ensures !KeywordHit(UnrelatedMessage, AchievementsRule.keywords)
  {
    var m := UnrelatedMessage;
    NotIncludesChar(m, "achievements", 1);
    NotIncludesChar(m, "awards", 1);
    NotIncludesChar(m, "recognition", 2);
    NotIncludesChar(m, "hackathon", 2);
    NotIncludesChar(m, "competition", 0);
    NotIncludesChar(m, "accomplishments", 1);
    KeywordHitIff(m, AchievementsRule.keywords);
  }

  lemma UnrelatedMissesContact()
    ensures !KeywordHit(UnrelatedMessage, ContactRule.keywords)
  {
    var m := UnrelatedMessage;
    NotIncludesChar(m, "contact", 0);
    NotIncludesChar(m, "reach", 3);
    NotIncludesChar(m, "email", 1);
    NotIncludesChar(m, "phone", 0);
    NotIncludesPair(m, "hire", 0);
    NotIncludesChar(m, "connect", 0);
    NotIncludesChar(m, "message", 0);
    KeywordHitIff(m, ContactRule.keywords);
  }

  lemma UnrelatedMissesLocation()
    ensures !KeywordHit(UnrelatedMessage, LocationRule.keywords)
  {
    var m := UnrelatedMessage;
    NotIncludesChar(m, "location", 1);
    NotIncludesChar(m, "where", 0);
    NotIncludesChar(m, "city", 0);
    NotIncludesPair(m, "based", 0);
    NotIncludesChar(m, "live", 2);
    KeywordHitIff(m, LocationRule.keywords);
  }

  lemma UnrelatedMissesAiMl()
    ensures !KeywordHit(UnrelatedMessage, AiMlRule.keywords)
  {
    var m := UnrelatedMessage;
    NotIncludesPair(m, "rag", 0);
    NotIncludesChar(m, "generative ai", 8);
    NotIncludesChar(m, "llm", 2);
    NotIncludesChar(m, "langchain", 4);
    NotIncludesChar(m, "ollama", 0);
    KeywordHitIff(m, AiMlRule.keywords);
  }

  lemma UnrelatedMissesWebScraping()
    ensures !KeywordHit(UnrelatedMessage, WebScrapingRule.keywords)
  {
    var m := UnrelatedMessage;
    NotIncludesChar(m, "scraping", 1);
    NotIncludesChar(m, "selenium", 7);
    NotIncludesChar(m, "playwright", 0);
    NotIncludesChar(m, "automation", 3);
    NotIncludesChar(m, "data extraction", 10);
    KeywordHitIff(m, WebScrapingRule.keywords);
  }

  lemma UnrelatedMissesDataScience()
    ensures !KeywordHit(UnrelatedMessage, DataScienceRule.keywords)
  {
    var m := UnrelatedMessage;
    NotIncludesChar(m, "data science", 6);
    NotIncludesPair(m, "analysis", 0);
    NotIncludesChar(m, "pandas", 0);
    NotIncludesChar(m, "numpy", 2);
    NotIncludesChar(m, "visualization", 0);
    KeywordHitIff(m, DataScienceRule.keywords);
  }

  lemma UnrelatedMissesGdg()
    ensures !KeywordHit(UnrelatedMessage, GdgRule.keywords)
  {
    var m := UnrelatedMessage;
    NotIncludesPair(m, "gdg", 0);
    NotIncludesChar(m, "google", 1);
    NotIncludesChar(m, "developer group", 2);
    NotIncludesChar(m, "community", 0);
    NotIncludesPair(m, "lead", 0);
    KeywordHitIff(m, GdgRule.keywords);
  }

  lemma UnrelatedMissesAvailability()
    ensures !KeywordHit(UnrelatedMessage, AvailabilityRule.keywords)
  {
    var m := UnrelatedMessage;
    NotIncludesChar(m, "available", 1);
    NotIncludesPair(m, "hire", 0);
    NotIncludesChar(m, "opportunity", 0);
    NotIncludesChar(m, "job", 0);
    NotIncludesChar(m, "position", 0);
    NotIncludesChar(m, "internship", 9);
    NotIncludesChar(m, "work with", 0);
    KeywordHitIff(m, AvailabilityRule.keywords);
  }

  lemma UnrelatedMissesThanks()
    ensures !KeywordHit(UnrelatedMessage, ThanksRule.keywords)
  {
    var m := UnrelatedMessage;
    NotIncludesChar(m, "thank", 4);
    NotIncludesChar(m, "thanks", 4);
    NotIncludesChar(m, "appreciate", 1);
    NotIncludesChar(m, "helpful", 3);
    KeywordHitIff(m, ThanksRule.keywords);
  }

  lemma UnrelatedMissesBye()
    ensures !KeywordHit(UnrelatedMessage, ByeRule.keywords)
  {
    var m := UnrelatedMessage;
    NotIncludesPair(m, "bye", 0);
    NotIncludesChar(m, "goodbye", 1);
    NotIncludesChar(m, "see you", 5);
    NotIncludesTriple(m, "later", 2);
    KeywordHitIff(m, ByeRule.keywords);
  }

  /** Rules 0 to 3 of the table all miss `m`. */
  lemma MissesRules0(m: string)
    requires !KeywordHit(m, GreetingsRule.keywords)
    requires !KeywordHit(m, AboutRule.keywords)
    requires !KeywordHit(m, EducationRule.keywords)
    requires !KeywordHit(m, SkillsRule.keywords)
    ensures forall i | 0 <= i < 4 :: !KeywordHit(m, ChatResponses[i].keywords)
  {
  }
  /** Rules 4 to 7 of the table all miss `m`. */
  lemma MissesRules4(m: string)
    requires !KeywordHit(m, ExperienceRule.keywords)
    requires !KeywordHit(m, ProjectsRule.keywords)
    requires !KeywordHit(m, AchievementsRule.keywords)
    requires !KeywordHit(m, ContactRule.keywords)
    ensures forall i | 4 <= i < 8 :: !KeywordHit(m, ChatResponses[i].keywords)
  {
  }
  /** Rules 8 to 11 of the table all miss `m`. */
  lemma MissesRules8(m: string)
    requires !KeywordHit(m, LocationRule.keywords)
    requires !KeywordHit(m, AiMlRule.keywords)
    requires !KeywordHit(m, WebScrapingRule.keywords)
    requires !KeywordHit(m, DataScienceRule.keywords)
    ensures forall i | 8 <= i < 12 :: !KeywordHit(m, ChatResponses[i].keywords)
  {
  }
  /** Rules 12 to 15 of the table all miss `m`. */
  lemma MissesRules12(m: string)
    requires !KeywordHit(m, GdgRule.keywords)
    requires !KeywordHit(m, AvailabilityRule.keywords)
    requires !KeywordHit(m, ThanksRule.keywords)
    requires !KeywordHit(m, ByeRule.keywords)
    ensures forall i | 12 <= i < 16 :: !KeywordHit(m, ChatResponses[i].keywords)
  {
  }
  lemma AnsweredByDefault(message: string, m: string)
    requires ToLowerCase(message) == m
    requires !KeywordHit(m, GreetingsRule.keywords) && !KeywordHit(m, AboutRule.keywords)
    requires !KeywordHit(m, EducationRule.keywords) && !KeywordHit(m, SkillsRule.keywords)
    requires !KeywordHit(m, ExperienceRule.keywords) && !KeywordHit(m, ProjectsRule.keywords)
    requires !KeywordHit(m, AchievementsRule.keywords) && !KeywordHit(m, ContactRule.keywords)
    requires !KeywordHit(m, LocationRule.keywords) && !KeywordHit(m, AiMlRule.keywords)
    requires !KeywordHit(m, WebScrapingRule.keywords) && !KeywordHit(m, DataScienceRule.keywords)
    requires !KeywordHit(m, GdgRule.keywords) && !KeywordHit(m, AvailabilityRule.keywords)
    requires !KeywordHit(m, ThanksRule.keywords) && !KeywordHit(m, ByeRule.keywords)
    ensures FindResponse(message) == DefaultResponse
  {
    MissesRules0(m);
    MissesRules4(m);
    MissesRules8(m);
    MissesRules12(m);
    LookupNoMatch(ChatResponses, m, DefaultResponse);
  }

  /** "xyz123 unrelated gibberish" matches no rule and gets the default answer. */
  lemma UnrelatedMessageAnswer()
    ensures FindResponse(UnrelatedMessage) == DefaultResponse
  {
    ToLowerCaseChars(UnrelatedMessage, UnrelatedMessage);
    UnrelatedMissesGreetings();
    UnrelatedMissesAbout();
    UnrelatedMissesEducation();
    UnrelatedMissesSkills();
    UnrelatedMissesExperience();
    UnrelatedMissesProjects();
    UnrelatedMissesAchievements();
    UnrelatedMissesContact();
    UnrelatedMissesLocation();
    UnrelatedMissesAiMl();
    UnrelatedMissesWebScraping();
    UnrelatedMissesDataScience();
    UnrelatedMissesGdg();
    UnrelatedMissesAvailability();
    UnrelatedMissesThanks();
    UnrelatedMissesBye();
    AnsweredByDefault(UnrelatedMessage, UnrelatedMessage);
  }
}
