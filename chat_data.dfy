module ChatData {
  import opened JsString

  /** One rule of the response table: trigger keywords and a canned answer. */
  datatype QAPair = QAPair(keywords: seq<string>, response: string)

  // The rules of the table, in the order the table lists them.

  const GreetingsRule: QAPair :=
    QAPair(["hi", "hello", "hey", "greetings", "howdy"],
           "Hey there! I'm Shubham's AI assistant. I can tell you about his skills, projects, experience, or how to get in touch. What would you like to know?")

  const AboutRule: QAPair :=
    QAPair(["who", "about", "tell me about", "introduce", "yourself"],
           "Shubham Rahangdale is an AI/ML Engineer from Bhopal, India. He's pursuing B.Tech in AI & ML at SIRT with a 7.67 CGPA. He specializes in Generative AI, RAG systems, and building intelligent applications. He's worked on projects ranging from fruit freshness detection to banking API assistants!")

  const EducationRule: QAPair :=
    QAPair(["education", "study", "college", "university", "degree", "cgpa", "qualification"],
           "Shubham is pursuing B.Tech in Artificial Intelligence and Machine Learning at Sagar Institute of Research and Technology (SIRT), Bhopal. His current CGPA is 7.67/10. His coursework includes Machine Learning, AI, Data Science, and Computer Vision. He completed Class XII from C.J. Patel College, Tirora with 80%.")

  const SkillsRule: QAPair :=
    QAPair(["skills", "technologies", "tech stack", "programming", "languages", "what can"],
           "Shubham is skilled in: Python (95%), FastAPI, Flask, LangChain, RAG systems, TensorFlow, Scikit-learn, Selenium, Playwright, and more. He works with AI tools like Ollama, FAISS, ChromaDB, and Gemini API. He's also proficient in SQL, NumPy, Pandas, and Power BI for data analysis!")

  const ExperienceRule: QAPair :=
    QAPair(["experience", "work", "internship", "job", "career", "professional"],
           "Shubham has impressive experience: 1) AI Intern at Inventohack Innovations - built GreenScan fruit freshness detection with Gemini API. 2) AI Engineer Intern at Prevoyance IT Solutions - developed ICICI Bank API Assistant using RAG & Ollama. 3) Government project for Ghana via protean.gov - built e-commerce data extraction pipelines.")

  const ProjectsRule: QAPair :=
    QAPair(["projects", "portfolio", "work samples", "built", "created", "developed"],
           "Shubham's key projects: 1) AI-Powered Smart Bank API Search - Banking assistant using FastAPI, FAISS, RAG & Ollama. 2) GreenScan - Fruit freshness detection with Gemini API. 3) Heart Disease Diagnosis - ML model with copyright (L-157174/2024), presented at IIT Mandi. Check his GitHub: github.com/TR0J49!")

  const AchievementsRule: QAPair :=
    QAPair(["achievements", "awards", "recognition", "hackathon", "competition", "accomplishments"],
           "Shubham's achievements: Data Analytics Lead at GDG, Finalist in ML Matchup Challenge (200+ teams), 4th Place at Version Beta Hackathon (MANIT Bhopal), Top 5 at TechNext Hackathon (IIT BHU). He also has a Code Copyright (L-157174/2024) for his cardiovascular disease prediction model!")

  const ContactRule: QAPair :=
    QAPair(["contact", "reach", "email", "phone", "hire", "connect", "message"],
           "You can reach Shubham at: Email: rahangdaleshubham2003@gmail.com | Phone: +91 9284941351 | LinkedIn: linkedin.com/in/shubham-ai-ml | GitHub: github.com/TR0J49. He's currently open to AI/ML internships and full-time opportunities!")

  const LocationRule: QAPair :=
    QAPair(["location", "where", "city", "based", "live"],
           "Shubham is based in Bhopal, Madhya Pradesh, India. He's open to both remote and on-site opportunities!")

  const AiMlRule: QAPair :=
    QAPair(["rag", "generative ai", "llm", "langchain", "ollama"],
           "Shubham specializes in RAG (Retrieval Augmented Generation) systems! He's built the ICICI Bank API Assistant using LangChain, FAISS, ChromaDB, and Ollama. He has hands-on experience with Gemini API and building production-ready GenAI applications.")

  const WebScrapingRule: QAPair :=
    QAPair(["scraping", "selenium", "playwright", "automation", "data extraction"],
           "Shubham is an expert in web scraping and automation! He's used Selenium, Playwright, and Beautiful Soup for a government project (Ghana via protean.gov), building automated e-commerce data extraction pipelines with Ollama LLM integration.")

  const DataScienceRule: QAPair :=
    QAPair(["data science", "analysis", "pandas", "numpy", "visualization"],
           "Shubham has strong data science skills with NumPy, Pandas, and Scikit-learn. He's also the Data Analytics Lead at Google Developer Group (GDG). He uses Power BI for visualization and has experience with PostgreSQL for database management.")

  const GdgRule: QAPair :=
    QAPair(["gdg", "google", "developer group", "community", "lead"],
           "Shubham is the Data Analytics Lead at Google Developer Group (GDG)! He leads analytics initiatives and promotes Google technologies within the developer community.")

  const AvailabilityRule: QAPair :=
    QAPair(["available", "hire", "opportunity", "job", "position", "internship", "work with"],
           "Yes! Shubham is currently available and actively looking for AI/ML opportunities - both internships and full-time positions. He's open to remote and on-site roles. Reach out at rahangdaleshubham2003@gmail.com!")

  const ThanksRule: QAPair :=
    QAPair(["thank", "thanks", "appreciate", "helpful"],
           "You're welcome! Feel free to ask more questions about Shubham's skills, projects, or how to get in touch. Good luck!")

  const ByeRule: QAPair :=
    QAPair(["bye", "goodbye", "see you", "later"],
           "Goodbye! Don't forget to connect with Shubham on LinkedIn or check out his GitHub projects. Take care!")

  /** The ordered rule table; earlier rules take precedence. */
  const ChatResponses: seq<QAPair> := [
    GreetingsRule, AboutRule, EducationRule, SkillsRule,
    ExperienceRule, ProjectsRule, AchievementsRule, ContactRule,
    LocationRule, AiMlRule, WebScrapingRule, DataScienceRule,
    GdgRule, AvailabilityRule, ThanksRule, ByeRule
  ]

  /** The answer given when no rule matches. */
  const DefaultResponse: string := "I'm not sure about that. Try asking about Shubham's skills, projects, experience, education, or how to contact him!"

  /** The inner loop over one rule's keywords: does any of them occur in the message?
      (What the answer means is stated by `KeywordHitIff`.) */
  function KeywordHit(lowerMessage: string, keywords: seq<string>): bool
  {
    if keywords == [] then false
    else Includes(lowerMessage, keywords[0]) || KeywordHit(lowerMessage, keywords[1..])
  }

  /** The outer loop: the response of the first rule with a keyword hit, else `fallback`. */
  function Lookup(table: seq<QAPair>, lowerMessage: string, fallback: string): string
  {
    if table == [] then fallback
    else if KeywordHit(lowerMessage, table[0].keywords) then table[0].response
    else Lookup(table[1..], lowerMessage, fallback)
  }

  /** `findResponse`: lower-case the message, then look it up in the rule table. */
  function FindResponse(message: string): string
  {
    Lookup(ChatResponses, ToLowerCase(message), DefaultResponse)
  }

  /** What the matcher relies on in the table without checking it: every keyword is
      non-empty and starts and ends with a lower-case ASCII letter (so it is found in
      the lower-cased message, and no occurrence of it can touch surrounding white space). */
  predicate WellFormedKeyword(k: string)
  {
    k != [] && 'a' <= k[0] <= 'z' && 'a' <= k[|k| - 1] <= 'z'
  }

  predicate WellFormedRule(qa: QAPair)
  {
    forall j | 0 <= j < |qa.keywords| :: WellFormedKeyword(qa.keywords[j])
  }

  lemma RulesWellFormed0()
    ensures forall i | 0 <= i < 4 :: WellFormedRule(ChatResponses[i])
  {
  }

  lemma RulesWellFormed4()
    ensures forall i | 4 <= i < 8 :: WellFormedRule(ChatResponses[i])
  {
  }

  lemma RulesWellFormed8()
    ensures forall i | 8 <= i < 12 :: WellFormedRule(ChatResponses[i])
  {
  }

  lemma RulesWellFormed12()
    ensures forall i | 12 <= i < |ChatResponses| :: WellFormedRule(ChatResponses[i])
  {
  }

  lemma ChatKeywordsWellFormed()
    ensures forall i, j | 0 <= i < |ChatResponses| && 0 <= j < |ChatResponses[i].keywords| ::
      WellFormedKeyword(ChatResponses[i].keywords[j])
  {
    RulesWellFormed0();
    RulesWellFormed4();
    RulesWellFormed8();
    RulesWellFormed12();
  }

  /** No two rules share a response, so a response identifies the rule that gave it. */
  lemma ChatResponsesDistinct()
    ensures forall i, j | 0 <= i < j < |ChatResponses| :: ChatResponses[i].response != ChatResponses[j].response
    ensures forall i | 0 <= i < |ChatResponses| :: ChatResponses[i].response != DefaultResponse
  {
  }

  // ---------------------------------------------------------------------------
  // The scan over an arbitrary ordered table

  /** A rule hits exactly when one of its keywords occurs in the message. */
  lemma {:induction false} KeywordHitIff(lowerMessage: string, keywords: seq<string>)
    ensures KeywordHit(lowerMessage, keywords) <==> exists k | k in keywords :: Includes(lowerMessage, k)
    decreases |keywords|
  {
    if keywords != [] {
      KeywordHitIff(lowerMessage, keywords[1..]);
      assert forall k | k in keywords :: k == keywords[0] || k in keywords[1..];
    }
  }

  /** The scan never invents an answer: it is the fallback or some rule's response. */
  lemma {:induction false} LookupRange(table: seq<QAPair>, lowerMessage: string, fallback: string)
    ensures var r := Lookup(table, lowerMessage, fallback);
      r == fallback || exists i | 0 <= i < |table| :: r == table[i].response
  {
    if table != [] && !KeywordHit(lowerMessage, table[0].keywords) {
      LookupRange(table[1..], lowerMessage, fallback);
      var r := Lookup(table, lowerMessage, fallback);
      if r != fallback {
        var i :| 0 <= i < |table[1..]| && r == table[1..][i].response;
        assert r == table[i + 1].response;
      }
    }
  }

  /** First match wins: when rule `i` is the first rule with a keyword hit, its
      response is the answer, whatever later rules would say. */
  lemma {:induction false} LookupFirstMatch(table: seq<QAPair>, lowerMessage: string, fallback: string, i: nat)
    requires i < |table| && KeywordHit(lowerMessage, table[i].keywords)
    requires forall j | 0 <= j < i :: !KeywordHit(lowerMessage, table[j].keywords)
    ensures Lookup(table, lowerMessage, fallback) == table[i].response
  {
    if i > 0 {
      assert !KeywordHit(lowerMessage, table[0].keywords);
      LookupFirstMatch(table[1..], lowerMessage, fallback, i - 1);
    }
  }

  /** A message no rule hits gets exactly the fallback. */
  lemma {:induction false} LookupNoMatch(table: seq<QAPair>, lowerMessage: string, fallback: string)
    requires forall j | 0 <= j < |table| :: !KeywordHit(lowerMessage, table[j].keywords)
    ensures Lookup(table, lowerMessage, fallback) == fallback
  {
    if table != [] {
      LookupNoMatch(table[1..], lowerMessage, fallback);
    }
  }

  /** A hit on rule `i` means the answer comes from rule `i` or from an earlier rule
      that also hits: the first one that does. */
  lemma {:induction false} LookupAnswersByRule(table: seq<QAPair>, lowerMessage: string, fallback: string, i: nat)
    returns (first: nat)
    requires i < |table| && KeywordHit(lowerMessage, table[i].keywords)
    ensures first <= i && KeywordHit(lowerMessage, table[first].keywords)
    ensures forall j | 0 <= j < first :: !KeywordHit(lowerMessage, table[j].keywords)
    ensures Lookup(table, lowerMessage, fallback) == table[first].response
  {
    if KeywordHit(lowerMessage, table[0].keywords) {
      first := 0;
    } else {
      var rest := LookupAnswersByRule(table[1..], lowerMessage, fallback, i - 1);
      first := rest + 1;
    }
  }

  /** A keyword of rule `j` that contains a keyword of an earlier rule `i` is dead: a
      message holding it always hits rule `i` or an earlier rule first, so with distinct
      responses it never gets rule `j`'s answer. */
  lemma ShadowedKeyword(table: seq<QAPair>, lowerMessage: string, fallback: string,
                        i: nat, j: nat, k: string, e: string)
    requires i < j < |table| && k in table[j].keywords && e in table[i].keywords
    requires forall a, b | 0 <= a < b < |table| :: table[a].response != table[b].response
    requires Includes(k, e) && Includes(lowerMessage, k)
    ensures Lookup(table, lowerMessage, fallback) != table[j].response
  {
    IncludesTransitive(lowerMessage, k, e);
    KeywordHitIff(lowerMessage, table[i].keywords);
    var first := LookupAnswersByRule(table, lowerMessage, fallback, i);
  }

  /** Two messages that hit exactly the same rules get the same answer. */
  lemma {:induction false} LookupSameHits(table: seq<QAPair>, m1: string, m2: string, fallback: string)
    requires forall j | 0 <= j < |table| :: KeywordHit(m1, table[j].keywords) == KeywordHit(m2, table[j].keywords)
    ensures Lookup(table, m1, fallback) == Lookup(table, m2, fallback)
  {
    if table != [] {
      assert KeywordHit(m1, table[0].keywords) == KeywordHit(m2, table[0].keywords);
      LookupSameHits(table[1..], m1, m2, fallback);
    }
  }

  // ---------------------------------------------------------------------------
  // findResponse over the chatbot's own table

  /** `findResponse` is total and answers with some rule's response or with the default. */
  lemma FindResponseRange(message: string)
    ensures var r := FindResponse(message);
      r == DefaultResponse || exists i | 0 <= i < |ChatResponses| :: r == ChatResponses[i].response
  {
    LookupRange(ChatResponses, ToLowerCase(message), DefaultResponse);
  }

  /** `findResponse` answers with the first rule whose keyword occurs in the lower-cased message. */
  lemma FindResponseFirstMatch(message: string, i: nat)
    requires i < |ChatResponses| && KeywordHit(ToLowerCase(message), ChatResponses[i].keywords)
    requires forall j | 0 <= j < i :: !KeywordHit(ToLowerCase(message), ChatResponses[j].keywords)
    ensures FindResponse(message) == ChatResponses[i].response
  {
    LookupFirstMatch(ChatResponses, ToLowerCase(message), DefaultResponse, i);
  }

  /** No keyword of any rule occurs in the lower-cased message: the default answer. */
  lemma FindResponseNoMatch(message: string)
    requires forall i, k | 0 <= i < |ChatResponses| && k in ChatResponses[i].keywords :: !Includes(ToLowerCase(message), k)
    ensures FindResponse(message) == DefaultResponse
  {
    forall i | 0 <= i < |ChatResponses| ensures !KeywordHit(ToLowerCase(message), ChatResponses[i].keywords) {
      KeywordHitIff(ToLowerCase(message), ChatResponses[i].keywords);
    }
    LookupNoMatch(ChatResponses, ToLowerCase(message), DefaultResponse);
  }

  /** The default answer is given exactly when no rule hits. */
  lemma FindResponseDefaultIff(message: string)
    ensures FindResponse(message) == DefaultResponse <==>
      forall i | 0 <= i < |ChatResponses| :: !KeywordHit(ToLowerCase(message), ChatResponses[i].keywords)
  {
    var m := ToLowerCase(message);
    if i :| 0 <= i < |ChatResponses| && KeywordHit(m, ChatResponses[i].keywords) {
      var first := LookupAnswersByRule(ChatResponses, m, DefaultResponse, i);
      ChatResponsesDistinct();
    } else {
      LookupNoMatch(ChatResponses, m, DefaultResponse);
    }
  }

  /** The empty message gets the default answer, because no keyword is empty. */
  lemma FindResponseEmpty()
    ensures FindResponse("") == DefaultResponse
  {
    ChatKeywordsWellFormed();
    forall i, k | 0 <= i < |ChatResponses| && k in ChatResponses[i].keywords
      ensures !Includes(ToLowerCase(""), k)
    {
      IncludesEmpty("", k);
    }
    FindResponseNoMatch("");
  }

  /** Matching ignores case: a message and its lower-cased form get the same answer. */
  lemma FindResponseCaseInsensitive(message: string)
    ensures FindResponse(message) == FindResponse(ToLowerCase(message))
  {
    ToLowerCaseIdempotent(message);
  }

  /** An occurrence of a keyword that neither starts nor ends with white space lies
      inside the trimmed part of the message. */
  lemma OccurrenceInsideTrim(s: string, k: string, p: nat)
    requires k != [] && !IsWhiteSpace(k[0]) && !IsWhiteSpace(k[|k| - 1])
    requires OccursAt(ToLowerCase(s), k, p)
    ensures Includes(ToLowerCase(Trim(s)), k)
  {
    var a, b := TrimBounds(s);
    var lower := ToLowerCase(s);
    ToLowerCaseSlice(s, a, b);
    var q := p + |k| - 1;
    assert lower[p..p + |k|][0] == lower[p];
    assert lower[p..p + |k|][|k| - 1] == lower[q];
    LowerCharKeepsWhiteSpace(s[p]);
    LowerCharKeepsWhiteSpace(s[q]);
    assert !IsWhiteSpace(s[p]) && !IsWhiteSpace(s[q]);
    assert a <= p && q < b;
    SliceOfSlice(lower, a, b, p - a, p - a + |k|);
    IncludesAt(lower[a..b], k, p - a);
  }

  /** A keyword that neither starts nor ends with white space occurs in the lower-cased
      message exactly when it occurs in the lower-cased trimmed message. */
  lemma IncludesIgnoresTrim(s: string, k: string)
    requires k != [] && !IsWhiteSpace(k[0]) && !IsWhiteSpace(k[|k| - 1])
    ensures Includes(ToLowerCase(Trim(s)), k) == Includes(ToLowerCase(s), k)
  {
    var a, b := TrimBounds(s);
    ToLowerCaseSlice(s, a, b);
    if Includes(ToLowerCase(Trim(s)), k) {
      IncludesInSlice(ToLowerCase(s), k, a, b);
    }
    if Includes(ToLowerCase(s), k) {
      var p :| 0 <= p <= |ToLowerCase(s)| - |k| && OccursAt(ToLowerCase(s), k, p);
      OccurrenceInsideTrim(s, k, p);
    }
  }

  /** Surrounding white space never changes the answer: replying to the untrimmed
      text (as the chat window does) is the same as replying to the trimmed text it shows. */
  lemma FindResponseIgnoresTrim(message: string)
    ensures FindResponse(Trim(message)) == FindResponse(message)
  {
    ChatKeywordsWellFormed();
    var m1, m2 := ToLowerCase(Trim(message)), ToLowerCase(message);
    forall i | 0 <= i < |ChatResponses|
      ensures KeywordHit(m1, ChatResponses[i].keywords) == KeywordHit(m2, ChatResponses[i].keywords)
    {
      var ks := ChatResponses[i].keywords;
      forall k | k in ks ensures Includes(m1, k) == Includes(m2, k) {
        IncludesIgnoresTrim(message, k);
      }
      KeywordHitIff(m1, ks);
      KeywordHitIff(m2, ks);
    }
    LookupSameHits(ChatResponses, m1, m2, DefaultResponse);
  }
}
