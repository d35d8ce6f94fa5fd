# Portfolio chatbot and typewriter — a Dafny model

This project models the decision logic of a personal portfolio web site. It has three parts.

- **The keyword responder** (`components/Chatbot/chatData.ts`). `findResponse` lower-cases a
  message, then walks the ordered table of sixteen question/answer rules, and within each rule
  its keywords. It returns the answer of the first rule with a keyword that occurs anywhere in
  the message. If no rule matches, it returns the default answer. The model is pure:
  - the table is a constant `seq<QAPair>`, with keywords and answers copied verbatim;
  - the scan is the recursive functions `KeywordHit` and `Lookup`.
- **The chat window** (`components/Chatbot/ChatBot.tsx`). `handleSend` appends the trimmed user
  text, clears the input and turns the typing indicator on. It then awaits a random delay,
  appends the bot's answer and turns the indicator off. The class `ChatBot.ChatSession` holds
  `messages`, `inputValue`, `isTyping` and `isOpen`. The await splits `handleSend` into
  two methods:
  - `Submit`, which runs before the delay;
  - `DeliverReply`, which runs after it.

  Because the delay is random, several sends can be in flight at once and their replies can
  land in any order. The field `pending` records the sends still awaiting their reply, and
  `DeliverReply(k)` delivers the reply to any one of them.
- **The typewriter effect** (`components/ui/TypeWriter.tsx`). A timer-driven state machine over
  the word index, the shown text and the deleting flag. Its parts:
  - `TypeWriter.Step` is one tick as a function;
  - the class `TypeWriter.TypeWriter` has a `Tick` method proved to perform `Step`;
  - lemmas about `Run` (many ticks) and `Elapsed` (their total delay) follow one word, and a
    whole round, through the cycle.

Module layout:
- `js_string.dfy` (`JsString`) has the JavaScript string operations the core uses: `toLowerCase`,
  `includes` and `trim`, with their laws.
- `chat_data.dfy` (`ChatData`) has the table and the responder.
- `chat_cases.dfy` (`ChatCases`) holds facts about particular messages.
- `chat_bot.dfy` (`ChatBot`) is the window.
- `type_writer.dfy` (`TypeWriter`) is the typewriter.

Two modelling assumptions:
- `toLowerCase` folds ASCII letters only.
- `trim` removes the ECMAScript white-space and line-terminator characters.

## Model

| member | source | states |
|---|---|---|
| JsString.ToLowerCaseIsLowerCase | components/Chatbot/chatData.ts:107 | the lower-cased message contains no upper-case letter |
| JsString.ToLowerCaseFixes | components/Chatbot/chatData.ts:107 | lower-casing leaves a string unchanged exactly when it has no upper-case letter |
| JsString.ToLowerCaseIdempotent | components/Chatbot/chatData.ts:107 | lower-casing twice is lower-casing once |
| JsString.IncludesTransitive | components/Chatbot/chatData.ts:111 | an occurrence of a keyword brings along every substring of that keyword |
| JsString.TrimEmptyIff | components/Chatbot/ChatBot.tsx:55 | a text trims to nothing exactly when every character is white space |
| JsString.TrimIdempotent | components/Chatbot/ChatBot.tsx:60 | trimming a trimmed text changes nothing |
| ChatData.ChatKeywordsWellFormed | components/Chatbot/chatData.ts:6-102 | every keyword in the table is non-empty and starts and ends with a lower-case letter |
| ChatData.ChatResponsesDistinct | components/Chatbot/chatData.ts:6-104 | no two rules share an answer, and no rule answers with the default answer |
| ChatData.KeywordHitIff | components/Chatbot/chatData.ts:110-114 | the inner loop finds a hit exactly when some keyword of the rule occurs in the message |
| ChatData.LookupRange | components/Chatbot/chatData.ts:109-117 | the scan returns the fallback or the answer of one of the table's rules |
| ChatData.LookupFirstMatch | components/Chatbot/chatData.ts:109-114 | when rule i hits and no earlier rule does, the scan returns rule i's answer |
| ChatData.LookupNoMatch | components/Chatbot/chatData.ts:117 | when no rule hits, the scan returns the fallback |
| ChatData.LookupAnswersByRule | components/Chatbot/chatData.ts:109-114 | when rule i hits, the answer comes from the first hitting rule, which is at or before i |
| ChatData.ShadowedKeyword | components/Chatbot/chatData.ts:109-114 | a keyword of a later rule that contains a keyword of an earlier rule never yields the later rule's answer, given distinct answers |
| ChatData.LookupSameHits | components/Chatbot/chatData.ts:109-117 | two messages that hit the same rules get the same answer |
| ChatData.FindResponseRange | components/Chatbot/chatData.ts:106-118 | every message, the empty one included, gets a rule's answer or the default answer |
| ChatData.FindResponseFirstMatch | components/Chatbot/chatData.ts:106-114 | first match wins on the real table, even when later rules also match |
| ChatData.FindResponseNoMatch | components/Chatbot/chatData.ts:117 | a message holding no keyword of any rule gets the default answer |
| ChatData.FindResponseDefaultIff | components/Chatbot/chatData.ts:106-118 | the default answer is given exactly when no rule hits |
| ChatData.FindResponseEmpty | components/Chatbot/chatData.ts:9-100 | the empty message gets the default answer, since no keyword is empty |
| ChatData.FindResponseCaseInsensitive | components/Chatbot/chatData.ts:107 | a message and its lower-cased form get the same answer |
| ChatData.FindResponseIgnoresTrim | components/Chatbot/ChatBot.tsx:60-74 | answering the untrimmed text, as the window does, gives the answer to the trimmed text it shows |
| ChatCases.HiAnywhereGreets | components/Chatbot/chatData.ts:9 | any message holding "hi", even inside a word, gets the Greetings answer |
| ChatCases.GreetingStandsApart | components/Chatbot/chatData.ts:10-88 | the greeting differs from the Experience, Contact and Availability answers |
| ChatCases.HireIsGreeted | components/Chatbot/chatData.ts:9-88 | a message holding "hire" gets the greeting, never the Contact or Availability answer |
| ChatCases.InternshipIsGreeted | components/Chatbot/chatData.ts:9-88 | a message holding "internship" gets the greeting, never the Experience or Availability answer |
| ChatCases.InternshipWordIsGreeted | components/Chatbot/chatData.ts:9-111 | the one-word message "internship" is answered with the greeting |
| ChatCases.JobNeverAvailability | components/Chatbot/chatData.ts:33-88 | "job" of the Availability rule is shadowed by the earlier Experience rule |
| ChatCases.SkillsQuestionAnswer | components/Chatbot/chatData.ts:27-28 | "What are your skills?" gets the Skills answer |
| ChatCases.AboutQuestionAnswer | components/Chatbot/chatData.ts:15-40 | "Tell me about your projects" matches the Projects rule yet gets the About answer, not the Projects one |
| ChatCases.ContactQuestionAnswer | components/Chatbot/chatData.ts:51-52 | "How can I contact you?" gets the Contact answer |
| ChatCases.ExperienceQuestionAnswer | components/Chatbot/chatData.ts:33-34 | "What's your experience?" gets the Experience answer |
| ChatCases.UnrelatedMessageAnswer | components/Chatbot/chatData.ts:117 | "xyz123 unrelated gibberish" matches no rule and gets the default answer |
| ChatBot.TrimmedIsUserText | components/Chatbot/ChatBot.tsx:55-60 | the text a non-blank send shows is non-empty and already trimmed |
| ChatBot.ChatSession.constructor | components/Chatbot/ChatBot.tsx:16-23 | a fresh window is closed, with the greeting as its only entry, an empty input and no typing indicator |
| ChatBot.ChatSession.Toggle | components/Chatbot/ChatBot.tsx:102 | the launcher flips `isOpen` and changes nothing else |
| ChatBot.ChatSession.SetInput | components/Chatbot/ChatBot.tsx:225 | typing replaces the input and changes nothing else |
| ChatBot.ChatSession.Submit | components/Chatbot/ChatBot.tsx:54-68 | a blank text changes nothing; otherwise exactly one user entry, the trimmed text, is appended after the unchanged earlier entries, the input is cleared and the indicator goes on |
| ChatBot.ChatSession.DeliverReply | components/Chatbot/ChatBot.tsx:73-83 | the reply lands as one bot entry holding `findResponse` of the untrimmed text, and the indicator goes off |
| ChatBot.ChatSession.SendInput | components/Chatbot/ChatBot.tsx:54-65 | sending the input is ignored exactly when the send button is disabled; otherwise the input becomes the next user entry |
| ChatBot.ChatSession.PressKey | components/Chatbot/ChatBot.tsx:86-91 | Enter without Shift sends the input; every other key changes nothing |
| ChatBot.ChatSession.AskQuickQuestion | components/Chatbot/ChatBot.tsx:199-207 | a quick-question button, present only while the buttons are shown, sends its question verbatim |
| ChatBot.ChatSession.Exchange | components/Chatbot/ChatBot.tsx:54-84 | a complete send with nothing else in flight appends the user entry and, right after it, the bot's answer, and ends with the indicator off |
| ChatBot.QuickQuestionsAreUserTexts | components/Chatbot/ChatBot.tsx:25-30 | each quick question is non-empty and already trimmed |
| ChatBot.SendDisabledIff | components/Chatbot/ChatBot.tsx:232 | the send button is disabled exactly when the input is all white space |
| ChatBot.QuickQuestionsLifecycle | components/Chatbot/ChatBot.tsx:199 | the quick questions are shown at the start and after the first user entry, and never again once its reply has landed |
| ChatBot.QuickQuestionReplies | components/Chatbot/ChatBot.tsx:25-30 | the four quick questions get the Skills, About, Contact and Experience answers |
| TypeWriter.Step | components/ui/TypeWriter.tsx:26-44 | one tick keeps the index in range and the text a prefix of the current word, and changes the text's length by at most one |
| TypeWriter.Run | components/ui/TypeWriter.tsx:25-49 | any number of ticks keeps that invariant |
| TypeWriter.InitialStateValid | components/ui/TypeWriter.tsx:21-23 | index 0, empty text, not deleting satisfies the invariant for any non-empty word list |
| TypeWriter.RunAdd | components/ui/TypeWriter.tsx:25-49 | ticks compose: a ticks and then b ticks are a + b ticks |
| TypeWriter.ElapsedAdd | components/ui/TypeWriter.tsx:46 | the delays of a + b ticks are those of the first a plus those of the next b |
| TypeWriter.TypingPhase | components/ui/TypeWriter.tsx:29-32 | from the word's first j characters, typing completes the word in one tick per missing character, each at the typing speed |
| TypeWriter.DeletingPhase | components/ui/TypeWriter.tsx:38-40 | from the word's first j characters while deleting, j ticks empty the text, each at the deleting speed |
| TypeWriter.TypeOutWord | components/ui/TypeWriter.tsx:29-35 | from the empty text, typing the whole word and the pause step leave the full word with deleting on |
| TypeWriter.DeleteWord | components/ui/TypeWriter.tsx:38-43 | from the full word while deleting, the deletions and the switch step reach the empty text of the next word |
| TypeWriter.WordCycle | components/ui/TypeWriter.tsx:25-49 | one word's full cycle takes 2·length + 2 ticks and ends at the next word, wrapping around |
| TypeWriter.TypeOutWordTime | components/ui/TypeWriter.tsx:35-46 | typing a word out takes (length + 1) typing delays plus one pause |
| TypeWriter.DeleteWordTime | components/ui/TypeWriter.tsx:40-46 | deleting a word and switching takes (length + 1) deleting delays |
| TypeWriter.WordCycleTime | components/ui/TypeWriter.tsx:35-46 | one word's full cycle takes the sum of those two times |
| TypeWriter.NextWord | components/ui/TypeWriter.tsx:43 | a word's cycle moves to the following word, or back to the first after the last |
| TypeWriter.RunThroughWords | components/ui/TypeWriter.tsx:25-49 | from the start of word i, the cycles of words i to the last return to the initial state |
| TypeWriter.RoundReturnsToStart | components/ui/TypeWriter.tsx:21-49 | one cycle of every word brings the machine back to its initial state |
| TypeWriter.TypeWriter.constructor | components/ui/TypeWriter.tsx:14-23 | the component starts at index 0 with empty text, not deleting, and with the given speeds, which default to 100, 50 and 2000 |
| TypeWriter.TypeWriter.Tick | components/ui/TypeWriter.tsx:25-46 | a tick performs exactly `Step`, keeps the invariant, and waits the deleting speed while deleting and the typing speed otherwise, plus the pause at the full word |

## Left out

- `toLowerCase` is modelled as ASCII case folding. Unicode case mapping, including characters whose lower-case form has a different length, is not modelled.
- Strings are sequences of characters. JavaScript's UTF-16 code units, and so the way `slice` splits surrogate pairs in the typewriter, are not modelled.
- The chat's thinking delay (`800 + Math.random() * 700` ms) is not modelled as a time. It becomes the gap between `Submit` and `DeliverReply`. The choice of which pending reply lands next is the parameter `k`.
- Message ids (`Date.now()`) and timestamps (`new Date()`) are not modelled, because they come from the clock.
- Scrolling to the newest message, focusing the input and all rendering are presentation only and are not modelled. This includes the typing-indicator animation and the chat bubbles.
- `ChatBot.ChatSession.DeliverReply` clears `isTyping` whichever reply lands, as the source does. With two sends in flight, the indicator can therefore go off while a reply is still pending. `Valid` states only the direction "indicator on ⇒ some reply pending".
- `ChatData.ChatKeywordsWellFormed` checks each keyword's first and last letters only. That is all the trimming argument needs. It does not state that every keyword is entirely lower-case.
- `TypeWriter.TypeWriter.constructor` requires a non-empty word list. The component, given none, would read `words[0]` as `undefined` and fail on its `length`.
- The `words` prop changing while the component is mounted is not modelled. The word list is fixed per instance.
- `TypeWriter.TypeWriter.Tick`: the pause is modelled as part of the tick that reaches the full word. It is the tick delay followed by the inner `setTimeout` of `pauseDuration`. That inner timeout is never cleared, so an unmount during the pause is not modelled.
- A blank send is modelled as a no-op, as the code at `components/Chatbot/ChatBot.tsx:55` does. A blank text is not treated as a caller error.
- The 3D scenes, the animated counter, the section components, the static site data and the contact-mail API route are not part of this model. They are rendering, floating-point animation and network I/O.
