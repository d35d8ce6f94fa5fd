/**
 * The chat window's state and its send logic. `handleSend` is split at its one
 * suspension point: `Submit` is everything before the thinking delay, `DeliverReply`
 * everything after it. Replies to several quick sends can land in any order, so a
 * delivery names the pending send it answers.
 */
module ChatBot {
  import opened JsString
  import opened ChatData
  import opened ChatCases

  /** A transcript entry; the numeric id and the timestamp are not modelled. */
  datatype Message = Message(text: string, isBot: bool)

  const Greeting: string :=
    "Hi! I'm Shubham's AI assistant. Ask me about his skills, projects, experience, or how to get in touch!"

  /** The transcript a fresh chat window starts with: the bot's greeting alone. */
  const InitialMessages: seq<Message> := [Message(Greeting, true)]

  /** The canned questions offered as buttons, in display order. */
  const QuickQuestions: seq<string> := [SkillsQuestion, AboutQuestion, ContactQuestion, ExperienceQuestion]

  /** The quick-question buttons are rendered while the transcript has at most two entries. */
  predicate QuickQuestionsShown(messages: seq<Message>)
  {
    |messages| <= 2
  }

  /** The send button is disabled while the input trims to nothing. */
  predicate SendDisabled(inputValue: string)
  {
    Trim(inputValue) == []
  }

  /** The number of entries in `messages` written by the bot (`isBot`) or by the user. */
  function CountBy(messages: seq<Message>, isBot: bool): (n: nat)
    ensures n <= |messages|
  {
    if messages == [] then 0
    else CountBy(messages[..|messages| - 1], isBot) + (if messages[|messages| - 1].isBot == isBot then 1 else 0)
  }

  lemma CountByAppend(messages: seq<Message>, m: Message, isBot: bool)
    ensures CountBy(messages + [m], isBot) == CountBy(messages, isBot) + (if m.isBot == isBot then 1 else 0)
  {
    assert (messages + [m])[..|messages|] == messages;
  }

  /** What the window shows as a user entry: non-empty, with nothing left to trim. */
  predicate IsUserText(text: string)
  {
    text != [] && Trim(text) == text
  }

  /** The text a non-blank send shows is a user text. */
  lemma TrimmedIsUserText(text: string)
    requires Trim(text) != []
    ensures IsUserText(Trim(text))
  {
    TrimIdempotent(text);
  }

  class ChatSession {
    var isOpen: bool
    var messages: seq<Message>
    var inputValue: string
    var isTyping: bool
    /** The texts of the sends whose replies are still on their way, oldest first. */
    var pending: seq<string>

    /** The transcript opens with the greeting, every user entry is trimmed text, every
        user entry has been answered or is pending, and the typing indicator is only on
        while some reply is pending. */
    predicate Valid()
      reads this
    {
      && |messages| >= 1 && messages[0] == Message(Greeting, true)
      && (forall i | 0 <= i < |messages| :: !messages[i].isBot ==> IsUserText(messages[i].text))
      && (forall k | 0 <= k < |pending| :: Trim(pending[k]) != [])
      && CountBy(messages, false) == CountBy(messages, true) - 1 + |pending|
      && (isTyping ==> pending != [])
    }

    constructor()
      ensures Valid()
      ensures !isOpen && messages == InitialMessages && inputValue == "" && !isTyping && pending == []
    {
      isOpen := false;
      messages := InitialMessages;
      inputValue := "";
      isTyping := false;
      pending := [];
    }

    /** The launcher button opens or closes the window. */
    method Toggle()
      requires Valid()
      modifies this
      ensures Valid()
      ensures isOpen == !old(isOpen)
      ensures messages == old(messages) && inputValue == old(inputValue)
      ensures isTyping == old(isTyping) && pending == old(pending)
    {
      isOpen := !isOpen;
    }

    /** Typing into the input field. */
    method SetInput(value: string)
      requires Valid()
      modifies this
      ensures Valid()
      ensures inputValue == value
      ensures isOpen == old(isOpen) && messages == old(messages)
      ensures isTyping == old(isTyping) && pending == old(pending)
    {
      inputValue := value;
    }

    /** The part of `handleSend(text)` before the thinking delay: a blank text changes
        nothing; otherwise the trimmed text is appended as a user entry, the input is
        cleared, the typing indicator goes on and the untrimmed text awaits its reply. */
    method Submit(text: string)
      requires Valid()
      modifies this
      ensures Valid()
      ensures isOpen == old(isOpen)
      ensures Trim(text) == [] ==>
        messages == old(messages) && inputValue == old(inputValue)
        && isTyping == old(isTyping) && pending == old(pending)
      ensures Trim(text) != [] ==>
        messages == old(messages) + [Message(Trim(text), false)] && inputValue == ""
        && isTyping && pending == old(pending) + [text]
    {
      var trimmed := Trim(text);
      if trimmed == [] {
        return;
      }
      TrimmedIsUserText(text);
      CountByAppend(messages, Message(trimmed, false), false);
      CountByAppend(messages, Message(trimmed, false), true);
      messages := messages + [Message(trimmed, false)];
      inputValue := "";
      isTyping := true;
      pending := pending + [text];
    }

    /** The part of `handleSend` after the thinking delay, for the `k`-th pending send:
        the answer to its untrimmed text is appended as a bot entry and the typing
        indicator goes off. */
    method DeliverReply(k: nat)
      requires Valid() && k < |pending|
      modifies this
      ensures Valid()
      ensures messages == old(messages) + [Message(FindResponse(old(pending)[k]), true)]
      ensures !isTyping && pending == old(pending)[..k] + old(pending)[k + 1..]
      ensures isOpen == old(isOpen) && inputValue == old(inputValue)
    {
      var reply := Message(FindResponse(pending[k]), true);
      CountByAppend(messages, reply, false);
      CountByAppend(messages, reply, true);
      messages := messages + [reply];
      isTyping := false;
      pending := pending[..k] + pending[k + 1..];
    }

    /** The send button, and Enter in the input field: `handleSend()` on the current input. */
    method SendInput()
      requires Valid()
      modifies this
      ensures Valid()
      ensures isOpen == old(isOpen)
      ensures SendDisabled(old(inputValue)) ==>
        messages == old(messages) && inputValue == old(inputValue)
        && isTyping == old(isTyping) && pending == old(pending)
      ensures !SendDisabled(old(inputValue)) ==>
        messages == old(messages) + [Message(Trim(old(inputValue)), false)] && inputValue == ""
        && isTyping && pending == old(pending) + [old(inputValue)]
    {
      Submit(inputValue);
    }

    /** A key press in the input field: Enter without Shift sends the input. */
    method PressKey(isEnter: bool, shift: bool)
      requires Valid()
      modifies this
      ensures Valid()
      ensures isOpen == old(isOpen)
      ensures isEnter && !shift && !SendDisabled(old(inputValue)) ==>
        messages == old(messages) + [Message(Trim(old(inputValue)), false)] && inputValue == ""
        && isTyping && pending == old(pending) + [old(inputValue)]
      ensures !(isEnter && !shift) || SendDisabled(old(inputValue)) ==>
        messages == old(messages) && inputValue == old(inputValue)
        && isTyping == old(isTyping) && pending == old(pending)
    {
      if isEnter && !shift {
        SendInput();
      }
    }

    /** Clicking a quick-question button, which exists only while the buttons are shown. */
    method AskQuickQuestion(i: nat)
      requires Valid() && i < |QuickQuestions| && QuickQuestionsShown(messages)
      modifies this
      ensures Valid()
      ensures messages == old(messages) + [Message(QuickQuestions[i], false)]
      ensures isOpen == old(isOpen) && inputValue == "" && isTyping
      ensures pending == old(pending) + [QuickQuestions[i]]
    {
      QuickQuestionsAreUserTexts(i);
      Submit(QuickQuestions[i]);
    }

    /** One whole `handleSend(text)` run with no other send in flight: a non-blank text
        adds exactly two entries, the user's trimmed text and right after it the answer
        to the text, and leaves nothing pending and the indicator off. */
    method Exchange(text: string)
      requires Valid() && pending == []
      modifies this
      ensures Valid() && pending == [] && isOpen == old(isOpen)
      ensures Trim(text) == [] ==>
        messages == old(messages) && inputValue == old(inputValue) && isTyping == old(isTyping)
      ensures Trim(text) != [] ==>
        messages == old(messages) + [Message(Trim(text), false), Message(FindResponse(text), true)]
        && inputValue == "" && !isTyping
    {
      Submit(text);
      if Trim(text) != [] {
        DeliverReply(0);
      }
    }
  }

  /** Each quick question is already trimmed, so clicking it shows it verbatim. */
  lemma QuickQuestionsAreUserTexts(i: nat)
    requires i < |QuickQuestions|
    ensures Trim(QuickQuestions[i]) == QuickQuestions[i] && QuickQuestions[i] != []
  {
    var q := QuickQuestions[i];
    assert !IsWhiteSpace(q[0]) && !IsWhiteSpace(q[|q| - 1]);
    assert LeadingWhiteSpace(q) == 0;
    assert TrailingWhiteSpace(q) == 0;
  }

  /** The send button is disabled exactly when the input is all white space, which is
      exactly when sending it would be ignored (see `ChatSession.SendInput`). */
  lemma SendDisabledIff(inputValue: string)
    ensures SendDisabled(inputValue) <==> forall i | 0 <= i < |inputValue| :: IsWhiteSpace(inputValue[i])
  {
    TrimEmptyIff(inputValue);
  }

  /** The quick questions are shown on a fresh window and still after the first send,
      and withdrawn for good once its reply lands, since the transcript only grows. */
  lemma QuickQuestionsLifecycle(sent: Message, reply: Message, later: seq<Message>)
    ensures QuickQuestionsShown(InitialMessages)
    ensures QuickQuestionsShown(InitialMessages + [sent])
    ensures !QuickQuestionsShown(InitialMessages + [sent, reply] + later)
  {
  }

  /** Each quick question gets its own topic's answer, except the projects question,
      which the About rule answers first. */
  lemma QuickQuestionReplies()
    ensures FindResponse(QuickQuestions[0]) == SkillsRule.response
    ensures FindResponse(QuickQuestions[1]) == AboutRule.response
    ensures FindResponse(QuickQuestions[2]) == ContactRule.response
    ensures FindResponse(QuickQuestions[3]) == ExperienceRule.response
  {
    SkillsQuestionAnswer();
    AboutQuestionAnswer();
    ContactQuestionAnswer();
    ExperienceQuestionAnswer();
  }
}
