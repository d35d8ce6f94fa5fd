/**
 * The typewriter effect: a cyclic state machine over (word index, shown text,
 * deleting flag). Each timer tick is one `Step`; `TickDelay` is how long the tick
 * waits before its change lands.
 */
module TypeWriter {

  /** `currentWordIndex`, `currentText` and `isDeleting`. */
  datatype State = State(index: nat, text: string, deleting: bool)

  /** The configurable tick lengths, in milliseconds. */
  datatype Speeds = Speeds(typing: nat, deleting: nat, pause: nat)

  const DefaultSpeeds: Speeds := Speeds(100, 50, 2000)

  const InitialState: State := State(0, "", false)

  /** The index names a word and the shown text is a prefix of that word. */
  predicate Inv(words: seq<string>, s: State)
  {
    s.index < |words| && s.text <= words[s.index]
  }

  /** One tick: type the next character of the word; at the full word, turn deleting on;
      while deleting, drop the last character; at the empty text, move on to the next
      word, wrapping around. */
  function Step(words: seq<string>, s: State): (t: State)
    requires Inv(words, s)
    ensures Inv(words, t)
    ensures -1 <= |t.text| - |s.text| <= 1
  {
    var word := words[s.index];
    if !s.deleting then
      if |s.text| < |word| then State(s.index, word[..|s.text| + 1], false)
      else State(s.index, s.text, true)
    else
      if |s.text| > 0 then State(s.index, s.text[..|s.text| - 1], true)
      else State((s.index + 1) % |words|, s.text, false)
  }

  /** How long a tick from `s` takes before its change lands: the deleting speed while
      deleting, the typing speed otherwise, and at the full word the pause on top. */
  function TickDelay(words: seq<string>, speeds: Speeds, s: State): nat
    requires Inv(words, s)
  {
    if s.deleting then speeds.deleting
    else if |s.text| < |words[s.index]| then speeds.typing
    else speeds.typing + speeds.pause
  }

  /** The state after `n` ticks. */
  function Run(words: seq<string>, s: State, n: nat): (t: State)
    requires Inv(words, s)
    ensures Inv(words, t)
    decreases n
  {
    if n == 0 then s else Run(words, Step(words, s), n - 1)
  }

  /** The time `n` ticks take. */
  function Elapsed(words: seq<string>, speeds: Speeds, s: State, n: nat): nat
    requires Inv(words, s)
    decreases n
  {
    if n == 0 then 0 else TickDelay(words, speeds, s) + Elapsed(words, speeds, Step(words, s), n - 1)
  }

  /** The initial state satisfies the invariant for any non-empty word list. */
  lemma InitialStateValid(words: seq<string>)
    requires |words| > 0
    ensures Inv(words, InitialState)
  {
  }

  /** Running `a` ticks and then `b` more is running `a + b` ticks. */
  lemma {:induction false} RunAdd(words: seq<string>, s: State, a: nat, b: nat)
    requires Inv(words, s)
    ensures Run(words, s, a + b) == Run(words, Run(words, s, a), b)
    decreases a
  {
    if a > 0 {
      RunAdd(words, Step(words, s), a - 1, b);
    }
  }

  /** The time of `a + b` ticks is the time of the first `a` plus the time of the `b` after them. */
  lemma {:induction false} ElapsedAdd(words: seq<string>, speeds: Speeds, s: State, a: nat, b: nat)
    requires Inv(words, s)
    ensures Elapsed(words, speeds, s, a + b) == Elapsed(words, speeds, s, a) + Elapsed(words, speeds, Run(words, s, a), b)
    decreases a
  {
    if a > 0 {
      ElapsedAdd(words, speeds, Step(words, s), a - 1, b);
    }
  }

  /** From the first `j` characters of the word, typing finishes the word in one tick per
      missing character. */
  lemma {:induction false} TypingPhase(words: seq<string>, speeds: Speeds, i: nat, j: nat)
    requires i < |words| && j <= |words[i]|
    ensures Run(words, State(i, words[i][..j], false), |words[i]| - j) == State(i, words[i], false)
    ensures Elapsed(words, speeds, State(i, words[i][..j], false), |words[i]| - j) == (|words[i]| - j) * speeds.typing
    decreases |words[i]| - j
  {
    var w := words[i];
    if j == |w| {
      assert w[..j] == w;
    } else {
      assert Step(words, State(i, w[..j], false)) == State(i, w[..j + 1], false);
      TypingPhase(words, speeds, i, j + 1);
    }
  }

  /** From the first `j` characters of the word, deleting empties the text in `j` ticks. */
  lemma {:induction false} DeletingPhase(words: seq<string>, speeds: Speeds, i: nat, j: nat)
    requires i < |words| && j <= |words[i]|
    ensures Run(words, State(i, words[i][..j], true), j) == State(i, "", true)
    ensures Elapsed(words, speeds, State(i, words[i][..j], true), j) == j * speeds.deleting
  {
    var w := words[i];
    if j > 0 {
      assert w[..j][..j - 1] == w[..j - 1];
      DeletingPhase(words, speeds, i, j - 1);
    }
  }

  /** The ticks one word takes: type it, pause, delete it, move on. */
  function WordTicks(word: string): nat
  {
    2 * |word| + 2
  }

  /** From a word's empty text, `|w| + 1` ticks type it out and turn deleting on. */
  lemma TypeOutWord(words: seq<string>, i: nat)
    requires i < |words|
    ensures Run(words, State(i, "", false), |words[i]| + 1) == State(i, words[i], true)
  {
    var w := words[i];
    assert w[..0] == "" && w[..|w|] == w;
    TypingPhase(words, DefaultSpeeds, i, 0);
    RunAdd(words, State(i, "", false), |w|, 1);
    assert Run(words, State(i, w, false), 1) == Step(words, State(i, w, false));
  }

  /** From a fully typed word with deleting on, `|w| + 1` ticks delete it and move on to
      the next word. */
  lemma DeleteWord(words: seq<string>, i: nat)
    requires i < |words|
    ensures Run(words, State(i, words[i], true), |words[i]| + 1) == State((i + 1) % |words|, "", false)
  {
    var w := words[i];
    assert w[..|w|] == w;
    DeletingPhase(words, DefaultSpeeds, i, |w|);
    RunAdd(words, State(i, w, true), |w|, 1);
    assert Run(words, State(i, "", true), 1) == Step(words, State(i, "", true));
  }

  /** One word's full cycle: from its empty text, `2|w| + 2` ticks type it out, pause,
      delete it and land on the next word's empty text. */
  lemma WordCycle(words: seq<string>, i: nat)
    requires i < |words|
    ensures Run(words, State(i, "", false), WordTicks(words[i])) == State((i + 1) % |words|, "", false)
  {
    var n := |words[i]|;
    TypeOutWord(words, i);
    DeleteWord(words, i);
    RunAdd(words, State(i, "", false), n + 1, n + 1);
  }

  /** Typing a word out from its empty text and pausing at its end takes `|w| + 1` typing
      ticks and the pause. */
  lemma TypeOutWordTime(words: seq<string>, speeds: Speeds, i: nat)
    requires i < |words|
    ensures Elapsed(words, speeds, State(i, "", false), |words[i]| + 1) == (|words[i]| + 1) * speeds.typing + speeds.pause
  {
    var w := words[i];
    assert w[..0] == "" && w[..|w|] == w;
    TypingPhase(words, speeds, i, 0);
    ElapsedAdd(words, speeds, State(i, "", false), |w|, 1);
    assert Elapsed(words, speeds, State(i, w, false), 1) == speeds.typing + speeds.pause;
  }

  /** Deleting a word and moving on takes `|w| + 1` deleting ticks. */
  lemma DeleteWordTime(words: seq<string>, speeds: Speeds, i: nat)
    requires i < |words|
    ensures Elapsed(words, speeds, State(i, words[i], true), |words[i]| + 1) == (|words[i]| + 1) * speeds.deleting
  {
    var w := words[i];
    assert w[..|w|] == w;
    DeletingPhase(words, speeds, i, |w|);
    ElapsedAdd(words, speeds, State(i, w, true), |w|, 1);
    assert Elapsed(words, speeds, State(i, "", true), 1) == speeds.deleting;
  }

  /** A word's full cycle takes `|w| + 1` typing ticks and `|w| + 1` deleting ticks, plus
      one pause. */
  lemma WordCycleTime(words: seq<string>, speeds: Speeds, i: nat)
    requires i < |words|
    ensures Elapsed(words, speeds, State(i, "", false), WordTicks(words[i]))
      == (|words[i]| + 1) * (speeds.typing + speeds.deleting) + speeds.pause
  {
    var n := |words[i]|;
    TypeOutWord(words, i);
    TypeOutWordTime(words, speeds, i);
    DeleteWordTime(words, speeds, i);
    ElapsedAdd(words, speeds, State(i, "", false), n + 1, n + 1);
    Distribute(n + 1, speeds.typing, speeds.deleting);
  }

  lemma Distribute(x: nat, y: nat, z: nat)
    ensures x * (y + z) == x * y + x * z
  {
  }

  /** The ticks from word `i`'s empty text to the end of the list. */
  function TicksFrom(words: seq<string>, i: nat): nat
    requires i <= |words|
    decreases |words| - i
  {
    if i == |words| then 0 else WordTicks(words[i]) + TicksFrom(words, i + 1)
  }

  /** After word `i`'s cycle the next word is `i + 1`, or the first word after the last. */
  lemma NextWord(words: seq<string>, i: nat)
    requires i < |words|
    ensures Run(words, State(i, "", false), WordTicks(words[i]))
      == if i + 1 < |words| then State(i + 1, "", false) else InitialState
  {
    WordCycle(words, i);
    WrapAround(i, |words|);
  }

  lemma WrapAround(i: nat, n: nat)
    requires i < n
    ensures (i + 1) % n == if i + 1 < n then i + 1 else 0
  {
  }

  /** Going through the words from `i` to the last one, in order, ends at the first word's
      empty text. */
  lemma {:induction false} RunThroughWords(words: seq<string>, i: nat)
    requires i < |words|
    ensures Run(words, State(i, "", false), TicksFrom(words, i)) == InitialState
    decreases |words| - i
  {
    var start, rest := State(i, "", false), TicksFrom(words, i + 1);
    RunAdd(words, start, WordTicks(words[i]), rest);
    NextWord(words, i);
    if i + 1 < |words| {
      RunThroughWords(words, i + 1);
    } else {
      assert rest == 0;
    }
  }

  /** The animation is periodic: after typing and deleting every word once, in order,
      it is back at its initial state. */
  lemma RoundReturnsToStart(words: seq<string>)
    requires |words| > 0
    ensures Run(words, InitialState, TicksFrom(words, 0)) == InitialState
  {
    RunThroughWords(words, 0);
  }

  /** The component's state, updated in place by its timer. */
  class TypeWriter {
    const words: seq<string>
    const speeds: Speeds
    var currentWordIndex: nat
    var currentText: string
    var isDeleting: bool

    function Current(): State
      reads this
    {
      State(currentWordIndex, currentText, isDeleting)
    }

    predicate Valid()
      reads this
    {
      Inv(words, Current())
    }

    /** A list with no word has no current word to type. */
    constructor(words: seq<string>, typingSpeed: nat := 100, deletingSpeed: nat := 50, pauseDuration: nat := 2000)
      requires |words| > 0
      ensures Valid() && Current() == InitialState
      ensures this.words == words && speeds == Speeds(typingSpeed, deletingSpeed, pauseDuration)
    {
      this.words := words;
      speeds := Speeds(typingSpeed, deletingSpeed, pauseDuration);
      currentWordIndex := 0;
      currentText := "";
      isDeleting := false;
    }

    /** One timer tick; `delay` is how long it waited before its change landed. */
    method Tick() returns (delay: nat)
      requires Valid()
      modifies this
      ensures Valid()
      ensures Current() == Step(words, old(Current()))
      ensures delay == TickDelay(words, speeds, old(Current()))
    {
      var currentWord := words[currentWordIndex];
      delay := if isDeleting then speeds.deleting else speeds.typing;
      if !isDeleting {
        if |currentText| < |currentWord| {
          currentText := currentWord[..|currentText| + 1];
        } else {
          delay := delay + speeds.pause;
          isDeleting := true;
        }
      } else {
        if |currentText| > 0 {
          currentText := currentText[..|currentText| - 1];
        } else {
          isDeleting := false;
          currentWordIndex := (currentWordIndex + 1) % |words|;
        }
      }
    }
  }
}
