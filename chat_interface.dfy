/**
 * The chat widget: a keyword response engine and the message log it feeds.
 * The engine is pure apart from the mood signal it hands to the container,
 * which is returned here as part of the reply. The log is a class whose
 * fields the send and reply handlers update in two separate steps.
 */
module ChatInterface {
  import opened Wrappers

  // ---------------------------------------------------------------------------
  // Text helpers: String.prototype.toLowerCase, includes and trim
  // ---------------------------------------------------------------------------

  /** Lower-cases one character; only ASCII letters are mapped. */
  function LowerChar(c: char): (d: char)
    ensures 'A' <= c <= 'Z' ==> d as int == c as int + 32
    ensures !('A' <= c <= 'Z') ==> d == c
    ensures !('A' <= d <= 'Z')
  {
    if 'A' <= c <= 'Z' then (c as int + 32) as char else c
  }

  function Lower(s: string): (r: string)
    ensures |r| == |s|
    ensures forall i :: 0 <= i < |s| ==> r[i] == LowerChar(s[i])
  {
    seq(|s|, i requires 0 <= i < |s| => LowerChar(s[i]))
  }

  /** Lower-casing twice is lower-casing once. */
  lemma LowerIdempotent(s: string)
    ensures Lower(Lower(s)) == Lower(s)
  {
  }

  /** `text.includes(word)`, searched from the front. */
  function Includes(text: string, word: string): bool
    decreases |text|
  {
    if word <= text then true
    else if text == [] then false
    else Includes(text[1..], word)
  }

  /** Includes holds exactly when the word occurs at some position. */
  lemma {:induction false} IncludesAt(text: string, word: string)
    ensures Includes(text, word) <==> exists i :: 0 <= i <= |text| - |word| && word <= text[i..]
    decreases |text|
  {
    if word <= text {
      assert word <= text[0..];
    } else if text != [] {
      IncludesAt(text[1..], word);
      assert forall i :: 1 <= i <= |text| ==> text[i..] == text[1..][i - 1..];
    }
  }

  /** The characters `String.prototype.trim` removes: ECMAScript WhiteSpace
      and LineTerminator. */
  predicate IsJsWhitespace(c: char)
  {
    c == '\t' || c == '\n' || c == '\U{000B}' || c == '\U{000C}' || c == '\r' || c == ' '
    || c == '\U{00A0}' || c == '\U{1680}' || ('\U{2000}' <= c <= '\U{200A}')
    || c == '\U{2028}' || c == '\U{2029}' || c == '\U{202F}' || c == '\U{205F}'
    || c == '\U{3000}' || c == '\U{FEFF}'
  }

  /** Drops leading whitespace: the result is a suffix of s, everything
      dropped is whitespace and the result does not start with whitespace. */
  function TrimStart(s: string): (r: string)
    ensures |r| <= |s| && r == s[|s| - |r|..]
    ensures forall i :: 0 <= i < |s| - |r| ==> IsJsWhitespace(s[i])
    ensures r != [] ==> !IsJsWhitespace(r[0])
  {
    if s != [] && IsJsWhitespace(s[0]) then TrimStart(s[1..]) else s
  }

  /** Drops trailing whitespace: the mirror image of TrimStart. */
  function TrimEnd(s: string): (r: string)
    ensures |r| <= |s| && r == s[..|r|]
    ensures forall i :: |r| <= i < |s| ==> IsJsWhitespace(s[i])
    ensures r != [] ==> !IsJsWhitespace(r[|r| - 1])
  {
    if s != [] && IsJsWhitespace(s[|s| - 1]) then TrimEnd(s[..|s| - 1]) else s
  }

  function Trim(s: string): string
  {
    TrimEnd(TrimStart(s))
  }

  predicate IsBlank(s: string)
  {
    forall i :: 0 <= i < |s| ==> IsJsWhitespace(s[i])
  }

  /** `!s.trim()` holds exactly when s is empty or all whitespace. */
  lemma TrimEmptyIffBlank(s: string)
    ensures Trim(s) == [] <==> IsBlank(s)
  {
    var t := TrimStart(s);
    if t != [] {
      assert t[0] == s[|s| - |t|];
      assert !IsJsWhitespace(t[0]);
    }
  }

  // ---------------------------------------------------------------------------
  // The response engine
  // ---------------------------------------------------------------------------

  const StressWords: seq<string> := ["stressed", "anxious", "worried"]
  const SadWords: seq<string> := ["sad", "down", "depressed"]
  const PositiveWords: seq<string> := ["happy", "good", "great", "wonderful"]
  const TiredWords: seq<string> := ["tired", "exhausted", "sleepy"]
  const MindfulWords: seq<string> := ["meditation", "mindful"]
  const HelpWords: seq<string> := ["help", "support"]

  /** The branch of the response engine an input falls into. */
  datatype Category = Stress | Sadness | Positive | Fatigue | Mindfulness | HelpSeeking | Generic

  /** `text.includes(w0) || text.includes(w1) || ...` */
  function MentionsAny(text: string, words: seq<string>): bool
  {
    if words == [] then false
    else Includes(text, words[0]) || MentionsAny(text, words[1..])
  }

  /** MentionsAny holds exactly when one of the words is included. */
  lemma {:induction false} MentionsAnySome(text: string, words: seq<string>)
    ensures MentionsAny(text, words) <==> exists k :: 0 <= k < |words| && Includes(text, words[k])
  {
    if words != [] {
      MentionsAnySome(text, words[1..]);
      assert forall k :: 1 <= k < |words| ==> words[k] == words[1..][k - 1];
    }
  }

  /** The if-chain of `generateBotResponse` over the lower-cased message. */
  function Classify(lowerMessage: string): Category
  {
    if MentionsAny(lowerMessage, StressWords) then Stress
    else if MentionsAny(lowerMessage, SadWords) then Sadness
    else if MentionsAny(lowerMessage, PositiveWords) then Positive
    else if MentionsAny(lowerMessage, TiredWords) then Fatigue
    else if MentionsAny(lowerMessage, MindfulWords) then Mindfulness
    else if MentionsAny(lowerMessage, HelpWords) then HelpSeeking
    else Generic
  }

  /** A reference reading of the engine: an ordered table of keyword rules
      searched first match first. Each rule names the branch it stands for,
      the fixed reply it answers with and the mood it signals. */
  datatype Rule = Rule(words: seq<string>, category: Category, kind: ReplyKind, mood: Option<string>)

  const Rules: seq<Rule> := [
    Rule(StressWords, Stress, StressText, Some("stressed")),
    Rule(SadWords, Sadness, SadText, Some("sad")),
    Rule(PositiveWords, Positive, PositiveText, Some("happy")),
    Rule(TiredWords, Fatigue, TiredText, Some("tired")),
    Rule(MindfulWords, Mindfulness, MindfulText, None),
    Rule(HelpWords, HelpSeeking, HelpText, None)
  ]

  /** The first rule whose words the text mentions, if any. */
  function FirstMatch(rules: seq<Rule>, text: string): (r: Option<Rule>)
    ensures r.Some? ==> r.value in rules && MentionsAny(text, r.value.words)
  {
    if rules == [] then None
    else if MentionsAny(text, rules[0].words) then Some(rules[0])
    else FirstMatch(rules[1..], text)
  }

  /** First match wins: the rule at position k decides when it matches and no
      earlier rule does. */
  lemma {:induction false} FirstMatchWins(rules: seq<Rule>, text: string, k: nat)
    requires k < |rules|
    requires MentionsAny(text, rules[k].words)
    requires forall j :: 0 <= j < k ==> !MentionsAny(text, rules[j].words)
    ensures FirstMatch(rules, text) == Some(rules[k])
  {
    if k > 0 {
      assert !MentionsAny(text, rules[0].words);
      FirstMatchWins(rules[1..], text, k - 1);
    }
  }

  /** No matching rule means the generic pool. */
  lemma {:induction false} FirstMatchNone(rules: seq<Rule>, text: string)
    requires forall j :: 0 <= j < |rules| ==> !MentionsAny(text, rules[j].words)
    ensures FirstMatch(rules, text) == None
  {
    if rules != [] {
      assert !MentionsAny(text, rules[0].words);
      FirstMatchNone(rules[1..], text);
    }
  }

  /** The branch the rule table picks; Generic when no rule matches. */
  function TableCategory(text: string): Category
  {
    var m := FirstMatch(Rules, text);
    if m.Some? then m.value.category else Generic
  }

  /** The if-chain agrees with the ordered rule table. */
  lemma ClassifyIsFirstMatch(text: string)
    ensures Classify(text) == TableCategory(text)
  {
    if MentionsAny(text, StressWords) { FirstMatchWins(Rules, text, 0); }
    else if MentionsAny(text, SadWords) { FirstMatchWins(Rules, text, 1); }
    else if MentionsAny(text, PositiveWords) { FirstMatchWins(Rules, text, 2); }
    else if MentionsAny(text, TiredWords) { FirstMatchWins(Rules, text, 3); }
    else if MentionsAny(text, MindfulWords) { FirstMatchWins(Rules, text, 4); }
    else if MentionsAny(text, HelpWords) { FirstMatchWins(Rules, text, 5); }
    else { FirstMatchNone(Rules, text); }
  }

  /** The engine's fixed replies: one for each keyword branch and the five
      entries of the generic pool. */
  datatype ReplyKind = StressText | SadText | PositiveText | TiredText | MindfulText | HelpText
                     | PoolText(index: nat)

  /** The number of entries in the generic pool. */
  const PoolSize: nat := 5

  /** The pool a reply is drawn from when no keyword matches. */
  const GenericReplies: seq<string> := [
    "Thank you for sharing that with me. How does talking about this make you feel?",
    "I appreciate you opening up. What would be most helpful for you right now?",
    "It sounds like you're going through something important. Would you like to explore this further?",
    "Your feelings are valid. What's one small thing that might bring you comfort today?",
    "I'm here to listen. What would you like to focus on in this moment?"
  ]

  const StressReply := "I hear that you're feeling stressed. That's completely valid, and I'm here to help. Would you like to try a quick breathing exercise? Try the 4-7-8 technique: breathe in for 4, hold for 7, exhale for 8. Repeat 3 times."
  const SadReply := "I'm sorry you're feeling down. Remember, it's okay to have difficult days. Sometimes, acknowledging our feelings is the first step. Would you like to try a gentle mindfulness exercise or talk about what's on your mind?"
  const PositiveReply := "That's wonderful to hear! I'm so glad you're having a good day. Let's build on this positive energy. What's contributing most to your happiness right now?"
  const TiredReply := "Feeling tired can affect our overall well-being. Are you getting enough rest? Sometimes a short mindfulness break can be refreshing. Try focusing on your breath for just 2 minutes."
  const MindfulReply := "Mindfulness is a wonderful practice! Here's a simple exercise: Find a comfortable position, close your eyes, and focus on your breathing. Notice each inhale and exhale without trying to change it. If your mind wanders, gently bring it back to your breath."
  const HelpReply := "I'm here to support you. Remember, seeking help is a sign of strength. You can try breathing exercises, mindfulness meditation, or we can simply talk. If you're in crisis, please reach out to a mental health professional or crisis hotline."

  /** The wording of each fixed reply. */
  function ReplyText(k: ReplyKind): string
    requires k.PoolText? ==> k.index < PoolSize
  {
    match k
    case StressText => StressReply
    case SadText => SadReply
    case PositiveText => PositiveReply
    case TiredText => TiredReply
    case MindfulText => MindfulReply
    case HelpText => HelpReply
    case PoolText(i) => GenericReplies[i]
  }

  /** A reply together with the mood, if any, passed to `onMoodUpdate`. */
  datatype Reply = Reply(kind: ReplyKind, mood: Option<string>)

  /** `generateBotResponse`; `pick` stands for
      `Math.floor(Math.random() * responses.length)`, always in 0..4. The
      returned kind names which fixed text is answered. */
  function BotResponse(userMessage: string, pick: nat): (r: Reply)
    requires pick < PoolSize
    ensures r.kind.PoolText? ==> r.kind.index == pick
  {
    var lowerMessage := Lower(userMessage);
    match Classify(lowerMessage)
    case Stress => Reply(StressText, Some("stressed"))
    case Sadness => Reply(SadText, Some("sad"))
    case Positive => Reply(PositiveText, Some("happy"))
    case Fatigue => Reply(TiredText, Some("tired"))
    case Mindfulness => Reply(MindfulText, None)
    case HelpSeeking => Reply(HelpText, None)
    case Generic => Reply(PoolText(pick), None)
  }

  /** The reply and the mood signal depend on the message only through its
      lower-cased form. */
  lemma ResponseIgnoresCase(a: string, b: string, pick: nat)
    requires pick < PoolSize
    requires Lower(a) == Lower(b)
    ensures BotResponse(a, pick) == BotResponse(b, pick)
    ensures BotResponse(Lower(a), pick) == BotResponse(a, pick)
  {
    LowerIdempotent(a);
  }

  /** The four mood branches each signal exactly their own mood; the
      mindfulness, help and generic branches signal nothing. */
  lemma MoodSignals(userMessage: string, pick: nat)
    requires pick < PoolSize
    ensures var c, m := Classify(Lower(userMessage)), BotResponse(userMessage, pick).mood;
      && (m == Some("stressed") <==> c == Stress)
      && (m == Some("sad") <==> c == Sadness)
      && (m == Some("happy") <==> c == Positive)
      && (m == Some("tired") <==> c == Fatigue)
      && (m == None <==> c in {Mindfulness, HelpSeeking, Generic})
  {
  }

  /** Exactly the inputs without a keyword get a pool reply, and that reply
      is the picked entry of the pool. */
  lemma GenericReplyFromPool(userMessage: string, pick: nat)
    requires pick < PoolSize
    ensures var r := BotResponse(userMessage, pick);
      (Classify(Lower(userMessage)) == Generic <==> r.kind.PoolText?)
      && (Classify(Lower(userMessage)) == Generic ==> r.kind == PoolText(pick))
  {
  }

  /** The reply the rule table gives: the first matching rule's reply and
      mood, or the picked pool entry with no mood. */
  function TableReply(text: string, pick: nat): Reply
  {
    var m := FirstMatch(Rules, text);
    if m.Some? then Reply(m.value.kind, m.value.mood) else Reply(PoolText(pick), None)
  }

  /** For every message the engine answers with the reply of the first rule
      matching its lower-cased form, or with pool entry `pick` when none
      does. */
  lemma BotResponseIsFirstMatch(userMessage: string, pick: nat)
    requires pick < PoolSize
    ensures BotResponse(userMessage, pick) == TableReply(Lower(userMessage), pick)
  {
    var t := Lower(userMessage);
    var c := Classify(t);
    ClassifyIsFirstMatch(t);
    var m := FirstMatch(Rules, t);
    if m.Some? {
      assert m.value in Rules;
      assert m.value.category == c;
    }
  }

  /** Any message containing "stressed", "anxious" or "worried", in any
      case, gets the stress reply and signals "stressed", whatever else it
      says. */
  lemma StressTermAlwaysWins(userMessage: string, pick: nat, k: nat)
    requires pick < PoolSize
    requires k < |StressWords| && Includes(Lower(userMessage), StressWords[k])
    ensures BotResponse(userMessage, pick) == Reply(StressText, Some("stressed"))
  {
    MentionsAnySome(Lower(userMessage), StressWords);
  }

  // ---------------------------------------------------------------------------
  // Worked inputs
  // ---------------------------------------------------------------------------

  /** Lower-casing leaves text without capitals as it is. */
  lemma LowerKeepsLowercase(s: string)
    requires forall i :: 0 <= i < |s| ==> !('A' <= s[i] <= 'Z')
    ensures Lower(s) == s
  {
  }

  /** Stress terms come first: "Anxious and happy" mentions a stress term. */
  lemma AnxiousIsStress()
    ensures Classify("anxious and happy") == Stress
  {
    var t := "anxious and happy";
    assert "anxious" <= t;
    assert Includes(t, StressWords[1]);
  }

  /** ... so it gets the stress reply and signals "stressed", although it
      also mentions "happy". */
  lemma StressBeatsPositive(pick: nat)
    requires pick < PoolSize
    ensures BotResponse("Anxious and happy", pick) == Reply(StressText, Some("stressed"))
  {
    assert Lower("Anxious and happy") == "anxious and happy";
    AnxiousIsStress();
  }

  /** Includes fails when the word starts at none of the first k positions
      and cannot fit after them. */
  lemma {:induction false} NotIncluded(text: string, word: string, k: nat)
    requires k <= |text| && |word| > |text| - k
    requires forall i :: 0 <= i < k ==> !(word <= text[i..])
    ensures !Includes(text, word)
    decreases |text|
  {
    if text != [] {
      if k > 0 {
        assert !(word <= text[0..]);
        forall i | 0 <= i < k - 1 ensures !(word <= text[1..][i..]) {
          assert text[1..][i..] == text[i + 1..];
        }
        NotIncluded(text[1..], word, k - 1);
      } else {
        assert !(word <= text);
        NotIncluded(text[1..], word, 0);
      }
    }
  }

  /** A seven-letter text that starts with neither 'a' nor 'w' contains no
      stress term: "stressed" is too long, and "anxious" and "worried" could
      only start at its first position. */
  lemma NoStressTermIn(t: string)
    requires |t| == 7 && t[0] != 'a' && t[0] != 'w'
    ensures !MentionsAny(t, StressWords)
  {
    NotIncluded(t, "stressed", 0);
    assert t[0..] == t;
    NotIncluded(t, "anxious", 1);
    NotIncluded(t, "worried", 1);
    MentionsAnySome(t, StressWords);
  }

  /** "sadness" falls into the sad branch. */
  lemma SadnessIsSad()
    ensures Classify("sadness") == Sadness
  {
    NoStressTermIn("sadness");
    assert "sad" <= "sadness";
    assert Includes("sadness", SadWords[0]);
  }

  /** Matching is by substring: "sadness" contains "sad". */
  lemma SubstringSad(pick: nat)
    requires pick < PoolSize
    ensures BotResponse("sadness", pick) == Reply(SadText, Some("sad"))
  {
    LowerKeepsLowercase("sadness");
    SadnessIsSad();
  }

  /** "goodbye" contains no sad term. */
  lemma GoodbyeNotSad()
    ensures !MentionsAny("goodbye", SadWords)
  {
    var t := "goodbye";
    forall i | 0 <= i < 5 ensures !("sad" <= t[i..]) { assert t[i..][0] == t[i] != 's'; }
    NotIncluded(t, "sad", 5);
    forall i | 0 <= i < 4 ensures !("down" <= t[i..]) {
      assert t[i..][0] == t[i] != 'd' || t[i..][1] == t[i + 1] != 'o';
    }
    NotIncluded(t, "down", 4);
    NotIncluded(t, "depressed", 0);
  }

  /** "goodbye" falls into the positive branch through "good". */
  lemma GoodbyeIsPositive()
    ensures Classify("goodbye") == Positive
  {
    var t := "goodbye";
    NoStressTermIn(t);
    GoodbyeNotSad();
    assert "good" <= t;
    assert Includes(t, PositiveWords[1]);
  }

  /** Matching is by substring: "goodbye" contains "good". */
  lemma SubstringGood(pick: nat)
    requires pick < PoolSize
    ensures BotResponse("goodbye", pick) == Reply(PositiveText, Some("happy"))
  {
    LowerKeepsLowercase("goodbye");
    GoodbyeIsPositive();
  }

  // ---------------------------------------------------------------------------
  // The message log
  // ---------------------------------------------------------------------------

  datatype Role = User | Bot

  /** A chat message; its id and timestamp are not modelled. */
  datatype Message = Message(role: Role, content: string)

  const Greeting := "Hello! I'm your wellness companion. I'm here to support your mental health journey. How are you feeling today?"

  /** The number of messages with the given role. */
  function CountRole(msgs: seq<Message>, role: Role): nat
  {
    if msgs == [] then 0
    else CountRole(msgs[..|msgs| - 1], role) + (if msgs[|msgs| - 1].role == role then 1 else 0)
  }

  lemma CountRoleAppend(msgs: seq<Message>, m: Message, role: Role)
    ensures CountRole(msgs + [m], role) == CountRole(msgs, role) + (if m.role == role then 1 else 0)
  {
    assert (msgs + [m])[..|msgs|] == msgs;
  }

  /**
   * The chat component's state. A send appends the user's message at once and
   * schedules the bot's reply for later; `pending` holds, oldest first, the
   * texts whose replies are scheduled but not yet delivered. The source does
   * not stop a second send while a reply is pending, so several may wait.
   */
  class ChatLog {
    var messages: seq<Message>
    var inputValue: string
    var isTyping: bool
    var pending: seq<string>

    /** The log starts with the greeting; every user message is answered by
        one bot message or is still pending; only non-blank texts are sent;
        the typing indicator shows only while a reply is pending. */
    ghost predicate Valid()
      reads this
    {
      && |messages| >= 1 && messages[0] == Message(Bot, Greeting)
      && CountRole(messages, User) + 1 == CountRole(messages, Bot) + |pending|
      && (forall i :: 0 <= i < |pending| ==> !IsBlank(pending[i]))
      && (isTyping ==> pending != [])
    }

    constructor ()
      ensures Valid()
      ensures messages == [Message(Bot, Greeting)]
      ensures inputValue == "" && !isTyping && pending == []
    {
      messages := [Message(Bot, Greeting)];
      inputValue := "";
      isTyping := false;
      pending := [];
    }

    /** The text box's `onChange`. */
    method UpdateInput(text: string)
      requires Valid()
      modifies this
      ensures Valid()
      ensures inputValue == text
      ensures messages == old(messages) && isTyping == old(isTyping) && pending == old(pending)
    {
      inputValue := text;
    }

    /** `handleSendMessage` up to the timer: blank input changes nothing;
        otherwise the raw text is appended as a user message, the input is
        cleared, the typing flag is set and a reply to that text is pending. */
    method Send()
      requires Valid()
      modifies this
      ensures Valid()
      ensures Trim(old(inputValue)) == [] ==>
        messages == old(messages) && inputValue == old(inputValue)
        && isTyping == old(isTyping) && pending == old(pending)
      ensures Trim(old(inputValue)) != [] ==>
        messages == old(messages) + [Message(User, old(inputValue))]
        && inputValue == "" && isTyping && pending == old(pending) + [old(inputValue)]
    {
      TrimEmptyIffBlank(inputValue);
      if Trim(inputValue) == [] {
        return;
      }
      CountRoleAppend(messages, Message(User, inputValue), User);
      CountRoleAppend(messages, Message(User, inputValue), Bot);
      messages := messages + [Message(User, inputValue)];
      pending := pending + [inputValue];
      inputValue := "";
      isTyping := true;
    }

    /** `handleKeyPress`: Enter without Shift sends. */
    method KeyPress(key: string, shiftKey: bool)
      requires Valid()
      modifies this
      ensures Valid()
      ensures !(key == "Enter" && !shiftKey) ==>
        messages == old(messages) && inputValue == old(inputValue)
        && isTyping == old(isTyping) && pending == old(pending)
      ensures key == "Enter" && !shiftKey && Trim(old(inputValue)) == [] ==>
        messages == old(messages) && inputValue == old(inputValue)
        && isTyping == old(isTyping) && pending == old(pending)
      ensures key == "Enter" && !shiftKey && Trim(old(inputValue)) != [] ==>
        messages == old(messages) + [Message(User, old(inputValue))]
        && inputValue == "" && isTyping && pending == old(pending) + [old(inputValue)]
    {
      if key == "Enter" && !shiftKey {
        Send();
      }
    }

    /** The reply to the oldest pending text is appended as one bot message,
        that text leaves the queue and the typing flag is cleared. */
    method AnswerOldest(content: string)
      requires Valid() && pending != []
      modifies this
      ensures Valid()
      ensures messages == old(messages) + [Message(Bot, content)]
      ensures pending == old(pending[1..]) && !isTyping && inputValue == old(inputValue)
    {
      CountRoleAppend(messages, Message(Bot, content), User);
      CountRoleAppend(messages, Message(Bot, content), Bot);
      messages := messages + [Message(Bot, content)];
      pending := pending[1..];
      isTyping := false;
    }

    /** The timer callback: the oldest pending text is answered by the
        engine's reply to it. The returned mood is the argument of
        `onMoodUpdate`, if it is called; `pick` is the random pool index. */
    method DeliverReply(pick: nat) returns (mood: Option<string>)
      requires Valid() && pending != []
      requires pick < PoolSize
      modifies this
      ensures Valid()
      ensures var r := BotResponse(old(pending[0]), pick);
        messages == old(messages) + [Message(Bot, ReplyText(r.kind))] && mood == r.mood
      ensures pending == old(pending[1..]) && !isTyping && inputValue == old(inputValue)
    {
      var r := BotResponse(pending[0], pick);
      AnswerOldest(ReplyText(r.kind));
      mood := r.mood;
    }
  }

  /** Sending only spaces is ignored: the log stays at the greeting and the
      input keeps its text. */
  method BlankSendIgnored() returns (log: seq<Message>, input: string, typing: bool)
    ensures log == [Message(Bot, Greeting)] && input == "   " && !typing
  {
    var chat := new ChatLog();
    chat.UpdateInput("   ");
    TrimEmptyIffBlank("   ");
    chat.Send();
    log, input, typing := chat.messages, chat.inputValue, chat.isTyping;
  }
}
