/**
 * The turn engine of the rule-based variant of the bot (streamlit_app_lite.py):
 * six symptom categories, a severity-ordered choice of template bank, and a
 * session whose fields are updated in place on every chat turn.
 */
module Lite {
  import opened Text
  import opened Transcript
  import opened Detector
  import opened Severity

  datatype Category = Depression | Anxiety | Stress | Trauma | SelfHarm | Suicidal

  /** `MENTAL_HEALTH_PATTERNS`, in its dict order. */
  const Table: seq<Entry<Category>> := [
    Entry(Depression, [
      Pattern(["sad", "depressed", "hopeless", "worthless", "empty", "numb", "down", "blue"]),
      Pattern(["no energy", "tired", "exhausted", "fatigue", "drained"]),
      Pattern(["can't sleep", "insomnia", "sleeping too much", "sleep"]),
      Pattern(["no interest", "don't care", "nothing matters", "meaningless"])]),
    Entry(Anxiety, [
      Pattern(["anxious", "worried", "nervous", "panic", "fear", "scared", "afraid", "terrified"]),
      Pattern(["can't breathe", "heart racing", "sweating", "trembling", "shaking"]),
      Pattern(["overthinking", "can't stop thinking", "racing thoughts", "racing mind"]),
      Pattern(["restless", "on edge", "tense", "wound up"])]),
    Entry(Stress, [
      Pattern(["overwhelmed", "stressed", "pressure", "burden", "weight"]),
      Pattern(["can't cope", "too much", "breaking down", "breaking point"]),
      Pattern(["burnout", "exhausted mentally"])]),
    Entry(Trauma, [
      Pattern(["flashback", "nightmare", "reliving", "haunted", "ptsd"]),
      Pattern(["abuse", "trauma", "attacked", "violated"])]),
    Entry(SelfHarm, [
      Pattern(["hurt myself", "cut myself", "harm myself", "self harm", "self-harm", "cutting"]),
      Pattern(["burning myself", "punish myself"])]),
    Entry(Suicidal, [
      Pattern(["suicide", "suicidal", "kill myself", "end my life", "want to die", "want to be dead"]),
      Pattern(["better off dead", "no reason to live", "end it all", "take my life"])])
  ]

  /** Every category, in table order: the keys `calculate_severity` can meet. */
  const Categories: seq<Category> := [Depression, Anxiety, Stress, Trauma, SelfHarm, Suicidal]

  /** `SEVERITY_WEIGHTS`. */
  const Weights: map<Category, nat> :=
    map[Suicidal := 10, SelfHarm := 9, Trauma := 7, Depression := 6, Anxiety := 5, Stress := 4]

  /** The table lists each category once, in the order of `Categories`. */
  lemma TableShape()
    ensures DistinctCategories(Table)
    ensures |Table| == |Categories| && forall i | 0 <= i < |Table| :: Table[i].category == Categories[i]
  {
  }

  /** The greeting prefixes of `is_greeting`. */
  const GreetingWords: seq<string> :=
    ["hi", "hello", "hey", "greetings", "good morning", "good afternoon", "good evening"]

  /** The positive words of `is_positive`. */
  const PositiveWords: seq<string> :=
    ["good", "better", "great", "fine", "okay", "ok", "well", "happy", "improving"]

  /**
   * `calculate_severity` sums over `symptom_counts.items()`, whose keys are the
   * categories met so far in first-mention order. Whatever that order, and
   * whether or not keys with a zero count are present, the sum equals the
   * score over `Categories`.
   */
  lemma ScoreOverDictKeys(keys: seq<Category>, counts: map<Category, nat>)
    requires Distinct(keys)
    requires forall c | Count(counts, c) > 0 :: c in keys
    ensures Score(keys, Weights, counts) == Score(Categories, Weights, counts)
  {
    assert forall c: Category :: c in Categories by {
      forall c: Category ensures c in Categories {
        match c
        case Depression => assert Categories[0] == c;
        case Anxiety => assert Categories[1] == c;
        case Stress => assert Categories[2] == c;
        case Trauma => assert Categories[3] == c;
        case SelfHarm => assert Categories[4] == c;
        case Suicidal => assert Categories[5] == c;
      }
    }
    ScoreOrderFree(keys, Categories, Weights, counts);
  }

  /**
   * The crisis path is reachable from a real message: "I want to kill myself"
   * matches the first suicidal pattern at index 10, between two word
   * boundaries, so a turn on it forces the `critical` level.
   */
  lemma KillMyselfIsSuicidal()
    ensures Suicidal in Detected(Table, Lower("I want to kill myself"))
  {
    var text := Lower("I want to kill myself");
    assert text == "i want to kill myself";
    var p := Table[5].patterns[0];
    assert p.alternatives[2] == "kill myself";
    assert OccursAt(text, "kill myself", 10) && Boundary(text, 10) && Boundary(text, 21);
    assert Matches(p, text);
    assert AnyMatch(Table[5].patterns, text);
    DetectedIff(Table, text, Suicidal);
  }

  /** `any(t.startswith(w) for w in words)`. */
  predicate StartsWithAny(t: string, words: seq<string>)
    decreases |words|
  {
    words != [] && (StartsWith(t, words[0]) || StartsWithAny(t, words[1..]))
  }

  /** `any(w in t for w in words)`. */
  predicate ContainsAny(t: string, words: seq<string>)
    decreases |words|
  {
    words != [] && (Contains(t, words[0]) || ContainsAny(t, words[1..]))
  }

  /** The short-circuit scan accepts exactly when some word of the list is a prefix of `t`. */
  lemma {:induction false} StartsWithAnyIff(t: string, words: seq<string>)
    ensures StartsWithAny(t, words) <==> exists k | 0 <= k < |words| :: StartsWith(t, words[k])
    decreases |words|
  {
    if words != [] {
      StartsWithAnyIff(t, words[1..]);
      assert forall k | 1 <= k < |words| :: words[1..][k - 1] == words[k];
    }
  }

  /** The short-circuit scan accepts exactly when some word of the list occurs in `t`. */
  lemma {:induction false} ContainsAnyIff(t: string, words: seq<string>)
    ensures ContainsAny(t, words) <==> exists k | 0 <= k < |words| :: Contains(t, words[k])
    decreases |words|
  {
    if words != [] {
      ContainsAnyIff(t, words[1..]);
      assert forall k | 1 <= k < |words| :: words[1..][k - 1] == words[k];
    }
  }

  /** The banks of `RESPONSE_TEMPLATES` and `GREETINGS`. */
  datatype Bank = Greetings | Positive | General | SymptomBank(category: Category)

  /** The number of templates in a bank. */
  function BankSize(bank: Bank): nat {
    match bank
    case Greetings => 3
    case Positive => 2
    case General => 5
    case SymptomBank(Suicidal) => 2
    case SymptomBank(SelfHarm) => 2
    case SymptomBank(Trauma) => 2
    case SymptomBank(Depression) => 3
    case SymptomBank(Anxiety) => 3
    case SymptomBank(Stress) => 2
  }

  /**
   * A reply of the bot, identified by its bank and its position in the bank.
   * The text of a reply is `Wording(t)`; no proof depends on it.
   */
  datatype Template = Template(bank: Bank, index: nat)

  /** The template stands at a valid position of the given bank. */
  predicate InBank(t: Template, bank: Bank) {
    t.bank == bank && t.index < BankSize(bank)
  }

  /** The text of each template, bank by bank and in list order. */
  function Wording(t: Template): string
    requires t.index < BankSize(t.bank)
  {
    match t.bank
    case Greetings =>
      if t.index == 0 then
        "Hello! I'm here to listen and support you. This is a safe, judgment-free space. How are you feeling today?"
      else if t.index == 1 then
        "Hi there! I'm glad you're here. This is a safe space where you can share whatever is on your mind. How are you doing?"
      else
        "Welcome! I'm here to provide support and listen without judgment. What's been on your mind lately?"
    case Positive =>
      if t.index == 0 then
        "I'm glad to hear things are going a bit better! It's important to acknowledge and celebrate the good moments, even small ones.\n\nWhat's been helping you feel better?"
      else
        "That's wonderful to hear. Taking care of your mental health is so important, and it sounds like you're making positive steps.\n\nHow can I support you today?"
    case General =>
      if t.index == 0 then
        "Thank you for sharing that with me. I'm here to listen and support you, without any judgment. Your feelings and experiences are valid.\n\nTell me more about what's been on your mind."
      else if t.index == 1 then
        "I appreciate you opening up. It takes courage to talk about what we're going through, especially during difficult times.\n\nHow are you feeling right now in this moment?"
      else if t.index == 2 then
        "I hear you, and I want you to know that you're not alone in what you're experiencing. Many people go through similar struggles, even if it doesn't always feel that way.\n\nWhat would be most helpful for you to talk about?"
      else if t.index == 3 then
        "That sounds really challenging. I'm glad you're here talking about it rather than keeping it all inside.\n\nWhat's been the hardest part of this for you?"
      else
        "Your feelings are completely valid, and I'm here to support you through this. Sometimes just having someone listen can make a difference.\n\nWhat else has been going on?"
    case SymptomBank(Suicidal) =>
      if t.index == 0 then
        "I'm deeply concerned about what you're sharing with me. Your life has incredible value, and you deserve support and care. Please know that you're not alone in this darkness, even when it feels that way.\n\n**Please reach out for immediate help:**\n- 📞 Call **988** (Suicide & Crisis Lifeline) - Available 24/7\n- 💬 Text **HOME to 741741** (Crisis Text Line)\n- 🚨 Call **911** if you're in immediate danger\n\nWould you like to talk about what's been making you feel this way? I'm here to listen."
      else
        "What you're sharing is really serious, and I'm glad you're talking about it. These feelings can be overwhelming, but there are people who can help you through this right now.\n\n**Immediate resources:**\n- **988** - Suicide & Crisis Lifeline (call or text)\n- **741741** - Text HOME for Crisis Text Line\n- **911** - For emergencies\n\nYou don't have to go through this alone. Can you tell me what's been happening?"
    case SymptomBank(SelfHarm) =>
      if t.index == 0 then
        "I hear that you're struggling with urges to hurt yourself, and that must be incredibly difficult to deal with. Your safety and wellbeing are so important.\n\nHave you been able to talk to anyone about these feelings? A counselor or therapist could provide you with strategies to cope with these urges. The Crisis Text Line (text HOME to 741741) is also available 24/7.\n\nWhat do you usually feel right before these urges come up?"
      else
        "Thank you for trusting me enough to share this. Self-harm urges can be really intense and scary. You deserve compassionate support, not judgment.\n\nSome people find it helps to:\n- Hold ice cubes\n- Snap a rubber band on your wrist\n- Draw on yourself with red marker\n- Talk to someone immediately\n\nWould you like to talk about what triggers these feelings for you?"
    case SymptomBank(Trauma) =>
      if t.index == 0 then
        "Thank you for sharing something so difficult. Trauma can leave deep marks, and healing isn't linear - it's okay if you're still struggling with what happened.\n\nYou deserve professional support from someone trained in trauma therapy. They can help you process these experiences in a safe way.\n\nHow are you coping with these feelings right now?"
      else
        "What you experienced was real and difficult, and your reactions to it are completely valid. Trauma can affect us in so many ways - flashbacks, nightmares, anxiety, and more.\n\nHealing is possible, though it takes time and support. A trauma-informed therapist can provide you with tools to process what happened.\n\nDo you have support in your life right now?"
    case SymptomBank(Depression) =>
      if t.index == 0 then
        "I hear that you're going through a really tough time right now. Depression can make everything feel so heavy and exhausting, and I want you to know that your feelings are completely valid.\n\nYou don't have to face this alone. Many people have walked this path and found their way through with support.\n\nWhat's been the hardest part for you lately?"
      else if t.index == 1 then
        "It sounds like you're carrying a lot of weight right now. Depression can make even simple things feel impossible, and that's not your fault.\n\nRemember:\n- These feelings, however intense, are temporary\n- You deserve compassion, especially from yourself\n- Small steps count as progress\n- Professional help can make a real difference\n\nWhat does your day-to-day look like right now?"
      else
        "I'm really glad you're sharing this with me. Depression can be so isolating, and talking about it takes courage.\n\nHave you been able to talk to a doctor or therapist about how you're feeling? They can help create a plan to support you, whether that's therapy, medication, lifestyle changes, or a combination.\n\nHow long have you been feeling this way?"
    case SymptomBank(Anxiety) =>
      if t.index == 0 then
        "It sounds like you're experiencing a lot of anxiety right now. That racing, overwhelmed feeling can be so exhausting and uncomfortable.\n\nLet's take a moment together - can you try breathing in slowly for 4 counts, holding for 4, then out for 4? You're safe in this moment.\n\nWhat's been triggering these anxious feelings for you?"
      else if t.index == 1 then
        "Anxiety can feel so overwhelming, like your mind and body are in overdrive. I want you to know that what you're experiencing is real, and there are ways to manage it.\n\nSome things that might help right now:\n- Deep, slow breathing\n- Grounding yourself (name 5 things you can see, 4 you can touch, 3 you can hear)\n- Moving your body, even just a short walk\n\nWhat usually helps you when you feel this way?"
      else
        "I hear you, and anxiety like this can be really frightening. Your mind might be racing with 'what ifs' and worst-case scenarios.\n\nRemember: anxiety lies. It makes everything seem more dangerous than it really is. You've gotten through anxious moments before, and you can get through this one too.\n\nWhat are you most worried about right now?"
    case SymptomBank(Stress) =>
      if t.index == 0 then
        "You're dealing with a lot of stress, and that's completely understandable. When everything piles up, it can feel like you're drowning in responsibilities and pressure.\n\nIt's okay to feel overwhelmed. That feeling is your mind and body telling you that you need some support and maybe a break.\n\nWhat's been weighing on you the most?"
      else
        "Stress can build up until it feels like too much to handle. I'm glad you're talking about it - sometimes just sharing the burden can help lighten the load a little.\n\nHave you been able to take any time for yourself lately? Even small moments of rest matter.\n\nWhat would help you feel a bit lighter right now?"
  }

  /**
   * `is_greeting`: the lower-cased, stripped message starts with a greeting
   * (a plain prefix test) and the raw message has at most three words.
   */
  predicate IsGreeting(message: string) {
    && StartsWithAny(Strip(Lower(message)), GreetingWords)
    && WordCount(message) <= 3
  }

  /** `is_positive`: some positive word occurs as a substring of the lower-cased message. */
  predicate IsPositive(message: string) {
    ContainsAny(Lower(message), PositiveWords)
  }

  /**
   * The bank `get_response` draws from, given the outcomes of `is_greeting`
   * and `is_positive`: greeting first, then positive (only when nothing was
   * detected), then the first detected category in the order suicidal,
   * self-harm, trauma, depression, anxiety, stress, then general.
   */
  function ReplyBank(greeting: bool, positive: bool, symptoms: seq<Category>): Bank {
    if greeting then Greetings
    else if positive && symptoms == [] then Positive
    else if Suicidal in symptoms then SymptomBank(Suicidal)
    else if SelfHarm in symptoms then SymptomBank(SelfHarm)
    else if Trauma in symptoms then SymptomBank(Trauma)
    else if Depression in symptoms then SymptomBank(Depression)
    else if Anxiety in symptoms then SymptomBank(Anxiety)
    else if Stress in symptoms then SymptomBank(Stress)
    else General
  }

  /**
   * `random.choice` over a bank, with the random source passed in as `pick`:
   * whatever `pick` is, the template belongs to the bank.
   */
  function Pick(bank: Bank, pick: nat): (t: Template)
    ensures InBank(t, bank)
  {
    Template(bank, pick % BankSize(bank))
  }

  /** Every template of a bank can be picked. */
  lemma PickCoversBank(bank: Bank, t: Template)
    requires InBank(t, bank)
    ensures Pick(bank, t.index) == t
  {
    var n := BankSize(bank);
    assert t.index % n == t.index;
  }

  /** `get_response`: a random template of the bank the priority chain selects. */
  function GetResponse(message: string, symptoms: seq<Category>, pick: nat): (r: Template)
    ensures InBank(r, ReplyBank(IsGreeting(message), IsPositive(message), symptoms))
  {
    Pick(ReplyBank(IsGreeting(message), IsPositive(message), symptoms), pick)
  }

  /** A greeting is answered from the greeting bank whatever symptoms were detected. */
  lemma GreetingPrecedence(message: string, symptoms: seq<Category>, pick: nat)
    requires IsGreeting(message)
    ensures InBank(GetResponse(message, symptoms, pick), Greetings)
  {
  }

  /** The greeting test is a prefix test: a one-word message starting with "hi", such as "history", is a greeting. */
  lemma HistoryIsGreeting()
    ensures IsGreeting("history")
  {
    var s := "history";
    assert Lower(s)[0] == 'h' && Lower(s)[1] == 'i' && Lower(s)[6] == 'y';
    assert TrimLeft(Lower(s)) == Lower(s);
    assert TrimRight(Lower(s)) == Lower(s);
    assert StartsWith(Strip(Lower(s)), GreetingWords[0]);
    WordCountOfOneWord(s);
  }

  /** The positive bank is used exactly when the message is no greeting, is positive and nothing was detected. */
  lemma PositiveOnlyWithoutSymptoms(greeting: bool, positive: bool, symptoms: seq<Category>)
    ensures ReplyBank(greeting, positive, symptoms) == Positive <==> !greeting && positive && symptoms == []
  {
  }

  /** The general bank is used exactly when no other rule applies. */
  lemma GeneralOnlyAsFallback(greeting: bool, positive: bool, symptoms: seq<Category>)
    ensures ReplyBank(greeting, positive, symptoms) == General <==> !greeting && !positive && symptoms == []
  {
    if symptoms != [] {
      var c := symptoms[0];
      assert c in symptoms;
      match c
      case Suicidal => assert Suicidal in symptoms;
      case SelfHarm => assert SelfHarm in symptoms;
      case Trauma => assert Trauma in symptoms;
      case Depression => assert Depression in symptoms;
      case Anxiety => assert Anxiety in symptoms;
      case Stress => assert Stress in symptoms;
    }
  }

  /**
   * When a non-greeting message shows symptoms, the reply addresses one of them,
   * and none of the others carries a larger severity weight: the fixed order of
   * `get_response` is the order of `SEVERITY_WEIGHTS`.
   */
  lemma ReplyAddressesMostSevere(greeting: bool, positive: bool, symptoms: seq<Category>)
    requires !greeting && symptoms != []
    ensures ReplyBank(greeting, positive, symptoms).SymptomBank?
    ensures ReplyBank(greeting, positive, symptoms).category in symptoms
    ensures forall d | d in symptoms ::
              WeightOf(Weights, d) <= WeightOf(Weights, ReplyBank(greeting, positive, symptoms).category)
  {
    var c := symptoms[0];
    assert c in symptoms;
    match c
    case Suicidal => assert Suicidal in symptoms;
    case SelfHarm => assert SelfHarm in symptoms;
    case Trauma => assert Trauma in symptoms;
    case Depression => assert Depression in symptoms;
    case Anxiety => assert Anxiety in symptoms;
    case Stress => assert Stress in symptoms;
  }

  /** With depression the only category counted, n mentions score 6 x min(n, 3). */
  lemma DepressionOnlyScore(n: nat)
    ensures Score(Categories, Weights, map[Depression := n]) == 6 * Min(n, Cap)
  {
    TableShape();
    ScoreOfOne(Categories, Weights, Depression, n);
  }

  /**
   * Four messages that each show depression only: the score goes 6, 12, 18, 18
   * and the level low, moderate, high, high, the fourth mention adding nothing.
   */
  lemma DepressionEscalation()
    ensures Score(Categories, Weights, map[Depression := 1]) == 6
    ensures LevelFor(Score(Categories, Weights, map[Depression := 1]), 0) == Low
    ensures Score(Categories, Weights, map[Depression := 2]) == 12
    ensures LevelFor(Score(Categories, Weights, map[Depression := 2]), 0) == Moderate
    ensures Score(Categories, Weights, map[Depression := 3]) == 18
    ensures LevelFor(Score(Categories, Weights, map[Depression := 3]), 0) == High
    ensures Score(Categories, Weights, map[Depression := 4]) == 18
    ensures LevelFor(Score(Categories, Weights, map[Depression := 4]), 0) == High
  {
    DepressionOnlyScore(1);
    DepressionOnlyScore(2);
    DepressionOnlyScore(3);
    DepressionOnlyScore(4);
  }

  /** What the sidebar and the chat area show of a session. */
  datatype View = View(messages: seq<Message<Template>>, counts: map<Category, nat>, score: nat,
                       level: RiskLevel, conversationCount: nat)

  const EmptyView := View([], map[], 0, Low, 0)

  /** `st.session_state` of the rule-based variant. */
  class Session {
    var messages: seq<Message<Template>>
    var counts: map<Category, nat>
    var score: nat
    var level: RiskLevel
    var conversationCount: nat

    /**
     * The transcript alternates user and assistant entries, one pair per turn;
     * the counts are what re-running the detector over the user entries gives;
     * score and level are derived from the counts.
     */
    ghost predicate Valid()
      reads this
    {
      && Alternates(messages)
      && |messages| == 2 * conversationCount
      && counts == Replay(Table, messages)
      && score == Score(Categories, Weights, counts)
      && level == LevelFor(score, Count(counts, Suicidal))
    }

    function Snapshot(): View
      reads this
    {
      View(messages, counts, score, level, conversationCount)
    }

    /** The session-state initialisation. */
    constructor ()
      ensures Valid() && Snapshot() == EmptyView
    {
      messages, counts, score, level, conversationCount := [], map[], 0, Low, 0;
      ScoreOfNoCounts(Categories, Weights);
    }

    /** `analyze_message`: adds one to the count of every detected category. */
    method AnalyzeMessage(message: string) returns (detected: seq<Category>)
      modifies this
      ensures detected == Detected(Table, Lower(message))
      ensures forall c :: Count(counts, c) == Count(old(counts), c) + (if c in detected then 1 else 0)
      ensures counts == Bump(old(counts), detected)
      ensures messages == old(messages) && score == old(score) && level == old(level)
      ensures conversationCount == old(conversationCount)
    {
      TableShape();
      detected, counts := Scan(Table, message, counts);
    }

    /** `calculate_severity`: recomputes score and level from the counts. */
    method CalculateSeverity()
      modifies this
      ensures score == Score(Categories, Weights, counts)
      ensures level == LevelFor(score, Count(counts, Suicidal))
      ensures messages == old(messages) && counts == old(counts)
      ensures conversationCount == old(conversationCount)
    {
      score := SumScore(Categories, Weights, counts);
      if score >= CriticalScore || Count(counts, Suicidal) > 0 {
        level := Critical;
      } else if score >= HighScore {
        level := High;
      } else if score >= ModerateScore {
        level := Moderate;
      } else {
        level := Low;
      }
    }

    /**
     * Halfway through a turn: the prompt is recorded and counted, the reply is
     * not yet. The counts, score and level already reflect the prompt.
     */
    ghost predicate AwaitingReply()
      reads this
    {
      && Alternates(messages)
      && |messages| == 2 * conversationCount - 1
      && counts == Replay(Table, messages)
      && score == Score(Categories, Weights, counts)
      && level == LevelFor(score, Count(counts, Suicidal))
    }

    /**
     * The first half of a chat turn: record the prompt, count the turn, detect
     * and rescore.
     */
    method ReceivePrompt(prompt: string) returns (symptoms: seq<Category>)
      requires Valid()
      modifies this
      ensures AwaitingReply()
      ensures messages == old(messages) + [UserSaid(prompt)]
      ensures conversationCount == old(conversationCount) + 1
      ensures symptoms == Detected(Table, Lower(prompt))
      ensures forall c :: Count(counts, c) == Count(old(counts), c) + (if c in symptoms then 1 else 0)
      ensures IsBlank(prompt) ==> symptoms == [] && counts == old(counts) && score == old(score) && level == old(level)
    {
      if IsBlank(prompt) {
        BlankDetectsNothing(Table, prompt);
        BumpNothing(counts);
      }
      AlternatesAppend(messages, UserSaid(prompt));
      ReplayUser(Table, messages, prompt);
      messages := messages + [UserSaid(prompt)];
      conversationCount := conversationCount + 1;
      symptoms := AnalyzeMessage(prompt);
      CalculateSeverity();
    }

    /** The second half of a chat turn: record the reply. */
    method RecordReply(response: Template)
      requires AwaitingReply()
      modifies this
      ensures Valid()
      ensures messages == old(messages) + [BotSaid(response)]
      ensures counts == old(counts) && score == old(score) && level == old(level)
      ensures conversationCount == old(conversationCount)
    {
      AlternatesAppend(messages, BotSaid(response));
      ReplayAssistant(Table, messages, response);
      messages := messages + [BotSaid(response)];
    }

    /**
     * One chat turn on a submitted, non-empty prompt: record the prompt, count
     * the turn, detect, rescore, pick a reply and record it.
     */
    method Turn(prompt: string, pick: nat) returns (symptoms: seq<Category>, response: Template)
      requires Valid()
      requires prompt != ""
      modifies this
      ensures Valid()
      ensures messages == old(messages) + [UserSaid(prompt), BotSaid(response)]
      ensures conversationCount == old(conversationCount) + 1
      ensures symptoms == Detected(Table, Lower(prompt))
      ensures forall c :: Count(counts, c) == Count(old(counts), c) + (if c in symptoms then 1 else 0)
      ensures InBank(response, ReplyBank(IsGreeting(prompt), IsPositive(prompt), symptoms))
      ensures Suicidal in symptoms ==> level == Critical
      ensures IsBlank(prompt) ==> symptoms == [] && counts == old(counts) && score == old(score) && level == old(level)
    {
      symptoms := ReceivePrompt(prompt);
      response := GetResponse(prompt, symptoms, pick);
      RecordReply(response);
      assert messages == old(messages) + [UserSaid(prompt)] + [BotSaid(response)];
    }

    /** "Start New Conversation": every field back to its initial value at once. */
    method Reset()
      modifies this
      ensures Valid() && Snapshot() == EmptyView
    {
      messages := [];
      counts := map[];
      score := 0;
      level := Low;
      conversationCount := 0;
      ScoreOfNoCounts(Categories, Weights);
    }
  }
}
