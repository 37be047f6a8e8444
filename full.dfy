/**
 * The turn engine of the generative variant of the bot (streamlit_app.py):
 * four symptom categories, a text generator whose output may be replaced by a
 * deterministic empathetic fallback, and a session that also keeps the
 * generator's running context.
 */
module Full {
  import opened Text
  import opened Transcript
  import opened Detector
  import opened Severity

  datatype Category = Depression | Anxiety | Stress | Suicidal

  /** `MENTAL_HEALTH_PATTERNS`, in its dict order. */
  const Table: seq<Entry<Category>> := [
    Entry(Depression, [
      Pattern(["sad", "depressed", "hopeless", "worthless", "empty", "numb"]),
      Pattern(["no energy", "tired", "exhausted", "fatigue"]),
      Pattern(["can't sleep", "insomnia", "sleeping too much"])]),
    Entry(Anxiety, [
      Pattern(["anxious", "worried", "nervous", "panic", "fear", "scared"]),
      Pattern(["can't breathe", "heart racing", "sweating", "trembling"])]),
    Entry(Stress, [
      Pattern(["overwhelmed", "stressed", "pressure", "burden"]),
      Pattern(["can't cope", "too much", "breaking down"])]),
    Entry(Suicidal, [
      Pattern(["suicide", "kill myself", "end my life", "want to die"]),
      Pattern(["better off dead", "no reason to live"])])
  ]

  /** Every category, in table order: the keys `calculate_severity` can meet. */
  const Categories: seq<Category> := [Depression, Anxiety, Stress, Suicidal]

  /** `SEVERITY_WEIGHTS`. */
  const Weights: map<Category, nat> := map[Suicidal := 10, Depression := 6, Anxiety := 5, Stress := 4]

  /** The table lists each category once, in the order of `Categories`. */
  lemma TableShape()
    ensures DistinctCategories(Table)
    ensures |Table| == |Categories| && forall i | 0 <= i < |Table| :: Table[i].category == Categories[i]
  {
  }

  /**
   * The crisis path is reachable from a real message: "I want to kill myself"
   * matches the first suicidal pattern at index 10, between two word
   * boundaries, so a turn on it forces the `critical` level.
   */
  lemma KillMyselfIsSuicidal()
    ensures Suicidal in Detected(Table, Lower("I want to kill myself"))
  {
    var text := Lower("I want to kill myself");
    assert text == "i want to kill myself";
    var p := Table[3].patterns[0];
    assert p.alternatives[1] == "kill myself";
    assert OccursAt(text, "kill myself", 10) && Boundary(text, 10) && Boundary(text, 21);
    assert Matches(p, text);
    assert AnyMatch(Table[3].patterns, text);
    DetectedIff(Table, text, Suicidal);
  }

  /** The size of the list of general replies `get_empathetic_response` rotates through. */
  const ListeningCount: nat := 3

  /**
   * The fixed replies of `get_empathetic_response`: one for suicidal, one for
   * depression, one for anxiety messages, and a list of general ones.
   */
  datatype Empathetic = CrisisReply | DepressionReply | AnxietyReply | ListeningReply(index: nat)

  /** The text of each fixed reply. */
  function Wording(e: Empathetic): string
    requires e.ListeningReply? ==> e.index < ListeningCount
  {
    match e
    case CrisisReply =>
      "I'm deeply concerned about what you're sharing. Your life has value, and you deserve support. "
      + "Please reach out to a crisis counselor - call 988 (US) or your local emergency services. "
      + "You're not alone in this."
    case DepressionReply =>
      "I hear that you're going through a really tough time. Your feelings are valid, and you don't "
      + "have to face this alone. What's been the hardest part for you lately?"
    case AnxietyReply =>
      "It sounds like you're experiencing a lot of anxiety. Remember to breathe - you're safe right now. "
      + "What's been triggering these anxious feelings?"
    case ListeningReply(i) =>
      if i == 0 then
        "Thank you for sharing that with me. I'm here to listen. Tell me more about what's on your mind."
      else if i == 1 then
        "I appreciate you opening up. Your feelings are valid. How are you feeling right now?"
      else
        "That sounds really challenging. I'm glad you're talking about it. What would help you most right now?"
  }

  /**
   * `get_empathetic_response`: suicidal first, then depression, then anxiety;
   * otherwise the general reply at position `len(message) % 3`.
   */
  function EmpatheticResponse(message: string, symptoms: seq<Category>): (r: Empathetic)
    ensures r.ListeningReply? ==> r.index < ListeningCount
  {
    if Suicidal in symptoms then CrisisReply
    else if Depression in symptoms then DepressionReply
    else if Anxiety in symptoms then AnxietyReply
    else ListeningReply(|message| % ListeningCount)
  }

  /** The category a fixed reply is written for; the general replies address none. */
  function Addressed(e: Empathetic): Option<Category> {
    match e
    case CrisisReply => Some(Suicidal)
    case DepressionReply => Some(Depression)
    case AnxietyReply => Some(Anxiety)
    case ListeningReply(_) => None
  }

  /** The crisis reply is given exactly when a suicidal pattern matched, whatever else matched. */
  lemma CrisisIffSuicidal(message: string, symptoms: seq<Category>)
    ensures EmpatheticResponse(message, symptoms) == CrisisReply <==> Suicidal in symptoms
  {
  }

  /**
   * A fixed reply addresses a detected category, and no other detected category
   * with a reply of its own has a larger severity weight (so depression comes
   * before anxiety); a general reply is given exactly when none of suicidal,
   * depression and anxiety was detected.
   */
  lemma EmpatheticAddressesMostSevere(message: string, symptoms: seq<Category>)
    ensures Addressed(EmpatheticResponse(message, symptoms)).Some? ==>
              && Addressed(EmpatheticResponse(message, symptoms)).value in symptoms
              && forall d | d in symptoms && d != Stress ::
                   WeightOf(Weights, d) <= WeightOf(Weights, Addressed(EmpatheticResponse(message, symptoms)).value)
    ensures Addressed(EmpatheticResponse(message, symptoms)).None? <==>
              Suicidal !in symptoms && Depression !in symptoms && Anxiety !in symptoms
  {
  }

  /** The general reply depends on the length of the message only: two messages of one length get the same reply. */
  lemma ListeningDependsOnLength(m1: string, m2: string, symptoms: seq<Category>)
    requires |m1| == |m2|
    ensures EmpatheticResponse(m1, symptoms) == EmpatheticResponse(m2, symptoms)
  {
  }

  /** Every general reply is given to some message: the rotation by length reaches all three. */
  lemma ListeningCoversAll(k: nat)
    requires k < ListeningCount
    ensures exists message: string :: EmpatheticResponse(message, []) == ListeningReply(k)
  {
    var message: string := seq(k, i => 'a');
    assert EmpatheticResponse(message, []) == ListeningReply(k);
  }

  /** Token ids of the generator's running context (`chat_history_ids`). */
  type Tokens = seq<int>

  /**
   * What the `try` block of a turn meets. `ModelMissing`: the tokenizer or the
   * model did not load. `Completed(text, newIds)`: `model.generate` returned
   * its input followed by `newIds`, which decode to `text`. `Raised(generated)`:
   * an exception was raised, after `generate` had returned `newIds` when
   * `generated` is `Some(newIds)`, before it had when `generated` is `None`.
   */
  datatype Generation =
    | ModelMissing
    | Completed(text: string, newIds: Tokens)
    | Raised(generated: Option<Tokens>)

  /** What the bot says: the generated text, or a fixed reply. */
  datatype Reply = ModelText(text: string) | Fallback(canned: Empathetic)

  /** The generator's input: the running context followed by the encoded prompt, or the prompt alone at first. */
  function BotInput(history: Option<Tokens>, promptIds: Tokens): (input: Tokens)
    ensures history.Some? ==> history.value <= input
    ensures |promptIds| <= |input| && input[|input| - |promptIds|..] == promptIds
  {
    match history
    case Some(h) => h + promptIds
    case None => promptIds
  }

  /**
   * The reply of a turn: the generated text, unless a suicidal pattern matched,
   * the text is blank after stripping, the model is missing or generation
   * raised; in each of those cases the empathetic fallback.
   */
  function FinalReply(prompt: string, symptoms: seq<Category>, gen: Generation): (r: Reply)
    ensures r.Fallback? <==> Suicidal in symptoms || !gen.Completed? || IsBlank(gen.text)
    ensures r.Fallback? ==> r.canned == EmpatheticResponse(prompt, symptoms)
    ensures r.ModelText? ==> gen.Completed? && r.text == gen.text && !IsBlank(r.text)
  {
    match gen
    case Completed(text, _) =>
      StripEmptyIffBlank(text);
      if Suicidal in symptoms || Strip(text) == [] then Fallback(EmpatheticResponse(prompt, symptoms))
      else ModelText(text)
    case _ => Fallback(EmpatheticResponse(prompt, symptoms))
  }

  /** A suicidal message always gets the crisis reply, whatever the generator produced. */
  lemma SuicidalOverridesGenerator(prompt: string, symptoms: seq<Category>, gen: Generation)
    requires Suicidal in symptoms
    ensures FinalReply(prompt, symptoms, gen) == Fallback(CrisisReply)
  {
  }

  /** `model.generate` returned, so its output was stored as the new context. */
  predicate GenerateReturned(gen: Generation) {
    gen.Completed? || (gen.Raised? && gen.generated.Some?)
  }

  /**
   * The running context after a turn: once `generate` has returned, the input it
   * was given followed by what it added, so the old context and the prompt stay
   * at its head; otherwise unchanged.
   */
  function HistoryAfter(history: Option<Tokens>, promptIds: Tokens, gen: Generation): (r: Option<Tokens>)
    ensures GenerateReturned(gen) ==> r.Some? && BotInput(history, promptIds) <= r.value
    ensures GenerateReturned(gen) && history.Some? ==> history.value <= r.value
    ensures !GenerateReturned(gen) ==> r == history
  {
    match gen
    case Completed(_, newIds) => Some(BotInput(history, promptIds) + newIds)
    case Raised(Some(newIds)) => Some(BotInput(history, promptIds) + newIds)
    case _ => history
  }

  /** What the sidebar and the chat area show of a session. */
  datatype View = View(messages: seq<Message<Reply>>, chatHistory: Option<Tokens>,
                       counts: map<Category, nat>, score: nat, level: RiskLevel, conversationCount: nat)

  const EmptyView := View([], None, map[], 0, Low, 0)

  /** `st.session_state` of the generative variant. */
  class Session {
    var messages: seq<Message<Reply>>
    var chatHistory: Option<Tokens>
    var counts: map<Category, nat>
    var score: nat
    var level: RiskLevel
    var conversationCount: nat

    /**
     * The transcript alternates user and assistant entries, one pair per turn;
     * the counts are what re-running the detector over the user entries gives;
     * score and level are derived from the counts.
     */
    ghost predicate Valid()
      reads this
    {
      && Alternates(messages)
      && |messages| == 2 * conversationCount
      && counts == Replay(Table, messages)
      && score == Score(Categories, Weights, counts)
      && level == LevelFor(score, Count(counts, Suicidal))
    }

    function Snapshot(): View
      reads this
    {
      View(messages, chatHistory, counts, score, level, conversationCount)
    }

    /** The session-state initialisation. */
    constructor ()
      ensures Valid() && Snapshot() == EmptyView
    {
      messages, chatHistory, counts, score, level, conversationCount := [], None, map[], 0, Low, 0;
      ScoreOfNoCounts(Categories, Weights);
    }

    /** `analyze_message`: adds one to the count of every detected category. */
    method AnalyzeMessage(message: string) returns (detected: seq<Category>)
      modifies this
      ensures detected == Detected(Table, Lower(message))
      ensures forall c :: Count(counts, c) == Count(old(counts), c) + (if c in detected then 1 else 0)
      ensures counts == Bump(old(counts), detected)
      ensures messages == old(messages) && chatHistory == old(chatHistory)
      ensures score == old(score) && level == old(level) && conversationCount == old(conversationCount)
    {
      TableShape();
      detected, counts := Scan(Table, message, counts);
    }

    /** `calculate_severity`: recomputes score and level from the counts. */
    method CalculateSeverity()
      modifies this
      ensures score == Score(Categories, Weights, counts)
      ensures level == LevelFor(score, Count(counts, Suicidal))
      ensures messages == old(messages) && chatHistory == old(chatHistory) && counts == old(counts)
      ensures conversationCount == old(conversationCount)
    {
      score := SumScore(Categories, Weights, counts);
      if score >= CriticalScore || Count(counts, Suicidal) > 0 {
        level := Critical;
      } else if score >= HighScore {
        level := High;
      } else if score >= ModerateScore {
        level := Moderate;
      } else {
        level := Low;
      }
    }

    /**
     * The reply step of a turn: run the generator when it is loaded, store its
     * output as the new context, and fall back to the empathetic reply when the
     * message is suicidal, the text is blank, the model is missing or an
     * exception was raised.
     */
    method Respond(prompt: string, symptoms: seq<Category>, promptIds: Tokens, gen: Generation)
        returns (response: Reply)
      modifies this
      ensures response == FinalReply(prompt, symptoms, gen)
      ensures chatHistory == HistoryAfter(old(chatHistory), promptIds, gen)
      ensures messages == old(messages) && counts == old(counts) && score == old(score)
      ensures level == old(level) && conversationCount == old(conversationCount)
    {
      match gen {
        case ModelMissing =>
          response := Fallback(EmpatheticResponse(prompt, symptoms));
        case Completed(text, newIds) =>
          chatHistory := Some(BotInput(chatHistory, promptIds) + newIds);
          response := ModelText(text);
          if Suicidal in symptoms || Strip(text) == [] {
            response := Fallback(EmpatheticResponse(prompt, symptoms));
          }
        case Raised(generated) =>
          if generated.Some? {
            chatHistory := Some(BotInput(chatHistory, promptIds) + generated.value);
          }
          response := Fallback(EmpatheticResponse(prompt, symptoms));
      }
    }

    /**
     * Halfway through a turn: the prompt is recorded and counted, the reply is
     * not yet. The counts, score and level already reflect the prompt.
     */
    ghost predicate AwaitingReply()
      reads this
    {
      && Alternates(messages)
      && |messages| == 2 * conversationCount - 1
      && counts == Replay(Table, messages)
      && score == Score(Categories, Weights, counts)
      && level == LevelFor(score, Count(counts, Suicidal))
    }

    /**
     * The first half of a chat turn: record the prompt, count the turn, detect
     * and rescore.
     */
    method ReceivePrompt(prompt: string) returns (symptoms: seq<Category>)
      requires Valid()
      modifies this
      ensures AwaitingReply()
      ensures messages == old(messages) + [UserSaid(prompt)]
      ensures conversationCount == old(conversationCount) + 1
      ensures chatHistory == old(chatHistory)
      ensures symptoms == Detected(Table, Lower(prompt))
      ensures forall c :: Count(counts, c) == Count(old(counts), c) + (if c in symptoms then 1 else 0)
      ensures Suicidal in symptoms ==> level == Critical
      ensures IsBlank(prompt) ==> symptoms == [] && counts == old(counts) && score == old(score) && level == old(level)
    {
      if IsBlank(prompt) {
        BlankDetectsNothing(Table, prompt);
        BumpNothing(counts);
      }
      AlternatesAppend(messages, UserSaid(prompt));
      ReplayUser(Table, messages, prompt);
      messages := messages + [UserSaid(prompt)];
      conversationCount := conversationCount + 1;
      symptoms := AnalyzeMessage(prompt);
      CalculateSeverity();
    }

    /** The last step of a chat turn: record the reply. */
    method RecordReply(response: Reply)
      requires AwaitingReply()
      modifies this
      ensures Valid()
      ensures messages == old(messages) + [BotSaid(response)]
      ensures counts == old(counts) && score == old(score) && level == old(level)
      ensures conversationCount == old(conversationCount) && chatHistory == old(chatHistory)
    {
      AlternatesAppend(messages, BotSaid(response));
      ReplayAssistant(Table, messages, response);
      messages := messages + [BotSaid(response)];
    }

    /**
     * One chat turn on a submitted, non-empty prompt: record the prompt, count
     * the turn, detect, rescore, produce a reply and record it.
     */
    method Turn(prompt: string, promptIds: Tokens, gen: Generation) returns (symptoms: seq<Category>, response: Reply)
      requires Valid()
      requires prompt != ""
      modifies this
      ensures Valid()
      ensures messages == old(messages) + [UserSaid(prompt), BotSaid(response)]
      ensures conversationCount == old(conversationCount) + 1
      ensures symptoms == Detected(Table, Lower(prompt))
      ensures forall c :: Count(counts, c) == Count(old(counts), c) + (if c in symptoms then 1 else 0)
      ensures response == FinalReply(prompt, symptoms, gen)
      ensures chatHistory == HistoryAfter(old(chatHistory), promptIds, gen)
      ensures Suicidal in symptoms ==> level == Critical && response == Fallback(CrisisReply)
      ensures IsBlank(prompt) ==> symptoms == [] && counts == old(counts) && score == old(score) && level == old(level)
    {
      symptoms := ReceivePrompt(prompt);
      response := Respond(prompt, symptoms, promptIds, gen);
      RecordReply(response);
      assert messages == old(messages) + [UserSaid(prompt)] + [BotSaid(response)];
      if Suicidal in symptoms {
        SuicidalOverridesGenerator(prompt, symptoms, gen);
      }
    }

    /** "Start New Conversation": every field, the generator's context included, back to its initial value at once. */
    method Reset()
      modifies this
      ensures Valid() && Snapshot() == EmptyView
    {
      messages := [];
      chatHistory := None;
      counts := map[];
      score := 0;
      level := Low;
      conversationCount := 0;
      ScoreOfNoCounts(Categories, Weights);
    }
  }
}
