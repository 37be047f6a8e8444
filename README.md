# MindCare turn engine in Dafny

MindCare is a mental-health support chatbot with two Streamlit front ends:

- `streamlit_app_lite.py` is rule-based and answers from fixed template banks.
- `streamlit_app.py` asks a DialoGPT text generator for a reply and falls back to fixed empathetic texts.

This project models the turn engine the two share and proves its properties. The engine has four parts:

- The **symptom detector** (`analyze_message`).
  - It scans one lower-cased message against a table of categories. Each category has an ordered list of regular expressions of the form `\b(a|b|...)\b`.
  - It stops at the first matching pattern of each category. Each detected category gains exactly one count.
  - Counts behave like a `defaultdict(int)`: a missing key reads as 0.
- The **severity scorer** (`calculate_severity`).
  - The score is the sum of weight × min(count, 3). A category with no weight gets 3.
  - The level is `critical`, `high`, `moderate` or `low`, chosen by the thresholds 25/15/8. Any suicidal mention forces `critical`.
- The **reply selector**.
  - Lite variant: greeting, then positive (only when nothing was detected), then the bank of the most severe detected category, then the general bank.
  - Full variant: the generated text, replaced by `get_empathetic_response` when the message is suicidal, the text is blank, the model is missing or generation raises.
- The **session**: transcript, counts, score, level and turn counter, plus the generator's token context in the full variant.
  - A turn appends one user entry and one assistant entry.
  - Reset restores every field at once.

Files:

| file | contents |
|---|---|
| `text.dfy` | `str.lower`, `str.strip`, `len(str.split())`, `startswith`, substring `in`, and Python's `\b` word boundary |
| `detector.dfy` | the transcript; the generic detector and its specification `Detected`; the re-run of the detector over a transcript (`Replay`) |
| `severity.dfy` | the generic scorer and the level rule |
| `lite.dfy` | the six-category rule-based variant, with `Lite.Session` as its `st.session_state` |
| `full.dfy` | the four-category generative variant, with `Full.Session` |

The session classes share one invariant, `Valid()`. It says four things:

- the transcript alternates user and assistant entries;
- it holds one pair per counted turn;
- the counts are exactly what re-running the detector over the user entries gives;
- score and level are derived from the counts.

Every turn preserves `Valid()`. Construction and reset establish it together with the empty state, so resetting twice leaves the same state as resetting once.

`calculate_severity` walks `symptom_counts.items()` in insertion order. The model sums over all categories in table order. `Severity.ScoreOrderFree` proves that the order of the summed categories does not matter, and neither do categories with no mention. `Lite.ScoreOverDictKeys` applies this to any key order the dict can hold.

On ASCII text the `re.IGNORECASE` flag changes nothing, because every message is lower-cased before the search and every pattern is lower case. On non-ASCII text it does matter (see "## Left out").

A turn runs only on a non-empty prompt, because `if prompt := st.chat_input(...)` tests truthiness. `Turn` requires `prompt != ""` for that reason.

## Model

| member | source | states |
|---|---|---|
| Text.IsSpace | streamlit_app_lite.py:217-218 | the character set of `str.isspace()`, which `strip()` and `split()` treat as whitespace |
| Text.Lower | streamlit_app_lite.py:185 | `str.lower()`: each character mapped on its own, ASCII capitals to small letters, every other character unchanged |
| Text.Strip | streamlit_app_lite.py:217 | `str.strip()`, defined as left-trimming followed by right-trimming; its properties are stated by the three lemmas below |
| Text.TrimLeftIsSuffix | streamlit_app_lite.py:216-217 | leading-whitespace removal keeps a suffix that does not start with whitespace, and removes only whitespace |
| Text.TrimRightIsPrefix | streamlit_app_lite.py:216-217 | trailing-whitespace removal keeps a prefix that does not end with whitespace, and removes only whitespace |
| Text.StripIsSlice | streamlit_app_lite.py:216-217 | `strip()` returns a slice of the input that neither starts nor ends with whitespace |
| Text.StripEmptyIffBlank | streamlit_app.py:323 | `not text.strip()` holds exactly when every character of the text is whitespace |
| Text.WordCount | streamlit_app_lite.py:218 | `len(message.split())`, counted as the number of positions where a word starts; characterised by the two lemmas below |
| Text.WordCountZeroIffBlank | streamlit_app_lite.py:218 | `len(message.split())` is 0 exactly when the message is blank |
| Text.WordCountOfOneWord | streamlit_app_lite.py:218 | a non-empty message without whitespace splits into exactly one word |
| Text.StartsWith | streamlit_app_lite.py:218 | `str.startswith`: the prefix of the text as long as the word equals the word |
| Text.Contains | streamlit_app_lite.py:223 | substring `in`: the search for the word from index 0 |
| Text.OccursFromIff | streamlit_app_lite.py:223 | the left-to-right substring search succeeds exactly when the word occurs at some index of the message |
| Text.IsWordChar | streamlit_app_lite.py:189 | a character of the `\w` class: ASCII letters, digits and the underscore |
| Text.Boundary | streamlit_app_lite.py:189 | the `\b` assertion: exactly one of the two characters around the position is a word character, a position outside the text counting as none |
| Text.Matches | streamlit_app_lite.py:189 | `re.search` of a `\b(...)\b` alternation: some alternative occurs at some position with a word boundary on both sides |
| Text.BlankHasNoMatch | streamlit_app_lite.py:189 | no pattern matches an empty or whitespace-only message, lower-cased or not, because such text has no word boundary |
| Transcript.AlternatesAppend | streamlit_app_lite.py:338-354 | a user entry after a complete turn, or an assistant entry after a user entry, keeps the transcript alternating |
| Detector.Count | streamlit_app_lite.py:191 | the `defaultdict(int)` read: a category that is not a key reads 0 |
| Detector.Detected | streamlit_app_lite.py:182-194 | the detected list: the categories of the rows one of whose patterns matches, in table order; characterised by the two lemmas below |
| Detector.DetectedIff | streamlit_app_lite.py:187-192 | a category is detected iff one of its patterns matches the lower-cased message |
| Detector.DetectedInTableOrder | streamlit_app_lite.py:182-194 | the detected list follows table order and has no duplicates |
| Detector.FirstMatch | streamlit_app_lite.py:188-192 | the inner loop with `break` reports a match exactly when some pattern of the row matches |
| Detector.Scan | streamlit_app_lite.py:182-194 | the nested loop with `break` returns exactly the detected categories. Each detected category's count rises by exactly one; every other count is unchanged |
| Detector.BlankDetectsNothing | streamlit_app_lite.py:182-194 | an empty or whitespace-only message detects nothing, whatever the table |
| Detector.Bump | streamlit_app_lite.py:187-193 | `symptom_counts[symptom] += 1` for every detected category: each detected count rises by one, the others keep their value |
| Detector.BumpNothing | streamlit_app_lite.py:187-193 | when nothing is detected, no count changes |
| Detector.Replay | streamlit_app_lite.py:338-346 | the counts a transcript implies: the detector re-run over every user entry from an empty `defaultdict`; the session invariant states counts equal it |
| Detector.ReplayUser | streamlit_app_lite.py:338-346 | a user entry adds to the replayed counts exactly the categories detected in its text |
| Detector.ReplayAssistant | streamlit_app_lite.py:354 | an assistant entry leaves the replayed counts unchanged |
| Detector.AlternatingUserEntries | streamlit_app_lite.py:338-354 | an alternating transcript of n entries holds ceil(n/2) user entries |
| Detector.ReplayCountBound | streamlit_app_lite.py:187-192 | no count exceeds the number of user messages, because the `break` adds at most one per message |
| Detector.ReplayBoundedByTurns | streamlit_app_lite.py:338-346 | in a transcript of complete turns no replayed count exceeds the number of turns, so in a consistent session of either variant no count exceeds `conversation_count` |
| Severity.LevelFor | streamlit_app_lite.py:205-212 | any suicidal mention gives `critical`. Otherwise the level's rank is the number of thresholds 8, 15, 25 the score reaches |
| Severity.LevelMonotone | streamlit_app_lite.py:205-212 | a higher score, or a suicidal mention appearing, never lowers the level |
| Severity.WeightOf | streamlit_app_lite.py:200 | `SEVERITY_WEIGHTS.get(symptom, 3)`: the table weight, or 3 for a category without one |
| Severity.Score | streamlit_app_lite.py:196-203 | the specification of the score: the sum over the summed categories of weight (default 3) × min(count, 3); characterised by the lemmas below |
| Severity.SumScore | streamlit_app_lite.py:196-203 | the accumulation loop computes the sum of weight × min(count, 3) |
| Severity.ScoreOfNoCounts | streamlit_app_lite.py:196-203 | empty counts score 0 |
| Severity.ScoreOfOne | streamlit_app_lite.py:196-203 | with a single counted category, the score is its weight (default 3) × min(count, 3) |
| Severity.ScoreIgnoresOthers | streamlit_app_lite.py:199-201 | a count of a category outside the summed list does not affect the score |
| Severity.ScoreSaturates | streamlit_app_lite.py:199-201 | raising a count that is already ≥ 3 leaves the score unchanged |
| Severity.ScoreMonotone | streamlit_app_lite.py:199-201 | raising a count never lowers the score |
| Severity.ScoreIncrement | streamlit_app_lite.py:199-201 | below the cap, one more mention adds exactly the category's weight |
| Severity.ScoreOfUncounted | streamlit_app_lite.py:199-201 | categories none of which has a mention score 0 |
| Severity.ScoreWithout | streamlit_app_lite.py:199-201 | taking one category out of the summed list takes exactly its term out of the score |
| Severity.ScoreOrderFree | streamlit_app_lite.py:199-201 | two summed lists without repeats that hold the same categories with a mention give the same score, whatever their order |
| Lite.Table | streamlit_app_lite.py:65-95 | `MENTAL_HEALTH_PATTERNS`: six rows in dict order, each with its patterns and their alternatives as written |
| Lite.Weights | streamlit_app_lite.py:97-104 | `SEVERITY_WEIGHTS`: suicidal 10, self-harm 9, trauma 7, depression 6, anxiety 5, stress 4 |
| Lite.TableShape | streamlit_app_lite.py:65-95 | the six categories appear once each, in the order summed by the scorer |
| Lite.KillMyselfIsSuicidal | streamlit_app_lite.py:91-92 | "I want to kill myself" is detected as suicidal, so the crisis path of a turn is reachable |
| Lite.GreetingWords | streamlit_app_lite.py:216 | the `greetings` list of `is_greeting`, in order |
| Lite.PositiveWords | streamlit_app_lite.py:222 | the `positive_words` list of `is_positive`, in order |
| Lite.StartsWithAny | streamlit_app_lite.py:218 | `any(message_lower.startswith(g) for g in greetings)`, scanning the list from the front |
| Lite.ContainsAny | streamlit_app_lite.py:223 | `any(word in message.lower() for word in positive_words)`, scanning the list from the front |
| Lite.IsGreeting | streamlit_app_lite.py:214-218 | `is_greeting`: the stripped, lower-cased message starts with a greeting, and the raw message has at most three words |
| Lite.IsPositive | streamlit_app_lite.py:220-223 | `is_positive`: some positive word is a substring of the lower-cased message |
| Lite.StartsWithAnyIff | streamlit_app_lite.py:218 | the `any(... startswith ...)` scan accepts exactly when some greeting is a prefix of the text |
| Lite.ContainsAnyIff | streamlit_app_lite.py:223 | the `any(word in ...)` scan accepts exactly when some positive word occurs in the text |
| Lite.ReplyBank | streamlit_app_lite.py:228-250 | the priority chain of `get_response` over the outcomes of `is_greeting` and `is_positive` and the detected list; its properties are stated by the lemmas below |
| Lite.BankSize | streamlit_app_lite.py:107-172 | the number of templates in each list of `RESPONSE_TEMPLATES` and in `GREETINGS` |
| Lite.Wording | streamlit_app_lite.py:107-172 | the text of each template, verbatim |
| Lite.Pick | streamlit_app_lite.py:230 | `random.choice`: whatever the random source gives, the template belongs to the bank |
| Lite.PickCoversBank | streamlit_app_lite.py:230 | every template of a bank can be picked |
| Lite.GetResponse | streamlit_app_lite.py:225-250 | whatever the random pick, the reply belongs to the bank the priority chain selects |
| Lite.GreetingPrecedence | streamlit_app_lite.py:228-230 | a greeting is answered from `GREETINGS` whatever symptoms were detected |
| Lite.HistoryIsGreeting | streamlit_app_lite.py:214-218 | the greeting test is a prefix test, so the one-word message "history" is a greeting |
| Lite.PositiveOnlyWithoutSymptoms | streamlit_app_lite.py:228-234 | the positive bank is used iff the message is not a greeting, is positive, and nothing was detected |
| Lite.GeneralOnlyAsFallback | streamlit_app_lite.py:236-250 | the general bank is used iff the message is not a greeting, is not positive, and nothing was detected |
| Lite.ReplyAddressesMostSevere | streamlit_app_lite.py:236-250 | when a non-greeting message shows symptoms (positive or not), the reply's bank is a detected category. No detected category has a larger severity weight |
| Lite.DepressionOnlyScore | streamlit_app_lite.py:196-203 | with only depression counted, n mentions score 6 × min(n, 3) |
| Lite.DepressionEscalation | streamlit_app_lite.py:196-212 | repeated depression-only messages score 6, 12, 18, 18 and reach low, moderate, high, high |
| Lite.ScoreOverDictKeys | streamlit_app_lite.py:199-201 | summing over the keys of `symptom_counts`, in any insertion order and with or without keys whose count is 0, gives the same score as summing over all six categories |
| Lite.Session.constructor | streamlit_app_lite.py:175-180 | the initial session is empty, consistent, with score 0 and level `low` |
| Lite.Session.AnalyzeMessage | streamlit_app_lite.py:182-194 | detects in table order and adds one to each detected category's count; nothing else changes |
| Lite.Session.CalculateSeverity | streamlit_app_lite.py:196-212 | score and level are recomputed from the counts; nothing else changes |
| Lite.Session.ReceivePrompt | streamlit_app_lite.py:338-346 | recording and analysing the prompt appends the user entry, adds 1 to the counter and bumps exactly the detected counts; a blank prompt changes no count, score or level; counts, score and level stay derived from the transcript |
| Lite.Session.RecordReply | streamlit_app_lite.py:354 | appending the reply completes the turn and restores the session invariant; counts, score, level and counter are unchanged |
| Lite.Session.Turn | streamlit_app_lite.py:336-354 | a turn appends the prompt and the reply and adds 1 to the counter. It bumps exactly the detected counts, picks the reply from the right bank, forces `critical` on a suicidal prompt, leaves counts, score and level unchanged on a whitespace-only prompt, and keeps the session consistent |
| Lite.Session.Reset | streamlit_app_lite.py:370-375 | every field returns to its initial value at once, which makes reset idempotent |
| Full.Table | streamlit_app.py:86-104 | `MENTAL_HEALTH_PATTERNS`: four rows in dict order, each with its patterns and their alternatives as written |
| Full.Weights | streamlit_app.py:106-111 | `SEVERITY_WEIGHTS`: suicidal 10, depression 6, anxiety 5, stress 4 |
| Full.TableShape | streamlit_app.py:86-104 | the four categories appear once each, in the order summed by the scorer |
| Full.KillMyselfIsSuicidal | streamlit_app.py:101-102 | "I want to kill myself" is detected as suicidal, so the crisis reply and `critical` level of a turn are reachable |
| Full.Wording | streamlit_app.py:170-187 | the text of each fixed reply, verbatim |
| Full.EmpatheticResponse | streamlit_app.py:168-189 | `get_empathetic_response`: when the reply is one of the general replies, its index `len(message) % 3` is in bounds; the order of the crisis, depression and anxiety branches is stated by the lemmas below |
| Full.CrisisIffSuicidal | streamlit_app.py:170-173 | the crisis text is returned exactly when suicidal is detected, whatever else is |
| Full.EmpatheticAddressesMostSevere | streamlit_app.py:170-181 | a fixed reply addresses a detected category, with depression before anxiety by weight. A general reply is given iff none of suicidal, depression, anxiety was detected |
| Full.ListeningDependsOnLength | streamlit_app.py:183-189 | the general reply is deterministic: it depends only on the message length |
| Full.ListeningCoversAll | streamlit_app.py:183-189 | each of the three general replies is given to some message |
| Full.BotInput | streamlit_app.py:302 | the generator's input begins with the previous context and ends with the encoded prompt |
| Full.FinalReply | streamlit_app.py:296-330 | the fallback is used iff the message is suicidal, the model is missing, generation raised, or the text is blank after stripping. Then it is `get_empathetic_response`; otherwise the reply is the generated, non-blank text |
| Full.SuicidalOverridesGenerator | streamlit_app.py:323-324 | a suicidal message always gets the crisis text, whatever the generator produced |
| Full.HistoryAfter | streamlit_app.py:302-318 | once `generate` has returned, the new context extends the old context and the prompt; otherwise it is unchanged |
| Full.Session.constructor | streamlit_app.py:114-120 | the initial session is empty with no generator context, consistent, score 0, level `low` |
| Full.Session.AnalyzeMessage | streamlit_app.py:135-147 | detects in table order and adds one to each detected category's count; nothing else changes |
| Full.Session.CalculateSeverity | streamlit_app.py:149-166 | score and level are recomputed from the counts; nothing else changes |
| Full.Session.ReceivePrompt | streamlit_app.py:283-291 | recording and analysing the prompt appends the user entry, adds 1 to the counter, bumps exactly the detected counts and forces `critical` on a suicidal prompt; a blank prompt changes no count, score or level; the generator context is unchanged |
| Full.Session.Respond | streamlit_app.py:296-330 | the try/except reply step yields `FinalReply` and stores the generator output as the new context |
| Full.Session.RecordReply | streamlit_app.py:335 | appending the reply completes the turn and restores the session invariant; every other field is unchanged |
| Full.Session.Turn | streamlit_app.py:281-335 | a turn appends the prompt and the reply and adds 1 to the counter. It bumps exactly the detected counts, gives the overridden reply (crisis text and `critical` on a suicidal prompt), leaves counts, score and level unchanged on a whitespace-only prompt, and keeps the session consistent |
| Full.Session.Reset | streamlit_app.py:351-357 | messages, generator context, counts, score, level and counter return to their initial values at once |

## Left out

- Streamlit rendering is presentation only and is not modelled: page setup, CSS and HTML, sidebar metrics, the SOS button, expanders, chat widgets, `st.rerun`, spinners, the crisis banner and the error banner.
- The unused `datetime` import plays no part in any behaviour.
- Model loading and generation are calls into code outside this model:
  - loading the tokenizer and the model;
  - `tokenizer.encode`;
  - `model.generate` and its sampling parameters and `max_length`;
  - `tokenizer.decode`.
- How those calls reach the model:
  - `Full.Session.Turn` takes the encoded prompt as `promptIds` and the outcome of the `try` block as a `Generation`;
  - an exception raised before `generate` returns is `Raised(None)`.
- `random.choice` is not modelled: the pick is the parameter `pick`. The contracts state only that the reply belongs to the right bank.
- Template text plays no part in any property:
  - replies are identified by bank and position (`Lite.Template`, `Full.Empathetic`);
  - the texts are kept in `Lite.Wording` and `Full.Wording`.
- The regular-expression engine is modelled only for the one pattern shape the tables use: some alternative occurs with a word boundary on both sides.
- The `\w` character class, `str.lower()` and `re.IGNORECASE` are modelled on ASCII only. Non-ASCII letters are neither word characters nor lower-cased.
  - Python's case-insensitive matching also folds some non-ASCII letters onto ASCII ones that `str.lower()` leaves alone, such as `ı` (U+0131) onto `i` and `ſ` (U+017F) onto `s`.
  - The source therefore detects `suicidal` in "I want to kıll myself" or "ſuicide"; `Detected` detects nothing in either.
- Reading `symptom_counts['suicidal']` inserts a `'suicidal': 0` key into the `defaultdict`. The model reads 0 without inserting. The inserted key only affects the sidebar's symptom listing, which is not modelled.
- `Lite.Session.Turn`, `Full.Session.Turn` and the `Valid()` invariants treat a turn as uninterrupted.
  - In the source, Streamlit calls run between the user entry's append and the reply's append. A rerun requested meanwhile (a new prompt, the reset button) stops the script there; `except Exception` does not catch it.
  - Such a run leaves a user entry without a reply, and possibly a raised counter without the counts. `Valid()` describes only sessions whose runs all completed.
- `Full.HistoryAfter` relies on `model.generate` returning its input followed by the new tokens. The source relies on the same when it slices the output at the input's length. `Completed(text, newIds)` and `Raised(Some(newIds))` carry only the new tokens.
