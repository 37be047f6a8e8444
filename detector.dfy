/** The conversation transcript shared by both variants of the bot. */
module Transcript {

  /**
   * One entry of `messages`: a `{"role": "user", ...}` entry holding the
   * prompt, or a `{"role": "assistant", ...}` entry holding the reply, whose
   * representation each variant chooses.
   */
  datatype Message<R> = UserSaid(text: string) | BotSaid(reply: R)

  datatype Option<T> = None | Some(value: T)

  /** Entries alternate user, assistant, user, assistant, ... starting with the user. */
  predicate Alternates<R>(messages: seq<Message<R>>) {
    forall i | 0 <= i < |messages| :: messages[i].UserSaid? == (i % 2 == 0)
  }

  /** Appending a user entry after a complete turn, or an assistant entry after a user entry, keeps the alternation. */
  lemma AlternatesAppend<R>(messages: seq<Message<R>>, entry: Message<R>)
    requires Alternates(messages)
    requires entry.UserSaid? == (|messages| % 2 == 0)
    ensures Alternates(messages + [entry])
  {
  }
}

/**
 * The symptom detector: a table of category -> ordered pattern list, scanned
 * in table order against one lower-cased message. Symptom counts behave like
 * Python's `defaultdict(int)`: a category that is not a key reads as 0.
 */
module Detector {
  import opened Text
  import opened Transcript

  /** One row of `MENTAL_HEALTH_PATTERNS`: a category and its ordered patterns. */
  datatype Entry<C> = Entry(category: C, patterns: seq<Pattern>)

  /** `counts[c]` on a `defaultdict(int)`. */
  function Count<C>(counts: map<C, nat>, c: C): nat {
    if c in counts then counts[c] else 0
  }

  /** Some pattern of the list matches the text. */
  predicate AnyMatch(patterns: seq<Pattern>, text: string) {
    exists k | 0 <= k < |patterns| :: Matches(patterns[k], text)
  }

  /** No category appears in two rows of the table (a Python dict has unique keys). */
  predicate DistinctCategories<C(==)>(table: seq<Entry<C>>) {
    forall i, j | 0 <= i < j < |table| :: table[i].category != table[j].category
  }

  /** The categories detected in `text`, in table order: those rows one of whose patterns matches. */
  function Detected<C>(table: seq<Entry<C>>, text: string): seq<C>
    decreases |table|
  {
    if table == [] then []
    else
      var rest := Detected(table[..|table| - 1], text);
      var last := table[|table| - 1];
      if AnyMatch(last.patterns, text) then rest + [last.category] else rest
  }

  /** A category is detected exactly when some pattern of its row matches. */
  lemma {:induction false} DetectedIff<C>(table: seq<Entry<C>>, text: string, c: C)
    ensures c in Detected(table, text) <==>
            exists i | 0 <= i < |table| :: table[i].category == c && AnyMatch(table[i].patterns, text)
    decreases |table|
  {
    if table != [] {
      var init := table[..|table| - 1];
      DetectedIff(init, text, c);
      assert forall i | 0 <= i < |init| :: init[i] == table[i];
    }
  }

  /**
   * The detected list has no duplicates and follows the table's order: any two
   * of its entries come from two rows of the table, in the same order.
   */
  lemma {:induction false} DetectedInTableOrder<C>(table: seq<Entry<C>>, text: string, a: nat, b: nat)
    requires DistinctCategories(table)
    requires a < b < |Detected(table, text)|
    ensures exists i, j | 0 <= i < j < |table| ::
              table[i].category == Detected(table, text)[a] && table[j].category == Detected(table, text)[b]
    ensures Detected(table, text)[a] != Detected(table, text)[b]
    decreases |table|
  {
    var init := table[..|table| - 1];
    var rest := Detected(init, text);
    var d := Detected(table, text);
    assert forall i | 0 <= i < |init| :: init[i] == table[i];
    if b < |rest| {
      assert d[a] == rest[a] && d[b] == rest[b];
      DetectedInTableOrder(init, text, a, b);
    } else {
      assert d[b] == table[|table| - 1].category;
      assert d[a] == rest[a];
      DetectedIff(init, text, rest[a]);
      var i :| 0 <= i < |init| && init[i].category == rest[a] && AnyMatch(init[i].patterns, text);
      assert table[i].category == d[a];
    }
  }

  /** An empty or whitespace-only message detects nothing, whatever the table. */
  lemma {:induction false} BlankDetectsNothing<C>(table: seq<Entry<C>>, message: string)
    requires IsBlank(message)
    ensures Detected(table, Lower(message)) == []
    decreases |table|
  {
    if table != [] {
      BlankDetectsNothing(table[..|table| - 1], message);
      forall p: Pattern {
        BlankHasNoMatch(p, message);
      }
    }
  }

  /** Bumping by no detection leaves the counts as they were. */
  lemma BumpNothing<C>(counts: map<C, nat>)
    ensures Bump(counts, []) == counts
  {
  }

  /** The counts after one message: every detected category goes up by one, nothing else moves. */
  function Bump<C(==)>(counts: map<C, nat>, detected: seq<C>): map<C, nat> {
    map c | c in counts.Keys + (set d | d in detected) :: Count(counts, c) + (if c in detected then 1 else 0)
  }

  /** The inner loop of `analyze_message`: tries a row's patterns in order and stops at the first match. */
  method FirstMatch(patterns: seq<Pattern>, text: string) returns (found: bool)
    ensures found == AnyMatch(patterns, text)
  {
    found := false;
    var j := 0;
    while j < |patterns|
      invariant 0 <= j <= |patterns|
      invariant forall k | 0 <= k < j :: !Matches(patterns[k], text)
    {
      if Matches(patterns[j], text) {
        found := true;
        break;
      }
      j := j + 1;
    }
  }

  /**
   * `analyze_message` without the session: scans the lower-cased message row by
   * row, stops at the first matching pattern of each row, records the row's
   * category and adds one to its count.
   */
  method Scan<C(==)>(table: seq<Entry<C>>, message: string, counts: map<C, nat>)
      returns (detected: seq<C>, updated: map<C, nat>)
    requires DistinctCategories(table)
    ensures detected == Detected(table, Lower(message))
    ensures forall c :: Count(updated, c) == Count(counts, c) + (if c in detected then 1 else 0)
    ensures updated == Bump(counts, detected)
  {
    var text := Lower(message);
    detected, updated := [], counts;
    var i := 0;
    while i < |table|
      invariant 0 <= i <= |table|
      invariant detected == Detected(table[..i], text)
      invariant forall c :: Count(updated, c) == Count(counts, c) + (if c in detected then 1 else 0)
      invariant updated.Keys == counts.Keys + set c | c in detected
    {
      assert table[..i + 1][..i] == table[..i];
      var category := table[i].category;
      var found := FirstMatch(table[i].patterns, text);
      if found {
        DetectedIff(table[..i], text, category);
        detected := detected + [category];
        updated := updated[category := Count(updated, category) + 1];
      }
      i := i + 1;
    }
    assert table[..i] == table;
  }

  /**
   * The counts obtained by re-running the detector over every user entry of a
   * transcript, from an empty `defaultdict`.
   */
  function Replay<C(==), R>(table: seq<Entry<C>>, messages: seq<Message<R>>): map<C, nat>
    decreases |messages|
  {
    if messages == [] then map[]
    else
      var before := Replay(table, messages[..|messages| - 1]);
      var last := messages[|messages| - 1];
      if last.UserSaid? then Bump(before, Detected(table, Lower(last.text))) else before
  }

  /** A user entry replays as one detector run on its text. */
  lemma ReplayUser<C, R>(table: seq<Entry<C>>, messages: seq<Message<R>>, prompt: string)
    ensures Replay(table, messages + [UserSaid(prompt)]) == Bump(Replay(table, messages), Detected(table, Lower(prompt)))
  {
    assert (messages + [UserSaid(prompt)])[..|messages|] == messages;
  }

  /** An assistant entry leaves the replayed counts unchanged. */
  lemma ReplayAssistant<C, R>(table: seq<Entry<C>>, messages: seq<Message<R>>, reply: R)
    ensures Replay(table, messages + [BotSaid(reply)]) == Replay(table, messages)
  {
    assert (messages + [BotSaid(reply)])[..|messages|] == messages;
  }

  /** The number of user entries in a transcript. */
  function UserEntries<R>(messages: seq<Message<R>>): nat
    decreases |messages|
  {
    if messages == [] then 0
    else UserEntries(messages[..|messages| - 1]) + (if messages[|messages| - 1].UserSaid? then 1 else 0)
  }

  /** An alternating transcript of length n holds ceil(n / 2) user entries. */
  lemma {:induction false} AlternatingUserEntries<R>(messages: seq<Message<R>>)
    requires Alternates(messages)
    ensures UserEntries(messages) == (|messages| + 1) / 2
    decreases |messages|
  {
    if messages != [] {
      var init := messages[..|messages| - 1];
      assert forall i | 0 <= i < |init| :: init[i] == messages[i];
      AlternatingUserEntries(init);
    }
  }

  /** Since one message adds at most one to a category, no count exceeds the number of user entries. */
  lemma {:induction false} ReplayCountBound<C, R>(table: seq<Entry<C>>, messages: seq<Message<R>>, c: C)
    ensures Count(Replay(table, messages), c) <= UserEntries(messages)
    decreases |messages|
  {
    if messages != [] {
      ReplayCountBound(table, messages[..|messages| - 1], c);
    }
  }

  /**
   * A transcript of complete turns replays to counts no larger than the number
   * of turns.
   */
  lemma ReplayBoundedByTurns<C, R>(table: seq<Entry<C>>, messages: seq<Message<R>>, turns: nat, c: C)
    requires Alternates(messages) && |messages| == 2 * turns
    ensures Count(Replay(table, messages), c) <= turns
  {
    ReplayCountBound(table, messages, c);
    AlternatingUserEntries(messages);
  }
}
