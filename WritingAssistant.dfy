/**
 * The writing-assistant component: its state, the startup load of the
 * history from storage, and the generate handler with its success, failure
 * and always-run branches. The generator is a pure function from prompt
 * text to an outcome, and the `Date.now()` id is a parameter.
 */
module WritingAssistant {
  import opened Wrappers
  import opened Scan
  import opened History
  import opened Storage

  /** The fixed text shown in place of a generated text when generation fails. */
  const ErrorMessage: string := "An error occurred while generating text. Please try again."

  /** What the generator rejected with; the component only logs it. */
  datatype GenerationError = GenerationError(detail: string)

  /** The options of the writing-level select. */
  predicate IsLevel(level: string) {
    level == "Low" || level == "Medium" || level == "High"
  }

  const PromptHead: string := "Generate a text of approximately "
  const PromptLevel: string := " words with a "
  const PromptAbout: string := " writing level about: \""

  /** The prompt sent to the generator; the word count is not clamped. */
  function FormatPrompt(wordCount: int, writingLevel: string, prompt: string): (r: string)
    ensures PromptHead <= r
    ensures var digits := IntToString(wordCount);
      |r| >= |PromptHead| + |digits| && r[|PromptHead|..|PromptHead| + |digits|] == digits
    ensures |r| > |prompt| && r[|r| - 1] == '"' && r[|r| - |prompt| - 1..|r| - 1] == prompt
  {
    PromptHead + (IntToString(wordCount) + (PromptLevel + (writingLevel + (PromptAbout + (prompt + "\"")))))
  }

  function ReadLevel(s: string): (r: Option<(string, string)>)
    ensures r.Some? ==> IsLevel(r.value.0) && s == r.value.0 + r.value.1
  {
    if "Low" <= s then Some(("Low", s[3..]))
    else if "Medium" <= s then Some(("Medium", s[6..]))
    else if "High" <= s then Some(("High", s[4..]))
    else None
  }

  /** Recovers the word count, level and prompt from a formatted prompt. */
  function ReadPrompt(s: string): Option<(int, string, string)> {
    var s1 :- Expect(PromptHead, s);
    var (wordCount, s2) :- ParseInt(s1);
    var s3 :- Expect(PromptLevel, s2);
    var (level, s4) :- ReadLevel(s3);
    var s5 :- Expect(PromptAbout, s4);
    if |s5| > 0 && s5[|s5| - 1] == '"' then Some((wordCount, level, s5[..|s5| - 1])) else None
  }

  /** The three state values appear verbatim and can be read back. */
  lemma PromptRoundTrip(wordCount: int, writingLevel: string, prompt: string)
    requires IsLevel(writingLevel)
    ensures ReadPrompt(FormatPrompt(wordCount, writingLevel, prompt)) == Some((wordCount, writingLevel, prompt))
  {
    var t5 := prompt + "\"";
    var t4 := PromptAbout + t5;
    var t3 := writingLevel + t4;
    var t2 := PromptLevel + t3;
    var t1 := IntToString(wordCount) + t2;
    ExpectPrefix(PromptHead, t1);
    IntRoundTrip(wordCount, t2);
    ExpectPrefix(PromptLevel, t3);
    assert ReadLevel(t3) == Some((writingLevel, t4)) by {
      assert writingLevel <= t3 && t3[|writingLevel|..] == t4;
      assert t3[0] == writingLevel[0];
    }
    ExpectPrefix(PromptAbout, t5);
    assert t5[..|t5| - 1] == prompt;
  }

  /** Different requests with a level from the select send different prompts. */
  lemma FormatPromptInjective(w1: int, l1: string, p1: string, w2: int, l2: string, p2: string)
    requires IsLevel(l1) && IsLevel(l2)
    ensures FormatPrompt(w1, l1, p1) == FormatPrompt(w2, l2, p2) <==> (w1, l1, p1) == (w2, l2, p2)
  {
    PromptRoundTrip(w1, l1, p1);
    PromptRoundTrip(w2, l2, p2);
  }

  /**
   * Why the level must come from the select: with a free-text level, text
   * can move between the level and the prompt without changing what is sent.
   */
  lemma FreeTextLevelAmbiguous(wordCount: int, level: string, x: string, y: string)
    ensures FormatPrompt(wordCount, level, x + PromptAbout + y) == FormatPrompt(wordCount, level + PromptAbout + x, y)
  {
    var q := "\"";
    assert x + PromptAbout + y + q == x + (PromptAbout + (y + q));
    assert level + (PromptAbout + (x + (PromptAbout + (y + q)))) == level + PromptAbout + x + (PromptAbout + (y + q));
  }

  /** Whether the startup load is modelled: the slot is absent, empty, or in the form `Parse` reads. */
  predicate Loadable(slot: Option<string>) {
    slot.None? || slot.value == "" || Parse(slot.value).Some?
  }

  /** The history after the startup load, given the slot and the history before it. */
  function Restore(slot: Option<string>, current: seq<Entry>): (h: seq<Entry>)
    requires Loadable(slot)
    ensures slot.None? || slot.value == "" ==> h == current
    ensures slot.Some? && slot.value != "" ==> Parse(slot.value) == Some(h)
  {
    if slot.Some? && slot.value != "" then Parse(slot.value).value else current
  }

  /** A saved history loads back as itself, whatever the history was before. */
  lemma RestoreSaved(h: seq<Entry>, current: seq<Entry>)
    ensures Loadable(Some(Serialize(h)))
    ensures Restore(Some(Serialize(h)), current) == h
  {
    ParseSerialize(h);
    assert Serialize(h)[0] == '[';
  }

  /** The values the generate handler's closure captured when it was invoked. */
  datatype Captured = Captured(prompt: string, writingLevel: string, wordCount: int, history: seq<Entry>)

  class Session {
    var prompt: string
    var writingLevel: string
    var wordCount: int
    var generatedText: string
    var history: seq<Entry>
    var isLoading: bool
    const store: LocalStorage

    /** The level is one of the select's options. */
    ghost predicate Valid()
      reads this
    {
      IsLevel(writingLevel)
    }

    /** The slot holds the serialization of the in-memory history. */
    ghost predicate Persisted()
      reads this, store
    {
      store.GetItem(HistoryKey) == Some(Serialize(history))
    }

    /** The first render: the initial values of the six state variables. */
    constructor (store: LocalStorage)
      ensures this.store == store
      ensures prompt == "" && writingLevel == "Medium" && wordCount == 150
      ensures generatedText == "" && history == [] && !isLoading
      ensures Valid()
    {
      this.store := store;
      prompt, writingLevel, wordCount := "", "Medium", 150;
      generatedText, history, isLoading := "", [], false;
    }

    /** The startup effect: a non-empty slot replaces the history with its parsed value. */
    method LoadHistory()
      requires Loadable(store.GetItem(HistoryKey))
      modifies this`history
      ensures history == Restore(store.GetItem(HistoryKey), old(history))
    {
      var stored := store.GetItem(HistoryKey);
      if stored.Some? && stored.value != "" {
        history := Parse(stored.value).value;
      }
    }

    method SetPrompt(value: string)
      modifies this`prompt
      ensures prompt == value
    {
      prompt := value;
    }

    /** The select only offers its three options. */
    method SetWritingLevel(value: string)
      requires IsLevel(value)
      modifies this`writingLevel
      ensures writingLevel == value
    {
      writingLevel := value;
    }

    method SetWordCount(value: int)
      modifies this`wordCount
      ensures wordCount == value
    {
      wordCount := value;
    }

    /**
     * The generate handler up to its `await`: loading is on, the shown text
     * is cleared, and the prompt is built from the current state. The button
     * is disabled while loading, so the handler only starts when it is off.
     */
    method Dispatch() returns (sent: string, c: Captured)
      requires Valid() && !isLoading
      modifies this`isLoading, this`generatedText
      ensures isLoading && generatedText == ""
      ensures sent == FormatPrompt(wordCount, writingLevel, prompt)
      ensures ReadPrompt(sent) == Some((wordCount, writingLevel, prompt))
      ensures c == Captured(prompt, writingLevel, wordCount, history)
    {
      isLoading := true;
      generatedText := "";
      sent := FormatPrompt(wordCount, writingLevel, prompt);
      c := Captured(prompt, writingLevel, wordCount, history);
      PromptRoundTrip(wordCount, writingLevel, prompt);
    }

    /**
     * The generate handler after its `await`. On success the text is shown,
     * a new entry built from the captured values goes in front of the
     * captured history, and the whole history is written to storage; if that
     * write throws (`quotaExceeded`), the catch block replaces the text with
     * the error message, the grown history stays and storage is unchanged.
     * On failure only the error message is shown. Loading always ends.
     */
    method Complete(c: Captured, outcome: Result<string, GenerationError>, id: int, quotaExceeded: bool)
      requires isLoading
      modifies this`generatedText, this`history, this`isLoading, store
      ensures !isLoading
      ensures history == if outcome.Success?
        then [Entry(c.prompt, c.writingLevel, c.wordCount, outcome.value, id)] + c.history
        else old(history)
      ensures generatedText == if outcome.Success? && !quotaExceeded then outcome.value else ErrorMessage
      ensures store.items == if outcome.Success? && !quotaExceeded
        then old(store.items)[HistoryKey := Serialize(history)]
        else old(store.items)
      ensures outcome.Success? && !quotaExceeded ==> Persisted()
      ensures outcome.Failure? && old(Persisted()) ==> Persisted()
    {
      match outcome {
        case Success(text) =>
          generatedText := text;
          var entry := Entry(c.prompt, c.writingLevel, c.wordCount, text, id);
          var updated := [entry] + c.history;
          history := updated;
          if quotaExceeded {
            generatedText := ErrorMessage;
          } else {
            store.SetItem(HistoryKey, Serialize(updated));
          }
        case Failure(_) =>
          generatedText := ErrorMessage;
      }
      isLoading := false;
    }

    /** The whole generate handler, with the generator's outcome for the prompt it was sent. */
    method Generate(generator: string -> Result<string, GenerationError>, id: int, quotaExceeded: bool)
      requires Valid() && !isLoading
      modifies this`generatedText, this`history, this`isLoading, store
      ensures Valid() && !isLoading
      ensures var outcome := generator(FormatPrompt(old(wordCount), old(writingLevel), old(prompt)));
        && history == (if outcome.Success?
          then [Entry(old(prompt), old(writingLevel), old(wordCount), outcome.value, id)] + old(history)
          else old(history))
        && generatedText == (if outcome.Success? && !quotaExceeded then outcome.value else ErrorMessage)
        && store.items == (if outcome.Success? && !quotaExceeded
          then old(store.items)[HistoryKey := Serialize(history)]
          else old(store.items))
    {
      var sent, c := Dispatch();
      Complete(c, generator(sent), id, quotaExceeded);
    }
  }
}
