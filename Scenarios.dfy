/** Clients that drive both components against one storage object. */
module Scenarios {
  import opened Wrappers
  import opened History
  import opened Storage
  import opened WritingAssistant
  import opened Theme

  /** A failed generation changes neither the history nor storage. */
  method SuccessThenFailure(prompt: string, level: string, count: int, text: string)
    requires IsLevel(level)
  {
    var store := new LocalStorage(map[]);
    var session := new Session(store);
    session.LoadHistory();
    assert session.history == [];

    session.SetPrompt(prompt);
    session.SetWritingLevel(level);
    session.SetWordCount(count);
    var reply: string -> Result<string, GenerationError> := _ => Success(text);
    session.Generate(reply, 1, false);
    var e1 := Entry(prompt, level, count, text, 1);
    assert session.history == [e1];
    assert session.generatedText == text;
    var saved := store.items;

    var timeout: string -> Result<string, GenerationError> := _ => Failure(GenerationError("timeout"));
    session.Generate(timeout, 2, false);
    assert session.history == [e1];
    assert session.generatedText == ErrorMessage;
    assert store.items == saved;
  }

  /** Two successes put the newer entry (the later id) in front of the older one, ahead of
      what was there. */
  method NewestFirst(session: Session, text: string)
    requires session.Valid() && !session.isLoading
    modifies session, session.store
  {
    var p, l, c, h := session.prompt, session.writingLevel, session.wordCount, session.history;
    var reply: string -> Result<string, GenerationError> := _ => Success(text);
    session.Generate(reply, 1, false);
    session.Generate(reply, 2, false);
    assert session.history == [Entry(p, l, c, text, 2)] + ([Entry(p, l, c, text, 1)] + h);
  }

  /** A fresh session on the same storage loads the history the previous one saved. */
  method GenerateThenReload(session: Session, text: string, id: int)
    requires session.Valid() && !session.isLoading
    modifies session, session.store
  {
    var reply: string -> Result<string, GenerationError> := _ => Success(text);
    session.Generate(reply, id, false);
    var saved := session.history;
    assert session.store.GetItem(HistoryKey) == Some(Serialize(saved));

    var reloaded := new Session(session.store);
    RestoreSaved(saved, []);
    reloaded.LoadHistory();
    assert reloaded.history == saved;
  }

  /** Generation writes only the history slot, so the applied theme stays in step with storage. */
  method ThemeSurvivesGeneration(prefersDark: bool) {
    var store := new LocalStorage(map[]);
    var toggle := new ThemeToggle(store, false);
    toggle.Mount(prefersDark);
    assert toggle.theme == (if prefersDark then Dark else Light);
    toggle.Toggle();
    assert toggle.theme == (if prefersDark then Light else Dark);

    var session := new Session(store);
    var reply: string -> Result<string, GenerationError> := _ => Success("text");
    session.Generate(reply, 7, false);
    assert toggle.Applied();
  }
}
