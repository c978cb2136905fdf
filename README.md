# AI writing assistant: session and theme state, in Dafny

This project models the two stateful components of a small Next.js writing
assistant.

- **The writing assistant** (`src/components/WritingAssistant.jsx`) holds a
  prompt, a writing level, a word count, the text on show, a history of past
  generations and a loading flag. At startup it loads the history from the
  storage slot `ai-writing-history`. Its generate handler does four things.
  It turns loading on and clears the text. It sends a prompt built from a
  fixed template to a text generator. On success it shows the text, puts a new
  entry in front of the history and writes the whole history back to storage.
  On failure it shows a fixed error message. In both cases loading ends.
- **The theme toggle** (`src/components/ThemeToggle.jsx`) picks an initial
  theme from storage or from the system colour-scheme preference. It keeps the
  root element's `dark` class and the stored `theme` value in step with the
  theme, and flips between `light` and `dark` on a click.

Module layout:

- `Wrappers`: `Option` and `Result`.
- `Scan`: integers printed the way JavaScript prints an integral Number, a
  JSON integer parser, and matching of literal text.
- `JsonString`: string quoting as written by `JSON.stringify` (the
  QuoteJSONString operation of ECMA-262), a JSON string-literal parser, and
  the round trip between the two.
- `History`: the history `Entry`, the JSON text of a history, its parser, and
  the round trip between them.
- `Storage`: `localStorage` as a class over a `map<string, string>`.
- `WritingAssistant`: the prompt template and the `Session` class.
- `Theme`: the theme functions and the `ThemeToggle` class.
- `Scenarios`: client methods that drive both classes over one storage object.

The generator is a pure function `string -> Result<string, GenerationError>`,
and the `Date.now()` id is a parameter. `window.matchMedia(...).matches` is a
Boolean input.

The generate handler is split at its `await`. `Dispatch` is the part before
it. `Complete` is the part after it: it works from the values the handler's
closure captured. `Generate` runs the two back to back. A write to storage that
throws is a Boolean input, `quotaExceeded`.

JSON serialization is concrete. `History.Serialize` writes exactly the text
that `JSON.stringify` produces for the entries the component builds: the keys
in the order `prompt`, `writingLevel`, `wordCount`, `generatedText` and `id`,
with no whitespace and JavaScript's string escapes. `History.Parse` reads that
form back. The round trip between the two is proved. It is not assumed.

Behaviour of the code that the model keeps:

- The handler does not clamp the word count.
- The load at line 20 has no `try`/`catch`, so a malformed slot is not turned
  into an empty history. The load is only defined for a slot that is absent,
  empty, or in the form `History.Parse` reads.
- The storage write at line 42 is inside the `try`. If it throws, the error
  message is shown, yet the in-memory history has already grown.
- Ids come from `Date.now()`. Nothing guarantees they are unique or increasing.
- The writing level comes from a select with three options, so a session's
  level is always `Low`, `Medium` or `High`; the word count comes from a
  number input and is not restricted.

## Model

| member | source | states |
|---|---|---|
| `WritingAssistant.Session.constructor` | src/components/WritingAssistant.jsx:10-15 | the initial state: empty prompt, level `Medium`, word count 150, no text, empty history, not loading |
| `WritingAssistant.Session.LoadHistory` | src/components/WritingAssistant.jsx:17-22 | the startup load replaces the history with the parsed slot when the slot is a non-empty string; otherwise the history is unchanged |
| `WritingAssistant.Restore` | src/components/WritingAssistant.jsx:18-21 | an absent or empty slot leaves the history as it was; otherwise the new history is the value that parsing the slot returns |
| `WritingAssistant.RestoreSaved` | src/components/WritingAssistant.jsx:42 | the text saved for any history can be loaded, and loading it gives back that same history, whatever the history was before |
| `WritingAssistant.FormatPrompt` | src/components/WritingAssistant.jsx:31 | the text starts with the fixed template head; the decimal text of the word count follows it verbatim, with no clamping; the prompt appears verbatim just before the closing quote |
| `WritingAssistant.PromptRoundTrip` | src/components/WritingAssistant.jsx:31 | the word count (any integer, unclamped), the level and the prompt appear verbatim in the template and can be read back from the text sent |
| `WritingAssistant.FormatPromptInjective` | src/components/WritingAssistant.jsx:31 | for levels from the select, two prompt texts are equal exactly when the three values are equal |
| `WritingAssistant.FreeTextLevelAmbiguous` | src/components/WritingAssistant.jsx:69-77 | with a level that is not one of the select's options, different level/prompt pairs can send the same text |
| `WritingAssistant.Session.SetPrompt` | src/components/WritingAssistant.jsx:64 | editing the prompt changes only the prompt |
| `WritingAssistant.Session.SetWritingLevel` | src/components/WritingAssistant.jsx:69-77 | choosing one of the select's three options changes only the level, so the session keeps a level from the select |
| `WritingAssistant.Session.SetWordCount` | src/components/WritingAssistant.jsx:85 | entering a word count changes only the word count, with no clamping |
| `WritingAssistant.Session.Dispatch` | src/components/WritingAssistant.jsx:24-31 | only callable while not loading (the button is disabled while loading) and with a level from the select; afterwards loading is on, the shown text is empty, the prompt sent is the template over the current state and reads back as exactly the current count, level and prompt, and prompt, level, count and history are captured |
| `WritingAssistant.Session.Complete` | src/components/WritingAssistant.jsx:33-48 | loading is off on every path. On success the history is the new entry (captured prompt, level and count, the returned text, the given id) in front of the captured history; the text is shown and storage holds the serialized history with other keys untouched. If that write throws, the error message is shown and storage is unchanged. On failure the text is the fixed error message and history and storage are unchanged |
| `WritingAssistant.Session.Generate` | src/components/WritingAssistant.jsx:24-49 | the whole handler, stated in terms of the state at call time and the generator's outcome for exactly the formatted prompt; loading is off again and the level is still one from the select |
| `History.EntryText` | src/components/WritingAssistant.jsx:39 | the JSON object of an entry starts with `{` and is longer than the text that follows it |
| `History.EntryTextEndsWith` | src/components/WritingAssistant.jsx:39-42 | the text written for an entry ends with exactly the text that follows it in the array |
| `History.Serialize` | src/components/WritingAssistant.jsx:42 | the stored text always starts with `[` and has at least two characters; it is `[]` exactly for the empty history |
| `History.Parse` | src/components/WritingAssistant.jsx:20 | a history is read only from a text that starts with `[`; the empty history is read exactly from `[]` |
| `History.ParseSerialize` | src/components/WritingAssistant.jsx:42 | parsing the stored text of a history gives back that history, in the same order |
| `History.SerializeInjective` | src/components/WritingAssistant.jsx:42 | two histories are stored as the same text exactly when they are equal |
| `History.EntryRoundTrip` | src/components/WritingAssistant.jsx:39 | the JSON object written for an entry, with its five keys in the order the entry is built, reads back as that entry, whatever text follows it |
| `History.ElementsRoundTrip` | src/components/WritingAssistant.jsx:40 | the comma-separated entries of a non-empty history read back as that history, newest first |
| `JsonString.StringRoundTrip` | src/components/WritingAssistant.jsx:42 | a string quoted and escaped as `JSON.stringify` does it reads back as the same string |
| `JsonString.Escape` | src/components/WritingAssistant.jsx:42 | escaping never shortens a string, and leaves a string with no control character, quote or backslash unchanged |
| `JsonString.Quote` | src/components/WritingAssistant.jsx:42 | the quoted text begins and ends with `"`; a string with no control character, quote or backslash appears unchanged between the quotes |
| `Scan.IntToString` | src/components/WritingAssistant.jsx:31 | the decimal text of an integer is non-empty, starts with `-` exactly for a negative integer, and is otherwise only digits |
| `Scan.IntRoundTrip` | src/components/WritingAssistant.jsx:42 | an integer printed in decimal reads back as the same integer when a non-digit follows |
| `Storage.LocalStorage.GetItem` | src/components/WritingAssistant.jsx:18 | `getItem` returns the stored value when the key is present and nothing otherwise |
| `Storage.LocalStorage.SetItem` | src/components/WritingAssistant.jsx:42 | `setItem` replaces the value under one key and leaves every other key alone |
| `Theme.Toggled` | src/components/ThemeToggle.jsx:32-34 | the new theme is always `light` or `dark`; it is `dark` exactly when the old theme was `light`; it always differs from the old theme |
| `Theme.ToggleTwice` | src/components/ThemeToggle.jsx:33 | two toggles from `light` or `dark` give back the original theme; from any other value they give `dark` |
| `Theme.InitialTheme` | src/components/ThemeToggle.jsx:10-19 | a saved non-empty theme is adopted unchanged; with nothing saved the theme is `dark` exactly when the system prefers dark, and `light` otherwise |
| `Theme.StoredTheme` | src/components/ThemeToggle.jsx:23-28 | the stored value is always `light` or `dark`, and it is `dark` exactly when the theme is `dark` |
| `Theme.StoredThemeReloads` | src/components/ThemeToggle.jsx:11-28 | a stored theme is adopted unchanged at the next start, whatever the system prefers; for `light` and `dark` that is the theme itself |
| `Theme.ThemeToggle.constructor` | src/components/ThemeToggle.jsx:7 | the theme starts as `light`; the root's class is whatever it was |
| `Theme.ThemeToggle.Apply` | src/components/ThemeToggle.jsx:22-30 | the root has the `dark` class exactly when the theme is `dark`; storage holds the normalised theme under `theme` and is otherwise unchanged |
| `Theme.ThemeToggle.Mount` | src/components/ThemeToggle.jsx:10-30 | after mounting, the theme is the initial choice from what was stored before, and the class and the stored value agree with it |
| `Theme.ThemeToggle.Toggle` | src/components/ThemeToggle.jsx:32-34 | a click flips the theme; the apply step always runs again, so the class and the stored value agree with the new theme |

## Left out

- `WritingAssistant.Session.LoadHistory`: its precondition asks for a slot that is absent, empty, or in the form `History.Parse` reads. `JSON.parse` also accepts other JSON, such as whitespace, other key orders, other value types and fractional numbers. It throws on malformed text, and line 20 does not catch the error. Neither case is modelled.
- `WritingAssistant.Restore`: has the same precondition as `LoadHistory`, so it is defined only for a slot that is absent, empty, or in the form `History.Parse` reads. Other JSON that `JSON.parse` accepts, and malformed text on which it throws, are left out.
- `History.Parse`: reads only the key order and shape that serializing the component's entries produces. It also accepts `\/` and `\uXXXX` escapes outside the surrogate range. It does not accept whitespace between tokens.
- The Gemini client (lines 28-36) and `process.env` are a network call. They are replaced by the generator function parameter, and how the response text is extracted is not modelled.
- There is no concurrency in the model. `async`/`await` appears only as the split between `Dispatch` and `Complete`.
- `Date.now()` is passed in as the id. Nothing about uniqueness or order is assumed.
- The word count is an `int`. `Number(e.target.value)` can also give NaN or a fraction, and those are not modelled. The browser's `min`/`max` attributes are not modelled either, because the handler does not enforce them. Numbers at or above 1e21, which JavaScript prints in exponent form, and integers beyond 2^53 are not modelled.
- Strings are sequences of Unicode scalar values, while JavaScript strings are UTF-16 code units. Lone surrogates, and the escapes `JSON.stringify` writes for them, are not modelled.
- `console.error` logging is not modelled.
- The theme effect's `localStorage.setItem` is modelled as always succeeding. A thrown quota error there is not modelled.
- React details are not modelled: render batching, and Strict Mode running each effect twice.
- All JSX markup and CSS classes are rendering only, including the button label. The button's `disabled={isLoading}` is the precondition of `Dispatch` and `Generate`.
- `src/app/layout.jsx` and `src/components/Navbar.jsx` hold only layout, with no state.
