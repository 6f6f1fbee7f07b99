# EmotionalCompanion prompt builder — a Dafny model

The EmotionalCompanion backend records moods and chats with a language model.
Its only self-contained logic is the prompt builder `get_emotional_system_message`
in `backend/server.py`. It turns a mood and an intensity into the French system
instruction for the model. The instruction has three parts:

- the guidance for the mood, from a nine-entry table keyed by the lower-cased
  mood, with a generic default for any other mood;
- one of three suffixes, chosen by the intensity band: up to 3, 4 to 6, 7 and up;
- a fixed closing directive (answer in French, warmly, in 2-3 sentences).

The model also covers two string templates built by the endpoints. The first
is the user turn sent by `/ai-response`, which has two forms depending on
whether a message was given. The second is the `mood_context` label
`mood-intensity` stored with each chat message.

Everything here is pure: functions on strings and integers, plus lemmas.

Layout:

- `wrappers.dfy` (module `Wrappers`): `Option`, which models `Optional[str]` and
  the result of the parsers.
- `text.dfy` (module `Text`): ASCII lower-casing (`Lower`), decimal rendering of
  integers (`IntToDecimal`) with its parser (`ParseInt`), and character search.
- `server.dfy` (module `Server`): the guidance table, the bands, `SystemMessage`,
  `UserText` and `MoodContext`.

The Python dictionary is modelled as a closed `Mood` datatype. `Key` gives each
mood's dictionary key and `Guidance` its text. `MoodOfKey` is the dictionary
lookup. The long French texts are written as concatenations of their sentences
and clauses. That is layout only: each concatenation is the exact string of the
source.

Each output has a parser that reads it back: `ParseSystemMessage`,
`ParseUserText` and `ParseMoodContext`. The round-trip lemmas state what each
output keeps:

- the guidance and the band are read back from the system message;
- given the mood, the intensity and the message are read back from the user
  text (an empty message reads back as no message);
- the label gives back the mood and a non-negative intensity; a negative
  intensity makes the label ambiguous.

When the model call fails, both endpoints log the error and answer HTTP 500
(backend/server.py:180-182, 213-215). There is no fallback text, so the model
has none.

## Model

| member | source | states |
|---|---|---|
| `Text.Lower` | backend/server.py:99 | lower-casing keeps the length, maps each capital A–Z to its small letter, leaves every other character alone, and leaves no capital letter |
| `Text.LowerIdempotent` | backend/server.py:99 | lower-casing an already lower-cased mood changes nothing |
| `Text.IntToDecimal` | backend/server.py:206 | the rendering of an integer is non-empty, starts with `-` exactly when the integer is negative, and is digits after that |
| `Text.IntToDecimalRoundTrip` | backend/server.py:158-161 | parsing the rendering of any integer gives that integer back, so the intensity in the templates is never lost |
| `Server.Key` | backend/server.py:87-97 | every key of the table is a non-empty word of small ASCII letters, so `mood.lower()` can produce it |
| `Server.Guidance` | backend/server.py:87-97 | every guidance of the table is longer than the default guidance, so none of them is the default |
| `Server.BaseMessage` | backend/server.py:99-100 | the lookup gives the default guidance exactly when the lower-cased mood is not a key; `BaseMessageLookup` adds that a key's mood gets that key's guidance, and `BaseMessageEqualIff` when two moods get the same guidance |
| `Server.MoodOfKey` | backend/server.py:87-97 | a lookup that finds a mood returns the mood whose key is exactly the looked-up string; a lookup that fails means no mood has that key |
| `Server.KeysReachable` | backend/server.py:87-99 | every one of the nine keys is lower-case and is found by the lookup, so each entry can be reached from some mood |
| `Server.GuidanceDistinct` | backend/server.py:87-100 | the nine moods have nine different guidances, and none of them equals the default guidance |
| `Server.BaseMessageLookup` | backend/server.py:99-100 | a mood gets the default guidance exactly when its lower-case form is not a key; otherwise it gets the guidance of that key |
| `Server.BaseMessageEqualIff` | backend/server.py:87-100 | two moods get the same guidance exactly when they are equal up to case, or when both are unknown |
| `Server.BaseMessageOfLower` | backend/server.py:99 | the guidance depends only on the lower-cased mood: lower-casing the input first gives the same guidance |
| `Server.BandOf` | backend/server.py:102-108 | the light band holds exactly the intensities up to 3 (zero and negatives included), the moderate band exactly 4 to 6, the intense band exactly 7 and up (above 10 included) |
| `Server.BandSuffix` | backend/server.py:102-108 | each band's suffix ends with a full stop, and the letter before it differs between the three bands, so no suffix is the end of another |
| `Server.Compose` | backend/server.py:110 | the result starts with the guidance, ends with the closing directive, and is longer than the two together |
| `Server.SystemMessage` | backend/server.py:84-110 | the system message is never empty, starts with the mood's guidance and ends with the closing directive |
| `Server.ComposeTail` | backend/server.py:102-110 | the message is the guidance followed by its own band's suffix and the closing directive, and it ends with no other band's suffix and closing directive |
| `Server.SystemMessageSuffix` | backend/server.py:102-110 | the message ends with the light suffix and closing directive exactly when intensity ≤ 3, with the moderate ones exactly when 4 ≤ intensity ≤ 6, with the intense ones exactly when intensity ≥ 7 |
| `Server.ComposeRoundTrip` | backend/server.py:102-110 | for any guidance, the guidance and the band are read back from the composed text |
| `Server.SystemMessageRoundTrip` | backend/server.py:84-110 | the mood's guidance and the intensity's band are read back from the system message: it holds exactly one band suffix |
| `Server.SystemMessageEqualIff` | backend/server.py:84-110 | two system messages are equal exactly when their guidances and their bands are equal |
| `Server.SystemMessageCaseInsensitive` | backend/server.py:99 | moods that are equal up to case give the same system message |
| `Server.UpperCaseMood` | backend/server.py:99 | `SAD` gives the same system message as `sad`, and its guidance is the `sad` entry |
| `Server.UnknownMoodMessage` | backend/server.py:99-100 | a mood outside the table gives the default guidance, then the band suffix, then the closing directive |
| `Server.UserText` | backend/server.py:158-161 | the user text starts with `Je me sens `, the raw (not lower-cased) mood and a space; it ends with the message when one is given, and with `/10. Peux-tu m'aider ?` otherwise |
| `Server.UserTextRoundTrip` | backend/server.py:158-161 | given the mood, the intensity and the message are read back from the user text; an empty message reads back as no message |
| `Server.UserTextEmptyMessage` | backend/server.py:158-161 | an empty message and no message give the same user text |
| `Server.MoodContext` | backend/server.py:206 | for every intensity, negative ones included, the label is the raw mood, then a hyphen, then text that parses back to the intensity |
| `Server.MoodContextRoundTrip` | backend/server.py:206 | for an intensity ≥ 0, the mood and the intensity are read back from the label, whatever hyphens the mood contains |
| `Server.MoodContextNegativeAmbiguity` | backend/server.py:206 | for a negative intensity the label is ambiguous: mood `x` at -5 and mood `x-` at 5 give the same label |

## Left out

- HTTP routing, the request and response models, the MongoDB reads and writes,
  environment loading, CORS, logging and the shutdown hook: I/O plumbing
  (backend/server.py:14-20, 113-141, 168-176, 209, 217-250).
- The language-model call (`LlmChat(...).with_model(...).send_message`), and the
  session identifier built from the clock: a foreign library call and a clock
  read (backend/server.py:151-156, 166, 191-198).
- The mapping of any exception to HTTP 500: exception handling around I/O
  (backend/server.py:180-182, 213-215). There is no fallback text to model.
- `backend/emergentintegrations/llm/chat.py` is not part of this model: it is a
  placeholder stub whose constructors do not match the call sites.
- `frontend/src/App.js`, `backend_test.py` and `zip.ts` are not part of this
  model: UI, network tests and file archiving.
- Text.Lower: models Python's `str.lower` on ASCII letters only. Unicode case
  mapping of other letters (`É` to `é`, the Kelvin sign to `k`) is not modelled,
  because the model has no Unicode tables. This does not change which guidance
  is picked: the only non-ASCII characters whose `lower()` contains ASCII are
  U+0130 (to `i` followed by U+0307) and U+212A (to `k`), and no key can be
  produced through either. This is not proved here.
- Text.IntToDecimal: models `str(int)` as decimal digits with a leading `-`. It
  does not model Python's other integer formatting options.
- Python strings are sequences of code points. Dafny strings here are sequences
  of Unicode scalar values, so lone surrogates are not modelled.
