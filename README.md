# AI Chef session state, in Dafny

A model of the per-session state machine of the "AI Chef" Streamlit chat
assistant (`app.py`). A session owns three lists:

- `chatHistory`, the transcript of `HumanMessage` / `AIMessage` entries;
- `dispensa`, the pantry: one record `{item, qty, expiry}` per extracted ingredient;
- `preferenze`, the dietary preferences, as strings.

Each submitted chat message is one turn, handled in four steps:

1. A language-model call extracts ingredients and preferences as JSON.
2. The reply is cleaned and parsed, then merged into the pantry and the preferences (`update_kitchen_state`).
3. The user message is appended to the transcript.
4. A second language-model call answers. Its system instruction embeds three things: the pantry text, the preference text and the sufficiency verdict ("SI" once the pantry holds at least three entries).

The "Reset Totale" button empties all three lists.

Both language-model calls are parameters of the model. `extractor` and `producer` map
their input to the reply's content, or to the text of the exception the call raised.
`parse` stands for `json.loads` applied to the cleaned reply. It yields the extraction
record, or nothing when the text is not a JSON object.

Files:

- `wrappers.dfy`: `Option`.
- `pystr.dfy`: the three Python string builtins the code relies on, `str.strip()`, `str.replace(p, '')` and `sep.join(xs)`, with their properties.
- `chef.dfy`: the datatypes, the reply cleaning, the merge, the verdict, the renderings and the `KitchenSession` class. The class holds the three lists and the methods for a turn, for the state update and for reset.

`KitchenSession.Valid()` is the session invariant that every method keeps. It says that
the preferences hold no duplicates, and that every assistant message in the transcript
directly follows a user message.

Facts about `app.py` that shape the model:

- Ingredients are appended unconditionally (app.py:36-37). Nothing merges entries by name, so applying the same extraction twice lists its ingredients twice (`ExtractionTwice`).
- Preferences are compared with exact, case-sensitive string equality (app.py:40).
- The session has no party size, no second critique call and no usage budget.
- The verdict threshold is the constant 3 (app.py:99).

## Model

| member | source | states |
|---|---|---|
| PyStr.TrimStart | app.py:33 | the result is a suffix of the input, everything dropped is whitespace, and the result does not start with whitespace |
| PyStr.TrimEnd | app.py:33 | the result is a prefix of the input, everything dropped is whitespace, and the result does not end with whitespace |
| PyStr.Strip | app.py:33 | `strip()` returns the infix left after dropping only whitespace at both ends; it neither starts nor ends with whitespace |
| PyStr.StripFramed | app.py:33 | `strip()` of whitespace + x + whitespace, where x has non-whitespace ends, is exactly x |
| PyStr.RemoveAll | app.py:33 | `replace(p, '')` never lengthens the text and introduces no character that was not there |
| PyStr.RemoveAllAbsent | app.py:33 | a text in which `p` does not occur is returned unchanged |
| PyStr.RemoveAllPlainPrefix | app.py:33 | a prefix without the pattern's first character passes through the deletion untouched |
| PyStr.FenceFree | app.py:33 | after every "```" is deleted, no "```" is left in the text, whatever the input |
| PyStr.Join | app.py:106 | joining no strings gives "" and joining one string gives that string |
| PyStr.JoinConcat | app.py:106 | the join of two non-empty lists is the two joins with one separator between them |
| PyStr.JoinLength | app.py:106 | the joined text has the elements' total length plus one separator per neighbouring pair |
| Chef.CleanReply | app.py:33 | the cleaned reply (stripped, every "```json" then every "```" deleted) contains no "```" and is no longer than the reply |
| Chef.CleanFencedReply | app.py:33 | a reply `ws + "```json" + body + "```" + ws`, with a body free of backticks, cleans to exactly the body |
| Chef.CleanPlainReply | app.py:33 | a reply without backticks is only stripped |
| Chef.MergePreferences | app.py:39-41 | the old preferences are a prefix of the result; a string is in the result iff it was in the old list or in the batch; no duplicates in the old list means none in the result; at most one entry is added per extracted string |
| Chef.MergeIsFresh | app.py:39-41 | the merge is the old list followed by the fresh preferences in batch order, where `xs[k]` is fresh iff it is neither in the old list nor among `xs[..k]` |
| Chef.FreshMembers | app.py:39-41 | a string is fresh iff the batch holds it and the old list does not |
| Chef.MergeKnown | app.py:39-41 | extracted preferences that are all already present leave the list unchanged |
| Chef.MergeIdempotent | app.py:39-41 | merging the same preferences twice gives the same list as merging them once |
| Chef.MergeSplit | app.py:39-41 | merging a batch gives the same list as merging its first part and then its second part |
| Chef.ParseReplyCases | app.py:31-33 | a raised extraction call gives nothing to merge (the swallowed exception of app.py:42-43); a ```json-fenced reply reaches `json.loads` as its bare body |
| Chef.UpdateKeepsOld | app.py:36-41 | `PantryAfter` and `PreferencesAfter` keep the old entries as a prefix and the preferences free of duplicates; with nothing parsed both lists are unchanged; otherwise the pantry gains the extracted ingredients and the preferences gain the fresh ones |
| Chef.ExtractionTwice | app.py:36-41 | the same extraction applied twice leaves the preferences as after once, but the pantry lists its ingredients twice |
| Chef.Sufficient | app.py:99 | the verdict is "SI" or "NO", and it is "SI" iff the pantry has at least 3 entries (so 2 entries give "NO" and 3 give "SI") |
| Chef.LineBreaks | app.py:97 | a pantry line starts with "- ", ends with its line break and, when no field holds a line break, holds exactly one; a JSON `null` item is shown as "None" |
| Chef.PantryTextEmpty | app.py:95-97 | the pantry text is empty iff the pantry is |
| Chef.PantryTextAt | app.py:95-97 | the pantry text is the text of the entries before entry i, then entry i's own "- item (Quantità: qty, Scadenza: expiry)\n" line, then the text of the entries after it |
| Chef.PantryTextConcat | app.py:95-97 | the text of a pantry extended by new entries is the old text followed by the new entries' lines |
| Chef.PantryTextLines | app.py:95-97 | when no field holds a line break, the pantry text holds exactly one line break per entry |
| Chef.RenderPantry | app.py:95-97 | the `+=` loop builds exactly the pantry text of the pantry |
| Chef.PantrySectionPlaceholder | app.py:104 | the instruction shows "La dispensa è vuota." iff the pantry is empty, and the pantry text otherwise |
| Chef.PreferenceTextGrows | app.py:106 | after a merge the preference text is unchanged when nothing is fresh; otherwise it becomes the ", " join of the fresh preferences when the list was empty ("Nessuna" giving way on the first turn), or the old text followed by ", " and that join |
| Chef.TurnPromptState | app.py:99-122 | the prompt's verdict is "SI" iff the pantry has at least 3 entries; its pantry part is the placeholder iff the pantry is empty and the pantry text otherwise; its preference part is "Nessuna" for an empty list and the ", " join otherwise; the transcript and user text are passed as given |
| Chef.KitchenSession.constructor | app.py:11-16 | a new session has three empty lists and satisfies the invariant |
| Chef.KitchenSession.UpdateKitchenState | app.py:19-43 | a raised extraction call or a rejected parse leaves pantry and preferences as they were; otherwise the pantry is the old pantry followed by the extracted ingredients, and the preferences are the merge; the transcript is untouched |
| Chef.KitchenSession.MergeExtraction | app.py:36-41 | the two loops append every ingredient in order and merge the preferences, keeping the invariant |
| Chef.KitchenSession.HandleTurn | app.py:77-131 | an empty message changes nothing. Without an API key, an error is shown and nothing changes. Otherwise the state is updated from the extraction and the producer is asked with the pre-turn transcript. On success the transcript gains the user and the assistant message; on failure it gains only the user message, "Errore: " + the error is shown, and pantry and preference updates stay. A sufficient verdict stays sufficient |
| Chef.KitchenSession.Reset | app.py:60-64 | all three lists are empty afterwards |

## Left out

- Streamlit rendering and control flow (page setup, sidebar widgets, chat bubbles, the spinner, `st.rerun`) is presentation only and is not modelled.
- The Groq/LangChain calls, the prompt templates and the wording of the system instruction are not modelled. What the language model answers is an input (`extractor`, `producer`); the prompt keeps only the state it embeds, the earlier transcript and the user text.
- The internals of `json.loads` are not modelled. `parse` is an input, and the record is well-typed: `ingredients` is a list of `{item, qty, expiry}` objects whose values are strings or `null`, and `preferences` is a list of strings.
- Oddly shaped but parseable JSON is left out. The consequences in the source differ by case:
  - `ingredients` given as a string raises nothing at app.py:36-37. It appends one pantry entry per character, and the preference loop then runs normally.
  - `preferences` given as a string appends one preference per new character.
  - `ingredients` set to `null` raises at app.py:36. The exception is swallowed and nothing is merged.
  - `preferences` set to `null` raises at app.py:39, after the ingredients were appended. The exception is swallowed and the appends are not rolled back.
- Pantry entries that are not `{item, qty, expiry}` objects are left out. This covers a character entry, as above, and an object missing one of the three keys. When the pantry text is built (app.py:97), such an entry raises a `TypeError` or `KeyError`, so the turn that appends it ends with "Errore: …" (app.py:130-131). On every later run the sidebar (app.py:50-51) raises the same error, and nothing catches it there. This happens before the API-key field, the reset button and the chat input are drawn (app.py:59-75), so the session can be neither used nor reset.
- JSON numbers and other non-string values are left out; `null` is kept and renders as "None", as Python's f-string does.
- `PyStr.IsSpace` is the set of code points for which Python's `str.isspace()` holds. It is written out by code point, with no Unicode database behind it.
- `PyStr.RemoveAll` requires a non-empty pattern: the code only deletes the two non-empty fence strings "```json" and "```".
- Python strings can hold lone surrogates (U+D800 to U+DFFF), for instance from `json.loads('"\\ud800"')`. A Dafny `char` cannot, so such text is not modelled.
- `ChatPromptTemplate.from_messages` parses the system text again as a template (app.py:101-116). Braces in pantry or preference text are therefore interpreted: `{input}` is substituted, and a stray `{` raises, which app.py:130 catches. The model does not capture this. It stays sound only because `producer` may return anything, a raised error included.
