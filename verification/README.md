# Chat webhook dispatch, modelled in Dafny

This project models the request handling of a Google Chat webhook
(`hello_chat` in `main.py`). The webhook answers a chat event with the
model-selection card, a confirmation of a model choice, a
large-language-model reply, or a greeting for event types it does not
handle; a request missing a field it reads raises. The model has two
parts.

- **Classifier.** From the event payload it works out the chat platform
  (`google_chat`, `teams` or `unknown`), the event kind, the thread id and
  user id, and the prompt. The thread id keeps only its last `/`-segment;
  the user id does so on Google Chat only. A mention is
  removed from the prompt and the rest stripped. A card click's prompt is the
  button's echoed value.
- **Dispatcher.** It picks one of three outcomes:
  - The reset keyword `はじめから` ("start over") returns the model-selection
    card.
  - An exact catalog model name overwrites the user's settings with that
    model and a fresh conversation id.
  - Any other prompt is a chat turn. It bootstraps default settings if the
    user has none, routes the prompt to one inference back-end by substring
    of the model name, appends one history row and replies
    `"model: " + m + " \n" + response`.

The handler is one pure function,
`Dispatcher.Step(payload, store, oracles) -> Outcome(response, store')`.
Its parts are:

- The document store is a value. It holds a settings map keyed by user id
  and an append-only history sequence (`State`).
- The payload is a typed record. An absent key is `None`. Every `KeyError`
  or `IndexError` the handler would raise is the single fault `BadRequest`.
- The inference back-ends, the uuid source and the clock are the
  `Oracles` parameter. A back-end returns `None` when its call raises.
- Exceptions are `Raised(fault)` responses. The store in the outcome keeps
  every write made before the exception, as the document store would.

Modules: `Text` (Python string operations), `Catalog` (the model catalog
and back-end routing), `Cards` (the selection card), `State` (settings and
history), `Classifier`, `Dispatcher`, `Scenarios` (a two-turn
conversation), `Options`.

Behaviours of the code that the model keeps as written:

- The reset keyword on a platform other than Google Chat does not reply with
  a notice. The reply variable is never assigned, so the handler raises
  (`AnswerUnbound`).
- The mention is removed everywhere in the text (`str.replace`), not only
  at the front.
- The chat reply has a space before the line break.
- Nothing catches exceptions. A failing back-end call raises after any
  settings bootstrap has been written.
- A card click never reads the user's display name. A card click whose
  value is neither the keyword nor a catalog name therefore raises at the
  history write (`UserNameUnbound`). The back-end was already called, and
  any settings bootstrap stays.
- The catalog has no per-model region, and routing is by substring.

## Model

| member | source | states |
|---|---|---|
| Text.Contains | main.py:161-166 | Python's `sub in s` holds exactly when `sub` occurs at some index of `s` |
| Text.LastSegment | main.py:72 | `split("/")[-1]` gives a `/`-free suffix of the name that is either the whole name or preceded by a `/` |
| Text.LastSegmentUnique | main.py:72 | those three properties determine the segment: it is the longest `/`-free suffix |
| Text.LastSegmentOfPath | main.py:102 | a resource name `prefix/segment` normalises to `segment` |
| Text.LastSegmentFixpoint | main.py:116 | an id is left alone by normalisation iff it has no `/`, and normalising twice equals normalising once |
| Text.Strip | main.py:110 | the result is the factor of the input between its leading and trailing white space (Python `isspace`), and neither starts nor ends with white space |
| Text.StripFixpoint | main.py:110 | a string without white space at its ends is its own strip, so stripping is idempotent |
| Text.RemoveAll | main.py:110 | `replace(pat, "")` never lengthens the text |
| Text.RemoveAllWithoutOccurrence | main.py:110 | text in which the pattern does not occur is left unchanged |
| Text.RemoveAllLeading | main.py:110 | an occurrence at the front is deleted |
| Text.RemoveAllFirstOccurrence | main.py:110 | text before the first occurrence is kept verbatim and that occurrence is deleted, so inner occurrences go too |
| Text.MissingCharNotContained | main.py:107 | a pattern with a character the text lacks does not occur in it |
| Catalog.Choices | main.py:369 | the flattened catalog holds exactly the (family, name) pairs of every variation of every group |
| Catalog.IsModelName | main.py:133 | the `any(...)` test holds exactly when some catalog entry has the prompt as its name |
| Catalog.CatalogChoices | main.py:31-58 | the shipped catalog flattens to the three Gemini-family entries in order |
| Catalog.CatalogWellFormed | main.py:31-58 | catalog names are pairwise distinct and the default model is one of them |
| Catalog.Route | main.py:161-168 | Gemini iff the name contains `gemini`; text iff not `gemini` but `text`; code iff neither but `code`; chat otherwise |
| Catalog.CatalogRouting | main.py:31-55 | the default model and `gemini-1.5-flash-002` route to Gemini; `text-embedding-005` routes to the text back-end |
| Cards.CreateButton | main.py:341-362 | a button is labelled `family + ": " + name` and carries the single parameter `select_model = name` |
| Cards.CreateCards | main.py:365-396 | the card's buttons, over all its cards, sections and widgets, are one per catalog entry in catalog order, each labelled `family: name` and carrying `select_model = name` |
| Cards.CardMatchesCatalog | main.py:365-396 | the card has exactly one button per catalog entry, in catalog order, and does not depend on the user |
| Cards.CardValuesAreModels | main.py:341-369 | every button's echoed value is a catalog name, and distinct buttons echo distinct names |
| State.SetUserSettings | main.py:180-192 | the user's settings become exactly the written record; other users' settings and the history are unchanged |
| State.GetUserSettings | main.py:216-226 | a read gives the user's stored record, and nothing exactly when no record was ever written for that user |
| State.SetChatHistory | main.py:195-213 | exactly one row is appended at the end; earlier rows and all settings are unchanged |
| Classifier.DetectPlatform | main.py:77-91 | Google Chat iff the redirect URL is present and contains the Chat host, or absent with `cardsV2` present; Teams iff present, not Google, and `channelId == "msteams"` |
| Classifier.MessagePrompt | main.py:105-110 | without annotations the prompt is the text unchanged; an unreadable first annotation is a fault; otherwise the prompt is the text with every occurrence of the mention deleted (`RemoveAll`, pinned by its lemmas) and then stripped, never longer than the text, and just the stripped text when the mention does not occur |
| Classifier.Classify | main.py:70-119 | unsupported iff the thread name and type are readable and the type is not one of the three; supported iff the fields the kind needs are present; the thread id is the last `/`-segment of the thread name; the user id is the last segment of the user name on Google Chat and the name itself elsewhere; a card click's prompt is its first parameter's value |
| Classifier.LeadingMentionRemoved | main.py:105-110 | a leading mention is removed and the rest, when it holds no further mention, stripped |
| Classifier.MentionThenPlainText | main.py:105-110 | a mention followed by text with no `@` and no white-space ends gives exactly that text (`"@Alice Bot hello there"` gives `"hello there"`) |
| Classifier.MentionExample | main.py:105-110 | the message `"@Alice Bot hello there"` with a mention of `Alice Bot` gives the prompt `"hello there"` |
| Classifier.NoMentionWithoutAt | main.py:107 | text without `@` contains no mention |
| Classifier.InnerMentionRemoved | main.py:110 | at the first mention, wherever it is, the text before it is kept, the mention deleted and the text after it loses its own mentions in turn; with no later mention the text around it is kept as is |
| Dispatcher.ChatTurn | main.py:145-175 | settings bootstrapped iff absent; the named back-end is called with the turn's model; one row carrying that model and conversation id is appended on success; failures log nothing |
| Dispatcher.Dispatch | main.py:124-177 | keyword first and writes nothing (card on Google Chat, fault elsewhere); a catalog name overwrites only that user's settings with a fresh id, logs nothing and confirms |
| Dispatcher.Step | main.py:70-177 | history only grows, by at most one row; no settings disappear; malformed and unsupported events change nothing |
| Dispatcher.InferenceOnlyOnChatTurns | main.py:96-144 | for rejected events, the keyword and model choices the outcome does not depend on the back-ends |
| Dispatcher.ResetIsNotAModel | main.py:124-133 | the reset keyword is not a catalog name |
| Dispatcher.SelectingAModel | main.py:133-144 | a prompt equal to a catalog name sets that user's settings to (name, fresh id), logs nothing and replies `select model: name` |
| Dispatcher.CardRoundTrip | main.py:111-144 | a card click echoing any button of the card selects that button's model for the clicking user |
| Dispatcher.StrayCardClickRaises | main.py:111-171 | a card click that is neither keyword nor model name raises, logs nothing and leaves the user with settings |
| Dispatcher.ChatAfterSelection | main.py:145-175 | with stored settings a chat turn keeps them, and its row carries their model and conversation id |
| Dispatcher.ConversationIdCarriedForward | main.py:147-171 | two chat turns in a row by one user log the same conversation id, the stored one or the one the first turn minted |
| Scenarios.SelectThenAsk | main.py:133-175 | pick then ask: the pick is confirmed; the question is answered by the picked model's back-end and logged with the pick's fresh conversation id |
| Scenarios.PickDefaultThenAsk | main.py:151-175 | picking the default model and asking gets Gemini's answer as `model: gemini-1.5-pro-002 \n` + answer |

## Left out

- Document store I/O: store reads and writes always succeed. A store failure is not modelled.
- Document-store path rules: user ids are opaque map keys. An empty id, or an id with `/` off Google Chat, is not rejected as the store would reject it.
- The inference calls and their sampling parameters (`vertex_gemini`, `vertex_palm2_for_text`, `vertex_palm2_for_code`, `vertex_palm2_for_chat`, main.py:249-338): these are foreign library calls with floating-point parameters. Each is an oracle from (back-end, model, prompt) to an optional answer, so only the routing is verified.
- `uuid.uuid4()` and `datetime.now()`: they are oracle values. Uniqueness of fresh ids is probabilistic and is not stated.
- `get_previous_messages` (main.py:229-246): nothing calls it.
- JSON decoding: the raw body becomes the typed `Payload`. A body that is not JSON, or a field of the wrong JSON type, is not modelled.
- The GET greeting, credentials, client set-up, logging output and the HTTP transport (main.py:24-29, 65-68).
- Commented-out Teams card code and catalog entries.
