# Broilr chat page: the conversation state machine

Broilr's chat page (`Chat.jsx`) guides a cook through a conversation. It can:

- load a saved recipe, or delete one;
- name a dish and answer the backend's follow-up questions, after which the backend
  generates a recipe;
- step through that recipe's instructions;
- finally, save a generated recipe to the profile.

Each utterance goes through `send`. `send` trims it, records it as the user's turn, and then
acts according to the current `flow` stage. `normalizeNumberInput` reads a spoken or typed
selection as a number. `clearChat` restarts at the dish question.

This project models that state machine in Dafny and proves what each stage does.

- `Text`: the JavaScript string operations the page applies.
  - `toLowerCase`, for ASCII letters.
  - `trim` and `\s`, with the ECMAScript whitespace set.
  - The `[^\w\s]` deletion.
  - `includes` and `some`.
- `Numerals`: `normalizeNumberInput`, and the decimal numerals it reads.
- `Recipes`: recipe records, and how a selection resolves: by 1-based number first, then by
  the first name containing the utterance.
- `Dialogue`:
  - the session fields as one value, `SessionState`;
  - the invariant `Inv`;
  - one pure function per stage of `send`;
  - `Next`, one whole call of `send`;
  - `Cleared`, the effect of `clearChat`.

  The assistant's replies are a `Message` datatype. `Wording` gives each message the exact
  text the page shows.
- `DialogueFacts`: the rules of each stage, stated over every input.
- `Conversation`: runs of several utterances.
  - Walking through the steps with "next".
  - Answering every follow-up question, including where each answer is stored.
  - The stale-index case.
  - What happens after `done`.
- `ChatSession`: the page as a `Session` class.
  - Its fields are the page's React state, plus the `chat` transcript.
  - `Send` and `ClearChat` update them in place.
  - Both are proved to leave the fields and the transcript exactly as `Next` and `Cleared`
    describe, and to keep `Inv`.

The backend does not appear as HTTP. One `Replies` value stands for the answers to whatever
request the call makes:

- the saved recipes;
- the follow-up questions;
- the generated recipe;
- the answer about a step.

`Send` returns the request it issued, as a `Request` value.

## Model

| member | source | states |
|---|---|---|
| Text.ToLower | broilr-frontend/src/pages/Chat.jsx:147 | `toLowerCase` keeps the length, leaves no upper-case letter, keeps every other character and moves each ASCII capital to its small letter |
| Text.Trim | broilr-frontend/src/pages/Chat.jsx:146 | `trim` yields a string no longer than its input that neither starts nor ends with whitespace; it is empty exactly when the input is all whitespace, and an input without edge whitespace is returned unchanged |
| Text.TrimIsSlice | broilr-frontend/src/pages/Chat.jsx:146 | the result of `trim` is a contiguous slice `s[a..b]` of the input, and every character before and after that slice is whitespace |
| Text.TrimPadded | broilr-frontend/src/pages/Chat.jsx:11 | whitespace around a word that neither starts nor ends with whitespace is exactly what `trim` removes |
| Text.StripNonWord | broilr-frontend/src/pages/Chat.jsx:147 | `replace(/[^\w\s]/g, "")` keeps only word and whitespace characters, all taken from the input, and changes nothing in an input made only of them |
| Text.StripAppend | broilr-frontend/src/pages/Chat.jsx:147 | the deletion acts character by character: on a concatenation it is the concatenation of the deletions, so every kept character survives, in order |
| Text.StripOne | broilr-frontend/src/pages/Chat.jsx:147 | one character survives the deletion exactly when it is a `\w` or `\s` character |
| Text.StripDropsOne | broilr-frontend/src/pages/Chat.jsx:147 | a single punctuation character between word and whitespace characters is deleted and nothing else changes |
| Text.Normalize | broilr-frontend/src/pages/Chat.jsx:147 | `normalizedMsg` is no longer than the message, has no edge whitespace, and is made only of lower-case word characters and whitespace |
| Text.LetsGoNormalizes | broilr-frontend/src/pages/Chat.jsx:333 | "Let's go" normalises to "lets go", the form the start phrases are written in |
| Text.LowerWordIsNormal | broilr-frontend/src/pages/Chat.jsx:147 | a word of small letters is its own normalised and trimmed form |
| Text.ContainsIffOccurs | broilr-frontend/src/pages/Chat.jsx:217 | `includes` holds exactly when the phrase occurs at some offset |
| Text.ContainsAnyIffSome | broilr-frontend/src/pages/Chat.jsx:343-344 | `phrases.some(p => s.includes(p))` holds exactly when one of the phrases occurs |
| Text.NoContainsWithout | broilr-frontend/src/pages/Chat.jsx:433-434 | a string lacking a character contains no phrase that has it |
| Numerals.NatToStringRoundTrip | broilr-frontend/src/pages/Chat.jsx:14 | a printed decimal numeral reads back as its value under `Number` |
| Numerals.WordValue | broilr-frontend/src/pages/Chat.jsx:6-9 | the word table maps exactly "one".."ten", each to its position counted from one |
| Numerals.ReadNumber | broilr-frontend/src/pages/Chat.jsx:13-15 | a number word reads as its value; otherwise a decimal numeral reads as its value; anything else is `null` |
| Numerals.WordReadsAsValue | broilr-frontend/src/pages/Chat.jsx:6-13 | the k-th number word reads as k+1 |
| Numerals.NormalizeNumberInput | broilr-frontend/src/pages/Chat.jsx:5-16 | the lower-cased, trimmed input gives a number exactly when it is a number word or a decimal numeral; a number word gives its position in the table, counted from one, and a numeral gives its value |
| Numerals.NumberWordSelects | broilr-frontend/src/pages/Chat.jsx:5-16 | an input whose lower-cased, trimmed form is a number word is normalised to that word's value |
| Numerals.SpokenNumberWordSelects | broilr-frontend/src/pages/Chat.jsx:5-16 | a number word in any letter case, with any whitespace around it, is normalised to its value |
| Numerals.NumeralSelects | broilr-frontend/src/pages/Chat.jsx:5-16 | `normalizeNumberInput` of a printed numeral n is n |
| Numerals.OtherInputSelectsNothing | broilr-frontend/src/pages/Chat.jsx:5-16 | an input that is neither a number word nor all digits normalises to `null` |
| Recipes.FindByName | broilr-frontend/src/pages/Chat.jsx:240-242 | `find` returns the first recipe whose lower-cased name contains the text, and none exactly when no name does |
| Recipes.SelectForLoad | broilr-frontend/src/pages/Chat.jsx:234-243 | an index in 1..n picks `followups[index-1]`; otherwise the first name match; nothing exactly when the index is out of range and no name matches |
| Recipes.SelectForDelete | broilr-frontend/src/pages/Chat.jsx:458-465 | the `delete` stage's selection: an index in 1..n picks `followups[index-1]`; any selection is one of the offered recipes; nothing is selected exactly when the index is out of range and no name matches |
| Recipes.DeleteSelectsLikeLoad | broilr-frontend/src/pages/Chat.jsx:458-465 | the `delete` stage's `normalizeNumberInput(msg) - 1` selection, with `null - 1 == -1`, picks exactly what the `load_or_delete` selection picks |
| Recipes.NumberAndNameAgree | broilr-frontend/src/pages/Chat.jsx:234-243 | selecting by printed number and by a name fragment only that recipe has pick the same recipe |
| Dialogue.OnChoice | broilr-frontend/src/pages/Chat.jsx:153-211 | the `choice` stage only appends assistant turns, and keeps the invariant given well-formed replies |
| Dialogue.OnLoadOrDelete | broilr-frontend/src/pages/Chat.jsx:213-261 | the `load_or_delete` stage only appends assistant turns and keeps the invariant |
| Dialogue.OnDish | broilr-frontend/src/pages/Chat.jsx:292-303 | the `dish` stage only appends assistant turns and keeps the invariant |
| Dialogue.OnFollowups | broilr-frontend/src/pages/Chat.jsx:305-330 | the `followups` stage only appends assistant turns, and keeps the invariant given a well-formed generated recipe |
| Dialogue.OnStartCooking | broilr-frontend/src/pages/Chat.jsx:332-367 | the `start_cooking` stage only appends assistant turns and keeps the invariant |
| Dialogue.OnCooking | broilr-frontend/src/pages/Chat.jsx:370-429 | the `cooking` stage only appends assistant turns and keeps `step` a valid index |
| Dialogue.OnAskSave | broilr-frontend/src/pages/Chat.jsx:432-456 | the `ask_save` stage only appends assistant turns and keeps the invariant |
| Dialogue.OnDelete | broilr-frontend/src/pages/Chat.jsx:457-484 | the `delete` stage only appends assistant turns and keeps the invariant |
| Dialogue.Handle | broilr-frontend/src/pages/Chat.jsx:152-488 | the switch on `flow` only appends assistant turns and keeps the invariant |
| Dialogue.Cleared | broilr-frontend/src/pages/Chat.jsx:66-72 | `clearChat` sets `flow` to `dish`, clears `recipe` and sets `step` to 0, and keeps every other field |
| Dialogue.QuestionKey | broilr-frontend/src/pages/Chat.jsx:306-307 | the answer is stored under the current question while `currentQIndex` is in range, and under the key "undefined" (JavaScript's `[undefined]` computed key) once it is past the end |
| Dialogue.WordingVerbatim | broilr-frontend/src/pages/Chat.jsx:312 | the backend's follow-up questions (also line 299) and its answers about a step (line 427) are shown verbatim |
| Dialogue.WordingNames | broilr-frontend/src/pages/Chat.jsx:256 | the load confirmation (also line 285) and the delete confirmation (line 477) end with the recipe's name |
| Dialogue.WordingInstructions | broilr-frontend/src/pages/Chat.jsx:350 | the first step's line and a repeated step (line 383) end with the step's instruction |
| Dialogue.WordingSteps | broilr-frontend/src/pages/Chat.jsx:397 | every later step's line ends with its instruction |
| Dialogue.WordingSavedList | broilr-frontend/src/pages/Chat.jsx:168 | the saved-recipes message shows the numbered listing of the recipes |
| Dialogue.WordingDeletePrompt | broilr-frontend/src/pages/Chat.jsx:189 | the delete prompt (here and at line 226) shows the numbered listing of the recipes |
| DialogueFacts.ListingAppend | broilr-frontend/src/pages/Chat.jsx:162 | listing two runs of recipes is listing each, joined by a newline, with the second run numbered on from the first |
| DialogueFacts.ListingEntry | broilr-frontend/src/pages/Chat.jsx:218-220 | in the listing built at lines 162, 183 and 218-220, the k-th recipe has its own line numbered k + 1, between the lines of the earlier and the later recipes |
| Dialogue.Next | broilr-frontend/src/pages/Chat.jsx:144-150 | a blank utterance changes nothing and requests nothing; any other appends the trimmed utterance as the one user turn, followed only by assistant turns; the invariant is kept |
| DialogueFacts.InitialInv | broilr-frontend/src/pages/Chat.jsx:47-58 | the initial state satisfies the invariant and is in `choice` |
| DialogueFacts.ClearedInv | broilr-frontend/src/pages/Chat.jsx:66-72 | `clearChat` keeps the invariant and lands in `dish` |
| DialogueFacts.ChoiceRules | broilr-frontend/src/pages/Chat.jsx:153-211 | load words first, then "delete", then new words, else a re-prompt; load and delete fetch the saved list and move on only with a non-empty list, kept as the candidates, presenting it as the numbered list or the delete prompt |
| DialogueFacts.LoadOrDeleteRules | broilr-frontend/src/pages/Chat.jsx:213-261 | "delete" switches to `delete`; otherwise no match re-prompts with every field unchanged, and a match becomes `recipe`, is announced with the start question and moves to `start_cooking` |
| DialogueFacts.SelectPicksCandidate | broilr-frontend/src/pages/Chat.jsx:234-243 | a selection is always one of the offered recipes |
| DialogueFacts.DeleteRules | broilr-frontend/src/pages/Chat.jsx:457-484 | no match leaves every field as it was; a match asks the backend to delete that recipe by name, confirms the deletion by name, says the list is updated and offers to load another, and returns to `choice` |
| DialogueFacts.DishRules | broilr-frontend/src/pages/Chat.jsx:292-303 | the utterance becomes `dish` and questions are requested; none keeps `dish`, otherwise the first question is asked and the stage is `followups` |
| DialogueFacts.FollowupsRules | broilr-frontend/src/pages/Chat.jsx:305-330 | the answer is stored under the current question's key; the next question is asked while one exists, otherwise the recipe is generated from the answers, becomes the new recipe in `start_cooking`, and is announced with its summary and the start question |
| DialogueFacts.StartCookingRules | broilr-frontend/src/pages/Chat.jsx:332-367 | the affirmative phrases win over the negative ones and start cooking at step 0, speaking step 1's instruction; a negative alone ends with the come-back message; neither re-prompts with every field unchanged |
| DialogueFacts.CookingRules | broilr-frontend/src/pages/Chat.jsx:370-429 | repeat is tested before next; next advances `step` and speaks the next step's line while a further step exists, else speaks the completion, thanks and refresh lines (plus the save offer for a generated recipe) and moves to `ask_save` or `done`; anything else is asked of the backend with every field unchanged |
| DialogueFacts.AskSaveRules | broilr-frontend/src/pages/Chat.jsx:432-456 | `ask_save` always ends in `done`, and saves the recipe exactly when an affirmative phrase occurs; it then confirms the save, thanks and asks for a refresh, and otherwise says "no worries" and asks for a refresh |
| DialogueFacts.LetsBeginNeverMatches | broilr-frontend/src/pages/Chat.jsx:433-434 | the phrase "let's begin" can never occur in the apostrophe-stripped utterance |
| DialogueFacts.DoneIsTerminal | broilr-frontend/src/pages/Chat.jsx:486-487 | in `done` an utterance is recorded and nothing else happens |
| Conversation.Run | broilr-frontend/src/pages/Chat.jsx:144-489 | repeated `send` calls keep the invariant and make at most one request each |
| Conversation.RunAppend | broilr-frontend/src/pages/Chat.jsx:144-489 | a run of two parts is the second part run from where the first part ends, transcripts and requests concatenated |
| Conversation.NextAdvances | broilr-frontend/src/pages/Chat.jsx:389-402 | "next" with a further step moves `step` on by one and changes nothing else |
| Conversation.NextFinishes | broilr-frontend/src/pages/Chat.jsx:403-413 | "next" on the last step moves to `ask_save` for a generated recipe and to `done` otherwise, leaving `step` alone |
| Conversation.CookingWalk | broilr-frontend/src/pages/Chat.jsx:389-402 | k "next"s with steps still ahead leave the session at `step + k` with no request |
| Conversation.CookingFinishes | broilr-frontend/src/pages/Chat.jsx:389-413 | as many "next"s as steps remain end on the last step in `ask_save` or `done`, with no request |
| Conversation.NextWordSaysNext | broilr-frontend/src/pages/Chat.jsx:371-376 | the word "next" is read as a next command and not as a repeat |
| Conversation.FollowupsStep | broilr-frontend/src/pages/Chat.jsx:305-330 | one answer is stored under the current key; the index moves on, or the recipe is generated |
| Conversation.FollowupsWalk | broilr-frontend/src/pages/Chat.jsx:305-330 | answering every remaining question reaches `start_cooking` with the recipe from the last reply, the index on the last question, and exactly one request: the generation with the final answers |
| Conversation.TrimmedAt | broilr-frontend/src/pages/Chat.jsx:146 | the stored answers are the trimmed utterances, position by position |
| Conversation.FollowupsRecorded | broilr-frontend/src/pages/Chat.jsx:306-308 | after a run of answers `answers` is exactly the map `Answered` builds from the trimmed utterances |
| Conversation.AnsweredKeys | broilr-frontend/src/pages/Chat.jsx:306-308 | the keys afterwards are the keys before plus the answered questions, no more and no fewer |
| Conversation.AnsweredKeeps | broilr-frontend/src/pages/Chat.jsx:306-308 | answers to other questions are kept |
| Conversation.AnsweredValues | broilr-frontend/src/pages/Chat.jsx:306-308 | with distinct questions, each answered question maps to its own answer |
| Conversation.StaleIndexSkipsQuestions | broilr-frontend/src/pages/Chat.jsx:292-330 | `currentQIndex` is never reset, so with a stale index the first answer to a new dish's questions already generates the recipe, and is stored under the key the stale index picks |
| Conversation.DoneAbsorbs | broilr-frontend/src/pages/Chat.jsx:486-487 | after `done`, any run of utterances changes no field, requests nothing and appends only user turns |
| Conversation.BlankIgnored | broilr-frontend/src/pages/Chat.jsx:145-148 | a run of blank utterances changes nothing in any stage |
| ChatSession.Session.constructor | broilr-frontend/src/pages/Chat.jsx:44-58 | the page starts with the welcome turn, in `choice`, every field at its default, and the invariant holding |
| ChatSession.Session.Send | broilr-frontend/src/pages/Chat.jsx:144-489 | the fields end as `Next` says, the transcript is the old one with `Next`'s turns appended, the request returned is `Next`'s, and the invariant is kept |
| ChatSession.Session.ClearChat | broilr-frontend/src/pages/Chat.jsx:66-72 | the transcript becomes the dish question alone; `recipe` and `step` are reset and `flow` is `dish`; every other field is kept |

Where the page's behaviour looks unintended, the model keeps it as written:

- `currentQIndex` and `answers` are never reset.
  - Once `currentQIndex` is past the end of a new, shorter question list, the answer is
    stored under the key "undefined".
- "let's begin" never matches.
- The `null - 1` index in `delete` falls through to name matching.

## Left out

- Speech recognition:
  - the `webkitSpeechRecognition` callbacks, restarts and timers (`Chat.jsx:73-138`);
  - the duplicate-transcript suppression.
  They are browser APIs and event-loop timing.
- Rendering, scrolling, logout and the redirect when no user is stored. They are UI.
- `setInput("")` clears the input box. It is UI state only.
- The `username` is a constructor parameter. `localStorage` is not modelled.
- Backend transport.
  - Each request is returned as a `Request` value, and its reply is an input.
  - Failed or rejected requests are not modelled. There is no error handling in the page, and
    a rejection aborts `send` part-way.
  - Interleaving with other events while a request is pending is not modelled either.
- The `load` stage (`Chat.jsx:264-290`) is unreachable: no branch sets that stage.
- `Number` accepts exponent, hexadecimal, fractional and signed forms such as "1e1",
  "0x10", "1.5" and "-2". The model reads only number words and plain decimal digit strings.
  - The empty string counts as a digit string, with `Number("") == 0`, as in JavaScript.
- Inherited object keys such as "constructor" pass the table lookup `map[cleaned]`. They are
  not modelled.
- `toLowerCase` is modelled for ASCII letters only.
  - Other characters are kept as they are.
  - Unicode case mapping is not modelled.
- `Numerals.ReadNumber`: a JavaScript number is a double. The model uses unbounded integers,
  so numerals beyond 2^53 are not rounded.
- Recipes without steps. `start_cooking` reads the first step without checking that one
  exists (`Chat.jsx:350`), and the page fails there on such a recipe.
  - `Inv` requires every recipe that reaches the cooking stages to have at least one step.
  - `RepliesOk` requires the same of every recipe the backend returns, saved lists included.
    So the model also leaves out, for a saved list holding a stepless recipe, the paths where
    the page does not fail: the `delete` flow, and loading such a recipe and then saying "no"
    in `start_cooking`.
- The request body of the step question includes `history: []`. `Request.AskStep` omits it
  because it is always empty.
- Dialogue.OnChoice, Dialogue.OnLoadOrDelete, Dialogue.OnDish, Dialogue.OnFollowups,
  Dialogue.OnStartCooking, Dialogue.OnCooking, Dialogue.OnAskSave, Dialogue.OnDelete and
  Dialogue.Handle: their own contracts state only the invariant and the shape of the turns.
  What each stage does is stated by the matching `DialogueFacts` lemma.
