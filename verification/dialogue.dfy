/** The conversation state machine of the chat page (`send` in Chat.jsx), one stage handler
    per `case` of its `switch (flow)`, as functions from the session's fields, the trimmed
    utterance and the backend's replies to the new fields, the assistant turns appended to
    the transcript and the backend request issued. */
module Dialogue {
  import opened Wrappers
  import opened Text
  import opened Numerals
  import opened Recipes

  /** The values `flow` takes. The page's `load` case (Chat.jsx:264) is never entered (no
      branch sets `flow = "load"`) and is not a stage here. */
  datatype Stage =
    | Choice | LoadOrDelete | Dish | Followups | StartCooking | Cooking | AskSave | Delete | Done

  /** One entry of the `chat` transcript: the user's utterance, or a message of the
      assistant (`Wording` gives its text). */
  datatype Turn = User(text: string) | Assistant(message: Message)

  /** The `followups` slot: the clarifying questions of the new-recipe path, or the saved
      recipes offered for loading or deleting. */
  datatype Pending = Questions(questions: seq<string>) | Candidates(recipes: seq<Recipe>)

  /** The session fields `send` reads and writes. */
  datatype SessionState = SessionState(
    flow: Stage,
    dish: string,
    followups: Pending,
    answers: map<string, string>,
    currentQIndex: nat,
    recipe: Option<Recipe>,
    isNewRecipe: bool,
    step: nat)

  /** The backend calls `send` makes (`api.post` with its route and body). */
  datatype Request =
    | LoadRecipes(username: string)
    | FollowupQuestions(dish: string)
    | GenerateRecipe(dish: string, answers: map<string, string>, username: string)
    | AskStep(question: string, step: Step)
    | SaveRecipe(recipe: Recipe, username: string)
    | DeleteRecipe(username: string, recipeName: string)

  /** The backend's reply payloads: `recipes` of /load_recipes, `questions` of /followups,
      `recipe` of /generate_recipe and `answer` of /ask_step. A stage reads only the reply to
      the request it issues. */
  datatype Replies = Replies(saved: seq<Recipe>, questions: seq<string>, generated: Recipe, answer: string)

  /** The effect of one utterance: the new fields, the turns appended to `chat` and the backend
      request issued, if any. */
  datatype Outcome = Outcome(state: SessionState, said: seq<Turn>, call: Option<Request>)

  // ---------------------------------------------------------------------------------------
  // Session invariant

  /** What `send` relies on when it indexes into `followups` and `recipe.steps`: recipes
      reach the session with at least one step. */
  predicate Cookable(r: Recipe) {
    |r.steps| > 0
  }

  predicate AllCookable(rs: seq<Recipe>) {
    forall i :: 0 <= i < |rs| ==> Cookable(rs[i])
  }

  /** The backend never returns a recipe without steps (`start_cooking` reads `steps[0]`
      unchecked). */
  predicate RepliesOk(r: Replies) {
    Cookable(r.generated) && AllCookable(r.saved)
  }

  /** The facts every reachable session keeps. The selecting stages hold a non-empty list of
      candidates; the follow-up stage holds questions; the cooking stages hold a recipe with
      steps, and while cooking `step` indexes one of them; a session that is choosing, loading
      or deleting has not generated a recipe. */
  predicate Inv(s: SessionState) {
    && ((s.flow.LoadOrDelete? || s.flow.Delete?) ==>
          s.followups.Candidates? && |s.followups.recipes| > 0 && AllCookable(s.followups.recipes))
    && (s.flow.Followups? ==> s.followups.Questions? && |s.followups.questions| > 0)
    && ((s.flow.StartCooking? || s.flow.Cooking? || s.flow.AskSave?) ==>
          s.recipe.Some? && Cookable(s.recipe.value))
    && (s.flow.Cooking? ==> s.recipe.Some? && s.step < |s.recipe.value.steps|)
    && ((s.flow.Choice? || s.flow.LoadOrDelete? || s.flow.Delete?) ==> !s.isNewRecipe)
  }

  /** The fields of a freshly mounted page: `flow == "choice"`, nothing loaded. */
  const Initial: SessionState :=
    SessionState(Choice, "", Questions([]), map[], 0, None, false, 0)

  // ---------------------------------------------------------------------------------------
  // Phrase sets

  const LoadWords: seq<string> := ["load", "saved"]
  const NewWords: seq<string> := ["new", "cook"]
  const StartYes: seq<string> := [
    "yes", "yeah", "yep", "sure", "of course", "okay", "ok", "alright",
    "lets go", "let us begin", "im ready", "ready", "go ahead", "start", "lets start",
    "lets begin", "lets do this"]
  const StartNo: seq<string> := ["no", "not now", "later", "maybe later", "not yet", "stop", "cancel"]
  const NextPhrases: seq<string> := [
    "next", "go on", "continue", "move ahead", "okay", "done", "lets go", "proceed", "go ahead"]
  const RepeatPhrases: seq<string> := [
    "repeat", "say again", "once more", "can you repeat", "again", "please repeat"]
  const SaveYes: seq<string> := ["yes", "start", "go ahead", "okay", "let's begin", "ready"]

  // ---------------------------------------------------------------------------------------
  // Assistant messages

  /** The messages the assistant appends to `chat`. */
  datatype Message =
    | Welcome
    | NoSaved
    | SavedList(recipes: seq<Recipe>)
    | NoSavedToDelete
    | DeletePrompt(recipes: seq<Recipe>, verb: string)
    | AskDish
    | ChoiceReprompt
    | LoadNotFound
    | Loaded(name: string)
    | ReadyToCook
    | NoQuestions
    | Question(question: string)
    | Generated
    | Summary(recipe: Recipe)
    | FirstStep(instruction: string)
    | ComeBack
    | StartReprompt
    | Repeat(instruction: string)
    | StepLine(step: Step)
    | Completed
    | Thanks
    | Refresh
    | OfferSave
    | Answer(answer: string)
    | SavedToProfile
    | NoWorries
    | DeleteNotFound
    | Deleted(name: string)
    | ListUpdated
    | LoadAnother

  /** One line of a recipe list: the recipe's number and its name. */
  function Entry(number: nat, name: string): string {
    "🍽️ " + NatToString(number) + ". " + name
  }

  /** `recipes.map((r, i) => `🍽️ ${i + 1}. ${r.recipe_name}`).join("\n")`, numbering from
      `first`. */
  function Listing(recipes: seq<Recipe>, first: nat): string
    decreases |recipes|
  {
    if recipes == [] then ""
    else
      var line := Entry(first, recipes[0].name);
      if |recipes| == 1 then line else line + "\n" + Listing(recipes[1..], first + 1)
  }

  /** `text` ends with `suffix`. */
  predicate EndsWith(text: string, suffix: string) {
    |suffix| <= |text| && text[|text| - |suffix|..] == suffix
  }

  /** The messages whose text the page fills in from a name, an instruction, a list or the
      backend's own words. */
  predicate Carries(m: Message) {
    m.SavedList? || m.DeletePrompt? || m.Loaded? || m.Question? || m.Summary? || m.FirstStep?
    || m.Repeat? || m.StepLine? || m.Answer? || m.Deleted?
  }

  /** The `text` of the chat entry a message becomes: the page's own wording, with the name,
      instruction, list or backend reply it fills in. */
  function Wording(m: Message): string {
    if Carries(m) then Filled(m) else Fixed(m)
  }

  /** The `text` of a message the page fills in. */
  function Filled(m: Message): string
    requires Carries(m)
  {
    match m
    case SavedList(recipes) =>
      "📚 Here are your saved recipes:\n\n" + Listing(recipes, 1)
        + "\n\n👉 You can select the number or name to load a recipe.\n🗑️ Or delete a recipe."
    case DeletePrompt(recipes, verb) =>
      "🗑️ Which recipe would you like to delete?\n\n" + Listing(recipes, 1)
        + ("\n\n👉 Please " + verb + " the number or name of the recipe to delete:")
    case Loaded(name) => "✅ Loaded recipe: " + name
    case Question(question) => question
    case Summary(recipe) =>
      "🥣 Your recipe has " + NatToString(|recipe.ingredients|) + " ingredients and "
        + NatToString(|recipe.steps|) + " steps."
    case FirstStep(instruction) => "👣 Step 1: " + instruction
    case Repeat(instruction) => "🔁 " + instruction
    case StepLine(step) => "👣 Step " + IntToString(step.stepNumber) + ": " + step.instruction
    case Answer(answer) => answer
    case Deleted(name) => "✅ Deleted recipe: " + name
    case _ => ""
  }

  /** The `text` of a message the page always words the same way. */
  function Fixed(m: Message): string
    requires !Carries(m)
  {
    match m
    case Welcome => "👨‍🍳 Welcome to Broilr! Would you like to cook a new recipe or load a saved one?"
    case NoSaved => "📭 No saved recipes found."
    case NoSavedToDelete => "📭 No saved recipes found to delete."
    case AskDish => "🍽️ What do you want to cook?"
    case ChoiceReprompt => "👋 Load saved recipes or cook something new!"
    case LoadNotFound =>
      "❌ Couldn't find that recipe. Please try again with a number or name. Or say 'delete' to remove one."
    case ReadyToCook => "🍳 Ready to start cooking? (yes/no)"
    case NoQuestions => "❌ Gemini failed to generate follow-up questions."
    case Generated => "✅ Recipe Generated!"
    case ComeBack => "👋 Come back when you're ready to cook!"
    case StartReprompt => "❓ Please let me know if you're ready to start cooking (yes/no)."
    case Completed => "🎉 You've completed the recipe! Bon appétit!"
    case Thanks => "🧑‍🍳 Thank you for cooking with Broilr!"
    case Refresh => "Refresh the page for a new recipe"
    case OfferSave => "💾 Would you like to save this recipe to your profile? (yes/no)"
    case SavedToProfile => "✅ Recipe saved to your profile!"
    case NoWorries => "🧑‍🍳 No worries! Thank you for cooking with Broilr!"
    case DeleteNotFound => "❌ Could not find that recipe. Please try again."
    case ListUpdated => "🧹 Your recipe list is now updated."
    case LoadAnother => "👋 Would you like to load another saved recipe or cook a new one?"
    case _ => ""
  }

  /** The backend's follow-up question and its answer about a step are shown verbatim. */
  lemma WordingVerbatim(q: string)
    ensures Wording(Question(q)) == q && Wording(Answer(q)) == q
  {
  }

  /** The load and delete confirmations end with the recipe's name. */
  lemma WordingNames(name: string)
    ensures EndsWith(Wording(Loaded(name)), name)
    ensures EndsWith(Wording(Deleted(name)), name)
  {
  }

  /** The first step and a repeated step end with the step's instruction. */
  lemma WordingInstructions(instruction: string)
    ensures EndsWith(Wording(FirstStep(instruction)), instruction)
    ensures EndsWith(Wording(Repeat(instruction)), instruction)
  {
  }

  /** Every later step's line ends with its instruction. */
  lemma WordingSteps(step: Step)
    ensures EndsWith(Wording(StepLine(step)), step.instruction)
  {
  }

  /** The list of saved recipes shows the numbered listing. */
  lemma WordingSavedList(recipes: seq<Recipe>)
    ensures Contains(Wording(SavedList(recipes)), Listing(recipes, 1))
  {
    ContainsMiddle("📚 Here are your saved recipes:\n\n", Listing(recipes, 1),
                   "\n\n👉 You can select the number or name to load a recipe.\n🗑️ Or delete a recipe.");
  }

  /** The delete prompt shows the numbered listing. */
  lemma WordingDeletePrompt(recipes: seq<Recipe>, verb: string)
    ensures Contains(Wording(DeletePrompt(recipes, verb)), Listing(recipes, 1))
  {
    ContainsMiddle("🗑️ Which recipe would you like to delete?\n\n", Listing(recipes, 1),
                   "\n\n👉 Please " + verb + " the number or name of the recipe to delete:");
  }

  /** The turns a stage appends are all the assistant's. */
  predicate Spoken(turns: seq<Turn>) {
    forall i :: 0 <= i < |turns| ==> turns[i].Assistant?
  }

  // ---------------------------------------------------------------------------------------
  // Stage handlers; `msg` is the trimmed, non-empty utterance and `normalized` is
  // `normalizedMsg`, the utterance as `Normalize` leaves it

  /** `case "choice"`: "load"/"saved" is tested first, then "delete", then "new"/"cook". */
  function OnChoice(user: string, s: SessionState, msg: string, r: Replies): (o: Outcome)
    requires Inv(s) && s.flow == Choice
    ensures Spoken(o.said) && |o.said| > 0
    ensures RepliesOk(r) ==> Inv(o.state)
  {
    var lowered := ToLower(msg);
    if ContainsAny(lowered, LoadWords) then
      if |r.saved| == 0 then Outcome(s, [Assistant(NoSaved)], Some(LoadRecipes(user)))
      else
        Outcome(s.(followups := Candidates(r.saved), flow := LoadOrDelete),
                [Assistant(SavedList(r.saved))], Some(LoadRecipes(user)))
    else if Contains(lowered, "delete") then
      if |r.saved| == 0 then Outcome(s, [Assistant(NoSavedToDelete)], Some(LoadRecipes(user)))
      else
        Outcome(s.(followups := Candidates(r.saved), flow := Delete),
                [Assistant(DeletePrompt(r.saved, "say"))], Some(LoadRecipes(user)))
    else if ContainsAny(lowered, NewWords) then
      Outcome(s.(flow := Dish), [Assistant(AskDish)], None)
    else
      Outcome(s, [Assistant(ChoiceReprompt)], None)
  }

  /** `case "load_or_delete"`: "delete" switches to deleting; otherwise the utterance selects
      the recipe to cook. */
  function OnLoadOrDelete(s: SessionState, msg: string): (o: Outcome)
    requires Inv(s) && s.flow == LoadOrDelete
    ensures Spoken(o.said) && |o.said| > 0
    ensures Inv(o.state)
  {
    var lowered := ToLower(msg);
    var candidates := s.followups.recipes;
    if Contains(lowered, "delete") then
      Outcome(s.(flow := Delete), [Assistant(DeletePrompt(candidates, "select"))], None)
    else
      match SelectForLoad(candidates, NormalizeNumberInput(msg), lowered)
      case None => Outcome(s, [Assistant(LoadNotFound)], None)
      case Some(chosen) =>
        Outcome(s.(recipe := Some(chosen), flow := StartCooking),
                [Assistant(Loaded(chosen.name)), Assistant(ReadyToCook)], None)
  }

  /** `case "dish"`: the utterance names the dish and the backend is asked for questions. */
  function OnDish(s: SessionState, msg: string, r: Replies): (o: Outcome)
    requires Inv(s) && s.flow == Dish
    ensures Spoken(o.said) && |o.said| > 0
    ensures RepliesOk(r) ==> Inv(o.state)
  {
    var named := s.(dish := msg);
    if |r.questions| == 0 then
      Outcome(named, [Assistant(NoQuestions)], Some(FollowupQuestions(msg)))
    else
      Outcome(named.(followups := Questions(r.questions), flow := Followups),
              [Assistant(Question(r.questions[0]))], Some(FollowupQuestions(msg)))
  }

  /** The key `{...answers, [currentQ]: msg}` stores under: the current question, or the
      string "undefined" when `currentQIndex` is past the end of the list. */
  function QuestionKey(questions: seq<string>, index: nat): (r: string)
    ensures index < |questions| ==> r == questions[index]
    ensures index >= |questions| ==> r == "undefined"
  {
    if index < |questions| then questions[index] else "undefined"
  }

  /** `case "followups"`: the utterance answers the current question; the next question is
      asked, or after the last one the recipe is generated. */
  function OnFollowups(user: string, s: SessionState, msg: string, r: Replies): (o: Outcome)
    requires Inv(s) && s.flow == Followups
    ensures Spoken(o.said) && |o.said| > 0
    ensures RepliesOk(r) ==> Inv(o.state)
  {
    var questions := s.followups.questions;
    var i := s.currentQIndex;
    var answers := s.answers[QuestionKey(questions, i) := msg];
    if i + 1 < |questions| then
      Outcome(s.(answers := answers, currentQIndex := i + 1), [Assistant(Question(questions[i + 1]))], None)
    else
      Outcome(s.(answers := answers, recipe := Some(r.generated), isNewRecipe := true,
                 flow := StartCooking),
              [Assistant(Generated), Assistant(Summary(r.generated)), Assistant(ReadyToCook)],
              Some(GenerateRecipe(s.dish, answers, user)))
  }

  /** `case "start_cooking"`: affirmative phrases are tested before negative ones. */
  function OnStartCooking(s: SessionState, msg: string, normalized: string): (o: Outcome)
    requires Inv(s) && s.flow == StartCooking
    ensures Spoken(o.said) && |o.said| > 0
    ensures Inv(o.state)
  {
    if ContainsAny(normalized, StartYes) then
      Outcome(s.(step := 0, flow := Cooking),
              [Assistant(FirstStep(s.recipe.value.steps[0].instruction))], None)
    else if ContainsAny(normalized, StartNo) then
      Outcome(s.(flow := Done), [Assistant(ComeBack)], None)
    else
      Outcome(s, [Assistant(StartReprompt)], None)
  }

  /** `case "cooking"`: "repeat" phrases are tested before "next" phrases; anything else is a
      question about the current step for the backend. */
  function OnCooking(s: SessionState, msg: string, normalized: string, r: Replies): (o: Outcome)
    requires Inv(s) && s.flow == Cooking
    ensures Spoken(o.said) && |o.said| > 0
    ensures Inv(o.state)
  {
    var steps := s.recipe.value.steps;
    if ContainsAny(normalized, RepeatPhrases) then
      Outcome(s, [Assistant(Repeat(steps[s.step].instruction))], None)
    else if ContainsAny(normalized, NextPhrases) then
      if s.step + 1 < |steps| then
        Outcome(s.(step := s.step + 1), [Assistant(StepLine(steps[s.step + 1]))], None)
      else if s.isNewRecipe then
        Outcome(s.(flow := AskSave), [Assistant(Completed), Assistant(Thanks), Assistant(Refresh), Assistant(OfferSave)], None)
      else
        Outcome(s.(flow := Done), [Assistant(Completed), Assistant(Thanks), Assistant(Refresh)], None)
    else
      Outcome(s, [Assistant(Answer(r.answer))], Some(AskStep(msg, steps[s.step])))
  }

  /** `case "ask_save"`: an affirmative phrase saves the recipe; either way the conversation
      is over. */
  function OnAskSave(user: string, s: SessionState, msg: string, normalized: string): (o: Outcome)
    requires Inv(s) && s.flow == AskSave
    ensures Spoken(o.said) && |o.said| > 0
    ensures Inv(o.state)
  {
    if ContainsAny(normalized, SaveYes) then
      Outcome(s.(flow := Done), [Assistant(SavedToProfile), Assistant(Thanks), Assistant(Refresh)],
              Some(SaveRecipe(s.recipe.value, user)))
    else
      Outcome(s.(flow := Done), [Assistant(NoWorries), Assistant(Refresh)], None)
  }

  /** `case "delete"`: the utterance selects the recipe to delete; `index` is what
      `normalizeNumberInput(msg)` reads. */
  function OnDelete(user: string, s: SessionState, msg: string, index: Option<int>): (o: Outcome)
    requires Inv(s) && s.flow == Delete
    ensures Spoken(o.said) && |o.said| > 0
    ensures Inv(o.state)
  {
    var selected := SelectForDelete(s.followups.recipes, index, ToLower(msg));
    if selected.None? then Outcome(s, [Assistant(DeleteNotFound)], None)
    else
      var chosen := selected.value;
      Outcome(s.(flow := Choice),
              [Assistant(Deleted(chosen.name)), Assistant(ListUpdated), Assistant(LoadAnother)],
              Some(DeleteRecipe(user, chosen.name)))
  }

  /** `switch (flow)`: the handler of the current stage; `done` has none (the `default`
      case) and changes nothing. */
  function Handle(user: string, s: SessionState, msg: string, r: Replies): (o: Outcome)
    requires Inv(s)
    ensures Spoken(o.said)
    ensures RepliesOk(r) ==> Inv(o.state)
  {
    match s.flow
    case Choice => OnChoice(user, s, msg, r)
    case LoadOrDelete => OnLoadOrDelete(s, msg)
    case Dish => OnDish(s, msg, r)
    case Followups => OnFollowups(user, s, msg, r)
    case StartCooking => OnStartCooking(s, msg, Normalize(msg))
    case Cooking => OnCooking(s, msg, Normalize(msg), r)
    case AskSave => OnAskSave(user, s, msg, Normalize(msg))
    case Delete => OnDelete(user, s, msg, NormalizeNumberInput(msg))
    case Done => Outcome(s, [], None)
  }

  /** One call of `send(raw)` for the user `user`: a blank utterance is ignored; otherwise the
      trimmed utterance is appended as the user's turn, before anything the stage says. */
  function Next(user: string, s: SessionState, raw: string, r: Replies): (o: Outcome)
    requires Inv(s)
    ensures Trim(raw) == [] ==> o == Outcome(s, [], None)
    ensures Trim(raw) != [] ==>
      |o.said| >= 1 && o.said[0] == User(Trim(raw)) && Spoken(o.said[1..])
    ensures RepliesOk(r) ==> Inv(o.state)
  {
    var msg := Trim(raw);
    if msg == [] then Outcome(s, [], None)
    else
      var o := Handle(user, s, msg, r);
      assert ([User(msg)] + o.said)[1..] == o.said;
      Outcome(o.state, [User(msg)] + o.said, o.call)
  }

  /** `clearChat`: the transcript is replaced by the dish question, `recipe` and `step` are
      reset and `flow` jumps to `dish`; every other field is kept. */
  function Cleared(s: SessionState): (c: SessionState)
    ensures c.flow == Dish && c.recipe.None? && c.step == 0
    ensures c.dish == s.dish && c.followups == s.followups && c.answers == s.answers
    ensures c.currentQIndex == s.currentQIndex && c.isNewRecipe == s.isNewRecipe
  {
    s.(recipe := None, step := 0, flow := Dish)
  }
}
