/** What the conversation state machine promises: the session invariant is kept, each stage
    follows its rules, and runs of several utterances end where the chat page says. */
module DialogueFacts {
  import opened Wrappers
  import opened Text
  import opened Numerals
  import opened Recipes
  import opened Dialogue

  /** The page starts in a state that satisfies the invariant. */
  lemma InitialInv()
    ensures Inv(Initial) && Initial.flow == Choice
  {
  }

  /** `clearChat` keeps the invariant. */
  lemma ClearedInv(s: SessionState)
    requires Inv(s)
    ensures Inv(Cleared(s)) && Cleared(s).flow == Dish
  {
  }

  /** In `choice` the checks run in a fixed order: "load"/"saved", then "delete", then
      "new"/"cook", else a re-prompt. Load and delete fetch the saved recipes and enter their
      stage only with a non-empty list, which becomes the candidate list. */
  lemma ChoiceRules(user: string, s: SessionState, msg: string, r: Replies)
    requires Inv(s) && s.flow == Choice
    ensures var o := OnChoice(user, s, msg, r);
      var lowered := ToLower(msg);
      var wantsLoad := ContainsAny(lowered, LoadWords);
      var wantsDelete := !wantsLoad && Contains(lowered, "delete");
      var wantsNew := !wantsLoad && !wantsDelete && ContainsAny(lowered, NewWords);
      && (wantsLoad || wantsDelete ==> o.call == Some(LoadRecipes(user)))
      && (wantsLoad && r.saved == [] ==> o.state == s && o.said == [Assistant(NoSaved)])
      && (wantsLoad && r.saved != [] ==>
            o.state == s.(followups := Candidates(r.saved), flow := LoadOrDelete)
            && o.said == [Assistant(SavedList(r.saved))])
      && (wantsDelete && r.saved == [] ==>
            o.state == s && o.said == [Assistant(NoSavedToDelete)])
      && (wantsDelete && r.saved != [] ==>
            o.state == s.(followups := Candidates(r.saved), flow := Delete)
            && o.said == [Assistant(DeletePrompt(r.saved, "say"))])
      && (wantsNew ==> o == Outcome(s.(flow := Dish), [Assistant(AskDish)], None))
      && (!wantsLoad && !wantsDelete && !wantsNew ==>
            o == Outcome(s, [Assistant(ChoiceReprompt)], None))
  {
  }

  /** In `load_or_delete`, "delete" switches to deleting over the same list; otherwise the
      utterance selects by number or by name. No match re-prompts and changes nothing; a match
      becomes `recipe` and the stage moves to `start_cooking`. */
  lemma LoadOrDeleteRules(s: SessionState, msg: string)
    requires Inv(s) && s.flow == LoadOrDelete
    ensures var o := OnLoadOrDelete(s, msg);
      var chosen := Select(s.followups.recipes, msg);
      && o.call == None
      && (Contains(ToLower(msg), "delete") ==>
            o.state == s.(flow := Delete)
            && o.said == [Assistant(DeletePrompt(s.followups.recipes, "select"))])
      && (!Contains(ToLower(msg), "delete") && chosen.None? ==>
            o == Outcome(s, [Assistant(LoadNotFound)], None))
      && (!Contains(ToLower(msg), "delete") && chosen.Some? ==>
            o.state == s.(recipe := chosen, flow := StartCooking)
            && o.said == [Assistant(Loaded(chosen.value.name)), Assistant(ReadyToCook)])
  {
  }

  /** Whatever a selecting stage picks is one of the offered recipes. */
  lemma SelectPicksCandidate(candidates: seq<Recipe>, msg: string)
    ensures var chosen := Select(candidates, msg);
      chosen.Some? ==> chosen.value in candidates
  {
  }

  /** In `delete`, the utterance selects exactly as in `load_or_delete`. No match leaves
      every field unchanged; a match asks the backend to delete that recipe by name and
      returns to `choice`. */
  lemma DeleteRules(user: string, s: SessionState, msg: string)
    requires Inv(s) && s.flow == Delete
    ensures var o := OnDelete(user, s, msg, NormalizeNumberInput(msg));
      var chosen := Select(s.followups.recipes, msg);
      && (chosen.None? ==> o == Outcome(s, [Assistant(DeleteNotFound)], None))
      && (chosen.Some? ==>
            && o.state == s.(flow := Choice)
            && o.said == [Assistant(Deleted(chosen.value.name)), Assistant(ListUpdated),
                          Assistant(LoadAnother)]
            && o.call == Some(DeleteRecipe(user, chosen.value.name)))
  {
    DeleteSelectsLikeLoad(s.followups.recipes, NormalizeNumberInput(msg), ToLower(msg));
  }

  /** In `dish`, the utterance becomes `dish` and the backend is asked for questions. With
      none the stage stays `dish`; otherwise the first question is asked and the stage moves
      to `followups`. `currentQIndex` and `answers` are left as they were. */
  lemma DishRules(s: SessionState, msg: string, r: Replies)
    requires Inv(s) && s.flow == Dish
    ensures var o := OnDish(s, msg, r);
      && o.call == Some(FollowupQuestions(msg))
      && (r.questions == [] ==> o.state == s.(dish := msg) && o.said == [Assistant(NoQuestions)])
      && (r.questions != [] ==>
            o.state == s.(dish := msg, followups := Questions(r.questions), flow := Followups)
            && o.said == [Assistant(Question(r.questions[0]))])
  {
  }

  /** In `followups`, the utterance is stored as the answer to the current question (under
      "undefined" when the index is stale). While a further question exists it is asked and
      the index moves on; otherwise the recipe is generated from the answers, becomes the new
      recipe, and the stage moves to `start_cooking`. */
  lemma FollowupsRules(user: string, s: SessionState, msg: string, r: Replies)
    requires Inv(s) && s.flow == Followups
    ensures var o := OnFollowups(user, s, msg, r);
      var qs := s.followups.questions;
      var i := s.currentQIndex;
      var answers := s.answers[QuestionKey(qs, i) := msg];
      && (i + 1 < |qs| ==>
            o == Outcome(s.(answers := answers, currentQIndex := i + 1), [Assistant(Question(qs[i + 1]))], None))
      && (i + 1 >= |qs| ==>
            && o.state == s.(answers := answers, recipe := Some(r.generated), isNewRecipe := true,
                             flow := StartCooking)
            && o.said == [Assistant(Generated), Assistant(Summary(r.generated)), Assistant(ReadyToCook)]
            && o.call == Some(GenerateRecipe(s.dish, answers, user)))
  {
  }

  /** In `start_cooking`, an affirmative phrase wins even when a negative one also occurs:
      it starts cooking at the first step. A negative phrase alone ends the conversation;
      neither re-prompts and changes nothing. */
  lemma StartCookingRules(s: SessionState, msg: string, normalized: string)
    requires Inv(s) && s.flow == StartCooking
    ensures var o := OnStartCooking(s, msg, normalized);
      && o.call == None
      && (ContainsAny(normalized, StartYes) ==>
            o.state == s.(step := 0, flow := Cooking)
            && o.said == [Assistant(FirstStep(s.recipe.value.steps[0].instruction))])
      && (!ContainsAny(normalized, StartYes) && ContainsAny(normalized, StartNo) ==>
            o.state == s.(flow := Done) && o.said == [Assistant(ComeBack)])
      && (!ContainsAny(normalized, StartYes) && !ContainsAny(normalized, StartNo) ==>
            o == Outcome(s, [Assistant(StartReprompt)], None))
  {
  }

  /** In `cooking`, "repeat" phrases are tested before "next" phrases. Repeat only speaks the
      current step again. Next advances `step` while a further step exists; on the last step it
      leaves `step` alone and moves to `ask_save` for a generated recipe, to `done` otherwise.
      Anything else goes to the backend as a question about the current step, and its answer
      is spoken verbatim with every field unchanged. */
  lemma CookingRules(s: SessionState, msg: string, normalized: string, r: Replies)
    requires Inv(s) && s.flow == Cooking
    ensures var o := OnCooking(s, msg, normalized, r);
      var steps := s.recipe.value.steps;
      var repeat := ContainsAny(normalized, RepeatPhrases);
      var next := !repeat && ContainsAny(normalized, NextPhrases);
      && (repeat ==>
            o == Outcome(s, [Assistant(Repeat(steps[s.step].instruction))], None))
      && (next && s.step + 1 < |steps| ==>
            o == Outcome(s.(step := s.step + 1), [Assistant(StepLine(steps[s.step + 1]))], None))
      && (next && s.step + 1 == |steps| ==>
            && o.state == s.(flow := if s.isNewRecipe then AskSave else Done)
            && o.said == [Assistant(Completed), Assistant(Thanks), Assistant(Refresh)]
                         + (if s.isNewRecipe then [Assistant(OfferSave)] else [])
            && o.call == None)
      && (!repeat && !next ==>
            o == Outcome(s, [Assistant(Answer(r.answer))], Some(AskStep(msg, steps[s.step]))))
  {
  }

  /** `ask_save` always ends in `done`, and the recipe is saved exactly when an affirmative
      phrase occurs. */
  lemma AskSaveRules(user: string, s: SessionState, msg: string, normalized: string)
    requires Inv(s) && s.flow == AskSave
    ensures var o := OnAskSave(user, s, msg, normalized);
      && o.state == s.(flow := Done)
      && (o.call.Some? <==> ContainsAny(normalized, SaveYes))
      && (o.call.Some? ==> o.call == Some(SaveRecipe(s.recipe.value, user)))
      && o.said == (if ContainsAny(normalized, SaveYes)
                    then [Assistant(SavedToProfile), Assistant(Thanks), Assistant(Refresh)]
                    else [Assistant(NoWorries), Assistant(Refresh)])
  {
  }

  /** Listing two runs of recipes one after the other is listing each, joined by a newline,
      with the second run numbered on from the first. */
  lemma {:induction false} ListingAppend(a: seq<Recipe>, b: seq<Recipe>, first: nat)
    requires a != [] && b != []
    ensures Listing(a + b, first) == Listing(a, first) + "\n" + Listing(b, first + |a|)
    decreases |a|
  {
    if |a| == 1 {
      assert (a + b)[1..] == b;
    } else {
      assert (a + b)[1..] == a[1..] + b;
      ListingAppend(a[1..], b, first + 1);
    }
  }

  /** The list shown for the choice and delete prompts puts the k-th recipe (from 0) on its
      own line, numbered `first + k`: the earlier recipes' lines come before it and the later
      ones after it, each separated by a newline. With `first` = 1, the number shown is the
      one `normalizeNumberInput` reads back to select that recipe. */
  lemma ListingEntry(recipes: seq<Recipe>, first: nat, k: nat)
    requires k < |recipes|
    ensures Listing(recipes, first) ==
      (if k == 0 then "" else Listing(recipes[..k], first) + "\n")
      + Entry(first + k, recipes[k].name)
      + (if k + 1 == |recipes| then "" else "\n" + Listing(recipes[k + 1..], first + k + 1))
  {
    var rest := recipes[k..];
    assert rest[0] == recipes[k] && rest[1..] == recipes[k + 1..];
    if k > 0 {
      assert recipes == recipes[..k] + rest;
      ListingAppend(recipes[..k], rest, first);
    }
  }

  /** The save offer's phrase "let's begin" never matches: the apostrophe is stripped from
      the utterance before the test. */
  lemma LetsBeginNeverMatches(msg: string)
    ensures !Contains(Normalize(msg), "let's begin")
  {
    assert !Kept('\'');
    assert '\'' in "let's begin";
    NoContainsWithout(Normalize(msg), "let's begin", '\'');
  }

  /** `done` is terminal: an utterance is recorded and nothing else happens. */
  lemma DoneIsTerminal(user: string, s: SessionState, raw: string, r: Replies)
    requires Inv(s) && s.flow == Done
    ensures var o := Next(user, s, raw, r);
      o.state == s && o.call == None && o.said == (if Trim(raw) == [] then [] else [User(Trim(raw))])
  {
  }
}
