/** Recipe records as the backend returns them, and how the chat page resolves a user's
    selection among saved recipes: by 1-based number first, then by name. */
module Recipes {
  import opened Wrappers
  import opened Text
  import opened Numerals

  /** One element of `recipe.steps`: `{step_number, instruction}`. */
  datatype Step = Step(stepNumber: int, instruction: string)

  /** A recipe record: `{recipe_name, ingredients, steps}`. */
  datatype Recipe = Recipe(name: string, ingredients: seq<string>, steps: seq<Step>)

  /** `r.recipe_name.toLowerCase().includes(lowered)`. */
  predicate NameMatches(r: Recipe, lowered: string) {
    Contains(ToLower(r.name), lowered)
  }

  /** The position of the recipe `candidates.find(...)` returns: the first whose lower-cased
      name contains `lowered`, or None when there is none. */
  function FindByName(candidates: seq<Recipe>, lowered: string): (r: Option<nat>)
    ensures r.Some? ==> r.value < |candidates| && NameMatches(candidates[r.value], lowered)
    ensures r.Some? ==> forall j :: 0 <= j < r.value ==> !NameMatches(candidates[j], lowered)
    ensures r.None? <==> forall j :: 0 <= j < |candidates| ==> !NameMatches(candidates[j], lowered)
  {
    if candidates == [] then None
    else if NameMatches(candidates[0], lowered) then Some(0)
    else
      match FindByName(candidates[1..], lowered)
      case None => None
      case Some(i) => Some(i + 1)
  }

  /** The number a selection reads as lies in `1..count`. */
  predicate InRange(index: Option<int>, count: nat) {
    index.Some? && 1 <= index.value <= count
  }

  /** The selection of the `load_or_delete` stage, given `index`, the utterance read by
      `normalizeNumberInput`, and `lowered`, the utterance lower-cased: an index in range
      picks `followups[index - 1]`, otherwise the first recipe whose name contains `lowered`. */
  function SelectForLoad(candidates: seq<Recipe>, index: Option<int>, lowered: string): (r: Option<Recipe>)
    ensures InRange(index, |candidates|) ==> r == Some(candidates[index.value - 1])
    ensures !InRange(index, |candidates|) && r.Some? ==>
      exists j :: 0 <= j < |candidates| && r.value == candidates[j]
        && NameMatches(candidates[j], lowered)
        && forall i :: 0 <= i < j ==> !NameMatches(candidates[i], lowered)
    ensures r.None? <==>
      (!InRange(index, |candidates|) && forall j :: 0 <= j < |candidates| ==> !NameMatches(candidates[j], lowered))
  {
    if InRange(index, |candidates|) then Some(candidates[index.value - 1])
    else
      match FindByName(candidates, lowered)
      case None => None
      case Some(j) => Some(candidates[j])
  }

  /** The selection of the `delete` stage, as written there: the index is
      `normalizeNumberInput(msg) - 1`, where `null - 1 == -1`; an index in
      `0..|followups|-1` picks that recipe, otherwise the first recipe whose name contains
      `lowered`. */
  function SelectForDelete(candidates: seq<Recipe>, index: Option<int>, lowered: string): (r: Option<Recipe>)
    ensures index.Some? && 1 <= index.value <= |candidates| ==> r == Some(candidates[index.value - 1])
    ensures r.Some? ==> exists j :: 0 <= j < |candidates| && r.value == candidates[j]
    ensures r.None? <==>
      (!InRange(index, |candidates|) && forall j :: 0 <= j < |candidates| ==> !NameMatches(candidates[j], lowered))
  {
    var position := (match index case Some(n) => n case None => 0) - 1;
    if 0 <= position < |candidates| then Some(candidates[position])
    else
      match FindByName(candidates, lowered)
      case None => None
      case Some(j) => Some(candidates[j])
  }

  /** The `delete` stage resolves every utterance exactly as the `load_or_delete` stage does:
      the `null - 1` index never lands in range. */
  lemma DeleteSelectsLikeLoad(candidates: seq<Recipe>, index: Option<int>, lowered: string)
    ensures SelectForDelete(candidates, index, lowered) == SelectForLoad(candidates, index, lowered)
  {
  }

  /** The recipe an utterance selects, in either selecting stage. */
  function Select(candidates: seq<Recipe>, msg: string): Option<Recipe>
  {
    SelectForLoad(candidates, NormalizeNumberInput(msg), ToLower(msg))
  }

  /** The printed number of an offered recipe selects it. */
  lemma NumberSelects(candidates: seq<Recipe>, k: nat)
    requires k < |candidates|
    ensures Select(candidates, NatToString(k + 1)) == Some(candidates[k])
  {
    NumeralSelects(k + 1);
  }

  /** A name fragment that only one recipe has, and that is not read as a number in range,
      selects that recipe. */
  lemma NameSelects(candidates: seq<Recipe>, k: nat, fragment: string)
    requires k < |candidates|
    requires NameMatches(candidates[k], ToLower(fragment))
    requires forall j :: 0 <= j < |candidates| && j != k ==> !NameMatches(candidates[j], ToLower(fragment))
    requires !InRange(NormalizeNumberInput(fragment), |candidates|)
    ensures Select(candidates, fragment) == Some(candidates[k])
  {
  }

  /** Selecting a recipe by its printed number and by a name fragment that only it contains
      picks the same recipe, provided the fragment is not itself read as a number in range. */
  lemma NumberAndNameAgree(candidates: seq<Recipe>, k: nat, fragment: string)
    requires k < |candidates|
    requires NameMatches(candidates[k], ToLower(fragment))
    requires forall j :: 0 <= j < |candidates| && j != k ==> !NameMatches(candidates[j], ToLower(fragment))
    requires !InRange(NormalizeNumberInput(fragment), |candidates|)
    ensures Select(candidates, NatToString(k + 1)) == Select(candidates, fragment) == Some(candidates[k])
  {
    NumberSelects(candidates, k);
    NameSelects(candidates, k, fragment);
  }
}
