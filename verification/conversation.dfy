/** Several calls of `send` in a row: the session after a run of utterances, and what runs of
    "next" while cooking, runs of answers to the follow-up questions, and utterances after the
    end of the conversation lead to. */
module Conversation {
  import opened Wrappers
  import opened Text
  import opened Dialogue
  import opened DialogueFacts

  /** The effect of a run of utterances: the final fields, every turn appended to `chat`, and
      every backend request issued, in order. */
  datatype Trace = Trace(state: SessionState, said: seq<Turn>, calls: seq<Request>)

  function CallList(call: Option<Request>): seq<Request> {
    match call
    case None => []
    case Some(q) => [q]
  }

  /** One reply set per utterance, each of them well-formed. */
  predicate RepliesFor(us: seq<string>, rs: seq<Replies>) {
    |rs| == |us| && forall i :: 0 <= i < |rs| ==> RepliesOk(rs[i])
  }

  lemma RepliesForTail(us: seq<string>, rs: seq<Replies>)
    requires RepliesFor(us, rs) && |us| > 0
    ensures RepliesFor(us[1..], rs[1..])
  {
    forall i | 0 <= i < |rs| - 1
      ensures RepliesOk(rs[1..][i])
    {
      assert rs[1..][i] == rs[i + 1];
    }
  }

  /** `send(us[0])`, then `send(us[1])`, and so on, the backend answering the i-th call with
      `rs[i]`. */
  function Run(user: string, s: SessionState, us: seq<string>, rs: seq<Replies>): (t: Trace)
    requires Inv(s) && RepliesFor(us, rs)
    ensures Inv(t.state)
    ensures |t.calls| <= |us|
    decreases |us|
  {
    if us == [] then Trace(s, [], [])
    else
      var o := Next(user, s, us[0], rs[0]);
      var t := Run(user, o.state, us[1..], rs[1..]);
      Trace(t.state, o.said + t.said, CallList(o.call) + t.calls)
  }

  lemma TailOfAppend<T>(a: seq<T>, b: seq<T>)
    requires |a| > 0
    ensures (a + b)[0] == a[0] && (a + b)[1..] == a[1..] + b
  {
  }

  lemma AppendAssoc<T>(a: seq<T>, b: seq<T>, c: seq<T>)
    ensures a + b + c == a + (b + c)
  {
  }

  /** A run of two parts is the second part run from where the first part ends. */
  lemma {:induction false} RunAppend(user: string, s: SessionState, us: seq<string>, vs: seq<string>,
                                      rs: seq<Replies>, qs: seq<Replies>)
    requires Inv(s) && RepliesFor(us, rs) && RepliesFor(vs, qs)
    ensures var first := Run(user, s, us, rs);
      var second := Run(user, first.state, vs, qs);
      Run(user, s, us + vs, rs + qs)
        == Trace(second.state, first.said + second.said, first.calls + second.calls)
    decreases |us|
  {
    if us == [] {
      assert us + vs == vs && rs + qs == qs;
    } else {
      var o := Next(user, s, us[0], rs[0]);
      var rest := Run(user, o.state, us[1..], rs[1..]);
      var second := Run(user, rest.state, vs, qs);
      RepliesForTail(us, rs);
      TailOfAppend(us, vs);
      TailOfAppend(rs, qs);
      RunAppend(user, o.state, us[1..], vs, rs[1..], qs);
      AppendAssoc(o.said, rest.said, second.said);
      AppendAssoc(CallList(o.call), rest.calls, second.calls);
    }
  }

  // ---------------------------------------------------------------------------------------
  // Cooking

  /** An utterance the `cooking` stage reads as "next": not blank, a "next" phrase occurs in
      its normalised form and no "repeat" phrase does. */
  predicate SaysNext(raw: string) {
    var msg := Trim(raw);
    var normalized := Normalize(msg);
    msg != [] && !ContainsAny(normalized, RepeatPhrases) && ContainsAny(normalized, NextPhrases)
  }

  /** Saying "next" with a further step to go advances `step` by one and nothing else. */
  lemma NextAdvances(user: string, s: SessionState, raw: string, r: Replies)
    requires Inv(s) && s.flow == Cooking && SaysNext(raw)
    requires s.step + 1 < |s.recipe.value.steps|
    ensures var o := Next(user, s, raw, r);
      o.state == s.(step := s.step + 1) && o.call == None
  {
    var msg := Trim(raw);
    CookingRules(s, msg, Normalize(msg), r);
  }

  /** Saying "next" on the last step finishes the recipe: `ask_save` for a generated recipe,
      `done` for a loaded one. */
  lemma NextFinishes(user: string, s: SessionState, raw: string, r: Replies)
    requires Inv(s) && s.flow == Cooking && SaysNext(raw)
    requires s.step + 1 == |s.recipe.value.steps|
    ensures var o := Next(user, s, raw, r);
      o.state == s.(flow := if s.isNewRecipe then AskSave else Done) && o.call == None
  {
    var msg := Trim(raw);
    CookingRules(s, msg, Normalize(msg), r);
  }

  /** A run of "next"s in `cooking`. */
  predicate Walking(s: SessionState, us: seq<string>, rs: seq<Replies>) {
    && Inv(s) && s.flow == Cooking && RepliesFor(us, rs)
    && forall i :: 0 <= i < |us| ==> SaysNext(us[i])
  }

  /** After the first "next" of such a run, with a step still ahead, the rest is again such
      a run, one step further on. */
  lemma WalkingTail(user: string, s: SessionState, us: seq<string>, rs: seq<Replies>)
    requires Walking(s, us, rs) && |us| > 0 && s.step + 1 < |s.recipe.value.steps|
    ensures var o := Next(user, s, us[0], rs[0]);
      && o.state == s.(step := s.step + 1) && o.call == None
      && Walking(o.state, us[1..], rs[1..])
  {
    NextAdvances(user, s, us[0], rs[0]);
    RepliesForTail(us, rs);
    SaysNextTail(us);
  }

  lemma SaysNextTail(us: seq<string>)
    requires |us| > 0 && forall i :: 0 <= i < |us| ==> SaysNext(us[i])
    ensures forall i :: 0 <= i < |us| - 1 ==> SaysNext(us[1..][i])
  {
    forall i | 0 <= i < |us| - 1
      ensures SaysNext(us[1..][i])
    {
      assert us[1..][i] == us[i + 1];
    }
  }

  /** Each "next" moves one step on: after k of them, with steps still ahead, the session is
      at step `step + k` and has asked the backend nothing. */
  lemma {:induction false} CookingWalk(user: string, s: SessionState, us: seq<string>, rs: seq<Replies>)
    requires Walking(s, us, rs) && s.step + |us| < |s.recipe.value.steps|
    ensures var t := Run(user, s, us, rs);
      t.state == s.(step := s.step + |us|) && t.calls == []
    decreases |us|
  {
    if us != [] {
      WalkingTail(user, s, us, rs);
      var o := Next(user, s, us[0], rs[0]);
      CookingWalk(user, o.state, us[1..], rs[1..]);
    }
  }

  /** As many "next"s as there are steps left finish the recipe: the session leaves `cooking`
      on its last step, for `ask_save` or `done`, without asking the backend anything. */
  lemma {:induction false} CookingFinishes(user: string, s: SessionState, us: seq<string>, rs: seq<Replies>)
    requires Walking(s, us, rs) && s.step + |us| == |s.recipe.value.steps|
    ensures var t := Run(user, s, us, rs);
      && t.state == s.(step := |s.recipe.value.steps| - 1,
                       flow := if s.isNewRecipe then AskSave else Done)
      && t.calls == []
    decreases |us|
  {
    if |us| == 1 {
      LastNext(user, s, us, rs);
    } else {
      WalkingTail(user, s, us, rs);
      CookingFinishes(user, Next(user, s, us[0], rs[0]).state, us[1..], rs[1..]);
    }
  }

  /** A single "next" on the last step finishes the recipe. */
  lemma LastNext(user: string, s: SessionState, us: seq<string>, rs: seq<Replies>)
    requires Walking(s, us, rs) && |us| == 1 && s.step + 1 == |s.recipe.value.steps|
    ensures var t := Run(user, s, us, rs);
      && t.state == s.(flow := if s.isNewRecipe then AskSave else Done)
      && t.calls == []
  {
    var o := Next(user, s, us[0], rs[0]);
    NextFinishes(user, s, us[0], rs[0]);
    assert Run(user, s, us, rs).state == o.state;
  }

  /** The word "next" itself is read as "next". */
  lemma NextWordSaysNext()
    ensures SaysNext("next")
  {
    LowerWordIsNormal("next");
    NextIsNoRepeat();
  }

  /** Every "repeat" phrase has a character that "next" lacks, and "next" is itself a "next"
      phrase. */
  lemma NextIsNoRepeat()
    ensures !ContainsAny("next", RepeatPhrases) && ContainsAny("next", NextPhrases)
  {
    ContainsAnyIffSome("next", RepeatPhrases);
    forall k | 0 <= k < |RepeatPhrases|
      ensures !Contains("next", RepeatPhrases[k])
    {
      var c := if k == 1 || k == 4 then 'a' else if k == 2 then 'o' else 'r';
      NoContainsWithout("next", RepeatPhrases[k], c);
    }
    ContainsAnyIffSome("next", NextPhrases);
    assert Contains("next", NextPhrases[0]);
  }

  // ---------------------------------------------------------------------------------------
  // Follow-up questions

  /** One answer in `followups`: it is stored under the current question's key; the index
      moves on while a further question exists, and otherwise the recipe is generated. */
  lemma FollowupsStep(user: string, s: SessionState, raw: string, r: Replies)
    requires Inv(s) && s.flow == Followups && Trim(raw) != []
    ensures var o := Next(user, s, raw, r);
      var qs := s.followups.questions;
      var i := s.currentQIndex;
      var answers := s.answers[QuestionKey(qs, i) := Trim(raw)];
      && (i + 1 < |qs| ==> o.state == s.(answers := answers, currentQIndex := i + 1) && o.call == None)
      && (i + 1 >= |qs| ==>
            && o.state == s.(answers := answers, recipe := Some(r.generated), isNewRecipe := true,
                             flow := StartCooking)
            && o.call == Some(GenerateRecipe(s.dish, answers, user)))
  {
    FollowupsRules(user, s, Trim(raw), r);
  }

  /** A run of answers in `followups`: one non-blank utterance for each remaining question. */
  predicate Answering(s: SessionState, us: seq<string>, rs: seq<Replies>) {
    && Inv(s) && s.flow == Followups && RepliesFor(us, rs)
    && (forall i :: 0 <= i < |us| ==> Trim(us[i]) != [])
    && |us| > 0 && s.currentQIndex + |us| == |s.followups.questions|
  }

  /** After the first answer of such a run, the rest is again such a run. */
  lemma AnsweringTail(user: string, s: SessionState, us: seq<string>, rs: seq<Replies>)
    requires Answering(s, us, rs) && |us| > 1
    ensures var o := Next(user, s, us[0], rs[0]);
      Answering(o.state, us[1..], rs[1..]) && o.state.followups == s.followups
  {
    FollowupsStep(user, s, us[0], rs[0]);
    RepliesForTail(us, rs);
    NonBlankTail(us);
  }

  lemma NonBlankTail(us: seq<string>)
    requires |us| > 0 && forall i :: 0 <= i < |us| ==> Trim(us[i]) != []
    ensures forall i :: 0 <= i < |us| - 1 ==> Trim(us[1..][i]) != []
  {
    forall i | 0 <= i < |us| - 1
      ensures Trim(us[1..][i]) != []
    {
      assert us[1..][i] == us[i + 1];
    }
  }

  /** Answering the remaining follow-up questions one utterance each reaches `start_cooking`
      with the recipe generated in reply to the last answer, the index on the last question,
      and exactly one request: the generation, sent with the final answers. */
  lemma {:induction false} FollowupsWalk(user: string, s: SessionState, us: seq<string>, rs: seq<Replies>)
    requires Answering(s, us, rs)
    ensures var t := Run(user, s, us, rs);
      && t.state.flow == StartCooking
      && t.state.recipe == Some(rs[|rs| - 1].generated) && t.state.isNewRecipe
      && t.state.currentQIndex == |s.followups.questions| - 1
      && t.state.dish == s.dish
      && t.calls == [GenerateRecipe(s.dish, t.state.answers, user)]
    decreases |us|
  {
    var o := Next(user, s, us[0], rs[0]);
    FollowupsStep(user, s, us[0], rs[0]);
    var rest := Run(user, o.state, us[1..], rs[1..]);
    if |us| > 1 {
      AnsweringTail(user, s, us, rs);
      FollowupsWalk(user, o.state, us[1..], rs[1..]);
      assert rs[1..][|rs| - 2] == rs[|rs| - 1];
    }
  }

  /** The `answers` map after the answers `vs` are stored under the questions from position
      `first` on. */
  function Answered(answers: map<string, string>, qs: seq<string>, first: nat, vs: seq<string>)
    : map<string, string>
    decreases |vs|
  {
    if vs == [] then answers
    else Answered(answers[QuestionKey(qs, first) := vs[0]], qs, first + 1, vs[1..])
  }

  /** The utterances as `send` stores them: trimmed. */
  function Trimmed(us: seq<string>): (vs: seq<string>)
    ensures |vs| == |us|
  {
    if us == [] then [] else [Trim(us[0])] + Trimmed(us[1..])
  }

  lemma ConsAt<T>(x: T, tail: seq<T>, i: nat)
    requires 0 < i <= |tail|
    ensures ([x] + tail)[i] == tail[i - 1]
  {
  }

  /** The stored answer at one position is the trimmed utterance there. */
  lemma {:induction false} TrimmedIndex(us: seq<string>, i: nat)
    requires i < |us|
    ensures Trimmed(us)[i] == Trim(us[i])
    decreases i
  {
    if i > 0 {
      TrimmedIndex(us[1..], i - 1);
      ConsAt(Trim(us[0]), Trimmed(us[1..]), i);
      assert us[1..][i - 1] == us[i];
    }
  }

  /** Each stored answer is the trimmed utterance at the same position. */
  lemma TrimmedAt(us: seq<string>)
    ensures forall i :: 0 <= i < |us| ==> Trimmed(us)[i] == Trim(us[i])
  {
    forall i | 0 <= i < |us|
      ensures Trimmed(us)[i] == Trim(us[i])
    {
      TrimmedIndex(us, i);
    }
  }

  /** One answer stored, the rest to follow. */
  lemma AnsweredStep(answers: map<string, string>, next: map<string, string>, qs: seq<string>,
                     first: nat, us: seq<string>)
    requires |us| > 0 && next == answers[QuestionKey(qs, first) := Trim(us[0])]
    ensures Answered(answers, qs, first, Trimmed(us)) == Answered(next, qs, first + 1, Trimmed(us[1..]))
    ensures |us| == 1 ==> Answered(answers, qs, first, Trimmed(us)) == next
  {
    var vs := Trimmed(us);
    assert vs == [Trim(us[0])] + Trimmed(us[1..]);
    TailOfAppend([Trim(us[0])], Trimmed(us[1..]));
    assert vs[0] == Trim(us[0]) && vs[1..] == Trimmed(us[1..]);
    assert Answered(answers, qs, first, vs) == Answered(next, qs, first + 1, vs[1..]);
    if |us| == 1 {
      assert vs[1..] == [];
    }
  }

  /** A run of answers leaves `answers` as `Answered` describes it. */
  lemma {:induction false} FollowupsRecorded(user: string, s: SessionState, us: seq<string>, rs: seq<Replies>)
    requires Answering(s, us, rs)
    ensures Run(user, s, us, rs).state.answers
      == Answered(s.answers, s.followups.questions, s.currentQIndex, Trimmed(us))
    decreases |us|
  {
    var o := Next(user, s, us[0], rs[0]);
    FollowupsStep(user, s, us[0], rs[0]);
    AnsweredStep(s.answers, o.state.answers, s.followups.questions, s.currentQIndex, us);
    if |us| > 1 {
      AnsweringTail(user, s, us, rs);
      FollowupsRecorded(user, o.state, us[1..], rs[1..]);
    }
  }

  /** A suffix of a list is its first element followed by the rest. */
  lemma SplitAt(qs: seq<string>, first: nat)
    requires first < |qs|
    ensures qs[first..] == [qs[first]] + qs[first + 1..]
  {
  }

  /** The keys after the answers: the keys before and the answered questions, no more and no
      fewer. */
  lemma {:induction false} AnsweredKeys(answers: map<string, string>, qs: seq<string>, first: nat, vs: seq<string>)
    requires first + |vs| == |qs|
    ensures forall k :: k in Answered(answers, qs, first, vs) <==> k in answers || k in qs[first..]
    decreases |vs|
  {
    if vs != [] {
      AnsweredKeys(answers[QuestionKey(qs, first) := vs[0]], qs, first + 1, vs[1..]);
      SplitAt(qs, first);
    }
  }

  /** No question occurs twice in the list. */
  predicate Distinct(qs: seq<string>) {
    forall i, j :: 0 <= i < j < |qs| ==> qs[i] != qs[j]
  }

  /** In a list without repetitions, a question does not occur after its own position. */
  lemma NotLater(qs: seq<string>, first: nat)
    requires first < |qs| && Distinct(qs)
    ensures qs[first] !in qs[first + 1..]
  {
  }

  /** Answers to other questions than the answered ones are kept. */
  lemma {:induction false} AnsweredKeeps(answers: map<string, string>, qs: seq<string>, first: nat, vs: seq<string>)
    requires first + |vs| == |qs|
    ensures var after := Answered(answers, qs, first, vs);
      forall k :: k in answers && k !in qs[first..] ==> k in after && after[k] == answers[k]
    decreases |vs|
  {
    if vs != [] {
      AnsweredKeeps(answers[QuestionKey(qs, first) := vs[0]], qs, first + 1, vs[1..]);
      SplitAt(qs, first);
    }
  }

  /** With distinct questions, each answered question maps to its own answer. */
  lemma {:induction false} AnsweredValues(answers: map<string, string>, qs: seq<string>, first: nat, vs: seq<string>)
    requires first + |vs| == |qs| && Distinct(qs)
    ensures var after := Answered(answers, qs, first, vs);
      forall i :: first <= i < |qs| ==> qs[i] in after && after[qs[i]] == vs[i - first]
    decreases |vs|
  {
    if vs != [] {
      var next := answers[QuestionKey(qs, first) := vs[0]];
      var after := Answered(next, qs, first + 1, vs[1..]);
      AnsweredValues(next, qs, first + 1, vs[1..]);
      AnsweredKeeps(next, qs, first + 1, vs[1..]);
      NotLater(qs, first);
      forall i | first <= i < |qs|
        ensures qs[i] in after && after[qs[i]] == vs[i - first]
      {
        if i > first {
          assert vs[1..][i - (first + 1)] == vs[i - first];
        } else {
          assert QuestionKey(qs, first) == qs[first];
        }
      }
    }
  }

  /** A dish named after an earlier set of questions was answered keeps the stale
      `currentQIndex`: when it is at or past the new list's last position, the first answer
      already generates the recipe, and it is stored under the key `QuestionKey` gives. */
  lemma StaleIndexSkipsQuestions(user: string, s: SessionState, dish: string, answer: string,
                                 r1: Replies, r2: Replies)
    requires Inv(s) && s.flow == Dish && RepliesOk(r1) && RepliesOk(r2)
    requires Trim(dish) != [] && Trim(answer) != [] && |r1.questions| > 0
    requires s.currentQIndex + 1 >= |r1.questions|
    ensures var o1 := Next(user, s, dish, r1);
      var o2 := Next(user, o1.state, answer, r2);
      && o1.state.flow == Followups
      && o2.state.flow == StartCooking
      && o2.state.answers == s.answers[QuestionKey(r1.questions, s.currentQIndex) := Trim(answer)]
      && o1.call == Some(FollowupQuestions(Trim(dish)))
      && o2.call == Some(GenerateRecipe(Trim(dish), o2.state.answers, user))
  {
    var o1 := Next(user, s, dish, r1);
    DishRules(s, Trim(dish), r1);
    FollowupsStep(user, o1.state, answer, r2);
  }

  // ---------------------------------------------------------------------------------------
  // The end of the conversation

  /** Every turn is the user's own. */
  predicate Heard(turns: seq<Turn>) {
    forall i :: 0 <= i < |turns| ==> turns[i].User?
  }

  lemma UserTurnsJoin(a: seq<Turn>, b: seq<Turn>)
    requires Heard(a) && Heard(b)
    ensures Heard(a + b)
  {
  }

  /** After `done` a run changes no field and requests nothing. */
  lemma {:induction false} DoneKeeps(user: string, s: SessionState, us: seq<string>, rs: seq<Replies>)
    requires Inv(s) && s.flow == Done && RepliesFor(us, rs)
    ensures var t := Run(user, s, us, rs); t.state == s && t.calls == []
    decreases |us|
  {
    if us != [] {
      DoneIsTerminal(user, s, us[0], rs[0]);
      RepliesForTail(us, rs);
      DoneKeeps(user, s, us[1..], rs[1..]);
    }
  }

  /** After `done` a run appends only the user's own turns. */
  lemma {:induction false} DoneHearsOnly(user: string, s: SessionState, us: seq<string>, rs: seq<Replies>)
    requires Inv(s) && s.flow == Done && RepliesFor(us, rs)
    ensures Heard(Run(user, s, us, rs).said)
    decreases |us|
  {
    if us != [] {
      var o := Next(user, s, us[0], rs[0]);
      DoneIsTerminal(user, s, us[0], rs[0]);
      RepliesForTail(us, rs);
      DoneHearsOnly(user, s, us[1..], rs[1..]);
      UserTurnsJoin(o.said, Run(user, s, us[1..], rs[1..]).said);
    }
  }

  /** After `done` every utterance is only recorded: the fields stay as they are, nothing is
      requested, and every appended turn is the user's own. */
  lemma DoneAbsorbs(user: string, s: SessionState, us: seq<string>, rs: seq<Replies>)
    requires Inv(s) && s.flow == Done && RepliesFor(us, rs)
    ensures var t := Run(user, s, us, rs);
      && t.state == s && t.calls == []
      && forall i :: 0 <= i < |t.said| ==> t.said[i].User?
  {
    DoneKeeps(user, s, us, rs);
    DoneHearsOnly(user, s, us, rs);
  }

  /** Blank utterances are ignored in every stage. */
  lemma {:induction false} BlankIgnored(user: string, s: SessionState, us: seq<string>, rs: seq<Replies>)
    requires Inv(s) && RepliesFor(us, rs)
    requires forall i :: 0 <= i < |us| ==> Trim(us[i]) == []
    ensures Run(user, s, us, rs) == Trace(s, [], [])
    decreases |us|
  {
    if us != [] {
      BlankIgnored(user, s, us[1..], rs[1..]);
    }
  }
}
