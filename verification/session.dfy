/** The chat page as an object: the React state of `Chat` as fields that `send` and
    `clearChat` update in place, and the transcript `chat` they append to or replace. */
module ChatSession {
  import opened Wrappers
  import opened Text
  import opened Recipes
  import opened Dialogue
  import opened DialogueFacts
  import opened Conversation

  /** A non-blank utterance is recorded as the user's turn, then handled by its stage. */
  lemma SendsHandled(user: string, s: SessionState, raw: string, r: Replies)
    requires Inv(s) && Trim(raw) != []
    ensures var h := Handle(user, s, Trim(raw), r);
      Next(user, s, raw, r) == Outcome(h.state, [User(Trim(raw))] + h.said, h.call)
  {
  }

  class Session {
    /** `localStorage.getItem("username")`, read once when the page is created. */
    const username: string
    /** The transcript, one turn per bubble. */
    var chat: seq<Turn>
    var flow: Stage
    var dish: string
    var followups: Pending
    var answers: map<string, string>
    var currentQIndex: nat
    var recipe: Option<Recipe>
    var isNewRecipe: bool
    var step: nat

    /** The conversation fields as one value. */
    function Current(): SessionState
      reads this
    {
      SessionState(flow, dish, followups, answers, currentQIndex, recipe, isNewRecipe, step)
    }

    ghost predicate Valid()
      reads this
    {
      Inv(Current())
    }

    /** The page as first rendered: the welcome turn, in `choice`, every field at its
        `useState` default. */
    constructor(user: string)
      ensures username == user && chat == [Assistant(Welcome)]
      ensures Current() == Initial && Valid()
    {
      username := user;
      chat := [Assistant(Welcome)];
      flow, dish, followups, answers := Choice, "", Questions([]), map[];
      currentQIndex, recipe, isNewRecipe, step := 0, None, false, 0;
      InitialInv();
    }

    /** Every conversation field set from `s`; the transcript is left alone. */
    method Assign(s: SessionState)
      modifies this
      ensures Current() == s && chat == old(chat)
    {
      flow, dish, followups, answers := s.flow, s.dish, s.followups, s.answers;
      currentQIndex, recipe, isNewRecipe, step := s.currentQIndex, s.recipe, s.isNewRecipe, s.step;
    }

    /** `send(raw)`, the backend answering with `replies`: the request issued, if any, is
        returned. The fields and the transcript end as `Next` says, and the invariant holds
        again. */
    method Send(raw: string, replies: Replies) returns (call: Option<Request>)
      requires Valid() && RepliesOk(replies)
      modifies this
      ensures var o := Next(username, old(Current()), raw, replies);
        Current() == o.state && chat == old(chat) + o.said && call == o.call
      ensures Valid()
    {
      var msg := Trim(raw);
      if msg == [] {
        return None;
      }
      var s := Current();
      chat := chat + [User(msg)];
      var o := Handle(username, s, msg, replies);
      chat := chat + o.said;
      Assign(o.state);
      call := o.call;
      SendsHandled(username, s, raw, replies);
      AppendAssoc(old(chat), [User(msg)], o.said);
    }

    /** `clearChat()`: the transcript becomes the dish question alone, `recipe` and `step`
        are reset and the conversation jumps to `dish`; the other fields are kept. */
    method ClearChat()
      requires Valid()
      modifies this
      ensures chat == [Assistant(AskDish)] && Current() == Cleared(old(Current()))
      ensures Valid()
    {
      chat := [Assistant(AskDish)];
      recipe := None;
      step := 0;
      flow := Dish;
      ClearedInv(old(Current()));
    }
  }
}
