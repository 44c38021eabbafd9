/**
 The select-then-ask conversation, end to end through the dispatcher.
 */
module Scenarios {
  import opened Catalog
  import opened State
  import opened Classifier
  import opened Dispatcher

  /** A user picks a catalog model and then asks a question: the pick is
      confirmed and logs nothing, and the question is answered by the
      back-end the picked model routes to, under the conversation id minted
      by the pick, with one history row recording both. */
  lemma {:induction false} SelectThenAsk(pick: Request, ask: Request, st: Store, env1: Oracles, env2: Oracles)
    requires pick.prompt != ResetKeyword && IsModelName(Models, pick.prompt)
    requires ask.userId == pick.userId && ask.userName.Some?
    requires ask.prompt != ResetKeyword && !IsModelName(Models, ask.prompt)
    requires env2.infer(Route(pick.prompt), pick.prompt, ask.prompt).Some?
    ensures
      var o1 := Dispatch(pick, st, env1);
      var o2 := Dispatch(ask, o1.store, env2);
      var answer := env2.infer(Route(pick.prompt), pick.prompt, ask.prompt).value;
      && o1.response == Answered(TextReply(SelectReply(pick.prompt)))
      && o1.store.history == st.history
      && o2.response == Answered(TextReply(ChatReply(pick.prompt, answer)))
      && o2.store.history == st.history + [HistoryEntry(
           ask.threadId, env1.freshId, ask.userId, ask.userEmail, ask.userName.value,
           pick.prompt, ask.prompt, answer, PlatformTag(ask.platform), env2.historyTime)]
  {
    var o1 := Dispatch(pick, st, env1);
    assert o1.store.settings[ask.userId] == Settings(pick.prompt, env1.freshId, env1.settingsTime);
  }

  /** The same for the default model, which the Gemini back-end answers. */
  lemma PickDefaultThenAsk(pick: Request, ask: Request, st: Store, env1: Oracles, env2: Oracles)
    requires pick.prompt == DefaultModel
    requires ask.userId == pick.userId && ask.userName.Some?
    requires ask.prompt != ResetKeyword && !IsModelName(Models, ask.prompt)
    requires env2.infer(Gemini, DefaultModel, ask.prompt).Some?
    ensures
      var o2 := Dispatch(ask, Dispatch(pick, st, env1).store, env2);
      o2.response == Answered(TextReply(ChatReply(DefaultModel, env2.infer(Gemini, DefaultModel, ask.prompt).value)))
  {
    CatalogWellFormed();
    CatalogRouting();
    ResetIsNotAModel();
    SelectThenAsk(pick, ask, st, env1, env2);
  }
}
