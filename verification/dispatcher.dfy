/**
 The second half of `hello_chat`: given a classified request, either show
 the model-selection card, record a model choice, or answer a chat turn
 through the back-end the user's model is routed to, logging the turn.
 */
module Dispatcher {
  import opened Options
  import opened Catalog
  import opened Cards
  import opened State
  import opened Classifier

  /** The reset keyword, "start over": it brings up the model-selection card. */
  const ResetKeyword: string := "はじめから"

  /** The bare string returned for event types the handler does not answer. */
  const Greeting: string := "Hello! This function must be called from Google Chat."

  /** What the handler returns: a bare string, a `{"text": ...}` object, or
      the card payload. */
  datatype Reply = Bare(s: string) | TextReply(text: string) | CardReply(card: CardMessage)

  /** The exceptions the handler lets escape. `BadRequest`: a missing key or
      an empty list on the event. `AnswerUnbound`: the reset keyword off
      Google Chat leaves the reply variable unassigned. `UserNameUnbound`: a
      card click that reaches the history write, where the user's display
      name was never read. `InferenceError`: the back-end call raised. */
  datatype Fault = BadRequest | AnswerUnbound | UserNameUnbound | InferenceError

  datatype Response = Answered(reply: Reply) | Raised(fault: Fault)

  /** The response together with the stores as the handler leaves them:
      writes made before an exception stay. */
  datatype Outcome = Outcome(response: Response, store: Store)

  /** What the handler gets from outside: the inference back-ends (given the
      back-end, the model name and the prompt; `None` when the call raises),
      the one fresh conversation id a turn may mint, and the clock readings of
      the settings write and the history write. */
  datatype Oracles = Oracles(
    infer: (Backend, string, string) -> Option<string>,
    freshId: string,
    settingsTime: int,
    historyTime: int)

  /** The reply of a chat turn. */
  function ChatReply(model: string, response: string): string
  {
    "model: " + model + " \n" + response
  }

  /** The reply to a model choice. */
  function SelectReply(model: string): string
  {
    "select model: " + model
  }

  /** A chat turn: settings are bootstrapped if missing, the prompt goes to
      the back-end the model routes to, and a successful answer is logged
      once and returned. The bootstrap write survives a failure later on. */
  function ChatTurn(req: Request, st: Store, env: Oracles): (o: Outcome)
    ensures o.store.settings.Keys == st.settings.Keys + {req.userId}
    ensures req.userId in st.settings ==> o.store.settings == st.settings
    ensures req.userId !in st.settings ==>
      o.store.settings[req.userId] == Settings(DefaultModel, env.freshId, env.settingsTime)
    ensures forall u :: u != req.userId ==> GetUserSettings(o.store, u) == GetUserSettings(st, u)
    ensures
      var s := o.store.settings[req.userId];
      var answer := env.infer(Route(s.selectModel), s.selectModel, req.prompt);
      && (answer.None? ==> o.response == Raised(InferenceError) && o.store.history == st.history)
      && (answer.Some? && req.userName.None? ==> o.response == Raised(UserNameUnbound) && o.store.history == st.history)
      && (answer.Some? && req.userName.Some? ==>
            && o.response == Answered(TextReply(ChatReply(s.selectModel, answer.value)))
            && o.store.history == st.history + [HistoryEntry(
                 req.threadId, s.conversationId, req.userId, req.userEmail, req.userName.value,
                 s.selectModel, req.prompt, answer.value, PlatformTag(req.platform), env.historyTime)])
  {
    var s := match GetUserSettings(st, req.userId)
      case Some(stored) => stored
      case None => Settings(DefaultModel, env.freshId, env.settingsTime);
    var st1 := if GetUserSettings(st, req.userId).None?
      then SetUserSettings(st, req.userId, s.selectModel, s.conversationId, s.timestamp)
      else st;
    match env.infer(Route(s.selectModel), s.selectModel, req.prompt)
    case None => Outcome(Raised(InferenceError), st1)
    case Some(answer) =>
      match req.userName
      case None => Outcome(Raised(UserNameUnbound), st1)
      case Some(userName) =>
        var entry := HistoryEntry(
          req.threadId, s.conversationId, req.userId, req.userEmail, userName,
          s.selectModel, req.prompt, answer, PlatformTag(req.platform), env.historyTime);
        Outcome(Answered(TextReply(ChatReply(s.selectModel, answer))), SetChatHistory(st1, entry))
  }

  /** Dispatches a classified request. The reset keyword is tested first and
      writes nothing; an exact catalog identifier overwrites the user's
      settings with a fresh conversation id and logs nothing; any other
      prompt is a chat turn. */
  function Dispatch(req: Request, st: Store, env: Oracles): (o: Outcome)
    ensures req.prompt == ResetKeyword ==> o.store == st
    ensures req.prompt == ResetKeyword && req.platform == GoogleChat ==>
      o.response == Answered(CardReply(CreateCards(req.userId)))
    ensures req.prompt == ResetKeyword && req.platform != GoogleChat ==>
      o.response == Raised(AnswerUnbound)
    ensures req.prompt != ResetKeyword && IsModelName(Models, req.prompt) ==>
      && o.response == Answered(TextReply(SelectReply(req.prompt)))
      && GetUserSettings(o.store, req.userId) == Some(Settings(req.prompt, env.freshId, env.settingsTime))
      && (forall u :: u != req.userId ==> GetUserSettings(o.store, u) == GetUserSettings(st, u))
      && o.store.history == st.history
    ensures req.prompt != ResetKeyword && !IsModelName(Models, req.prompt) ==> o == ChatTurn(req, st, env)
  {
    if req.prompt == ResetKeyword then
      if req.platform == GoogleChat then Outcome(Answered(CardReply(CreateCards(req.userId))), st)
      else Outcome(Raised(AnswerUnbound), st)
    else if IsModelName(Models, req.prompt) then
      Outcome(Answered(TextReply(SelectReply(req.prompt))),
              SetUserSettings(st, req.userId, req.prompt, env.freshId, env.settingsTime))
    else
      ChatTurn(req, st, env)
  }

  /** The whole handler for one POSTed event. Whatever happens, history only
      grows, by at most one row, and no user's settings disappear; a rejected
      event changes nothing. */
  function Step(p: Payload, st: Store, env: Oracles): (o: Outcome)
    ensures st.history <= o.store.history && |o.store.history| <= |st.history| + 1
    ensures st.settings.Keys <= o.store.settings.Keys
    ensures Classify(p).Malformed? ==> o == Outcome(Raised(BadRequest), st)
    ensures Classify(p).Unsupported? ==> o == Outcome(Answered(Bare(Greeting)), st)
    ensures Classify(p).Supported? ==> o == Dispatch(Classify(p).req, st, env)
  {
    match Classify(p)
    case Malformed => Outcome(Raised(BadRequest), st)
    case Unsupported => Outcome(Answered(Bare(Greeting)), st)
    case Supported(req) => Dispatch(req, st, env)
  }

  /** The back-ends are called on chat turns only: for every other event the
      outcome does not depend on them. */
  lemma InferenceOnlyOnChatTurns(p: Payload, st: Store, env: Oracles, other: (Backend, string, string) -> Option<string>)
    requires !Classify(p).Supported?
      || Classify(p).req.prompt == ResetKeyword
      || IsModelName(Models, Classify(p).req.prompt)
    ensures Step(p, st, env.(infer := other)) == Step(p, st, env)
  {
  }

  /** No reset keyword is a catalog identifier, so the keyword never selects
      a model. */
  lemma ResetIsNotAModel()
    ensures !IsModelName(Models, ResetKeyword)
  {
    CatalogChoices();
    var cs := Choices(Models);
    forall c | c in cs ensures c.name != ResetKeyword {
      assert c.name[0] != ResetKeyword[0];
    }
  }

  /** A request for a catalog identifier selects it, whatever the platform. */
  lemma SelectingAModel(req: Request, st: Store, env: Oracles, c: Choice)
    requires c in Choices(Models) && req.prompt == c.name
    ensures Dispatch(req, st, env).store.settings[req.userId] == Settings(c.name, env.freshId, env.settingsTime)
    ensures Dispatch(req, st, env).store.history == st.history
    ensures Dispatch(req, st, env).response == Answered(TextReply(SelectReply(c.name)))
  {
  }

  /** The card round trip: on Google Chat the reset keyword returns the card,
      and a click on any of its buttons, echoed back as a card-click event,
      selects the button's model for the clicking user. */
  lemma CardRoundTrip(p: Payload, st: Store, env: Oracles, b: Button)
    requires Classify(p).Supported? && Classify(p).req.kind == CardClicked
    requires b in AllButtons(CreateCards(Classify(p).req.userId))
    requires |b.parameters| > 0 && p.actionParameters.value[0].value == Some(ClickValue(b))
    ensures Step(p, st, env).response == Answered(TextReply(SelectReply(ClickValue(b))))
    ensures Step(p, st, env).store.settings[Classify(p).req.userId] == Settings(ClickValue(b), env.freshId, env.settingsTime)
    ensures Step(p, st, env).store.history == st.history
  {
    var req := Classify(p).req;
    CardValuesAreModels(req.userId);
    var c :| c in Choices(Models) && c.name == ClickValue(b);
    SelectingAModel(req, st, env, c);
  }

  /** A card click whose value is neither the keyword nor a catalog
      identifier becomes a chat turn that cannot log its row, because a card
      click never reads the user's display name: the handler raises after the
      back-end call, keeping any settings bootstrap and logging nothing. */
  lemma StrayCardClickRaises(p: Payload, st: Store, env: Oracles)
    requires Classify(p).Supported? && Classify(p).req.kind == CardClicked
    requires Classify(p).req.prompt != ResetKeyword && !IsModelName(Models, Classify(p).req.prompt)
    ensures Step(p, st, env).response.Raised?
    ensures Step(p, st, env).store.history == st.history
    ensures Classify(p).req.userId in Step(p, st, env).store.settings
  {
  }

  /** After a model choice, chat turns run under the chosen model and the
      conversation id minted with it, and each logs one row carrying both;
      the settings do not change. */
  lemma ChatAfterSelection(req: Request, st: Store, env: Oracles)
    requires req.prompt != ResetKeyword && !IsModelName(Models, req.prompt)
    requires GetUserSettings(st, req.userId).Some?
    requires req.userName.Some?
    requires env.infer(Route(st.settings[req.userId].selectModel), st.settings[req.userId].selectModel, req.prompt).Some?
    ensures
      var s := st.settings[req.userId];
      var o := Dispatch(req, st, env);
      && o.store.settings == st.settings
      && |o.store.history| == |st.history| + 1
      && o.store.history[|st.history|].conversationId == s.conversationId
      && o.store.history[|st.history|].model == s.selectModel
      && o.response.Answered? && o.response.reply.TextReply?
      && o.response.reply.text[..|"model: " + s.selectModel + " \n"|] == "model: " + s.selectModel + " \n"
  {
  }

  /** Two chat turns in a row by the same user log the same conversation id,
      the one in place before the first turn or, when the user had no
      settings, the one the first turn minted. */
  lemma {:induction false} ConversationIdCarriedForward(req1: Request, req2: Request, st: Store, env1: Oracles, env2: Oracles)
    requires req1.userId == req2.userId
    requires req1.prompt != ResetKeyword && !IsModelName(Models, req1.prompt)
    requires req2.prompt != ResetKeyword && !IsModelName(Models, req2.prompt)
    requires
      var o1 := Dispatch(req1, st, env1);
      |o1.store.history| == |st.history| + 1
    requires
      var st1 := Dispatch(req1, st, env1).store;
      |Dispatch(req2, st1, env2).store.history| == |st1.history| + 1
    ensures
      var st1 := Dispatch(req1, st, env1).store;
      var st2 := Dispatch(req2, st1, env2).store;
      && st2.history[|st.history| + 1].conversationId == st2.history[|st.history|].conversationId
      && st2.history[|st.history|].conversationId ==
           (if req1.userId in st.settings then st.settings[req1.userId].conversationId else env1.freshId)
  {
    var st1 := Dispatch(req1, st, env1).store;
    var st2 := Dispatch(req2, st1, env2).store;
    var s := st1.settings[req1.userId];
    assert st1.history[|st.history|].conversationId == s.conversationId;
    assert st2.settings[req2.userId] == s;
    assert st2.history[..|st1.history|] == st1.history;
    assert st2.history[|st.history|] == st1.history[|st.history|];
  }
}
