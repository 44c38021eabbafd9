/**
 The two document-store collections the handler touches, as values: one
 settings record per user, overwritten in place, and an append-only log of
 chat turns (`set_user_settings`, `get_user_settings`, `set_chat_history`).
 */
module State {
  import opened Options

  /** A user's chosen model and the conversation id minted with that choice. */
  datatype Settings = Settings(selectModel: string, conversationId: string, timestamp: int)

  /** One answered turn. `platform` is the platform tag string. */
  datatype HistoryEntry = HistoryEntry(
    threadId: string,
    conversationId: string,
    userId: string,
    userEmail: string,
    userName: string,
    model: string,
    userMessage: string,
    chatbotMessage: string,
    platform: string,
    timestamp: int)

  /** Settings keyed by user id, and the history log in write order. */
  datatype Store = Store(settings: map<string, Settings>, history: seq<HistoryEntry>)

  /** Writes a user's settings document, replacing any earlier one; no other
      user's settings and no history row change. */
  function SetUserSettings(st: Store, userId: string, model: string, conversationId: string, now: int): (st': Store)
    ensures GetUserSettings(st', userId) == Some(Settings(model, conversationId, now))
    ensures forall u :: u != userId ==> GetUserSettings(st', u) == GetUserSettings(st, u)
    ensures st'.settings.Keys == st.settings.Keys + {userId}
    ensures st'.history == st.history
  {
    st.(settings := st.settings[userId := Settings(model, conversationId, now)])
  }

  /** Reads a user's settings document, `None` when it was never written. */
  function GetUserSettings(st: Store, userId: string): (r: Option<Settings>)
    ensures r.Some? <==> userId in st.settings.Keys
    ensures r.Some? ==> r.value == st.settings[userId]
  {
    if userId in st.settings then Some(st.settings[userId]) else None
  }

  /** Appends one history row; settings and earlier rows are untouched. */
  function SetChatHistory(st: Store, entry: HistoryEntry): (st': Store)
    ensures |st'.history| == |st.history| + 1
    ensures st'.history[..|st.history|] == st.history
    ensures st'.history[|st.history|] == entry
    ensures st'.settings == st.settings
  {
    st.(history := st.history + [entry])
  }
}
