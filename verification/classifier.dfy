/**
 The first half of `hello_chat`: from the decoded event payload, work out
 the chat platform, the event kind, the thread and user ids and the prompt.
 */
module Classifier {
  import opened Options
  import opened Text

  /** The `user` object of an event. */
  datatype User = User(email: Option<string>, name: Option<string>, displayName: Option<string>)

  /** One entry of `message.annotations`; `mentionedName` is its
      `userMention.user.displayName`, absent when any step of that path is. */
  datatype Annotation = Annotation(mentionedName: Option<string>)

  /** The `message` object: `threadName` is `thread.name`, `hasCardsV2`
      whether a `cardsV2` key is present. */
  datatype Message = Message(
    threadName: Option<string>,
    text: Option<string>,
    hasCardsV2: bool,
    annotations: Option<seq<Annotation>>)

  /** One entry of `action.parameters`. */
  datatype ActionParameter = ActionParameter(key: Option<string>, value: Option<string>)

  /** The fields of an event body the handler reads; `None` is an absent
      key. `actionParameters` is `action.parameters`, absent when `action`
      or its `parameters` is. */
  datatype Payload = Payload(
    message: Option<Message>,
    redirectUrl: Option<string>,
    channelId: Option<string>,
    eventType: Option<string>,
    user: Option<User>,
    actionParameters: Option<seq<ActionParameter>>)

  datatype Platform = GoogleChat | Teams | UnknownPlatform

  /** The platform tag recorded in history rows. */
  function PlatformTag(p: Platform): string
  {
    match p
    case GoogleChat => "google_chat"
    case Teams => "teams"
    case UnknownPlatform => "unknown"
  }

  datatype EventKind = AddedToSpace | MessageEvent | CardClicked

  /** A classified request. `userName` is only read for message events; a
      card click leaves it unset. */
  datatype Request = Request(
    platform: Platform,
    kind: EventKind,
    threadId: string,
    userId: string,
    userEmail: string,
    userName: Option<string>,
    prompt: string)

  /** `Malformed` is a missing key or an empty list where the handler indexes
      one: the handler raises before it has written anything. */
  datatype Classification = Supported(req: Request) | Unsupported | Malformed

  const GoogleChatHost: string := "https://chat.google.com/"
  const TeamsChannel: string := "msteams"

  /** The event type names the handler answers. */
  function EventKindOf(t: string): Option<EventKind>
  {
    if t == "ADDED_TO_SPACE" then Some(AddedToSpace)
    else if t == "MESSAGE" then Some(MessageEvent)
    else if t == "CARD_CLICKED" then Some(CardClicked)
    else None
  }

  /** The platform an event came from. A redirect URL decides on its own
      whenever it is present; without one, a `cardsV2` key marks Google Chat. */
  function DetectPlatform(redirectUrl: Option<string>, channelId: Option<string>, hasCardsV2: bool): (pl: Platform)
    ensures pl == GoogleChat <==>
      || (redirectUrl.Some? && exists i :: OccursAt(redirectUrl.value, GoogleChatHost, i))
      || (redirectUrl.None? && hasCardsV2)
    ensures pl == Teams <==>
      && redirectUrl.Some? && (!exists i :: OccursAt(redirectUrl.value, GoogleChatHost, i))
      && channelId == Some(TeamsChannel)
  {
    match redirectUrl
    case Some(url) =>
      if Contains(url, GoogleChatHost) then GoogleChat
      else if channelId.Some? && channelId.value == TeamsChannel then Teams
      else UnknownPlatform
    case None =>
      if hasCardsV2 then GoogleChat else UnknownPlatform
  }

  /** The mention text the handler deletes from a prompt. */
  function Mention(displayName: string): string
  {
    "@" + displayName + " "
  }

  /** The prompt of a message event: the text as sent, or, when the message
      carries annotations, the text with every occurrence of the first
      annotation's mention deleted and then stripped. `None` when the first
      annotation cannot be read. */
  function MessagePrompt(text: string, annotations: Option<seq<Annotation>>): (r: Option<string>)
    ensures annotations.None? ==> r == Some(text)
    ensures r.None? <==> annotations.Some? && (|annotations.value| == 0 || annotations.value[0].mentionedName.None?)
    ensures r.Some? && annotations.Some? ==>
      var m := Mention(annotations.value[0].mentionedName.value);
      && r.value == Strip(RemoveAll(text, m))
      && |r.value| <= |text|
      && (!Contains(text, m) ==> r.value == Strip(text))
  {
    match annotations
    case None => Some(text)
    case Some(anns) =>
      if |anns| == 0 || anns[0].mentionedName.None? then None
      else
        var m := Mention(anns[0].mentionedName.value);
        RemoveAllWithoutOccurrence(text, m);
        Some(Strip(RemoveAll(text, m)))
  }

  /** The fields the handler reads for an event of this kind are all there. */
  predicate Readable(p: Payload, kind: EventKind)
    requires p.message.Some?
  {
    && p.user.Some? && p.user.value.email.Some? && p.user.value.name.Some?
    && match kind
       case CardClicked =>
         && p.actionParameters.Some? && |p.actionParameters.value| > 0
         && p.actionParameters.value[0].value.Some?
       case _ =>
         && p.message.value.text.Some? && p.user.value.displayName.Some?
         && MessagePrompt(p.message.value.text.value, p.message.value.annotations).Some?
  }

  /** Classifies an event. The thread id is always the last segment of the
      thread name; the user id only on Google Chat. A card click's prompt is
      its first parameter's value, unstripped. */
  function Classify(p: Payload): (c: Classification)
    ensures c.Unsupported? <==>
      && p.message.Some? && p.message.value.threadName.Some?
      && p.eventType.Some? && EventKindOf(p.eventType.value).None?
    ensures c.Supported? <==>
      && p.message.Some? && p.message.value.threadName.Some?
      && p.eventType.Some? && EventKindOf(p.eventType.value).Some?
      && Readable(p, EventKindOf(p.eventType.value).value)
    ensures c.Supported? ==>
      && c.req.threadId == LastSegment(p.message.value.threadName.value) && '/' !in c.req.threadId
      && c.req.platform == DetectPlatform(p.redirectUrl, p.channelId, p.message.value.hasCardsV2)
      && Some(c.req.kind) == EventKindOf(p.eventType.value)
      && c.req.userEmail == p.user.value.email.value
      && (c.req.platform == GoogleChat ==> c.req.userId == LastSegment(p.user.value.name.value) && '/' !in c.req.userId)
      && (c.req.platform != GoogleChat ==> c.req.userId == p.user.value.name.value)
    ensures c.Supported? && c.req.kind == CardClicked ==>
      c.req.prompt == p.actionParameters.value[0].value.value && c.req.userName.None?
    ensures c.Supported? && c.req.kind != CardClicked ==>
      && Some(c.req.prompt) == MessagePrompt(p.message.value.text.value, p.message.value.annotations)
      && c.req.userName == p.user.value.displayName
  {
    match p.message
    case None => Malformed
    case Some(msg) =>
      match msg.threadName
      case None => Malformed
      case Some(threadName) =>
        var threadId := LastSegment(threadName);
        var platform := DetectPlatform(p.redirectUrl, p.channelId, msg.hasCardsV2);
        match p.eventType
        case None => Malformed
        case Some(t) =>
          match EventKindOf(t)
          case None => Unsupported
          case Some(kind) =>
            if !Readable(p, kind) then Malformed
            else Supported(ReadRequest(p, kind, platform, threadId))
  }

  /** The request of a readable event, once its kind, platform and thread id
      are known. */
  function ReadRequest(p: Payload, kind: EventKind, platform: Platform, threadId: string): (r: Request)
    requires p.message.Some? && Readable(p, kind)
    ensures r.platform == platform && r.kind == kind && r.threadId == threadId
    ensures r.userEmail == p.user.value.email.value
    ensures platform == GoogleChat ==> r.userId == LastSegment(p.user.value.name.value) && '/' !in r.userId
    ensures platform != GoogleChat ==> r.userId == p.user.value.name.value
    ensures kind == CardClicked ==> r.prompt == p.actionParameters.value[0].value.value && r.userName.None?
    ensures kind != CardClicked ==>
      && Some(r.prompt) == MessagePrompt(p.message.value.text.value, p.message.value.annotations)
      && r.userName == p.user.value.displayName
  {
    var user := p.user.value;
    var userId := if platform == GoogleChat then LastSegment(user.name.value) else user.name.value;
    if kind == CardClicked then
      Request(platform, kind, threadId, userId, user.email.value, None, p.actionParameters.value[0].value.value)
    else
      var prompt := MessagePrompt(p.message.value.text.value, p.message.value.annotations).value;
      Request(platform, kind, threadId, userId, user.email.value, user.displayName, prompt)
  }

  /** A mention at the front of a message is removed and the rest stripped:
      "@Alice Bot hello there" with a mention of "Alice Bot" gives
      "hello there". */
  lemma LeadingMentionRemoved(name: string, rest: string)
    requires !Contains(rest, Mention(name))
    ensures MessagePrompt(Mention(name) + rest, Some([Annotation(Some(name))])) == Some(Strip(rest))
  {
    RemoveAllLeading(Mention(name), rest);
    RemoveAllWithoutOccurrence(rest, Mention(name));
  }

  /** The worked case: with a mention of "Alice Bot", the message
      "@Alice Bot hello there" gives the prompt "hello there". */
  lemma MentionExample()
    ensures MessagePrompt("@Alice Bot hello there", Some([Annotation(Some("Alice Bot"))])) == Some("hello there")
  {
    assert Mention("Alice Bot") + "hello there" == "@Alice Bot hello there";
    MentionThenPlainText("Alice Bot", "hello there");
  }

  /** Text without an `@` holds no mention. */
  lemma NoMentionWithoutAt(text: string, name: string)
    requires '@' !in text
    ensures !Contains(text, Mention(name))
  {
    MissingCharNotContained(text, Mention(name), 0);
  }

  /** A mention followed by plain text, text with no `@` and no white space
      at either end, leaves exactly that text: with a mention of "Alice Bot",
      "@Alice Bot hello there" gives "hello there". */
  lemma MentionThenPlainText(name: string, rest: string)
    requires '@' !in rest
    requires |rest| > 0 ==> !IsSpace(rest[0]) && !IsSpace(rest[|rest| - 1])
    ensures MessagePrompt(Mention(name) + rest, Some([Annotation(Some(name))])) == Some(rest)
  {
    NoMentionWithoutAt(rest, name);
    LeadingMentionRemoved(name, rest);
    StripFixpoint(rest);
  }

  /** A mention in the middle of the text is removed too, not only a leading
      one: the text before the first mention is kept, and the text after it
      loses its own mentions in turn. */
  lemma InnerMentionRemoved(before: string, name: string, after: string)
    requires !Contains(before + Mention(name)[..|Mention(name)| - 1], Mention(name))
    ensures MessagePrompt(before + Mention(name) + after, Some([Annotation(Some(name))]))
      == Some(Strip(before + RemoveAll(after, Mention(name))))
    ensures !Contains(after, Mention(name)) ==>
      MessagePrompt(before + Mention(name) + after, Some([Annotation(Some(name))])) == Some(Strip(before + after))
  {
    var m := Mention(name);
    NoMentionBefore(before, m, after);
    RemoveAllFirstOccurrence(before, m, after);
    RemoveAllWithoutOccurrence(after, m);
  }

  /** When `before` followed by all but the last character of `m` holds no
      occurrence of `m`, none starts inside `before`, whatever follows. */
  lemma NoMentionBefore(before: string, m: string, after: string)
    requires |m| > 0 && !Contains(before + m[..|m| - 1], m)
    ensures forall i :: 0 <= i < |before| ==> !OccursAt(before + m + after, m, i)
  {
    var s := before + m + after;
    var u := before + m[..|m| - 1];
    forall i | 0 <= i < |before| ensures !OccursAt(s, m, i) {
      assert !OccursAt(u, m, i);
      assert u[i..i + |m|] == s[i..i + |m|] by {
        forall k | i <= k < i + |m| ensures u[k] == s[k] { }
      }
    }
  }
}
