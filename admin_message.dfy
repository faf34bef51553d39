/**
 * The admin-side relay handler: an admin's threaded reply is copied back to
 * the subscriber whose message it answers, and the new pair of messages is
 * recorded as a link.
 *
 * `Relay` is the specification of one run of the handler (its result, the
 * external calls it makes in order, each with its answer, and the store it
 * leaves behind); `Handle` is the handler itself, a sequence of effectful
 * calls with early error returns, proved to behave as `Relay` says.
 */
module AdminMessage {
  import opened Wrappers
  import opened Services

  /** The part of a chat message the handler reads: its id, its chat and the message it replies to. */
  datatype Message = Message(id: int, chatId: int, replyTo: Option<Message>)

  /** The arguments of the platform's copy-message call. */
  datatype CopyMessageRequest = CopyMessageRequest(
    chatId: int,               // destination chat
    fromChatId: int,           // chat the message is copied from
    messageId: int,            // message to copy
    replyToMessageId: Option<int>)

  /** A failure of a platform call (permission, rate limit, deleted message, network). */
  datatype ExecuteError = ExecuteError(description: string)

  /** The platform client: a copy either yields the id of the new message or fails. */
  datatype Api = Api(execute: CopyMessageRequest -> Result<int, ExecuteError>)

  /** The handler's error, one variant per external call that can fail. */
  datatype MessageError =
    | CopyMessage(copyError: ExecuteError)
    | CreateLink(createError: MessageLinkServiceError)
    | FindLink(findError: MessageLinkServiceError)

  /** One external call made by the handler, together with the answer it got. */
  datatype Call =
    | FindCall(query: FindQuery, found: FindAnswer)
    | CopyCall(request: CopyMessageRequest, copied: Result<int, ExecuteError>)
    | CreateCall(link: MessageLink, created: Result<(), MessageLinkServiceError>)

  /** What one run of the handler amounts to. */
  datatype Outcome = Outcome(result: Result<(), MessageError>, calls: seq<Call>, links: seq<MessageLink>)

  predicate Succeeded(c: Call)
  {
    match c
    case FindCall(_, found) => found.Ok?
    case CopyCall(_, copied) => copied.Ok?
    case CreateCall(_, created) => created.Ok?
  }

  /** The handler error a failed call is to be reported as: each call has its own variant. */
  function ReportedAs(c: Call): (r: Option<MessageError>)
  {
    match c
    case FindCall(_, found) => if found.Err? then Some(FindLink(found.error)) else None
    case CopyCall(_, copied) => if copied.Err? then Some(CopyMessage(copied.error)) else None
    case CreateCall(_, created) => if created.Err? then Some(CreateLink(created.error)) else None
  }

  /** `link` records the copy made by the confirmed copy call `c`: it pairs the new copy with the copied message. */
  predicate RecordsCopy(c: Call, link: MessageLink)
  {
    c.CopyCall? && c.copied.Ok? &&
    link.subscriberChatId == c.request.chatId &&
    link.subscriberMessageId == c.copied.value &&
    link.adminChatId == c.request.fromChatId &&
    link.adminMessageId == c.request.messageId
  }

  /** No half-link: every create call comes right after the confirmed copy whose result it records. */
  predicate NoOrphanLinks(calls: seq<Call>)
  {
    forall i | 0 <= i < |calls| && calls[i].CreateCall? :: 0 < i && RecordsCopy(calls[i - 1], calls[i].link)
  }

  /** The rows that the successful create calls of a trace add to the store, in order. */
  function Persisted(calls: seq<Call>): (rows: seq<MessageLink>)
    ensures |rows| <= |calls|
    ensures forall l | l in rows :: CreateCall(l, Ok(())) in calls
  {
    if calls == [] then []
    else (if calls[0].CreateCall? && calls[0].created == Ok(()) then [calls[0].link] else []) + Persisted(calls[1..])
  }

  lemma {:induction false} PersistedAppend(a: seq<Call>, b: seq<Call>)
    ensures Persisted(a + b) == Persisted(a) + Persisted(b)
  {
    if a == [] {
      assert a + b == b;
    } else {
      assert (a + b)[1..] == a[1..] + b;
      PersistedAppend(a[1..], b);
    }
  }

  /** The copy request sent for a reply resolved to `link`: into the subscriber chat, as a reply to the subscriber's message. */
  function CopyRequestFor(link: MessageLink, message: Message): (r: CopyMessageRequest)
  {
    CopyMessageRequest(link.subscriberChatId, link.adminChatId, message.id, Some(link.subscriberMessageId))
  }

  /** The link recorded after the admin's `message` was copied to the subscriber as `copiedId`. */
  function RelayedLink(link: MessageLink, message: Message, copiedId: int): (r: MessageLink)
  {
    MessageLink(link.subscriberUserId, link.subscriberChatId, copiedId, link.adminChatId, message.id)
  }

  /** The answer of an insertion, given the service's failure oracle. */
  function Insert(
    reject: (seq<MessageLink>, MessageLink) -> Option<MessageLinkServiceError>,
    links: seq<MessageLink>,
    link: MessageLink): (r: Result<(), MessageLinkServiceError>)
  {
    match reject(links, link)
    case None => Ok(())
    case Some(e) => Err(e)
  }

  /**
   * One run of the handler on `message`, against the platform `api` and a
   * service whose store holds `links` and whose oracles are `lookup` and
   * `reject`.
   */
  function Relay(
    message: Message,
    api: Api,
    links: seq<MessageLink>,
    lookup: (seq<MessageLink>, FindQuery) -> FindAnswer,
    reject: (seq<MessageLink>, MessageLink) -> Option<MessageLinkServiceError>): (o: Outcome)
    // the handler succeeds exactly when no external call failed ...
    ensures o.result.Ok? <==> forall c | c in o.calls :: Succeeded(c)
    // ... a failure is reported as the failed call's own variant, and nothing is called after it
    ensures o.result.Err? ==> o.calls != [] && ReportedAs(o.calls[|o.calls| - 1]) == Some(o.result.error)
    ensures forall i | 0 <= i < |o.calls| - 1 :: Succeeded(o.calls[i])
    // the lookup comes first
    ensures o.calls == [] || o.calls[0].FindCall?
    // the store only gains the rows of successful creates, at most one, and never an orphan
    ensures NoOrphanLinks(o.calls)
    ensures o.links == links + Persisted(o.calls)
    ensures |Persisted(o.calls)| <= 1
    // a recorded link always names the handled admin message
    ensures forall l | l in Persisted(o.calls) :: l.adminMessageId == message.id
  {
    match message.replyTo
    case None => Outcome(Ok(()), [], links)
    case Some(replyTo) =>
      var query := FindQuery(replyTo.chatId, replyTo.id, Admin);
      var found := lookup(links, query);
      var afterFind := [FindCall(query, found)];
      assert afterFind[0] in afterFind;
      if found.Err? then Outcome(Err(FindLink(found.error)), afterFind, links)
      else if found.value.None? then Outcome(Ok(()), afterFind, links)
      else
        var link := found.value.value;
        var request := CopyRequestFor(link, message);
        var copied := api.execute(request);
        var afterCopy := afterFind + [CopyCall(request, copied)];
        assert afterCopy[1] in afterCopy && afterCopy[1..] == [afterCopy[1]];
        PersistedAppend(afterFind, [CopyCall(request, copied)]);
        if copied.Err? then Outcome(Err(CopyMessage(copied.error)), afterCopy, links)
        else
          var relayed := RelayedLink(link, message, copied.value);
          var created := Insert(reject, links, relayed);
          var afterCreate := afterCopy + [CreateCall(relayed, created)];
          assert afterCreate[2] in afterCreate;
          PersistedAppend(afterCopy, [CreateCall(relayed, created)]);
          if created.Err? then Outcome(Err(CreateLink(created.error)), afterCreate, links)
          else Outcome(Ok(()), afterCreate, links + [relayed])
  }

  /**
   * The handler. `calls` is the trace of the external calls it makes, in
   * order, each with its answer; it exists for the specification only.
   */
  method Handle(api: Api, service: MessageLinkService, message: Message)
    returns (r: Result<(), MessageError>, ghost calls: seq<Call>)
    modifies service
    ensures var o := Relay(message, api, old(service.links), service.lookup, service.reject);
      r == o.result && calls == o.calls && service.links == o.links
  {
    calls := [];
    var link: Option<MessageLink> := None;
    match message.replyTo {
      case None =>
      case Some(replyTo) =>
        var found := service.Find(replyTo.chatId, replyTo.id, Admin);
        calls := calls + [FindCall(FindQuery(replyTo.chatId, replyTo.id, Admin), found)];
        if found.Err? {
          r := Err(FindLink(found.error));
          return;
        }
        link := found.value;
    }
    if link.Some? {
      var subscriberUserId := link.value.subscriberUserId;
      var subscriberChatId := link.value.subscriberChatId;
      var adminChatId := link.value.adminChatId;
      var request := CopyMessageRequest(subscriberChatId, adminChatId, message.id, Some(link.value.subscriberMessageId));
      var copied := api.execute(request);
      calls := calls + [CopyCall(request, copied)];
      if copied.Err? {
        r := Err(CopyMessage(copied.error));
        return;
      }
      var subscriberMessageId := copied.value;
      var relayed := MessageLink(subscriberUserId, subscriberChatId, subscriberMessageId, adminChatId, message.id);
      var created := service.Create(relayed);
      calls := calls + [CreateCall(relayed, created)];
      if created.Err? {
        r := Err(CreateLink(created.error));
        return;
      }
    }

    r := Ok(());
  }

  // Properties of one run of the handler.

  /** A message that replies to nothing is not a relay reply: no call, no write, success. */
  lemma NoReplyIsNoOp(
    message: Message, api: Api, links: seq<MessageLink>,
    lookup: (seq<MessageLink>, FindQuery) -> FindAnswer,
    reject: (seq<MessageLink>, MessageLink) -> Option<MessageLinkServiceError>)
    requires message.replyTo.None?
    ensures Relay(message, api, links, lookup, reject) == Outcome(Ok(()), [], links)
  {
  }

  /** A reply is looked up exactly once, first, on the admin side, by the replied-to message's chat and id. */
  lemma LooksUpRepliedMessageOnce(
    message: Message, api: Api, links: seq<MessageLink>,
    lookup: (seq<MessageLink>, FindQuery) -> FindAnswer,
    reject: (seq<MessageLink>, MessageLink) -> Option<MessageLinkServiceError>)
    requires message.replyTo.Some?
    ensures var o := Relay(message, api, links, lookup, reject);
      var query := FindQuery(message.replyTo.value.chatId, message.replyTo.value.id, Admin);
      o.calls != [] && o.calls[0] == FindCall(query, lookup(links, query)) &&
      forall i | 0 < i < |o.calls| :: !o.calls[i].FindCall?
  {
  }

  /** A failed lookup is reported as `FindLink` and is the only call made. */
  lemma FindFailureStops(
    message: Message, api: Api, links: seq<MessageLink>,
    lookup: (seq<MessageLink>, FindQuery) -> FindAnswer,
    reject: (seq<MessageLink>, MessageLink) -> Option<MessageLinkServiceError>)
    requires message.replyTo.Some?
    requires lookup(links, FindQuery(message.replyTo.value.chatId, message.replyTo.value.id, Admin)).Err?
    ensures var query := FindQuery(message.replyTo.value.chatId, message.replyTo.value.id, Admin);
      var found := lookup(links, query);
      Relay(message, api, links, lookup, reject) == Outcome(Err(FindLink(found.error)), [FindCall(query, found)], links)
  {
  }

  /** A reply to a message with no stored link is ignored: success, nothing copied, nothing written. */
  lemma MissingLinkIsIgnored(
    message: Message, api: Api, links: seq<MessageLink>,
    lookup: (seq<MessageLink>, FindQuery) -> FindAnswer,
    reject: (seq<MessageLink>, MessageLink) -> Option<MessageLinkServiceError>)
    requires message.replyTo.Some?
    requires lookup(links, FindQuery(message.replyTo.value.chatId, message.replyTo.value.id, Admin)) == Ok(None)
    ensures var o := Relay(message, api, links, lookup, reject);
      o.result == Ok(()) && |o.calls| == 1 && o.links == links
  {
  }

  /**
   * A resolved reply is copied from the link's admin chat into the link's
   * subscriber chat, as a reply to the subscriber's message; the message
   * copied is the admin's own.
   */
  lemma CopiesIntoSubscriberThread(
    message: Message, api: Api, links: seq<MessageLink>,
    lookup: (seq<MessageLink>, FindQuery) -> FindAnswer,
    reject: (seq<MessageLink>, MessageLink) -> Option<MessageLinkServiceError>,
    link: MessageLink)
    requires message.replyTo.Some?
    requires lookup(links, FindQuery(message.replyTo.value.chatId, message.replyTo.value.id, Admin)) == Ok(Some(link))
    ensures var o := Relay(message, api, links, lookup, reject);
      |o.calls| >= 2 && o.calls[1].CopyCall? &&
      o.calls[1].request.chatId == link.subscriberChatId &&
      o.calls[1].request.fromChatId == link.adminChatId &&
      o.calls[1].request.messageId == message.id &&
      o.calls[1].request.replyToMessageId == Some(link.subscriberMessageId) &&
      o.calls[1].copied == api.execute(o.calls[1].request)
  {
  }

  /** A failed copy is reported as `CopyMessage`; no create is attempted and the store is unchanged. */
  lemma CopyFailureWritesNothing(
    message: Message, api: Api, links: seq<MessageLink>,
    lookup: (seq<MessageLink>, FindQuery) -> FindAnswer,
    reject: (seq<MessageLink>, MessageLink) -> Option<MessageLinkServiceError>,
    link: MessageLink)
    requires message.replyTo.Some?
    requires lookup(links, FindQuery(message.replyTo.value.chatId, message.replyTo.value.id, Admin)) == Ok(Some(link))
    requires api.execute(CopyRequestFor(link, message)).Err?
    ensures var o := Relay(message, api, links, lookup, reject);
      o.result == Err(CopyMessage(api.execute(CopyRequestFor(link, message)).error)) &&
      o.links == links &&
      forall c | c in o.calls :: !c.CreateCall?
  {
  }

  /**
   * A confirmed copy is followed by exactly one create, the last call, of the
   * link pairing the subscriber-side copy with the admin's message; the
   * subscriber identity and both chats are those of the resolved link.
   */
  lemma CopySuccessCreatesOneLink(
    message: Message, api: Api, links: seq<MessageLink>,
    lookup: (seq<MessageLink>, FindQuery) -> FindAnswer,
    reject: (seq<MessageLink>, MessageLink) -> Option<MessageLinkServiceError>,
    link: MessageLink)
    requires message.replyTo.Some?
    requires lookup(links, FindQuery(message.replyTo.value.chatId, message.replyTo.value.id, Admin)) == Ok(Some(link))
    requires api.execute(CopyRequestFor(link, message)).Ok?
    ensures var o := Relay(message, api, links, lookup, reject);
      var copiedId := api.execute(CopyRequestFor(link, message)).value;
      |o.calls| == 3 && o.calls[2].CreateCall? &&
      o.calls[2].link == MessageLink(link.subscriberUserId, link.subscriberChatId, copiedId, link.adminChatId, message.id) &&
      forall i | 0 <= i < 2 :: !o.calls[i].CreateCall?
  {
  }

  /** A failed create is reported as `CreateLink` and not retried; a successful one appends the link and the handler succeeds. */
  lemma CreateOutcomeIsReported(
    message: Message, api: Api, links: seq<MessageLink>,
    lookup: (seq<MessageLink>, FindQuery) -> FindAnswer,
    reject: (seq<MessageLink>, MessageLink) -> Option<MessageLinkServiceError>,
    link: MessageLink)
    requires message.replyTo.Some?
    requires lookup(links, FindQuery(message.replyTo.value.chatId, message.replyTo.value.id, Admin)) == Ok(Some(link))
    requires api.execute(CopyRequestFor(link, message)).Ok?
    ensures var o := Relay(message, api, links, lookup, reject);
      var relayed := RelayedLink(link, message, api.execute(CopyRequestFor(link, message)).value);
      (reject(links, relayed).Some? ==> o.result == Err(CreateLink(reject(links, relayed).value)) && o.links == links) &&
      (reject(links, relayed).None? ==> o.result == Ok(()) && o.links == links + [relayed])
  {
  }

  /**
   * A worked conversation: subscriber 1 wrote message 7 in chat 100, which
   * was copied into admin chat 200 as message 42. The admin answers 42 with
   * message 43; it reaches the subscriber as message 8, a reply to 7, and the
   * store gains the link (1, 100, 8, 200, 43).
   */
  lemma ConversationScenario(
    api: Api, links: seq<MessageLink>,
    lookup: (seq<MessageLink>, FindQuery) -> FindAnswer,
    reject: (seq<MessageLink>, MessageLink) -> Option<MessageLinkServiceError>)
    requires lookup(links, FindQuery(200, 42, Admin)) == Ok(Some(MessageLink(1, 100, 7, 200, 42)))
    requires api.execute(CopyMessageRequest(100, 200, 43, Some(7))) == Ok(8)
    requires reject(links, MessageLink(1, 100, 8, 200, 43)).None?
    ensures var reply := Message(43, 200, Some(Message(42, 200, None)));
      var o := Relay(reply, api, links, lookup, reject);
      o.result == Ok(()) && o.links == links + [MessageLink(1, 100, 8, 200, 43)]
  {
  }
}
