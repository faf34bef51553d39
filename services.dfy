/**
 * The message-link service as the admin relay handler sees it: the
 * `MessageLink` record, the lookup direction, and the long-lived service
 * object that owns the link store.
 *
 * What the service does with a query or a new row (its SQL, its matching and
 * uniqueness rules) is not part of this model: the answers of `find` and the
 * failures of `create` come from two oracles fixed when the service is built.
 * Both oracles are handed the current contents of the store, so an answer may
 * depend on what has been stored so far (a conflict, a stale read) without
 * this model deciding how.
 */
module Services {
  import opened Wrappers

  /** Which side of a stored link a lookup anchors on. */
  datatype MessageLinkDirection = Admin | Subscriber

  /** One stored link: a subscriber-side message and its admin-side partner. */
  datatype MessageLink = MessageLink(
    subscriberUserId: int,
    subscriberChatId: int,
    subscriberMessageId: int,
    adminChatId: int,
    adminMessageId: int)

  /** The arguments of one `find` call. */
  datatype FindQuery = FindQuery(chatId: int, messageId: int, direction: MessageLinkDirection)

  /** A failure reported by the service (storage unavailable, conflict, ...). */
  datatype MessageLinkServiceError = MessageLinkServiceError(description: string)

  type FindAnswer = Result<Option<MessageLink>, MessageLinkServiceError>

  class MessageLinkService {
    /** What `find` answers for a query, given the rows stored so far. */
    const lookup: (seq<MessageLink>, FindQuery) -> FindAnswer
    /** Whether inserting a row into the current store fails, and how. */
    const reject: (seq<MessageLink>, MessageLink) -> Option<MessageLinkServiceError>
    /** The link store: rows in the order they were inserted. */
    var links: seq<MessageLink>

    constructor (
      lookup: (seq<MessageLink>, FindQuery) -> FindAnswer,
      reject: (seq<MessageLink>, MessageLink) -> Option<MessageLinkServiceError>,
      links: seq<MessageLink>)
      ensures this.lookup == lookup && this.reject == reject && this.links == links
    {
      this.lookup := lookup;
      this.reject := reject;
      this.links := links;
    }

    /** Looks up the link anchored at `(chatId, messageId)` on the given side; reads the store only. */
    method Find(chatId: int, messageId: int, direction: MessageLinkDirection) returns (r: FindAnswer)
      ensures r == lookup(links, FindQuery(chatId, messageId, direction))
    {
      r := lookup(links, FindQuery(chatId, messageId, direction));
    }

    /**
     * Inserts `link`. The row is appended exactly when the insertion does not
     * fail; a failed insertion leaves the store as it was.
     */
    method Create(link: MessageLink) returns (r: Result<(), MessageLinkServiceError>)
      modifies this
      ensures r.Ok? <==> reject(old(links), link).None?
      ensures r.Ok? ==> r == Ok(())
      ensures r.Err? ==> r.error == reject(old(links), link).value
      ensures links == if r.Ok? then old(links) + [link] else old(links)
    {
      match reject(links, link)
      case None =>
        links := links + [link];
        r := Ok(());
      case Some(e) =>
        r := Err(e);
    }
  }
}
