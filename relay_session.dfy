/**
 * The link store is a long-lived object shared by every update the bot
 * handles. This module follows it through a sequence of admin messages, each
 * handled to completion before the next, and shows that what the relay
 * handler promises for one message adds up over the whole sequence.
 */
module RelaySession {
  import opened Wrappers
  import opened Services
  import opened AdminMessage

  /**
   * The results, the call trace of each run, all external calls in order and
   * the final store of a sequence of handler runs.
   */
  datatype Journal = Journal(
    results: seq<Result<(), MessageError>>,
    traces: seq<seq<Call>>,
    calls: seq<Call>,
    links: seq<MessageLink>)

  /** The traces of successive runs, one after another. */
  function Concat(traces: seq<seq<Call>>): (calls: seq<Call>)
  {
    if traces == [] then [] else traces[0] + Concat(traces[1..])
  }

  /** Handles `messages` in order against a store that starts as `links`. */
  function Run(
    messages: seq<Message>, api: Api, links: seq<MessageLink>,
    lookup: (seq<MessageLink>, FindQuery) -> FindAnswer,
    reject: (seq<MessageLink>, MessageLink) -> Option<MessageLinkServiceError>): Journal
    decreases |messages|
  {
    if messages == [] then Journal([], [], [], links)
    else
      var first := Relay(messages[0], api, links, lookup, reject);
      var rest := Run(messages[1..], api, first.links, lookup, reject);
      Journal([first.result] + rest.results, [first.calls] + rest.traces, first.calls + rest.calls, rest.links)
  }

  /** Joining two orphan-free traces keeps them orphan-free when the second does not open with a create. */
  lemma NoOrphansAppend(a: seq<Call>, b: seq<Call>)
    requires NoOrphanLinks(a) && NoOrphanLinks(b)
    requires b == [] || !b[0].CreateCall?
    ensures NoOrphanLinks(a + b)
  {
  }

  /**
   * Over any sequence of admin messages: one result and one trace per
   * message, and the calls are those traces in order; the run of each
   * message adds at most one link, and a link it adds names that message.
   */
  lemma {:induction false} RunIsPerMessage(
    messages: seq<Message>, api: Api, links: seq<MessageLink>,
    lookup: (seq<MessageLink>, FindQuery) -> FindAnswer,
    reject: (seq<MessageLink>, MessageLink) -> Option<MessageLinkServiceError>)
    decreases |messages|
    ensures var j := Run(messages, api, links, lookup, reject);
      |j.results| == |messages| &&
      |j.traces| == |messages| &&
      j.calls == Concat(j.traces) &&
      (forall k | 0 <= k < |messages| :: |Persisted(j.traces[k])| <= 1) &&
      forall k, l | 0 <= k < |messages| && l in Persisted(j.traces[k]) :: l.adminMessageId == messages[k].id
  {
    var j := Run(messages, api, links, lookup, reject);
    if messages != [] {
      var first := Relay(messages[0], api, links, lookup, reject);
      var rest := Run(messages[1..], api, first.links, lookup, reject);
      RunIsPerMessage(messages[1..], api, first.links, lookup, reject);
      assert j.traces == [first.calls] + rest.traces;
      assert j.traces[1..] == rest.traces;
      forall k | 0 < k < |messages|
        ensures |Persisted(j.traces[k])| <= 1
        ensures forall l | l in Persisted(j.traces[k]) :: l.adminMessageId == messages[k].id
      {
        assert j.traces[k] == rest.traces[k - 1];
        assert messages[k] == messages[1..][k - 1];
      }
    }
  }

  /**
   * Over any sequence of admin messages: the store is the initial one
   * followed by the links of the successful creates, no more of them than
   * messages, each naming a handled admin message; and no create is ever
   * made without the confirmed copy it records just before it.
   */
  lemma {:induction false} RunKeepsStoreConsistent(
    messages: seq<Message>, api: Api, links: seq<MessageLink>,
    lookup: (seq<MessageLink>, FindQuery) -> FindAnswer,
    reject: (seq<MessageLink>, MessageLink) -> Option<MessageLinkServiceError>)
    decreases |messages|
    ensures var j := Run(messages, api, links, lookup, reject);
      j.links == links + Persisted(j.calls) &&
      |Persisted(j.calls)| <= |messages| &&
      NoOrphanLinks(j.calls) &&
      (j.calls == [] || j.calls[0].FindCall?) &&
      forall l | l in Persisted(j.calls) :: exists m | m in messages :: l.adminMessageId == m.id
  {
    var j := Run(messages, api, links, lookup, reject);
    if messages != [] {
      var first := Relay(messages[0], api, links, lookup, reject);
      var rest := Run(messages[1..], api, first.links, lookup, reject);
      RunKeepsStoreConsistent(messages[1..], api, first.links, lookup, reject);
      PersistedAppend(first.calls, rest.calls);
      NoOrphansAppend(first.calls, rest.calls);
      assert j.calls == first.calls + rest.calls;
      forall l | l in Persisted(j.calls) ensures exists m | m in messages :: l.adminMessageId == m.id {
        if l in Persisted(first.calls) {
          assert messages[0] in messages;
        } else {
          var m :| m in messages[1..] && l.adminMessageId == m.id;
          assert m in messages;
        }
      }
    }
  }
}
