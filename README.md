# Admin-side reply relay of the vincent bot, in Dafny

vincent relays messages between anonymous subscribers and a shared admin
chat. A subscriber's message is copied into the admin chat, and the pair of
messages is stored as a *message link*. This project models the handler
that runs when an admin answers one of those copies
(`src/handlers/admin/message.rs`). The handler works in three steps:

1. It looks up the link of the replied-to message on the `Admin` side.
2. It copies the admin's message into the subscriber's chat, as a reply to
   the subscriber's original message.
3. It stores a new link that pairs the subscriber-side copy with the admin's
   message.

Each failure stops the handler and is reported as its own `MessageError`
variant: `FindLink`, `CopyMessage` or `CreateLink`.

Files:

- `wrappers.dfy`: `Option` and `Result`.
- `services.dfy`: the `MessageLink` record (five fields, in the order of
  the constructor call at `message.rs:32-38`) and `MessageLinkDirection`.
  Also the `MessageLinkService` class, whose `links` field is the link store.
  `Find` reads the store. `Create` appends to it only when the insertion
  succeeds. The answers of both come from oracles that are fixed when the
  service is built. The oracles see the current store, so the model does
  not decide the service's matching or uniqueness rules.
- `admin_message.dfy`: `Relay`, the pure specification of one handler run.
  It gives the result, the ordered trace of external calls with their
  answers, and the resulting store. `Handle` is the imperative handler,
  proved to behave as `Relay` says. One lemma per promised behaviour follows.
- `relay_session.dfy`: a sequence of admin messages handled one after
  another against the same long-lived store, and the invariants that hold
  over it.

The platform's copy call is the `Api.execute` oracle: it either yields the
id of the new message or fails with an `ExecuteError`.

## Model

| member | source | states |
|---|---|---|
| `Services.MessageLinkService.Create` | src/handlers/admin/message.rs:31-40 | the row is appended exactly when the insertion does not fail; on failure the error is returned and the store is unchanged |
| `AdminMessage.Persisted` | src/handlers/admin/message.rs:31-40 | the rows a trace adds to the store: at most one per call, and each one is the link of a create call that succeeded |
| `AdminMessage.Relay` | src/handlers/admin/message.rs:6-43 | the handler succeeds iff no external call failed; a failure is reported by the failing call's own variant and is the last call; the lookup comes first; every create immediately follows the confirmed copy it records (no orphan link); the store gains exactly the links of successful creates, at most one, each naming the handled admin message |
| `AdminMessage.Handle` | src/handlers/admin/message.rs:6-43 | the sequential handler with early error returns; its result, its call trace and the new store are those of `Relay` on the old store |
| `AdminMessage.NoReplyIsNoOp` | src/handlers/admin/message.rs:11-19 | a message without `reply_to` causes no find, no copy and no create; the result is `Ok(())` and the store is unchanged |
| `AdminMessage.LooksUpRepliedMessageOnce` | src/handlers/admin/message.rs:12-13 | for a reply, the first call is the one and only `find`, with the replied-to message's chat id and id and direction `Admin` |
| `AdminMessage.FindFailureStops` | src/handlers/admin/message.rs:16-17 | a failed `find` gives `FindLink` with its error; nothing else is called and the store is unchanged |
| `AdminMessage.MissingLinkIsIgnored` | src/handlers/admin/message.rs:18-19 | a `find` answering no link ends the run with `Ok(())` after that one call; the store is unchanged |
| `AdminMessage.CopiesIntoSubscriberThread` | src/handlers/admin/message.rs:20-26 | the copy goes to the link's subscriber chat, from the link's admin chat, copies the incoming message id, and replies to the link's subscriber message |
| `AdminMessage.CopyFailureWritesNothing` | src/handlers/admin/message.rs:27-29 | a failed copy gives `CopyMessage` with its error; no create is attempted and the store is unchanged |
| `AdminMessage.CopySuccessCreatesOneLink` | src/handlers/admin/message.rs:30-38 | after a confirmed copy, exactly one create follows, as the last call. Its link keeps the user and both chats of the found link; its subscriber message is the copy's id and its admin message is the incoming id |
| `AdminMessage.CreateOutcomeIsReported` | src/handlers/admin/message.rs:39-42 | a failed create gives `CreateLink` with its error and leaves the store unchanged; a successful one appends the new link and the handler returns `Ok(())`; there is no retry |
| `AdminMessage.ConversationScenario` | src/handlers/admin/message.rs:6-43 | worked example: the admin's reply 43 to copy 42 reaches the subscriber as 8, replying to 7, and the link (1, 100, 8, 200, 43) is stored |
| `RelaySession.RunIsPerMessage` | src/handlers/admin/message.rs:6-43 | over any sequence of admin messages on the shared store, each message gets one result and one call trace, and the calls are those traces in order. Each message's run adds at most one link, and that link names that message |
| `RelaySession.RunKeepsStoreConsistent` | src/handlers/admin/message.rs:6-43 | over any sequence of admin messages, the store is the initial rows plus the links of successful creates. There are no more new rows than messages, and each one names a handled message. No create is ever made without the confirmed copy it records |

## Left out

- `src/app.rs`: argument parsing, config loading, database connection,
  migrations, handler wiring, webhook or polling, and `AppError` formatting.
  All of it is process plumbing.
- `src/services/mod.rs`: it only holds re-exports.
- `src/services/message_link.rs` is not part of this model. The real `find`
  matching and the `create` insertion (SQL, unique constraints, conflicts
  between concurrent creates) are abstract oracles.
  `MessageLinkService.Find` only hands a query and the current rows to the
  lookup oracle and returns its answer. It promises nothing beyond that.
- The Telegram copy call and the internals of `ExecuteError`. The call is an
  oracle from the request to a new message id or a failure. The same request
  always gets the same answer.
- The subscriber access policy and the admin chat allow-rule
  (`app.rs:70-71`). Both are outside the handler.
- Async mechanics (`OptionFuture`, `.await`, `transpose`, `flatten`). They
  are written as a plain sequential match.
- Concurrency: `RelaySession.Run` handles messages one after another.
  Interleaved handler runs are not modelled.
- `MessageError`'s `Display` and `source` implementations, which only
  format text.
- Logging a failed create: the handler only returns `CreateLink`. The code
  does no logging, so the model does none either.
- The lookup direction is fixed to `Admin` in the code (`message.rs:13`).
  The model follows the code rather than a direction chosen by the side the
  event came from.
