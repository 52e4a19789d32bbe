# Human hand-off state machine, modelled in Dafny

This project models the core of `botframework-human-handoff`: the state
machine that decides whether a user's conversation is owned by the bot, is
queued and waiting for a live agent, or is bridged to an agent. The model
also covers the in-memory store of user records behind the state machine.
The repository has two near-identical variants. Both are modelled, each as it
is written:

- the TypeScript variant (`src/middleware/handover-provider.ts`,
  `src/middleware/handover-middleware.ts`);
- the older JavaScript variant (`middleware/handover.js`).

Modules:

- `Handoff` (handoff.dfy): the shared vocabulary. It defines conversation
  references, activities, the `Bot | Agent | Queued` user state and the user
  record. It also defines the store (the backing array plus a logical clock)
  and the outbound messages of a turn. A reply is `Reply(tag)`. A
  `continueConversation` to another conversation is `Forward(ref, tag)`. The
  wording of a message is replaced by a tag.
- `QueueView` (queue_view.dfy): `getQueue`. `QueueOf` is the intended queue:
  the Queued records, ascending by queue time, with ties broken by store
  position. `QueueAsWritten` is the code as written (see Findings). The
  lemmas describe how the queue changes when a record joins it, leaves it or
  is left alone.
- `StoreSpec` (store_spec.dfy): each `ArrayHandoverProvider` operation as a
  function from the old store to the new store and a result. These functions
  are shared by both variants and take an `Identity` parameter. The TypeScript
  store compares references by `conversation.id`; the JavaScript store
  compares them by `user.id`. This module also holds the invariants and the
  lemmas proving that the operations keep them.
- `TsProvider` (ts_provider.dfy): the TypeScript `ArrayHandoverProvider`. It
  is a class whose `backingStore` field the methods update in place. Each
  method is proved equal to its `StoreSpec` function.
- `TsMiddleware` (ts_middleware.dfy): the TypeScript `HandoverMiddleware`.
  `Turn` gives one turn's new store, its outbound messages and whether it
  called `next()`. The class's `OnTurn`/`HandleAgent`/`HandleUser` methods
  drive the provider step by step and are proved to agree with `Turn`. The
  lemmas state the transition table and the whole-conversation scenarios.
- `JsHandover` (js_handover.dfy): the JavaScript provider and middleware,
  with the same structure as the TypeScript modules.

A record is named by its position in the backing array. Records are never
removed, so a position stays valid. The clock stands for `new Date()`: each
queue admission takes the clock's value as its stamp and then advances the
clock.

In the JavaScript variant, a turn on an activity without text can throw.
`text.toLowerCase()` throws on the user path and `text.indexOf` throws on the
bridged-agent path. Such a turn is marked `rejected`. Store changes made
before the throw are kept.

Differences between the variants, modelled as written:

- The TypeScript variant keys records on `conversation.id`; the JavaScript
  variant keys them on `user.id`.
- The TypeScript variant handles Message and Typing activities; the
  JavaScript variant handles Message only. An agent is recognised by a
  `dl_agent` account-id prefix in TypeScript. In JavaScript it is recognised
  by an `agent` prefix of the lower-cased display name.
- The TypeScript variant logs every user activity and the relayed agent chat.
  The JavaScript variant logs nothing, because its `log` calls are commented
  out.
- An agent that is not bridged and sends plain text reaches `next()` in
  TypeScript and gets nothing in JavaScript.
- The JavaScript `disconnectFromAgent` clears a field named `agentContext`,
  which nothing reads. The agent reference therefore survives, and
  `findByAgent` still returns the user afterwards. In that variant "agent
  reference set only in state Agent" fails after every disconnect
  (`JsHandover.DisconnectBreaksReferenceInvariant`). The stale bridge is
  visible later: once the user queues again, the old agent's `#connect` is
  refused as "not valid while connected"
  (`JsHandover.StaleBridge`). The JavaScript store therefore keeps only the
  weaker invariant `StoreSpec.Consistent`. The TypeScript store keeps
  `StoreSpec.Valid`.

Behaviours of the code one might not expect, which the model follows:

- A Queued user's other text goes to `next()`; it does not get a "please
  wait" reply.
- `cancel` from a Bot user runs `dequeueForAgent` and replies; it is not a
  no-op.
- In TypeScript, any other `#` text from an agent that is not bridged gets no
  reply at all, not an "unknown command" reply.
- `queueForAgent` does not clear the agent reference. The router reaches it
  only for users who are not in state Agent, and in the TypeScript store such
  users have no agent reference.
- `disconnectFromAgent` for an agent with no bridge throws; it does not
  return none. The router calls it only for a bridged agent, so the model
  requires one.
- The queue order: see Findings.

## Model

| member | source | states |
|---|---|---|
| StoreSpec.FindUser | src/middleware/handover-provider.ts:41 | the first record whose identity key equals the reference's; none exactly when no record has that key |
| StoreSpec.FindAgent | src/middleware/handover-provider.ts:53-56 | `findByAgent`: the first record whose agent reference has the given key; none exactly when no record has such an agent reference |
| StoreSpec.FindOrCreate | src/middleware/handover-provider.ts:40-51 | an existing record is returned with the store unchanged; otherwise exactly one `Bot` record with empty log, no agent reference and no queue time is appended and returned |
| StoreSpec.FindOrCreateIdempotent | src/middleware/handover-provider.ts:40-51 | a second `findOrCreate` with the same identity returns the same record and changes nothing, so there is never a second record per identity |
| StoreSpec.FindOrCreateKeeps | src/middleware/handover-provider.ts:40-51 | `findOrCreate` keeps the store invariants and leaves the queue unchanged |
| StoreSpec.Log | src/middleware/handover-provider.ts:58-61 | the store with one entry appended to the log of record `i` and nothing else changed; its properties are in the rows of `LogKeeps` and `LogKeepsQueue` |
| StoreSpec.LogKeeps | src/middleware/handover-provider.ts:58-61 | appending to a record's log neither makes nor breaks any store invariant |
| StoreSpec.LogKeepsQueue | src/middleware/handover-provider.ts:58-61 | appending to a log leaves the queue unchanged |
| StoreSpec.QueueForAgent | src/middleware/handover-provider.ts:63-68 | `findOrCreate`, then that record set to Queued with the current clock as its queue time, and the clock advanced; its properties are in the rows of `QueueForAgentStamps`, `QueueForAgentKeeps` and `QueueForAgentJoinsBack` |
| StoreSpec.QueueForAgentStamps | src/middleware/handover-provider.ts:63-68 | the record for the reference, created if missing, becomes Queued with a stamp later than every earlier stamp; no other record changes |
| StoreSpec.QueueForAgentKeeps | src/middleware/handover-provider.ts:63-68 | `queueForAgent` keeps the invariants, including "agent reference iff Agent" when the user is not in state Agent |
| StoreSpec.QueueForAgentJoinsBack | src/middleware/handover-provider.ts:63-68 | the record joins the back of the queue, leaving its earlier place if it was queued already |
| StoreSpec.DequeueForAgent | src/middleware/handover-provider.ts:70-75 | `findOrCreate`, then that record set to Bot with no queue time; its properties are in the rows of the `DequeueForAgent` lemmas |
| StoreSpec.DequeueForAgentEffect | src/middleware/handover-provider.ts:70-75 | the record becomes Bot without a queue time; no other record and not the clock changes |
| StoreSpec.DequeueForAgentKeeps | src/middleware/handover-provider.ts:70-75 | `dequeueForAgent` keeps `Consistent` on every store, and keeps "agent reference iff Agent" when the user is not in state Agent; it does not clear `agentReference`, and the router calls it only for users not in state Agent (src/middleware/handover-middleware.ts:85-89) |
| StoreSpec.DequeueForAgentLeavesQueue | src/middleware/handover-provider.ts:70-75 | the record leaves the queue and the others keep their order |
| StoreSpec.DequeueForAgentIdempotent | src/middleware/handover-provider.ts:70-75 | dequeueing twice gives the same store and record as dequeueing once |
| StoreSpec.ConnectToAgent | src/middleware/handover-provider.ts:77-86 | the head of the intended queue, set to Agent with the given agent reference and no queue time, or none and no change on an empty queue; its properties are in the rows of the `ConnectToAgent` lemmas |
| StoreSpec.ConnectToAgentPopsHead | src/middleware/handover-provider.ts:77-86 | on an empty queue it returns none and changes nothing; otherwise only the queue head changes: it becomes Agent with the given agent reference and no queue time, and the queue loses exactly its head |
| StoreSpec.ConnectToAgentKeeps | src/middleware/handover-provider.ts:77-86 | connecting an agent that is not bridged keeps the invariants, including "no agent bridged to two users" |
| StoreSpec.ConnectToAgentBridges | src/middleware/handover-provider.ts:77-86 | after a successful connect, `findByAgent` for that agent returns the connected record |
| StoreSpec.DisconnectFromAgent | src/middleware/handover-provider.ts:88-94 | the record `findByAgent` returns, set to Bot with neither agent reference nor queue time; it requires a bridged agent, as the source dereferences the lookup unchecked |
| StoreSpec.DisconnectFromAgentEffect | src/middleware/handover-provider.ts:88-94 | the bridged record becomes Bot with neither agent reference nor queue time, and keeps its user reference; no other record changes |
| StoreSpec.DisconnectFromAgentKeeps | src/middleware/handover-provider.ts:88-94 | disconnecting keeps the invariants and the queue, and afterwards no record is bridged to that agent |
| StoreSpec.LateRequestServedFirstAsWritten | src/middleware/handover-provider.ts:63-68 | user A is seen first, user B then A ask for an agent: B has the earlier stamp and heads the intended queue [B, A], but the queue as written is [A, B] |
| QueueView.QueueOf | src/middleware/handover-provider.ts:100-104 | the intended `getQueue`: positions in the store, ordered by queue time ascending (ties by position) |
| QueueView.QueueMembership | src/middleware/handover-provider.ts:102 | a position is in the queue exactly when its record is Queued, and no position occurs twice |
| QueueView.QueueAsWritten | src/middleware/handover-provider.ts:103 | `getQueue` as written: the same records as the intended queue, in ascending store position |
| QueueView.QueueAsWrittenIgnoresQueueTime | src/middleware/handover-provider.ts:103 | a two-record store where the queue as written lists the later request first, unlike the intended queue |
| TsProvider.ArrayHandoverProvider.constructor | src/middleware/handover-provider.ts:36-38 | the provider's store is the array handed in, empty by default; the empty default store satisfies the invariant |
| TsProvider.ArrayHandoverProvider.FindOrCreate | src/middleware/handover-provider.ts:40-51 | the in-place update gives the store and record of `StoreSpec.FindOrCreate`, keyed on `conversation.id` |
| TsProvider.ArrayHandoverProvider.FindByAgent | src/middleware/handover-provider.ts:53-56 | the first record whose agent reference has the agent's `conversation.id`; none exactly when no record has one |
| TsProvider.ArrayHandoverProvider.Log | src/middleware/handover-provider.ts:58-61 | pushes the activity onto the record's log, as `StoreSpec.Log` says |
| TsProvider.ArrayHandoverProvider.QueueForAgent | src/middleware/handover-provider.ts:63-68 | the field writes give the store and record of `StoreSpec.QueueForAgent`; a valid store stays valid when the user is not with an agent |
| TsProvider.ArrayHandoverProvider.DequeueForAgent | src/middleware/handover-provider.ts:70-75 | the field writes give the store and record of `StoreSpec.DequeueForAgent` |
| TsProvider.ArrayHandoverProvider.ConnectToAgent | src/middleware/handover-provider.ts:77-86 | the field writes on the queue head give the store and result of `StoreSpec.ConnectToAgent`; a valid store stays valid when the agent is not bridged yet |
| TsProvider.ArrayHandoverProvider.DisconnectFromAgent | src/middleware/handover-provider.ts:88-94 | for a bridged agent, the field writes give the store and record of `StoreSpec.DisconnectFromAgent` |
| TsProvider.ArrayHandoverProvider.GetQueue | src/middleware/handover-provider.ts:100-104 | every Queued record exactly once, in ascending queue time |
| TsMiddleware.HandoverMiddleware.constructor | src/middleware/handover-middleware.ts:12-13 | the middleware holds the given provider |
| TsMiddleware.Turn | src/middleware/handover-middleware.ts:15-27 | Message and Typing activities go to the agent path when the sender id starts with `dl_agent` and to the user path otherwise; anything else goes to `next()` unchanged |
| TsMiddleware.AgentTurn | src/middleware/handover-middleware.ts:29-76 | the agent path: a bridged agent's `#disconnect`, other `#` text and plain text; an unbridged agent's `#list`, `#connect`, other `#` text and plain text |
| TsMiddleware.UserTurn | src/middleware/handover-middleware.ts:78-104 | the user path: `findOrCreate` and `log`, then relay for state Agent, stop on empty text, queue on `agent`, dequeue on `cancel`, `next()` otherwise |
| TsMiddleware.HandoverMiddleware.OnTurn | src/middleware/handover-middleware.ts:15-27 | the step-by-step turn keeps the provider valid and produces the store and outbound messages of `Turn` |
| TsMiddleware.HandoverMiddleware.HandleAgent | src/middleware/handover-middleware.ts:29-76 | the agent path keeps the provider valid and produces the store and outbound messages of `AgentTurn` |
| TsMiddleware.HandoverMiddleware.HandleUser | src/middleware/handover-middleware.ts:78-104 | the user path keeps the provider valid and produces the store and outbound messages of `UserTurn` |
| TsMiddleware.UserTurnKeepsValid | src/middleware/handover-middleware.ts:78-104 | a user turn keeps every store invariant |
| TsMiddleware.AgentTurnKeepsValid | src/middleware/handover-middleware.ts:29-76 | an agent turn keeps every store invariant |
| TsMiddleware.TurnKeepsValid | src/middleware/handover-middleware.ts:15-27 | every turn keeps one record per conversation, queue time iff Queued, agent reference iff Agent, no agent bridged to two users, and stamps in the past |
| TsMiddleware.OtherActivitiesPassThrough | src/middleware/handover-middleware.ts:17-26 | activities other than Message and Typing go to `next()` with no output and no change |
| TsMiddleware.UserTurnLogs | src/middleware/handover-middleware.ts:80-81 | every user turn finds or creates the sender's record and appends the activity to its log, and to no other log |
| TsMiddleware.BridgedUserRelays | src/middleware/handover-middleware.ts:85-89 | a user in state Agent has every activity, `agent` and `cancel` included, relayed to its agent; only the log changes and `next()` is not called |
| TsMiddleware.UserAsksForAgent | src/middleware/handover-middleware.ts:92-96 | `agent` in any letter case from a user not in state Agent: Queued with a fresh stamp after every earlier one, at the back of the queue, a waiting reply, no other record changes |
| TsMiddleware.UserCancels | src/middleware/handover-middleware.ts:97-100 | `cancel` in any letter case from a user not in state Agent: Bot without queue time, out of the queue, others in order, a reply |
| TsMiddleware.UserChatPassesOn | src/middleware/handover-middleware.ts:91-103 | any other text, from a Queued user as well, goes to `next()` with only the log changed; empty or missing text stops the turn without `next()` |
| TsMiddleware.UnbridgedAgentChatPassesOn | src/middleware/handover-middleware.ts:33 | plain text from an agent that is not bridged goes to `next()` with no reply and no change |
| TsMiddleware.BridgedAgentDisconnects | src/middleware/handover-middleware.ts:36-42 | `#disconnect` returns the user to Bot, unbridges the agent, keeps the queue, and sends one reply to the agent and one notice to the user |
| TsMiddleware.BridgedAgentCommandRefused | src/middleware/handover-middleware.ts:43-45 | any other `#` text from a bridged agent gets only a rejection reply and changes nothing |
| TsMiddleware.BridgedAgentRelays | src/middleware/handover-middleware.ts:46-51 | other text from a bridged agent is logged on the user's record and relayed to the user |
| TsMiddleware.AgentLists | src/middleware/handover-middleware.ts:54-64 | `#list` answers with the queued users' names in queue order, or the empty-queue reply, and changes nothing |
| TsMiddleware.AgentConnects | src/middleware/handover-middleware.ts:65-74 | `#connect` on an empty queue answers so and changes nothing; otherwise it bridges exactly the queue head, which leaves the queue, and notifies both sides |
| TsMiddleware.UnbridgedAgentOtherCommandIgnored | src/middleware/handover-middleware.ts:54-75 | other `#` text from an agent that is not bridged gets no reply, no `next()` and no change |
| TsMiddleware.NewUserAsks | src/middleware/handover-middleware.ts:78-96 | a user the store has not seen who asks for an agent gets a new Queued record with its reference and no agent, at the back of the queue; older records are untouched and the store stays valid |
| TsMiddleware.HandoffCycle | src/middleware/handover-middleware.ts:15-104 | a whole hand-off from an empty store: queue, connect, chat both ways, disconnect back to Bot with an empty queue |
| TsMiddleware.FirstComeFirstServed | src/middleware/handover-middleware.ts:65-74 | two queued users are served in request order by two agents; a third agent finds the queue empty |
| TsMiddleware.CancelBeforeConnect | src/middleware/handover-middleware.ts:92-100 | `agent` then `CANCEL` leaves the queue empty, so a later `#connect` finds no one |
| JsHandover.DisconnectKeepingReference | middleware/handover.js:182-188 | the JavaScript `disconnectFromAgent` as written: the record `findByAgent` returns is set to Bot with no queue time, and its `agentReference` is kept, since the code clears an unused `agentContext` field instead; properties in the rows of `DisconnectKeepsBridge` and `DisconnectBreaksReferenceInvariant` |
| JsHandover.ArrayHandoverProvider.constructor | middleware/handover.js:125-127 | the provider's store is the array handed in, empty by default; the empty default store satisfies the variant's invariant |
| JsHandover.ArrayHandoverProvider.FindOrCreate | middleware/handover.js:129-144 | the in-place update gives the store and record of `StoreSpec.FindOrCreate`, keyed on `user.id` |
| JsHandover.ArrayHandoverProvider.FindByAgent | middleware/handover.js:152-155 | the first record whose agent reference has the agent's `user.id`; none (`null`) exactly when no record has one |
| JsHandover.ArrayHandoverProvider.Log | middleware/handover.js:146-150 | pushes a sender and a text onto the record's log |
| JsHandover.ArrayHandoverProvider.QueueForAgent | middleware/handover.js:157-162 | the field writes give the store and record of `StoreSpec.QueueForAgent`; the variant's invariant is kept |
| JsHandover.ArrayHandoverProvider.UnqueueForAgent | middleware/handover.js:164-169 | the field writes give the store and record of `StoreSpec.DequeueForAgent` |
| JsHandover.ArrayHandoverProvider.ConnectToAgent | middleware/handover.js:171-180 | the field writes on the queue head give the store and result of `StoreSpec.ConnectToAgent`; the variant's invariant is kept when the agent is not bridged yet |
| JsHandover.ArrayHandoverProvider.DisconnectFromAgent | middleware/handover.js:182-188 | for a bridged agent, sets Bot and clears the queue time, leaving the agent reference |
| JsHandover.ArrayHandoverProvider.GetQueue | middleware/handover.js:190-194 | every Queued record exactly once, in ascending queue time |
| JsHandover.HandoverMiddleware.constructor | middleware/handover.js:16-19 | the middleware holds the given provider |
| JsHandover.Turn | middleware/handover.js:26-35 | Message activities go to the agent path when the lower-cased sender name starts with `agent` and to the user path otherwise; anything else goes to `next()` unchanged |
| JsHandover.UserTurn | middleware/handover.js:42-67 | the user path: `findOrCreate` without a log, then relay for state Agent, a throw on missing text, queue on `agent`, unqueue on `cancel`, `next()` otherwise |
| JsHandover.AgentTurn | middleware/handover.js:74-120 | the agent path: a bridged agent's `#disconnect` (which keeps the agent reference), other `#` text and plain text; an unbridged agent's `#list` and `#connect` |
| JsHandover.HandoverMiddleware.OnTurn | middleware/handover.js:26-35 | the turn keeps the provider consistent and produces the store and outbound messages of `Turn` |
| JsHandover.HandoverMiddleware.ManageUser | middleware/handover.js:42-67 | the user path keeps the provider consistent and produces the store and outbound messages of `UserTurn` |
| JsHandover.HandoverMiddleware.ManageAgent | middleware/handover.js:74-120 | the agent path keeps the provider consistent and produces the store and outbound messages of `AgentTurn` |
| JsHandover.DisconnectKeepsBridge | middleware/handover.js:182-188 | disconnect sets Bot and clears the queue time only; `findByAgent` still returns the same record; the record leaves the queue |
| JsHandover.DisconnectBreaksReferenceInvariant | middleware/handover.js:185 | after a disconnect, some record in state Bot still has an agent reference |
| JsHandover.DisconnectKeepsConsistent | middleware/handover.js:182-188 | disconnect keeps the invariants this variant does keep |
| JsHandover.UserTurnKeepsConsistent | middleware/handover.js:42-67 | a user turn keeps the variant's invariants |
| JsHandover.AgentTurnKeepsConsistent | middleware/handover.js:74-120 | an agent turn keeps the variant's invariants |
| JsHandover.TurnKeepsConsistent | middleware/handover.js:26-35 | every turn keeps one record per user id, queue time iff Queued, an agent reference on every Agent record, no agent on two records, stamps in the past |
| JsHandover.OtherActivitiesPassThrough | middleware/handover.js:28 | non-Message activities, Typing included, go to `next()` and change nothing |
| JsHandover.UserTurnKeepsLogs | middleware/handover.js:44-45 | a user turn logs nothing; the only new record is one with an empty log |
| JsHandover.BridgedUserRelays | middleware/handover.js:49-53 | a user in state Agent has its text relayed to the agent and nothing changes |
| JsHandover.UserAsksForAgent | middleware/handover.js:55-59 | `agent` in any letter case: Queued with a fresh stamp, at the back of the queue, a reply, no other record changes |
| JsHandover.UserCancels | middleware/handover.js:60-63 | `cancel` in any letter case: Bot without queue time, out of the queue, others in order, a reply |
| JsHandover.UserTextPassesOn | middleware/handover.js:55-66 | other text, the empty text included, goes to `next()`; a missing text throws; only `findOrCreate` changes the store |
| JsHandover.BridgedAgentDisconnects | middleware/handover.js:81-87 | `#disconnect` sets the user to Bot and notifies both sides, but the agent stays bridged and "agent reference only when Agent" fails |
| JsHandover.BridgedAgentOtherText | middleware/handover.js:88-96 | other `#` text is refused, missing text throws, plain text is relayed unlogged; the store is unchanged |
| JsHandover.UnbridgedAgentOtherTextIgnored | middleware/handover.js:99-119 | an agent that is not bridged gets nothing for any text other than `#list` and `#connect`, plain chat included, and `next()` is never called |
| JsHandover.AgentLists | middleware/handover.js:100-108 | `#list` answers with the queued users' names in queue order, or the empty-queue reply |
| JsHandover.AgentConnects | middleware/handover.js:109-118 | `#connect` on an empty queue answers so and changes nothing; otherwise it bridges exactly the queue head and notifies both sides |
| JsHandover.StaleBridge | middleware/handover.js:182-188 | after a hand-off ends and the user queues again, the old agent's `#connect` is refused, its chat reaches the waiting user, and its `#disconnect` takes the user out of the queue |

## Left out

- `src/bot.ts` and `bot.js` are not part of this model. They hold the echo and welcome replies, and the Facebook `pass_thread_control` call made over the network.
- Transport: `continueConversation` and `sendActivity` appear only as entries of a turn's outbound list. Delivery, delivery failures and the order in which un-awaited sends complete are not modelled.
- Concurrency: each store operation and each turn is atomic. The JavaScript runtime runs turns one at a time. The un-awaited `disconnectFromAgent` (middleware/handover.js:82) and `log` (src/middleware/handover-middleware.ts:47, 81) complete within their turn in the model.
- Time: `new Date()` becomes a logical clock that increases at each queue admission.
- Payload shaping: reply wording, `suggestedActions`, `channelData.status` and the `*_ACTION` constants, including the user's name inside the connected reply. Replies are tags; `ConnectedTo` and `QueueList` carry the names they show.
- `console.log`, the no-op `save`, the unused `vm` import, and the `HandoverProvider` interface apart from its array implementation.
- Letter case: `toLocaleLowerCase`/`toLowerCase` are modelled as ASCII lower-casing.
- Malformed references: a reference always has a user account and a conversation id. The source would throw on a missing `conversation`, `user` or `from.name`; that path is not modelled.
- Object identity: records are values named by their store position, not shared objects. This is exact for this code, because records are never removed and the router rereads only fields that the mutation in between leaves alone.
- TsProvider.ArrayHandoverProvider.constructor: the array handed in becomes the store as a value. The source keeps the caller's array itself, so the caller sees later pushes and the provider sees the caller's writes; that sharing is not modelled.
- JsHandover.ArrayHandoverProvider.constructor: the same holds for the JavaScript provider: the initial store is copied in, not shared with the caller.
- StoreSpec.DisconnectFromAgent: requires a bridged agent. The source throws a TypeError otherwise, and that path is not modelled. The same holds for `TsProvider.ArrayHandoverProvider.DisconnectFromAgent` and `JsHandover.ArrayHandoverProvider.DisconnectFromAgent`.

## Findings

| source | as written | input that shows it | evidently intended | confidence | as-written member | corrected member |
|---|---|---|---|---|---|---|
| src/middleware/handover-provider.ts:103 | `.sort(u => u.queueTime.getTime())` passes a one-argument function as the comparator. Called on a pair, it returns the first element's time, a positive number, so every pair compares as "greater". Under V8's sort the filtered array is one ascending run and stays in store order. | user A is seen first, user B asks for an agent, then A asks: as written the queue is [A, B] and `#connect` serves A | ascending by queue time, so B (who asked first) is at the head | not executed; depends on the JavaScript engine's sort | QueueView.QueueAsWritten | QueueView.QueueOf |
| middleware/handover.js:193 | the same one-argument comparator in the JavaScript `getQueue` | the same three store calls in the JavaScript variant | ascending by queue time | not executed; depends on the JavaScript engine's sort | QueueView.QueueAsWritten | QueueView.QueueOf |

`QueueView.QueueAsWrittenIgnoresQueueTime` and
`StoreSpec.LateRequestServedFirstAsWritten` prove the discrepancy. The
rest of the model uses the corrected `QueueOf`, whose ascending-time order
is part of its contract.
