/** Vocabulary shared by both variants of the human-handoff core: conversation
    references, inbound activities, user records, the store, and the outbound
    messages a turn produces. Transport is never executed: a reply or a relay is
    only an entry in a turn's outbound list. */
module Handoff {

  datatype Option<+T> = None | Some(value: T)

  /** The account an activity comes from (`activity.from`). */
  datatype Account = Account(id: string, name: string)

  /** A conversation reference, restricted to the fields the core reads: the
      user account and the conversation id. */
  datatype Ref = Ref(user: Account, conversationId: string)

  /** Bot Framework activity types, as far as the routers tell them apart. */
  datatype ActivityType = Message | Typing | OtherType

  /** An inbound activity. `text` is absent for most non-message activities. */
  datatype Activity = Activity(kind: ActivityType, from: Account, conversationId: string, text: Option<string>)

  /** `TurnContext.getConversationReference`: the reference's user is the
      activity's sender and its conversation is the activity's conversation. */
  function ReferenceOf(a: Activity): Ref {
    Ref(a.from, a.conversationId)
  }

  /** Which field of a reference identifies a conversation: the TypeScript
      store compares `conversation.id`, the JavaScript store `user.id`. */
  datatype Identity = ByConversation | ByUser

  function Key(k: Identity, r: Ref): string {
    match k
    case ByConversation => r.conversationId
    case ByUser => r.user.id
  }

  datatype UserState = Bot | Agent | Queued

  /** An entry of a record's message log: a whole activity (TypeScript `log`)
      or a sender and a text (JavaScript `log`). */
  datatype LogEntry = Logged(activity: Activity) | Noted(from: string, text: Option<string>)

  /** One user record. `queueTime` is a stamp of the store's logical clock. */
  datatype User = User(
    userReference: Ref,
    messages: seq<LogEntry>,
    state: UserState,
    agentReference: Option<Ref>,
    queueTime: Option<nat>)

  /** The store's contents: the backing array of records, and the logical clock
      that stands for `new Date()` (the next queue time to hand out). */
  datatype Store = Store(users: seq<User>, clock: nat)

  /** The new store after an operation, and what the operation returned. */
  datatype Step<T> = Step(store: Store, value: T)

  /** The record `findOrCreate` appends for an unseen conversation. */
  function NewUser(r: Ref): User {
    User(r, [], Bot, None, None)
  }

  /** ASCII lower-casing, standing for `toLowerCase` / `toLocaleLowerCase`. */
  function LowerChar(c: char): char {
    if 'A' <= c <= 'Z' then (c as int + 32) as char else c
  }

  function Lower(s: string): string {
    seq(|s|, i requires 0 <= i < |s| => LowerChar(s[i]))
  }

  predicate StartsWith(s: string, prefix: string) {
    |prefix| <= |s| && s[..|prefix|] == prefix
  }

  /** JavaScript truthiness of an optional text: present and not empty. */
  predicate Truthy(text: Option<string>) {
    text.Some? && text.value != ""
  }

  /** `text.indexOf('#') === 0`: the text is an agent command. */
  predicate IsCommand(t: string) {
    |t| > 0 && t[0] == '#'
  }

  /** What an outbound message says, as a tag instead of its wording. */
  datatype Content =
    | PleaseWait                    // user asked for an agent
    | BackToBot                     // user cancelled
    | Disconnected                  // to the agent: the bridge is torn down
    | AgentLeft                     // to the user: the agent left, the bot is back
    | NotWhileConnected             // a command the agent may not use while bridged
    | QueueList(names: seq<string>) // the queued users' names, in queue order
    | QueueEmpty
    | ConnectedTo(name: string)     // to the agent: bridged to this user
    | AgentJoined                   // to the user: an agent is bridged
    | Chat(text: Option<string>, kind: ActivityType) // a relayed activity

  /** `turnContext.sendActivity` (a reply to the sender) or
      `adapter.continueConversation(ref, …)` (a message to another conversation). */
  datatype Outbound = Reply(content: Content) | Forward(to: Ref, content: Content)

  /** What one turn does besides changing the store: the messages it sends, in
      order, whether it called `next()`, and whether it threw. */
  datatype TurnResult = TurnResult(outbound: seq<Outbound>, passedToNext: bool, rejected: bool)

  /** A turn that sends the given messages and neither calls `next()` nor throws. */
  function Sends(out: seq<Outbound>): TurnResult {
    TurnResult(out, false, false)
  }
}
