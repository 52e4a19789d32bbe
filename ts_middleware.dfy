/** The TypeScript `HandoverMiddleware`: classifies each turn, interprets the
    user's and the agent's text, drives the provider, and lists the replies
    and relays it sends. `Turn`, `UserTurn` and `AgentTurn` give the store and
    the result of one turn as functions of the store before it; the class's
    methods do the same work step by step on an `ArrayHandoverProvider` and
    are proved to agree with them. The lemmas below state what a turn does. */
module TsMiddleware {
  import opened Handoff
  import opened QueueView
  import opened StoreSpec
  import opened TsProvider

  /** Only Message and Typing activities enter the hand-off logic. */
  predicate Handled(a: Activity) {
    a.kind == Message || a.kind == Typing
  }

  /** A sender whose account id starts with `dl_agent` is an agent. */
  predicate IsAgentSender(a: Activity) {
    StartsWith(a.from.id, "dl_agent")
  }

  /** The record a user turn reads and writes. */
  function UserIndex(s: Store, a: Activity): nat {
    FindOrCreate(Keying, s, ReferenceOf(a)).value
  }

  /** The store after `findOrCreate` and `log` on a user turn. */
  function AfterLog(s: Store, a: Activity): Store {
    var f := FindOrCreate(Keying, s, ReferenceOf(a));
    Log(f.store, f.value, LogEntry.Logged(a))
  }

  function Turn(s: Store, a: Activity): Step<TurnResult>
    requires Valid(Keying, s)
  {
    if Handled(a) then
      if IsAgentSender(a) then AgentTurn(s, a) else UserTurn(s, a)
    else
      Step(s, TurnResult([], true, false))
  }

  function UserTurn(s: Store, a: Activity): Step<TurnResult>
    requires Valid(Keying, s)
  {
    var ref := ReferenceOf(a);
    var i := UserIndex(s, a);
    var s1 := AfterLog(s, a);
    FindOrCreateKeeps(Keying, s, ref);
    LogKeeps(Keying, FindOrCreate(Keying, s, ref).store, i, LogEntry.Logged(a));
    var user := s1.users[i];
    if user.state == Agent then
      Step(s1, Sends([Forward(user.agentReference.value, Chat(a.text, a.kind))]))
    else if !Truthy(a.text) then
      Step(s1, Sends([]))
    else if Lower(a.text.value) == "agent" then
      Step(QueueForAgent(Keying, s1, ref).store, Sends([Reply(PleaseWait)]))
    else if Lower(a.text.value) == "cancel" then
      Step(DequeueForAgent(Keying, s1, ref).store, Sends([Reply(BackToBot)]))
    else
      Step(s1, TurnResult([], true, false))
  }

  function AgentTurn(s: Store, a: Activity): Step<TurnResult> {
    var ref := ReferenceOf(a);
    var found := FindAgent(Keying, s.users, Key(Keying, ref));
    if found.None? && Truthy(a.text) && !IsCommand(a.text.value) then
      Step(s, TurnResult([], true, false))
    else if found.Some? then
      var user := s.users[found.value];
      if a.text == Some("#disconnect") then
        Step(DisconnectFromAgent(Keying, s, ref).store, Sends([Reply(Disconnected), Forward(user.userReference, AgentLeft)]))
      else if Truthy(a.text) && IsCommand(a.text.value) then
        Step(s, Sends([Reply(NotWhileConnected)]))
      else
        Step(Log(s, found.value, LogEntry.Logged(a)), Sends([Forward(user.userReference, Chat(a.text, a.kind))]))
    else if a.text == Some("#list") then
      var q := QueueOf(s.users);
      Step(s, Sends([Reply(if |q| > 0 then QueueList(Names(s.users, q)) else QueueEmpty)]))
    else if a.text == Some("#connect") then
      ConnectToAgentPopsHead(s, ref);
      var c := ConnectToAgent(s, ref);
      if c.value.Some? then
        var user := c.store.users[c.value.value];
        Step(c.store, Sends([Reply(ConnectedTo(user.userReference.user.name)), Forward(user.userReference, AgentJoined)]))
      else
        Step(s, Sends([Reply(QueueEmpty)]))
    else
      Step(s, Sends([]))
  }

  class HandoverMiddleware {
    const provider: ArrayHandoverProvider

    constructor (provider: ArrayHandoverProvider)
      ensures this.provider == provider
    {
      this.provider := provider;
    }

    method OnTurn(a: Activity) returns (r: TurnResult)
      requires provider.Valid()
      modifies provider
      ensures provider.Valid()
      ensures provider.State() == Turn(old(provider.State()), a).store
      ensures r == Turn(old(provider.State()), a).value
    {
      if a.kind == Message || a.kind == Typing {
        if StartsWith(a.from.id, "dl_agent") {
          r := HandleAgent(a);
        } else {
          r := HandleUser(a);
        }
      } else {
        r := TurnResult([], true, false);
      }
    }

    method HandleAgent(a: Activity) returns (r: TurnResult)
      requires provider.Valid()
      modifies provider
      ensures provider.Valid()
      ensures provider.State() == AgentTurn(old(provider.State()), a).store
      ensures r == AgentTurn(old(provider.State()), a).value
    {
      AgentTurnKeepsValid(provider.State(), a);
      var conversationReference := ReferenceOf(a);
      var text := a.text;
      var user := provider.FindByAgent(conversationReference);
      if user.None? && Truthy(text) && !IsCommand(text.value) {
        return TurnResult([], true, false);
      }
      if user.Some? {
        var bridged := provider.backingStore[user.value];
        if text == Some("#disconnect") {
          var disconnected := provider.DisconnectFromAgent(conversationReference);
          return Sends([Reply(Disconnected), Forward(bridged.userReference, AgentLeft)]);
        } else if Truthy(text) && IsCommand(text.value) {
          return Sends([Reply(NotWhileConnected)]);
        } else {
          provider.Log(user.value, a);
          return Sends([Forward(bridged.userReference, Chat(text, a.kind))]);
        }
      }
      if text == Some("#list") {
        var queue := provider.GetQueue();
        if |queue| > 0 {
          r := Sends([Reply(QueueList(Names(provider.backingStore, queue)))]);
        } else {
          r := Sends([Reply(QueueEmpty)]);
        }
      } else if text == Some("#connect") {
        ConnectToAgentPopsHead(provider.State(), conversationReference);
        var connected := provider.ConnectToAgent(conversationReference);
        if connected.Some? {
          var u := provider.backingStore[connected.value];
          r := Sends([Reply(ConnectedTo(u.userReference.user.name)), Forward(u.userReference, AgentJoined)]);
        } else {
          r := Sends([Reply(QueueEmpty)]);
        }
      } else {
        r := Sends([]);
      }
    }

    method HandleUser(a: Activity) returns (r: TurnResult)
      requires provider.Valid()
      modifies provider
      ensures provider.Valid()
      ensures provider.State() == UserTurn(old(provider.State()), a).store
      ensures r == UserTurn(old(provider.State()), a).value
    {
      UserTurnKeepsValid(provider.State(), a);
      var conversationReference := ReferenceOf(a);
      var i := provider.FindOrCreate(conversationReference);
      provider.Log(i, a);
      var user := provider.backingStore[i];
      var text := a.text;
      if user.state == Agent {
        return Sends([Forward(user.agentReference.value, Chat(text, a.kind))]);
      }
      if !Truthy(text) {
        return Sends([]);
      }
      var lowered := Lower(text.value);
      if lowered == "agent" {
        var queued := provider.QueueForAgent(conversationReference);
        r := Sends([Reply(PleaseWait)]);
      } else if lowered == "cancel" {
        var dequeued := provider.DequeueForAgent(conversationReference);
        r := Sends([Reply(BackToBot)]);
      } else {
        r := TurnResult([], true, false);
      }
    }
  }

  // ---- The invariant ------------------------------------------------------

  /** On a user turn, the record `findOrCreate` returns is found again by
      the later store calls of the same turn. */
  lemma UserRecordStable(s: Store, a: Activity)
    ensures FindUser(Keying, AfterLog(s, a).users, Key(Keying, ReferenceOf(a))) == Some(UserIndex(s, a))
    ensures UserIndex(s, a) < |AfterLog(s, a).users|
  {
    var ref := ReferenceOf(a);
    var f := FindOrCreate(Keying, s, ref);
    FindOrCreateIdempotent(Keying, s, ref, ref);
    FindUserAgree(Keying, f.store.users, AfterLog(s, a).users, Key(Keying, ref));
  }

  lemma UserTurnKeepsValid(s: Store, a: Activity)
    requires Valid(Keying, s)
    ensures Valid(Keying, UserTurn(s, a).store)
  {
    var ref := ReferenceOf(a);
    var f := FindOrCreate(Keying, s, ref);
    FindOrCreateKeeps(Keying, s, ref);
    LogKeeps(Keying, f.store, f.value, LogEntry.Logged(a));
    var s1 := AfterLog(s, a);
    var i := UserIndex(s, a);
    UserRecordStable(s, a);
    assert Valid(Keying, s1);
    if s1.users[i].state == Agent || !Truthy(a.text) {
      assert UserTurn(s, a).store == s1;
    } else if Lower(a.text.value) == "agent" {
      QueueForAgentKeeps(Keying, s1, ref);
      assert UserTurn(s, a).store == QueueForAgent(Keying, s1, ref).store;
    } else if Lower(a.text.value) == "cancel" {
      DequeueForAgentKeeps(Keying, s1, ref);
      assert UserTurn(s, a).store == DequeueForAgent(Keying, s1, ref).store;
    } else {
      assert UserTurn(s, a).store == s1;
    }
  }

  lemma AgentTurnKeepsValid(s: Store, a: Activity)
    requires Valid(Keying, s)
    ensures Valid(Keying, AgentTurn(s, a).store)
  {
    var ref := ReferenceOf(a);
    var found := FindAgent(Keying, s.users, Key(Keying, ref));
    if found.Some? {
      if a.text == Some("#disconnect") {
        DisconnectFromAgentKeeps(Keying, s, ref);
        assert AgentTurn(s, a).store == DisconnectFromAgent(Keying, s, ref).store;
      } else if Truthy(a.text) && IsCommand(a.text.value) {
        assert AgentTurn(s, a).store == s;
      } else {
        LogKeeps(Keying, s, found.value, LogEntry.Logged(a));
        assert AgentTurn(s, a).store == Log(s, found.value, LogEntry.Logged(a));
      }
    } else {
      ConnectToAgentKeeps(Keying, s, ref);
      assert AgentTurn(s, a).store == s || AgentTurn(s, a).store == ConnectToAgent(s, ref).store;
    }
  }

  /** Every turn keeps the store valid: one record per conversation, a queue
      time exactly on Queued records, an agent reference exactly on Agent
      records, no agent bridged to two users, and queue times in the past. */
  lemma TurnKeepsValid(s: Store, a: Activity)
    requires Valid(Keying, s)
    ensures Valid(Keying, Turn(s, a).store)
  {
    if Handled(a) {
      if IsAgentSender(a) {
        AgentTurnKeepsValid(s, a);
      } else {
        UserTurnKeepsValid(s, a);
      }
    }
  }

  // ---- Classification -----------------------------------------------------

  /** Activities other than Message and Typing go to `next()` and change
      nothing. */
  lemma OtherActivitiesPassThrough(s: Store, a: Activity)
    requires Valid(Keying, s) && !Handled(a)
    ensures Turn(s, a) == Step(s, TurnResult([], true, false))
  {
  }

  // ---- User turns ---------------------------------------------------------

  /** `s'` differs from `s` at most in message logs and in one new record,
      appended in state Bot with no references and no queue time. */
  predicate OnlyLogsChanged(s: Store, s': Store) {
    && s'.clock == s.clock
    && |s.users| <= |s'.users| <= |s.users| + 1
    && (forall j :: 0 <= j < |s.users| ==> s'.users[j].(messages := s.users[j].messages) == s.users[j])
    && (forall j :: |s.users| <= j < |s'.users| ==>
          s'.users[j].state == Bot && s'.users[j].agentReference.None? && s'.users[j].queueTime.None?)
  }

  lemma AfterLogOnlyLogs(s: Store, a: Activity)
    ensures OnlyLogsChanged(s, AfterLog(s, a))
    ensures QueueOf(AfterLog(s, a).users) == QueueOf(s.users)
  {
    var ref := ReferenceOf(a);
    var f := FindOrCreate(Keying, s, ref);
    FindOrCreateOnlyLogs(s, ref);
    LogOnlyLogs(s, f.store, f.value, LogEntry.Logged(a));
    FindOrCreateQueue(s, ref);
    LogKeepsQueue(f.store, f.value, LogEntry.Logged(a));
  }

  lemma FindOrCreateOnlyLogs(s: Store, ref: Ref)
    ensures OnlyLogsChanged(s, FindOrCreate(Keying, s, ref).store)
  {
  }

  lemma LogOnlyLogs(s: Store, t: Store, i: nat, e: LogEntry)
    requires OnlyLogsChanged(s, t) && i < |t.users|
    ensures OnlyLogsChanged(s, Log(t, i, e))
  {
    var t' := Log(t, i, e);
    forall j | 0 <= j < |s.users|
      ensures t'.users[j].(messages := s.users[j].messages) == s.users[j]
    {
      assert t'.users[j].(messages := s.users[j].messages) == t.users[j].(messages := s.users[j].messages);
    }
  }

  lemma FindOrCreateQueue(s: Store, ref: Ref)
    ensures QueueOf(FindOrCreate(Keying, s, ref).store.users) == QueueOf(s.users)
  {
    if FindUser(Keying, s.users, Key(Keying, ref)).None? {
      QueueAppend(s.users, NewUser(ref));
    }
  }

  /** Every user turn appends the activity to the log of the record for the
      sender's conversation, created first when there is none; no other log
      changes. */
  lemma UserTurnLogs(s: Store, a: Activity)
    requires Valid(Keying, s) && Handled(a) && !IsAgentSender(a)
    ensures var r := Turn(s, a).store;
            var i := UserIndex(s, a);
            && i < |r.users| && HasKey(Keying, Key(Keying, ReferenceOf(a)), r.users[i])
            && r.users[i].messages == (if i < |s.users| then s.users[i].messages else []) + [LogEntry.Logged(a)]
            && (i < |s.users| <==> FindUser(Keying, s.users, Key(Keying, ReferenceOf(a))).Some?)
            && |r.users| == (if i < |s.users| then |s.users| else |s.users| + 1)
            && (forall j :: 0 <= j < |r.users| && j != i ==> r.users[j].messages == s.users[j].messages)
  {
    UserRecordStable(s, a);
  }

  /** A user bridged to an agent has every activity relayed to that agent,
      `agent` and `cancel` included: only the log changes, and `next()` is not
      called. */
  lemma BridgedUserRelays(s: Store, a: Activity)
    requires Valid(Keying, s) && Handled(a) && !IsAgentSender(a)
    requires StateOf(Keying, s, ReferenceOf(a)) == Agent
    ensures var i := UserIndex(s, a);
            && i < |s.users| && s.users[i].agentReference.Some?
            && Turn(s, a) == Step(Log(s, i, LogEntry.Logged(a)),
                                  Sends([Forward(s.users[i].agentReference.value, Chat(a.text, a.kind))]))
  {
  }

  /** `agent`, in any letter case, from a user who is not bridged: the record
      joins the back of the queue with a stamp later than every earlier one,
      no other record changes, and the user is asked to wait. */
  lemma UserAsksForAgent(s: Store, a: Activity)
    requires Valid(Keying, s) && Handled(a) && !IsAgentSender(a)
    requires StateOf(Keying, s, ReferenceOf(a)) != Agent
    requires a.text.Some? && Lower(a.text.value) == "agent"
    ensures var r := Turn(s, a);
            var i := UserIndex(s, a);
            && r.value == Sends([Reply(PleaseWait)])
            && i < |r.store.users| && r.store.users[i].state == Queued
            && r.store.users[i].queueTime == Some(s.clock)
            && (forall j :: 0 <= j < |s.users| && s.users[j].queueTime.Some? ==> s.users[j].queueTime.value < s.clock)
            && (forall j :: 0 <= j < |s.users| && j != i ==> r.store.users[j] == s.users[j])
            && QueueOf(r.store.users) == Without(QueueOf(s.users), i) + [i]
  {
    var ref := ReferenceOf(a);
    var s1 := AfterLog(s, a);
    assert |Lower(a.text.value)| == |a.text.value|;
    FindOrCreateKeeps(Keying, s, ref);
    LogKeeps(Keying, FindOrCreate(Keying, s, ref).store, UserIndex(s, a), LogEntry.Logged(a));
    UserRecordStable(s, a);
    AfterLogOnlyLogs(s, a);
    assert s1.users[UserIndex(s, a)].state != Agent;
    assert Turn(s, a) == Step(QueueForAgent(Keying, s1, ref).store, Sends([Reply(PleaseWait)]));
    QueueForAgentStamps(Keying, s1, ref);
    QueueForAgentJoinsBack(Keying, s1, ref);
  }

  /** `cancel`, in any letter case, from a user who is not bridged: the record
      goes back to Bot and leaves the queue, the others keep their order, and
      the user is told so. */
  lemma UserCancels(s: Store, a: Activity)
    requires Valid(Keying, s) && Handled(a) && !IsAgentSender(a)
    requires StateOf(Keying, s, ReferenceOf(a)) != Agent
    requires a.text.Some? && Lower(a.text.value) == "cancel"
    ensures var r := Turn(s, a);
            var i := UserIndex(s, a);
            && r.value == Sends([Reply(BackToBot)])
            && i < |r.store.users| && r.store.users[i].state == Bot && r.store.users[i].queueTime.None?
            && (forall j :: 0 <= j < |s.users| && j != i ==> r.store.users[j] == s.users[j])
            && QueueOf(r.store.users) == Without(QueueOf(s.users), i)
  {
    var ref := ReferenceOf(a);
    var s1 := AfterLog(s, a);
    assert |Lower(a.text.value)| == |a.text.value|;
    UserRecordStable(s, a);
    AfterLogOnlyLogs(s, a);
    assert s1.users[UserIndex(s, a)].state != Agent;
    assert Turn(s, a) == Step(DequeueForAgent(Keying, s1, ref).store, Sends([Reply(BackToBot)]));
    DequeueForAgentEffect(Keying, s1, ref);
    DequeueForAgentLeavesQueue(Keying, s1, ref);
  }

  /** Any other text from a user who is not bridged, a queued user included,
      goes to `next()`; an empty text stops the turn. Either way only the log
      changes. */
  lemma UserChatPassesOn(s: Store, a: Activity)
    requires Valid(Keying, s) && Handled(a) && !IsAgentSender(a)
    requires StateOf(Keying, s, ReferenceOf(a)) != Agent
    requires !(a.text.Some? && Lower(a.text.value) in {"agent", "cancel"})
    ensures Turn(s, a).store == AfterLog(s, a) && OnlyLogsChanged(s, AfterLog(s, a))
    ensures Turn(s, a).value == TurnResult([], Truthy(a.text), false)
  {
    UserRecordStable(s, a);
    AfterLogOnlyLogs(s, a);
    FindOrCreateKeeps(Keying, s, ReferenceOf(a));
  }

  // ---- Agent turns --------------------------------------------------------

  /** The agent lookup on the agent's own conversation. */
  function Bridged(s: Store, a: Activity): Option<nat> {
    FindAgent(Keying, s.users, Key(Keying, ReferenceOf(a)))
  }

  /** Plain text from an agent who is not bridged goes to `next()`. */
  lemma UnbridgedAgentChatPassesOn(s: Store, a: Activity)
    requires Valid(Keying, s) && Handled(a) && IsAgentSender(a)
    requires Bridged(s, a).None? && Truthy(a.text) && !IsCommand(a.text.value)
    ensures Turn(s, a) == Step(s, TurnResult([], true, false))
  {
  }

  /** `#disconnect` from a bridged agent: the user goes back to Bot with
      neither agent reference nor queue time, the agent is bridged to no one,
      the queue is unchanged, and both sides are told. */
  lemma BridgedAgentDisconnects(s: Store, a: Activity)
    requires Valid(Keying, s) && Handled(a) && IsAgentSender(a)
    requires Bridged(s, a).Some? && a.text == Some("#disconnect")
    ensures var r := Turn(s, a);
            var i := Bridged(s, a).value;
            && r.value == Sends([Reply(Disconnected), Forward(s.users[i].userReference, AgentLeft)])
            && |r.store.users| == |s.users|
            && r.store.users[i].state == Bot && r.store.users[i].agentReference.None? && r.store.users[i].queueTime.None?
            && (forall j :: 0 <= j < |s.users| && j != i ==> r.store.users[j] == s.users[j])
            && Bridged(r.store, a).None?
            && QueueOf(r.store.users) == QueueOf(s.users)
  {
    DisconnectFromAgentEffect(Keying, s, ReferenceOf(a));
    DisconnectFromAgentKeeps(Keying, s, ReferenceOf(a));
  }

  /** Any other command from a bridged agent is refused and changes nothing. */
  lemma BridgedAgentCommandRefused(s: Store, a: Activity)
    requires Valid(Keying, s) && Handled(a) && IsAgentSender(a)
    requires Bridged(s, a).Some? && a.text != Some("#disconnect")
    requires Truthy(a.text) && IsCommand(a.text.value)
    ensures Turn(s, a) == Step(s, Sends([Reply(NotWhileConnected)]))
  {
  }

  /** Anything else from a bridged agent is logged on the user's record and
      relayed to the user. */
  lemma BridgedAgentRelays(s: Store, a: Activity)
    requires Valid(Keying, s) && Handled(a) && IsAgentSender(a)
    requires Bridged(s, a).Some? && !(Truthy(a.text) && IsCommand(a.text.value))
    ensures var i := Bridged(s, a).value;
            Turn(s, a) == Step(Log(s, i, LogEntry.Logged(a)), Sends([Forward(s.users[i].userReference, Chat(a.text, a.kind))]))
  {
  }

  /** `#list` from an agent who is not bridged lists the queued users' names
      in queue order, or says the queue is empty; nothing changes. */
  lemma AgentLists(s: Store, a: Activity)
    requires Valid(Keying, s) && Handled(a) && IsAgentSender(a)
    requires Bridged(s, a).None? && a.text == Some("#list")
    ensures var q := QueueOf(s.users);
            && Turn(s, a).store == s
            && (q == [] ==> Turn(s, a).value == Sends([Reply(QueueEmpty)]))
            && (q != [] ==> Turn(s, a).value == Sends([Reply(QueueList(Names(s.users, q)))]))
  {
  }

  /** `#connect` from an agent who is not bridged: with an empty queue, the
      agent is told so and nothing changes; otherwise the head of the queue
      is bridged to the agent, leaves the queue, and both sides are told. */
  lemma AgentConnects(s: Store, a: Activity)
    requires Valid(Keying, s) && Handled(a) && IsAgentSender(a)
    requires Bridged(s, a).None? && a.text == Some("#connect")
    ensures var q := QueueOf(s.users);
            var r := Turn(s, a);
            && (q == [] ==> r == Step(s, Sends([Reply(QueueEmpty)])))
            && (q != [] ==>
                  var h := q[0];
                  && h < |s.users|
                  && r.value == Sends([Reply(ConnectedTo(s.users[h].userReference.user.name)), Forward(s.users[h].userReference, AgentJoined)])
                  && r.store.users[h].state == Agent && r.store.users[h].agentReference == Some(ReferenceOf(a))
                  && r.store.users[h].queueTime.None?
                  && (forall j :: 0 <= j < |s.users| && j != h ==> r.store.users[j] == s.users[j])
                  && Bridged(r.store, a) == Some(h)
                  && QueueOf(r.store.users) == q[1..])
  {
    ConnectToAgentPopsHead(s, ReferenceOf(a));
    ConnectToAgentBridges(Keying, s, ReferenceOf(a));
  }

  /** Any other command from an agent who is not bridged gets no reply and
      does not reach `next()`. */
  lemma UnbridgedAgentOtherCommandIgnored(s: Store, a: Activity)
    requires Valid(Keying, s) && Handled(a) && IsAgentSender(a)
    requires Bridged(s, a).None? && Truthy(a.text) && IsCommand(a.text.value)
    requires a.text.value != "#list" && a.text.value != "#connect"
    ensures Turn(s, a) == Step(s, Sends([]))
  {
  }

  // ---- Conversations ------------------------------------------------------

  /** A user the store has not seen asks for an agent: one record is
      appended, Queued at the back of the queue; no other record changes. */
  lemma NewUserAsks(s: Store, u: Account, c: string, text: string)
    requires Valid(Keying, s) && !StartsWith(u.id, "dl_agent")
    requires FindUser(Keying, s.users, c).None? && Lower(text) == "agent"
    ensures var r := Turn(s, Activity(Message, u, c, Some(text)));
            && Valid(Keying, r.store) && r.value == Sends([Reply(PleaseWait)])
            && |r.store.users| == |s.users| + 1
            && (forall j :: 0 <= j < |s.users| ==> r.store.users[j] == s.users[j])
            && r.store.users[|s.users|].userReference == Ref(u, c)
            && r.store.users[|s.users|].state == Queued
            && r.store.users[|s.users|].agentReference.None?
            && QueueOf(r.store.users) == QueueOf(s.users) + [|s.users|]
  {
    NewUserAsksRecord(s, u, c, text);
    TurnKeepsValid(s, Activity(Message, u, c, Some(text)));
  }

  lemma NewUserAsksRecord(s: Store, u: Account, c: string, text: string)
    requires Valid(Keying, s) && !StartsWith(u.id, "dl_agent")
    requires FindUser(Keying, s.users, c).None? && Lower(text) == "agent"
    ensures var r := Turn(s, Activity(Message, u, c, Some(text)));
            && r.value == Sends([Reply(PleaseWait)])
            && |r.store.users| == |s.users| + 1
            && (forall j :: 0 <= j < |s.users| ==> r.store.users[j] == s.users[j])
            && r.store.users[|s.users|].userReference == Ref(u, c)
            && r.store.users[|s.users|].state == Queued
            && r.store.users[|s.users|].agentReference.None?
            && QueueOf(r.store.users) == QueueOf(s.users) + [|s.users|]
  {
    var a := Activity(Message, u, c, Some(text));
    var ref := ReferenceOf(a);
    assert |Lower(text)| == |text|;
    assert Key(Keying, ref) == c;
    assert FindOrCreate(Keying, s, ref) == Step(Store(s.users + [NewUser(ref)], s.clock), |s.users|);
    var s1 := AfterLog(s, a);
    assert |s1.users| == |s.users| + 1 && s1.users[|s.users|] == NewUser(ref).(messages := [LogEntry.Logged(a)]);
    UserAsksForAgent(s, a);
    NewUserJoinsQueue(s, QueueOf(s.users), QueueOf(Turn(s, a).store.users), UserIndex(s, a));
    assert Turn(s, a).store == QueueForAgent(Keying, s1, ref).store;
  }

  lemma NewUserJoinsQueue(s: Store, q: seq<nat>, q': seq<nat>, i: nat)
    requires q == QueueOf(s.users) && i == |s.users| && q' == Without(q, i) + [i]
    ensures q' == q + [i]
  {
    QueueMembership(s.users, i);
    WithoutAbsent(q, i);
  }

  /** The only record, queued, cancels: it is Bot again and the queue is
      empty. */
  lemma OnlyUserCancels(s: Store, u: Account, c: string)
    requires Valid(Keying, s) && !StartsWith(u.id, "dl_agent")
    requires |s.users| == 1 && s.users[0].userReference.conversationId == c && QueueOf(s.users) == [0]
    ensures var r := Turn(s, Activity(Message, u, c, Some("CANCEL")));
            && Valid(Keying, r.store) && r.value == Sends([Reply(BackToBot)])
            && |r.store.users| == 1 && r.store.users[0].agentReference.None?
            && QueueOf(r.store.users) == []
  {
    var a := Activity(Message, u, c, Some("CANCEL"));
    assert Lower("CANCEL") == "cancel";
    assert FindUser(Keying, s.users, c) == Some(0);
    QueueMembership(s.users, 0);
    UserCancels(s, a);
    UserTurnLogs(s, a);
    TurnKeepsValid(s, a);
    assert UserIndex(s, a) == 0;
  }

  /** Agent `g` connects to a store of one queued record no agent is bridged
      to: the two are then a bridged pair. */
  lemma ConnectOnlyUser(s: Store, g: Account, gc: string)
    requires Valid(Keying, s) && StartsWith(g.id, "dl_agent")
    requires |s.users| == 1 && QueueOf(s.users) == [0] && s.users[0].agentReference.None?
    ensures var r := Turn(s, Activity(Message, g, gc, Some("#connect")));
            var userRef := s.users[0].userReference;
            && r.value == Sends([Reply(ConnectedTo(userRef.user.name)), Forward(userRef, AgentJoined)])
            && BridgedPair(r.store, userRef, Ref(g, gc))
  {
    var a := Activity(Message, g, gc, Some("#connect"));
    assert FindAgent(Keying, s.users, gc).None?;
    ConnectToAgentPopsHead(s, ReferenceOf(a));
    AgentConnects(s, a);
    TurnKeepsValid(s, a);
  }

  /** One record, for `userRef`, bridged to `agentRef`, and an empty queue. */
  predicate BridgedPair(s: Store, userRef: Ref, agentRef: Ref) {
    && Valid(Keying, s) && |s.users| == 1
    && s.users[0].userReference == userRef
    && s.users[0].state == Agent && s.users[0].agentReference == Some(agentRef)
    && QueueOf(s.users) == []
  }

  /** The user's chat reaches the agent and the pair stays bridged. */
  lemma PairUserChats(s: Store, user: Account, conv: string, agentRef: Ref, t: string)
    requires BridgedPair(s, Ref(user, conv), agentRef) && !StartsWith(user.id, "dl_agent")
    ensures var r := Turn(s, Activity(Message, user, conv, Some(t)));
            && r.value == Sends([Forward(agentRef, Chat(Some(t), Message))])
            && BridgedPair(r.store, Ref(user, conv), agentRef)
  {
    var a := Activity(Message, user, conv, Some(t));
    assert FindUser(Keying, s.users, conv) == Some(0);
    BridgedUserRelays(s, a);
    TurnKeepsValid(s, a);
    LogKeepsQueue(s, 0, LogEntry.Logged(a));
  }

  /** The agent's plain chat reaches the user and the pair stays bridged. */
  lemma PairAgentChats(s: Store, userRef: Ref, agent: Account, agentConv: string, t: string)
    requires BridgedPair(s, userRef, Ref(agent, agentConv)) && StartsWith(agent.id, "dl_agent") && !IsCommand(t)
    ensures var r := Turn(s, Activity(Message, agent, agentConv, Some(t)));
            && r.value == Sends([Forward(userRef, Chat(Some(t), Message))])
            && BridgedPair(r.store, userRef, Ref(agent, agentConv))
  {
    var a := Activity(Message, agent, agentConv, Some(t));
    assert FindAgent(Keying, s.users, agentConv) == Some(0);
    BridgedAgentRelays(s, a);
    TurnKeepsValid(s, a);
    LogKeepsQueue(s, 0, LogEntry.Logged(a));
  }

  /** The agent's `#disconnect` gives the user back to the bot. */
  lemma PairAgentLeaves(s: Store, userRef: Ref, agent: Account, agentConv: string)
    requires BridgedPair(s, userRef, Ref(agent, agentConv)) && StartsWith(agent.id, "dl_agent")
    ensures var r := Turn(s, Activity(Message, agent, agentConv, Some("#disconnect")));
            && r.value == Sends([Reply(Disconnected), Forward(userRef, AgentLeft)])
            && Valid(Keying, r.store) && |r.store.users| == 1
            && r.store.users[0].state == Bot && r.store.users[0].agentReference.None?
            && QueueOf(r.store.users) == []
  {
    var a := Activity(Message, agent, agentConv, Some("#disconnect"));
    assert FindAgent(Keying, s.users, agentConv) == Some(0);
    BridgedAgentDisconnects(s, a);
    TurnKeepsValid(s, a);
  }

  /** A whole hand-off from an empty store: the user asks for an agent, an
      agent connects, each side's chat reaches the other, and the agent's
      `#disconnect` gives the user back to the bot. */
  lemma HandoffCycle(user: Account, conv: string, agent: Account, agentConv: string, t: string, t': string)
    requires !StartsWith(user.id, "dl_agent") && StartsWith(agent.id, "dl_agent")
    requires !IsCommand(t')
    ensures var userRef := Ref(user, conv);
            var agentRef := Ref(agent, agentConv);
            var ask := Turn(Store([], 0), Activity(Message, user, conv, Some("Agent")));
            && Valid(Keying, ask.store)
            && ask.value == Sends([Reply(PleaseWait)])
            && var connect := Turn(ask.store, Activity(Message, agent, agentConv, Some("#connect")));
            && Valid(Keying, connect.store)
            && connect.value == Sends([Reply(ConnectedTo(user.name)), Forward(userRef, AgentJoined)])
            && var chat := Turn(connect.store, Activity(Message, user, conv, Some(t)));
            && Valid(Keying, chat.store)
            && chat.value == Sends([Forward(agentRef, Chat(Some(t), Message))])
            && var answer := Turn(chat.store, Activity(Message, agent, agentConv, Some(t')));
            && Valid(Keying, answer.store)
            && answer.value == Sends([Forward(userRef, Chat(Some(t'), Message))])
            && var leave := Turn(answer.store, Activity(Message, agent, agentConv, Some("#disconnect")));
            && leave.value == Sends([Reply(Disconnected), Forward(userRef, AgentLeft)])
            && |leave.store.users| == 1
            && leave.store.users[0].state == Bot && leave.store.users[0].agentReference.None?
            && QueueOf(leave.store.users) == []
  {
    var userRef := Ref(user, conv);
    var agentRef := Ref(agent, agentConv);
    var s0 := Store([], 0);
    assert Lower("Agent") == "agent";
    NewUserAsks(s0, user, conv, "Agent");
    var s1 := Turn(s0, Activity(Message, user, conv, Some("Agent"))).store;
    ConnectOnlyUser(s1, agent, agentConv);
    var s2 := Turn(s1, Activity(Message, agent, agentConv, Some("#connect"))).store;
    PairUserChats(s2, user, conv, agentRef, t);
    var s3 := Turn(s2, Activity(Message, user, conv, Some(t))).store;
    PairAgentChats(s3, userRef, agent, agentConv, t');
    var s4 := Turn(s3, Activity(Message, agent, agentConv, Some(t'))).store;
    PairAgentLeaves(s4, userRef, agent, agentConv);
  }

  /** Two users ask for an agent in turn and two agents connect: the first
      agent gets the first user to ask, the second agent the other, and a
      third agent's `#connect` finds the queue empty. */
  lemma FirstComeFirstServed(u1: Account, c1: string, u2: Account, c2: string,
                             g1: Account, gc1: string, g2: Account, gc2: string, g3: Account, gc3: string)
    requires !StartsWith(u1.id, "dl_agent") && !StartsWith(u2.id, "dl_agent")
    requires StartsWith(g1.id, "dl_agent") && StartsWith(g2.id, "dl_agent") && StartsWith(g3.id, "dl_agent")
    requires c1 != c2 && gc1 != gc2 && gc3 != gc1 && gc3 != gc2
    ensures var ask1 := Turn(Store([], 0), Activity(Message, u1, c1, Some("agent")));
            && Valid(Keying, ask1.store)
            && var ask2 := Turn(ask1.store, Activity(Message, u2, c2, Some("agent")));
            && Valid(Keying, ask2.store)
            && var first := Turn(ask2.store, Activity(Message, g1, gc1, Some("#connect")));
            && first.value == Sends([Reply(ConnectedTo(u1.name)), Forward(Ref(u1, c1), AgentJoined)])
            && Valid(Keying, first.store)
            && var second := Turn(first.store, Activity(Message, g2, gc2, Some("#connect")));
            && second.value == Sends([Reply(ConnectedTo(u2.name)), Forward(Ref(u2, c2), AgentJoined)])
            && Valid(Keying, second.store)
            && var third := Turn(second.store, Activity(Message, g3, gc3, Some("#connect")));
            && third.value == Sends([Reply(QueueEmpty)])
  {
    AskTwice(u1, c1, u2, c2);
    var s2 := Turn(Turn(Store([], 0), Activity(Message, u1, c1, Some("agent"))).store,
                   Activity(Message, u2, c2, Some("agent"))).store;
    ServeTwo(s2, g1, gc1, g2, gc2, g3, gc3);
  }

  /** Agents connecting one after another to a store whose queue holds two
      records that no agent is bridged to. */
  lemma ServeTwo(s: Store, g1: Account, gc1: string, g2: Account, gc2: string, g3: Account, gc3: string)
    requires Valid(Keying, s) && |s.users| == 2 && QueueOf(s.users) == [0, 1]
    requires s.users[0].agentReference.None? && s.users[1].agentReference.None?
    requires StartsWith(g1.id, "dl_agent") && StartsWith(g2.id, "dl_agent") && StartsWith(g3.id, "dl_agent")
    requires gc1 != gc2 && gc3 != gc1 && gc3 != gc2
    ensures var first := Turn(s, Activity(Message, g1, gc1, Some("#connect")));
            && first.value == Sends([Reply(ConnectedTo(s.users[0].userReference.user.name)), Forward(s.users[0].userReference, AgentJoined)])
            && Valid(Keying, first.store)
            && var second := Turn(first.store, Activity(Message, g2, gc2, Some("#connect")));
            && second.value == Sends([Reply(ConnectedTo(s.users[1].userReference.user.name)), Forward(s.users[1].userReference, AgentJoined)])
            && Valid(Keying, second.store)
            && var third := Turn(second.store, Activity(Message, g3, gc3, Some("#connect")));
            && third.value == Sends([Reply(QueueEmpty)])
  {
    var a3 := Activity(Message, g1, gc1, Some("#connect"));
    AgentConnects(s, a3);
    TurnKeepsValid(s, a3);
    var s3 := Turn(s, a3).store;
    assert QueueOf(s3.users) == [1];
    ServeOne(s3, g2, gc2, g3, gc3);
  }

  /** The same with one queued record left, at position 1. */
  lemma ServeOne(s: Store, g2: Account, gc2: string, g3: Account, gc3: string)
    requires Valid(Keying, s) && |s.users| == 2 && QueueOf(s.users) == [1]
    requires s.users[1].agentReference.None?
    requires s.users[0].agentReference.Some? && Key(Keying, s.users[0].agentReference.value) !in {gc2, gc3}
    requires StartsWith(g2.id, "dl_agent") && StartsWith(g3.id, "dl_agent") && gc3 != gc2
    ensures var second := Turn(s, Activity(Message, g2, gc2, Some("#connect")));
            && second.value == Sends([Reply(ConnectedTo(s.users[1].userReference.user.name)), Forward(s.users[1].userReference, AgentJoined)])
            && Valid(Keying, second.store)
            && var third := Turn(second.store, Activity(Message, g3, gc3, Some("#connect")));
            && third.value == Sends([Reply(QueueEmpty)])
  {
    var a4 := Activity(Message, g2, gc2, Some("#connect"));
    assert FindAgent(Keying, s.users, gc2).None? by {
      assert !BridgedTo(Keying, gc2, s.users[0]);
    }
    AgentConnects(s, a4);
    TurnKeepsValid(s, a4);
    var s4 := Turn(s, a4).store;

    var a5 := Activity(Message, g3, gc3, Some("#connect"));
    assert FindAgent(Keying, s4.users, gc3).None? by {
      assert !BridgedTo(Keying, gc3, s4.users[0]) && !BridgedTo(Keying, gc3, s4.users[1]);
    }
    AgentConnects(s4, a5);
  }

  /** Two users ask for an agent in turn on an empty store: both are queued,
      the first to ask at the head. */
  lemma AskTwice(u1: Account, c1: string, u2: Account, c2: string)
    requires !StartsWith(u1.id, "dl_agent") && !StartsWith(u2.id, "dl_agent") && c1 != c2
    ensures var s1 := Turn(Store([], 0), Activity(Message, u1, c1, Some("agent"))).store;
            && Valid(Keying, s1)
            && var s2 := Turn(s1, Activity(Message, u2, c2, Some("agent"))).store;
            && Valid(Keying, s2) && |s2.users| == 2 && QueueOf(s2.users) == [0, 1]
            && s2.users[0].userReference == Ref(u1, c1) && s2.users[1].userReference == Ref(u2, c2)
            && s2.users[0].agentReference.None? && s2.users[1].agentReference.None?
  {
    var s0 := Store([], 0);
    assert Lower("agent") == "agent";
    NoneQueued(s0.users);
    NewUserAsks(s0, u1, c1, "agent");
    var s1 := Turn(s0, Activity(Message, u1, c1, Some("agent"))).store;
    assert |s1.users| == 1 && s1.users[0].userReference == Ref(u1, c1) && QueueOf(s1.users) == [0];
    assert !HasKey(Keying, c2, s1.users[0]);
    assert FindUser(Keying, s1.users, c2).None?;
    NewUserAsks(s1, u2, c2, "agent");
    var s2 := Turn(s1, Activity(Message, u2, c2, Some("agent"))).store;
    assert QueueOf(s2.users) == [0] + [1];
  }

  /** A user who asks for an agent and then cancels is no longer in the
      queue: an agent's `#connect` finds it empty. */
  lemma CancelBeforeConnect(user: Account, conv: string, agent: Account, agentConv: string)
    requires !StartsWith(user.id, "dl_agent") && StartsWith(agent.id, "dl_agent")
    ensures var ask := Turn(Store([], 0), Activity(Message, user, conv, Some("agent")));
            && Valid(Keying, ask.store)
            && var cancel := Turn(ask.store, Activity(Message, user, conv, Some("CANCEL")));
            && cancel.value == Sends([Reply(BackToBot)])
            && Valid(Keying, cancel.store)
            && var connect := Turn(cancel.store, Activity(Message, agent, agentConv, Some("#connect")));
            && connect == Step(cancel.store, Sends([Reply(QueueEmpty)]))
  {
    var s0 := Store([], 0);
    assert Lower("agent") == "agent";
    NewUserAsks(s0, user, conv, "agent");
    var s1 := Turn(s0, Activity(Message, user, conv, Some("agent"))).store;
    OnlyUserCancels(s1, user, conv);
    var s2 := Turn(s1, Activity(Message, user, conv, Some("CANCEL"))).store;
    var a3 := Activity(Message, agent, agentConv, Some("#connect"));
    assert FindAgent(Keying, s2.users, agentConv).None?;
    AgentConnects(s2, a3);
  }
}
