/** The JavaScript variant: its `ArrayHandoverProvider`, whose records are
    identified by `user.id` and whose `disconnectFromAgent` leaves the agent
    reference in place, and its `HandoverMiddleware`, which routes only
    Message activities, keeps no log, and never passes an agent's turn on.
    As in the TypeScript variant, `Turn` gives a turn's effect as a function
    and the classes' methods are proved to agree with it. */
module JsHandover {
  import opened Handoff
  import opened QueueView
  import opened StoreSpec

  /** The JavaScript store compares references by `user.id`. */
  const Keying: Identity := ByUser

  /** JavaScript `disconnectFromAgent`: the record bridged to `agent` goes
      back to Bot and loses its queue time. It clears a field named
      `agentContext`, which nothing reads, so the agent reference stays. */
  function DisconnectKeepingReference(s: Store, agent: Ref): Step<nat>
    requires FindAgent(Keying, s.users, Key(Keying, agent)).Some?
  {
    var i := FindAgent(Keying, s.users, Key(Keying, agent)).value;
    Step(s.(users := s.users[i := s.users[i].(state := Bot, queueTime := None)]), i)
  }

  class ArrayHandoverProvider {
    var backingStore: seq<User>
    /** The logical clock standing for `new Date()`. */
    var clock: nat

    function State(): Store
      reads this
    {
      Store(backingStore, clock)
    }

    /** What this variant keeps (it cannot keep "agent reference only when
        Agent", see `DisconnectBreaksReferenceInvariant`). */
    ghost predicate Valid()
      reads this
    {
      Consistent(Keying, State())
    }

    /** The store starts as the array handed in, empty by default. */
    constructor (backingStore: seq<User> := [], clock: nat := 0)
      ensures State() == Store(backingStore, clock)
      ensures backingStore == [] ==> Valid()
    {
      this.backingStore := backingStore;
      this.clock := clock;
    }

    method FindOrCreate(userReference: Ref) returns (i: nat)
      modifies this
      ensures State() == StoreSpec.FindOrCreate(Keying, old(State()), userReference).store
      ensures i == StoreSpec.FindOrCreate(Keying, old(State()), userReference).value
    {
      var result := FindUser(Keying, backingStore, Key(Keying, userReference));
      if result.Some? {
        return result.value;
      }
      backingStore := backingStore + [NewUser(userReference)];
      i := |backingStore| - 1;
    }

    method Log(i: nat, from: string, text: Option<string>)
      requires i < |backingStore|
      modifies this
      ensures State() == StoreSpec.Log(old(State()), i, Noted(from, text))
    {
      backingStore := backingStore[i := backingStore[i].(messages := backingStore[i].messages + [Noted(from, text)])];
    }

    /** `findByAgent`: the first record whose agent reference has the
        agent's user id, if any. */
    function FindByAgent(agentReference: Ref): (r: Option<nat>)
      reads this
      ensures r.Some? ==> r.value < |backingStore| && BridgedTo(Keying, Key(Keying, agentReference), backingStore[r.value])
      ensures r.Some? ==> forall j :: 0 <= j < r.value ==> !BridgedTo(Keying, Key(Keying, agentReference), backingStore[j])
      ensures r.None? <==> forall j :: 0 <= j < |backingStore| ==> !BridgedTo(Keying, Key(Keying, agentReference), backingStore[j])
    {
      FindAgent(Keying, backingStore, Key(Keying, agentReference))
    }

    method QueueForAgent(userReference: Ref) returns (i: nat)
      modifies this
      ensures State() == StoreSpec.QueueForAgent(Keying, old(State()), userReference).store
      ensures i == StoreSpec.QueueForAgent(Keying, old(State()), userReference).value
      ensures old(Valid()) ==> Valid()
    {
      if StoreSpec.Consistent(Keying, State()) {
        StoreSpec.QueueForAgentKeeps(Keying, State(), userReference);
      }
      i := FindOrCreate(userReference);
      backingStore := backingStore[i := backingStore[i].(state := Queued)];
      backingStore := backingStore[i := backingStore[i].(queueTime := Some(clock))];
      clock := clock + 1;
    }

    method UnqueueForAgent(userReference: Ref) returns (i: nat)
      modifies this
      ensures State() == StoreSpec.DequeueForAgent(Keying, old(State()), userReference).store
      ensures i == StoreSpec.DequeueForAgent(Keying, old(State()), userReference).value
    {
      i := FindOrCreate(userReference);
      backingStore := backingStore[i := backingStore[i].(state := Bot)];
      backingStore := backingStore[i := backingStore[i].(queueTime := None)];
    }

    method ConnectToAgent(agentReference: Ref) returns (r: Option<nat>)
      modifies this
      ensures State() == StoreSpec.ConnectToAgent(old(State()), agentReference).store
      ensures r == StoreSpec.ConnectToAgent(old(State()), agentReference).value
      ensures old(Valid()) && old(FindByAgent(agentReference)).None? ==> Valid()
    {
      if StoreSpec.Consistent(Keying, State()) && FindByAgent(agentReference).None? {
        StoreSpec.ConnectToAgentKeeps(Keying, State(), agentReference);
      }
      var queue := GetQueue();
      if |queue| > 0 {
        var h := queue[0];
        assert h in queue;
        backingStore := backingStore[h := backingStore[h].(state := Agent)];
        backingStore := backingStore[h := backingStore[h].(queueTime := None)];
        backingStore := backingStore[h := backingStore[h].(agentReference := Some(agentReference))];
        return Some(h);
      }
      return None;
    }

    method DisconnectFromAgent(agentReference: Ref) returns (i: nat)
      requires FindByAgent(agentReference).Some?
      modifies this
      ensures State() == DisconnectKeepingReference(old(State()), agentReference).store
      ensures i == DisconnectKeepingReference(old(State()), agentReference).value
    {
      var user := FindByAgent(agentReference);
      i := user.value;
      backingStore := backingStore[i := backingStore[i].(state := Bot)];
      backingStore := backingStore[i := backingStore[i].(queueTime := None)];
    }

    /** `getQueue`, in the intended order (see QueueView): every Queued
        record once, earliest queue time first. */
    function GetQueue(): (queue: seq<nat>)
      reads this
      ensures forall x :: x in queue <==> 0 <= x < |backingStore| && backingStore[x].state == Queued
      ensures forall a, b :: 0 <= a < b < |queue| ==> queue[a] != queue[b]
      ensures forall a, b :: 0 <= a < b < |queue| ==> TimeAt(backingStore, queue[a]) <= TimeAt(backingStore, queue[b])
    {
      QueueMembers(backingStore);
      QueueMembership(backingStore, 0);
      QueueAscending(backingStore);
      QueueOf(backingStore)
    }
  }

  // ---- The router ---------------------------------------------------------

  /** Only Message activities enter the hand-off logic. */
  predicate Handled(a: Activity) {
    a.kind == Message
  }

  /** A sender whose display name, lower-cased, starts with `agent` is an agent. */
  predicate IsAgentSender(a: Activity) {
    StartsWith(Lower(a.from.name), "agent")
  }

  /** The record a user turn reads. */
  function UserIndex(s: Store, a: Activity): nat {
    FindOrCreate(Keying, s, ReferenceOf(a)).value
  }

  function Turn(s: Store, a: Activity): Step<TurnResult>
    requires Consistent(Keying, s)
  {
    if !Handled(a) then Step(s, TurnResult([], true, false))
    else if IsAgentSender(a) then AgentTurn(s, a)
    else UserTurn(s, a)
  }

  /** `manageUser`. Reading `text.toLowerCase()` of an activity without text
      throws, which ends the turn as rejected. */
  function UserTurn(s: Store, a: Activity): Step<TurnResult>
    requires Consistent(Keying, s)
  {
    var ref := ReferenceOf(a);
    var f := FindOrCreate(Keying, s, ref);
    FindOrCreateKeeps(Keying, s, ref);
    var user := f.store.users[f.value];
    if user.state == Agent then
      Step(f.store, Sends([Forward(user.agentReference.value, Chat(a.text, Message))]))
    else if a.text.None? then
      Step(f.store, TurnResult([], false, true))
    else if Lower(a.text.value) == "agent" then
      Step(QueueForAgent(Keying, f.store, ref).store, Sends([Reply(PleaseWait)]))
    else if Lower(a.text.value) == "cancel" then
      Step(DequeueForAgent(Keying, f.store, ref).store, Sends([Reply(BackToBot)]))
    else
      Step(f.store, TurnResult([], true, false))
  }

  /** `manageAgent`. Reading `text.indexOf` of an activity without text throws
      on the bridged path. */
  function AgentTurn(s: Store, a: Activity): Step<TurnResult> {
    var ref := ReferenceOf(a);
    var found := FindAgent(Keying, s.users, Key(Keying, ref));
    if found.Some? then
      var user := s.users[found.value];
      if a.text == Some("#disconnect") then
        Step(DisconnectKeepingReference(s, ref).store, Sends([Reply(Disconnected), Forward(user.userReference, AgentLeft)]))
      else if a.text.None? then
        Step(s, TurnResult([], false, true))
      else if IsCommand(a.text.value) then
        Step(s, Sends([Reply(NotWhileConnected)]))
      else
        Step(s, Sends([Forward(user.userReference, Chat(a.text, Message))]))
    else if a.text == Some("#list") then
      var q := QueueOf(s.users);
      Step(s, Sends([Reply(if |q| > 0 then QueueList(Names(s.users, q)) else QueueEmpty)]))
    else if a.text == Some("#connect") then
      ConnectToAgentPopsHead(s, ref);
      var c := ConnectToAgent(s, ref);
      if c.value.Some? then
        var user := c.store.users[c.value.value];
        Step(c.store, Sends([Reply(ConnectedTo(user.userReference.user.name)), Forward(user.userReference, AgentJoined)]))
      else
        Step(s, Sends([Reply(QueueEmpty)]))
    else
      Step(s, Sends([]))
  }

  class HandoverMiddleware {
    const provider: ArrayHandoverProvider

    constructor (provider: ArrayHandoverProvider)
      ensures this.provider == provider
    {
      this.provider := provider;
    }

    method OnTurn(a: Activity) returns (r: TurnResult)
      requires provider.Valid()
      modifies provider
      ensures provider.Valid()
      ensures provider.State() == Turn(old(provider.State()), a).store
      ensures r == Turn(old(provider.State()), a).value
    {
      if a.kind != Message {
        return TurnResult([], true, false);
      }
      if StartsWith(Lower(a.from.name), "agent") {
        r := ManageAgent(a);
      } else {
        r := ManageUser(a);
      }
    }

    method ManageUser(a: Activity) returns (r: TurnResult)
      requires provider.Valid()
      modifies provider
      ensures provider.Valid()
      ensures provider.State() == UserTurn(old(provider.State()), a).store
      ensures r == UserTurn(old(provider.State()), a).value
    {
      UserTurnKeepsConsistent(provider.State(), a);
      var conversationReference := ReferenceOf(a);
      var i := provider.FindOrCreate(conversationReference);
      var user := provider.backingStore[i];
      var text := a.text;
      if user.state == Agent {
        return Sends([Forward(user.agentReference.value, Chat(text, Message))]);
      }
      if text.None? {
        return TurnResult([], false, true);
      }
      var lowered := Lower(text.value);
      if lowered == "agent" {
        var queued := provider.QueueForAgent(conversationReference);
        r := Sends([Reply(PleaseWait)]);
      } else if lowered == "cancel" {
        var unqueued := provider.UnqueueForAgent(conversationReference);
        r := Sends([Reply(BackToBot)]);
      } else {
        r := TurnResult([], true, false);
      }
    }

    method ManageAgent(a: Activity) returns (r: TurnResult)
      requires provider.Valid()
      modifies provider
      ensures provider.Valid()
      ensures provider.State() == AgentTurn(old(provider.State()), a).store
      ensures r == AgentTurn(old(provider.State()), a).value
    {
      AgentTurnKeepsConsistent(provider.State(), a);
      var conversationReference := ReferenceOf(a);
      var user := provider.FindByAgent(conversationReference);
      var text := a.text;
      if user.Some? {
        var bridged := provider.backingStore[user.value];
        if text == Some("#disconnect") {
          var disconnected := provider.DisconnectFromAgent(conversationReference);
          return Sends([Reply(Disconnected), Forward(bridged.userReference, AgentLeft)]);
        } else if text.None? {
          return TurnResult([], false, true);
        } else if IsCommand(text.value) {
          return Sends([Reply(NotWhileConnected)]);
        } else {
          return Sends([Forward(bridged.userReference, Chat(text, Message))]);
        }
      }
      if text == Some("#list") {
        var queue := provider.GetQueue();
        if |queue| != 0 {
          r := Sends([Reply(QueueList(Names(provider.backingStore, queue)))]);
        } else {
          r := Sends([Reply(QueueEmpty)]);
        }
      } else if text == Some("#connect") {
        ConnectToAgentPopsHead(provider.State(), conversationReference);
        var connected := provider.ConnectToAgent(conversationReference);
        if connected.Some? {
          var u := provider.backingStore[connected.value];
          r := Sends([Reply(ConnectedTo(u.userReference.user.name)), Forward(u.userReference, AgentJoined)]);
        } else {
          r := Sends([Reply(QueueEmpty)]);
        }
      } else {
        r := Sends([]);
      }
    }
  }

  // ---- disconnectFromAgent ------------------------------------------------

  /** The bridged record goes back to Bot without a queue time, keeps its
      agent reference, and so is still the one `findByAgent` returns for that
      agent; no other record changes. Since a record keeps a stale reference
      when its user later queues again, the record may be leaving the queue:
      the others keep their order. */
  lemma DisconnectKeepsBridge(s: Store, agent: Ref)
    requires FindAgent(Keying, s.users, Key(Keying, agent)).Some?
    ensures var r := DisconnectKeepingReference(s, agent);
            var i := r.value;
            && i == FindAgent(Keying, s.users, Key(Keying, agent)).value
            && |r.store.users| == |s.users|
            && r.store.users[i] == s.users[i].(state := Bot, queueTime := None)
            && (forall j :: 0 <= j < |s.users| && j != i ==> r.store.users[j] == s.users[j])
            && FindAgent(Keying, r.store.users, Key(Keying, agent)) == Some(i)
            && QueueOf(r.store.users) == Without(QueueOf(s.users), i)
  {
    var i := FindAgent(Keying, s.users, Key(Keying, agent)).value;
    var u := s.users[i].(state := Bot, queueTime := None);
    var users := DisconnectKeepingReference(s, agent).store.users;
    assert users == s.users[i := u];
    UpdateOnly(s.users, i, u, users);
    DisconnectKeepsAgentFound(s.users, i, u, Key(Keying, agent));
    DisconnectLeavesQueue(s.users, i, u, users);
  }

  lemma UpdateOnly(users: seq<User>, i: nat, u: User, users': seq<User>)
    requires i < |users| && users' == users[i := u]
    ensures |users'| == |users| && users'[i] == u
    ensures forall j :: 0 <= j < |users| && j != i ==> users'[j] == users[j]
  {
  }

  lemma DisconnectLeavesQueue(users: seq<User>, i: nat, u: User, users': seq<User>)
    requires i < |users| && u.state == Bot && users' == users[i := u]
    ensures QueueOf(users') == Without(QueueOf(users), i)
  {
    QueueLeave(users, i, u);
  }

  /** Changing a record without touching its agent reference leaves
      `findByAgent` as it was. */
  lemma DisconnectKeepsAgentFound(users: seq<User>, i: nat, u: User, id: string)
    requires i < |users| && u.agentReference == users[i].agentReference
    ensures FindAgent(Keying, users[i := u], id) == FindAgent(Keying, users, id)
  {
    FindAgentAgree(Keying, users, users[i := u], id);
  }

  /** In this variant "an agent reference only on Agent records" fails after
      every disconnect. */
  lemma DisconnectBreaksReferenceInvariant(s: Store, agent: Ref)
    requires FindAgent(Keying, s.users, Key(Keying, agent)).Some?
    ensures !ReferenceOnlyWhenAgent(DisconnectKeepingReference(s, agent).store.users)
  {
    var r := DisconnectKeepingReference(s, agent);
    assert r.store.users[r.value].agentReference.Some? && r.store.users[r.value].state == Bot;
  }

  lemma DisconnectKeepsConsistent(s: Store, agent: Ref)
    requires Consistent(Keying, s) && FindAgent(Keying, s.users, Key(Keying, agent)).Some?
    ensures Consistent(Keying, DisconnectKeepingReference(s, agent).store)
  {
    var r := DisconnectKeepingReference(s, agent);
    assert forall j :: 0 <= j < |s.users| ==>
      (r.store.users[j].userReference == s.users[j].userReference && r.store.users[j].agentReference == s.users[j].agentReference);
  }

  // ---- The invariant ------------------------------------------------------

  lemma UserTurnKeepsConsistent(s: Store, a: Activity)
    requires Consistent(Keying, s)
    ensures Consistent(Keying, UserTurn(s, a).store)
  {
    var ref := ReferenceOf(a);
    var f := FindOrCreate(Keying, s, ref);
    FindOrCreateKeeps(Keying, s, ref);
    var user := f.store.users[f.value];
    if user.state != Agent && a.text.Some? {
      if Lower(a.text.value) == "agent" {
        QueueForAgentKeeps(Keying, f.store, ref);
      } else if Lower(a.text.value) == "cancel" {
        DequeueForAgentKeeps(Keying, f.store, ref);
      }
    }
  }

  lemma AgentTurnKeepsConsistent(s: Store, a: Activity)
    requires Consistent(Keying, s)
    ensures Consistent(Keying, AgentTurn(s, a).store)
  {
    var ref := ReferenceOf(a);
    if FindAgent(Keying, s.users, Key(Keying, ref)).Some? {
      if a.text == Some("#disconnect") {
        DisconnectKeepsConsistent(s, ref);
      }
    } else {
      ConnectToAgentKeeps(Keying, s, ref);
    }
  }

  /** Every turn keeps one record per user id, a queue time exactly on Queued
      records, an agent reference on every Agent record, no agent referenced
      by two records, and queue times in the past. */
  lemma TurnKeepsConsistent(s: Store, a: Activity)
    requires Consistent(Keying, s)
    ensures Consistent(Keying, Turn(s, a).store)
  {
    if Handled(a) {
      if IsAgentSender(a) {
        AgentTurnKeepsConsistent(s, a);
      } else {
        UserTurnKeepsConsistent(s, a);
      }
    }
  }

  // ---- What a turn does ---------------------------------------------------

  /** Activities other than Message, Typing included, go to `next()` and
      change nothing. */
  lemma OtherActivitiesPassThrough(s: Store, a: Activity)
    requires Consistent(Keying, s) && !Handled(a)
    ensures Turn(s, a) == Step(s, TurnResult([], true, false))
  {
  }

  /** A user turn logs nothing: the only change besides state and queue time
      is the record `findOrCreate` may append, with an empty log. */
  lemma UserTurnKeepsLogs(s: Store, a: Activity)
    requires Consistent(Keying, s) && Handled(a) && !IsAgentSender(a)
    ensures var r := Turn(s, a).store;
            && |s.users| <= |r.users| <= |s.users| + 1
            && (forall j :: 0 <= j < |s.users| ==>
                  r.users[j].messages == s.users[j].messages && r.users[j].userReference == s.users[j].userReference)
            && (forall j :: |s.users| <= j < |r.users| ==> r.users[j].messages == [])
  {
    FindOrCreateIdempotent(Keying, s, ReferenceOf(a), ReferenceOf(a));
  }

  /** A user bridged to an agent has every text relayed to the agent, and
      nothing changes. */
  lemma BridgedUserRelays(s: Store, a: Activity)
    requires Consistent(Keying, s) && Handled(a) && !IsAgentSender(a)
    requires StateOf(Keying, s, ReferenceOf(a)) == Agent
    ensures var i := UserIndex(s, a);
            && i < |s.users| && s.users[i].agentReference.Some?
            && Turn(s, a) == Step(s, Sends([Forward(s.users[i].agentReference.value, Chat(a.text, Message))]))
  {
  }

  /** `agent`, in any letter case, from a user who is not bridged: the record
      joins the back of the queue with a stamp later than every earlier one,
      no other record changes, and the user is asked to wait. */
  lemma UserAsksForAgent(s: Store, a: Activity)
    requires Consistent(Keying, s) && Handled(a) && !IsAgentSender(a)
    requires StateOf(Keying, s, ReferenceOf(a)) != Agent
    requires a.text.Some? && Lower(a.text.value) == "agent"
    ensures var r := Turn(s, a);
            var i := UserIndex(s, a);
            && r.value == Sends([Reply(PleaseWait)])
            && i < |r.store.users| && r.store.users[i].state == Queued
            && r.store.users[i].queueTime == Some(s.clock)
            && (forall j :: 0 <= j < |s.users| && s.users[j].queueTime.Some? ==> s.users[j].queueTime.value < s.clock)
            && (forall j :: 0 <= j < |s.users| && j != i ==> r.store.users[j] == s.users[j])
            && QueueOf(r.store.users) == Without(QueueOf(s.users), i) + [i]
  {
    var ref := ReferenceOf(a);
    var f := FindOrCreate(Keying, s, ref);
    FindOrCreateKeeps(Keying, s, ref);
    FindOrCreateIdempotent(Keying, s, ref, ref);
    QueueForAgentStamps(Keying, f.store, ref);
    QueueForAgentJoinsBack(Keying, f.store, ref);
  }

  /** `cancel`, in any letter case, from a user who is not bridged: the record
      goes back to Bot and leaves the queue, the others keep their order, and
      the user is told so. */
  lemma UserCancels(s: Store, a: Activity)
    requires Consistent(Keying, s) && Handled(a) && !IsAgentSender(a)
    requires StateOf(Keying, s, ReferenceOf(a)) != Agent
    requires a.text.Some? && Lower(a.text.value) == "cancel"
    ensures var r := Turn(s, a);
            var i := UserIndex(s, a);
            && r.value == Sends([Reply(BackToBot)])
            && i < |r.store.users| && r.store.users[i].state == Bot && r.store.users[i].queueTime.None?
            && (forall j :: 0 <= j < |s.users| && j != i ==> r.store.users[j] == s.users[j])
            && QueueOf(r.store.users) == Without(QueueOf(s.users), i)
  {
    var ref := ReferenceOf(a);
    var f := FindOrCreate(Keying, s, ref);
    FindOrCreateKeeps(Keying, s, ref);
    FindOrCreateIdempotent(Keying, s, ref, ref);
    DequeueForAgentEffect(Keying, f.store, ref);
    DequeueForAgentLeavesQueue(Keying, f.store, ref);
  }

  /** Any other text from a user who is not bridged, the empty text included,
      goes to `next()`; a turn without text throws. Neither changes more than
      `findOrCreate` does. */
  lemma UserTextPassesOn(s: Store, a: Activity)
    requires Consistent(Keying, s) && Handled(a) && !IsAgentSender(a)
    requires StateOf(Keying, s, ReferenceOf(a)) != Agent
    requires !(a.text.Some? && Lower(a.text.value) in {"agent", "cancel"})
    ensures Turn(s, a).store == FindOrCreate(Keying, s, ReferenceOf(a)).store
    ensures Turn(s, a).value == TurnResult([], a.text.Some?, a.text.None?)
  {
    FindOrCreateKeeps(Keying, s, ReferenceOf(a));
  }

  /** The agent lookup on the agent's own user id. */
  function Bridged(s: Store, a: Activity): Option<nat> {
    FindAgent(Keying, s.users, Key(Keying, ReferenceOf(a)))
  }

  /** `#disconnect` from a bridged agent: the user goes back to Bot and both
      sides are told, but the agent stays bridged to the user's record. */
  lemma BridgedAgentDisconnects(s: Store, a: Activity)
    requires Consistent(Keying, s) && Handled(a) && IsAgentSender(a)
    requires Bridged(s, a).Some? && a.text == Some("#disconnect")
    ensures var r := Turn(s, a);
            var i := Bridged(s, a).value;
            && r.value == Sends([Reply(Disconnected), Forward(s.users[i].userReference, AgentLeft)])
            && r.store.users[i] == s.users[i].(state := Bot, queueTime := None)
            && Bridged(r.store, a) == Some(i)
            && !ReferenceOnlyWhenAgent(r.store.users)
  {
    DisconnectKeepsBridge(s, ReferenceOf(a));
    DisconnectBreaksReferenceInvariant(s, ReferenceOf(a));
  }

  /** Any other command from a bridged agent is refused, a turn without text
      throws, and anything else is relayed to the user unlogged; none of these
      changes the store. */
  lemma BridgedAgentOtherText(s: Store, a: Activity)
    requires Consistent(Keying, s) && Handled(a) && IsAgentSender(a)
    requires Bridged(s, a).Some? && a.text != Some("#disconnect")
    ensures var r := Turn(s, a);
            var i := Bridged(s, a).value;
            && r.store == s
            && (a.text.None? ==> r.value == TurnResult([], false, true))
            && (a.text.Some? && IsCommand(a.text.value) ==> r.value == Sends([Reply(NotWhileConnected)]))
            && (a.text.Some? && !IsCommand(a.text.value) ==>
                  r.value == Sends([Forward(s.users[i].userReference, Chat(a.text, Message))]))
  {
  }

  /** An agent who is not bridged gets an answer only to `#list` and
      `#connect`; anything else, plain chat included, gets no reply and does
      not reach `next()`. */
  lemma UnbridgedAgentOtherTextIgnored(s: Store, a: Activity)
    requires Consistent(Keying, s) && Handled(a) && IsAgentSender(a)
    requires Bridged(s, a).None? && a.text != Some("#list") && a.text != Some("#connect")
    ensures Turn(s, a) == Step(s, Sends([]))
  {
  }

  /** `#list` from an agent who is not bridged lists the queued users' names
      in queue order, or says the queue is empty; nothing changes. */
  lemma AgentLists(s: Store, a: Activity)
    requires Consistent(Keying, s) && Handled(a) && IsAgentSender(a)
    requires Bridged(s, a).None? && a.text == Some("#list")
    ensures var q := QueueOf(s.users);
            && Turn(s, a).store == s
            && (q == [] ==> Turn(s, a).value == Sends([Reply(QueueEmpty)]))
            && (q != [] ==> Turn(s, a).value == Sends([Reply(QueueList(Names(s.users, q)))]))
  {
  }

  /** `#connect` from an agent who is not bridged: with an empty queue, the
      agent is told so and nothing changes; otherwise the head of the queue
      is bridged to the agent, leaves the queue, and both sides are told. */
  lemma AgentConnects(s: Store, a: Activity)
    requires Consistent(Keying, s) && Handled(a) && IsAgentSender(a)
    requires Bridged(s, a).None? && a.text == Some("#connect")
    ensures var q := QueueOf(s.users);
            var r := Turn(s, a);
            && (q == [] ==> r == Step(s, Sends([Reply(QueueEmpty)])))
            && (q != [] ==>
                  var h := q[0];
                  && h < |s.users|
                  && r.value == Sends([Reply(ConnectedTo(s.users[h].userReference.user.name)), Forward(s.users[h].userReference, AgentJoined)])
                  && r.store.users[h].state == Agent && r.store.users[h].agentReference == Some(ReferenceOf(a))
                  && r.store.users[h].queueTime.None?
                  && (forall j :: 0 <= j < |s.users| && j != h ==> r.store.users[j] == s.users[j])
                  && Bridged(r.store, a) == Some(h)
                  && QueueOf(r.store.users) == q[1..])
  {
    ConnectToAgentPopsHead(s, ReferenceOf(a));
    ConnectToAgentBridges(Keying, s, ReferenceOf(a));
  }

  // ---- Conversations ------------------------------------------------------

  /** After a hand-off ends, the agent stays bridged to the user's record:
      when the user asks for an agent again, that agent's `#connect` is
      refused, its chat still reaches the waiting user, and its `#disconnect`
      takes the user out of the queue. */
  lemma StaleBridge(user: Account, conv: string, agent: Account, agentConv: string, t: string)
    requires !StartsWith(Lower(user.name), "agent") && StartsWith(Lower(agent.name), "agent")
    requires !IsCommand(t)
    ensures var s1 := Turn(Store([], 0), Activity(Message, user, conv, Some("agent"))).store;
            && Consistent(Keying, s1)
            && var s2 := Turn(s1, Activity(Message, agent, agentConv, Some("#connect"))).store;
            && Consistent(Keying, s2)
            && var s3 := Turn(s2, Activity(Message, agent, agentConv, Some("#disconnect"))).store;
            && Consistent(Keying, s3)
            && s3.users[0].state == Bot && s3.users[0].agentReference == Some(Ref(agent, agentConv))
            && var s4 := Turn(s3, Activity(Message, user, conv, Some("agent"))).store;
            && Consistent(Keying, s4)
            && QueueOf(s4.users) == [0]
            && Turn(s4, Activity(Message, agent, agentConv, Some("#connect"))) == Step(s4, Sends([Reply(NotWhileConnected)]))
            && Turn(s4, Activity(Message, agent, agentConv, Some(t))) == Step(s4, Sends([Forward(Ref(user, conv), Chat(Some(t), Message))]))
            && QueueOf(Turn(s4, Activity(Message, agent, agentConv, Some("#disconnect"))).store.users) == []
  {
    var s0 := Store([], 0);
    var a1 := Activity(Message, user, conv, Some("agent"));
    assert Lower("agent") == "agent";
    UserAsksForAgent(s0, a1);
    TurnKeepsConsistent(s0, a1);
    var s1 := Turn(s0, a1).store;
    assert QueueOf(s1.users) == [0];

    var a2 := Activity(Message, agent, agentConv, Some("#connect"));
    AgentConnects(s1, a2);
    TurnKeepsConsistent(s1, a2);
    var s2 := Turn(s1, a2).store;

    var a3 := Activity(Message, agent, agentConv, Some("#disconnect"));
    BridgedAgentDisconnects(s2, a3);
    TurnKeepsConsistent(s2, a3);
    var s3 := Turn(s2, a3).store;
    StaleBridgeRequeue(s3, user, conv, agent, agentConv, t);
  }

  /** The second half of `StaleBridge`, from a store holding the one record
      that keeps the stale reference. */
  lemma StaleBridgeRequeue(s: Store, user: Account, conv: string, agent: Account, agentConv: string, t: string)
    requires Consistent(Keying, s) && |s.users| == 1
    requires s.users[0].userReference == Ref(user, conv)
    requires s.users[0].state == Bot && s.users[0].agentReference == Some(Ref(agent, agentConv))
    requires !StartsWith(Lower(user.name), "agent") && StartsWith(Lower(agent.name), "agent")
    requires !IsCommand(t)
    ensures var s4 := Turn(s, Activity(Message, user, conv, Some("agent"))).store;
            && Consistent(Keying, s4)
            && QueueOf(s4.users) == [0]
            && Turn(s4, Activity(Message, agent, agentConv, Some("#connect"))) == Step(s4, Sends([Reply(NotWhileConnected)]))
            && Turn(s4, Activity(Message, agent, agentConv, Some(t))) == Step(s4, Sends([Forward(Ref(user, conv), Chat(Some(t), Message))]))
            && QueueOf(Turn(s4, Activity(Message, agent, agentConv, Some("#disconnect"))).store.users) == []
  {
    var a4 := Activity(Message, user, conv, Some("agent"));
    assert Lower("agent") == "agent";
    assert FindUser(Keying, s.users, user.id) == Some(0);
    UserAsksForAgent(s, a4);
    TurnKeepsConsistent(s, a4);
    var s4 := Turn(s, a4).store;
    NoneQueued(s.users);
    assert QueueOf(s4.users) == [0];
    assert s4.users[0].agentReference == Some(Ref(agent, agentConv));
    StaleAgentTurns(s4, user, conv, agent, agentConv, t);
  }

  /** What the agent of a stale bridge can do to the queued user. */
  lemma StaleAgentTurns(s: Store, user: Account, conv: string, agent: Account, agentConv: string, t: string)
    requires Consistent(Keying, s) && |s.users| == 1 && QueueOf(s.users) == [0]
    requires s.users[0].userReference == Ref(user, conv)
    requires s.users[0].agentReference == Some(Ref(agent, agentConv))
    requires StartsWith(Lower(agent.name), "agent") && !IsCommand(t)
    ensures Turn(s, Activity(Message, agent, agentConv, Some("#connect"))) == Step(s, Sends([Reply(NotWhileConnected)]))
    ensures Turn(s, Activity(Message, agent, agentConv, Some(t))) == Step(s, Sends([Forward(Ref(user, conv), Chat(Some(t), Message))]))
    ensures QueueOf(Turn(s, Activity(Message, agent, agentConv, Some("#disconnect"))).store.users) == []
  {
    var bridged := Activity(Message, agent, agentConv, Some("#connect"));
    assert Bridged(s, bridged) == Some(0);
    BridgedAgentOtherText(s, bridged);
    BridgedAgentOtherText(s, Activity(Message, agent, agentConv, Some(t)));
    var a5 := Activity(Message, agent, agentConv, Some("#disconnect"));
    DisconnectKeepsBridge(s, ReferenceOf(a5));
  }
}
