/** The store operations of `ArrayHandoverProvider` as functions of the
    store's contents, and what they preserve. Both variants share these
    definitions; they differ in the `Identity` used to compare references
    (`Handoff.Key`), and the JavaScript `disconnectFromAgent` has its own
    definition (JsHandover). A record is named by its position in the store. */
module StoreSpec {
  import opened Handoff
  import opened QueueView

  predicate HasKey(k: Identity, id: string, u: User) {
    Key(k, u.userReference) == id
  }

  predicate BridgedTo(k: Identity, id: string, u: User) {
    u.agentReference.Some? && Key(k, u.agentReference.value) == id
  }

  /** `Array.prototype.find`, by position: the first record satisfying `p`. */
  function FirstMatch(users: seq<User>, p: User -> bool): (r: Option<nat>)
    ensures r.Some? ==> r.value < |users| && p(users[r.value])
    ensures r.Some? ==> forall j :: 0 <= j < r.value ==> !p(users[j])
    ensures r.None? ==> forall j :: 0 <= j < |users| ==> !p(users[j])
  {
    if users == [] then None
    else if p(users[0]) then Some(0)
    else
      match FirstMatch(users[1..], p)
      case None => None
      case Some(j) => Some(j + 1)
  }

  /** The record of the user conversation `id`, if the store has one. */
  function FindUser(k: Identity, users: seq<User>, id: string): (r: Option<nat>)
    ensures r.Some? ==> r.value < |users| && HasKey(k, id, users[r.value])
    ensures r.Some? ==> forall j :: 0 <= j < r.value ==> !HasKey(k, id, users[j])
    ensures r.None? <==> forall j :: 0 <= j < |users| ==> !HasKey(k, id, users[j])
  {
    FirstMatch(users, u => HasKey(k, id, u))
  }

  /** `findByAgent`: the record bridged to agent conversation `id`, if any. */
  function FindAgent(k: Identity, users: seq<User>, id: string): (r: Option<nat>)
    ensures r.Some? ==> r.value < |users| && BridgedTo(k, id, users[r.value])
    ensures r.Some? ==> forall j :: 0 <= j < r.value ==> !BridgedTo(k, id, users[j])
    ensures r.None? <==> forall j :: 0 <= j < |users| ==> !BridgedTo(k, id, users[j])
  {
    FirstMatch(users, u => BridgedTo(k, id, u))
  }

  // ---- Invariants ---------------------------------------------------------

  /** One record per user conversation identity. */
  predicate UniqueUsers(k: Identity, users: seq<User>) {
    forall i, j :: 0 <= i < j < |users| ==> Key(k, users[i].userReference) != Key(k, users[j].userReference)
  }

  predicate QueueTimeIffQueued(users: seq<User>) {
    forall i :: 0 <= i < |users| ==> (users[i].state == Queued <==> users[i].queueTime.Some?)
  }

  predicate AgentHasReference(users: seq<User>) {
    forall i :: 0 <= i < |users| ==> users[i].state == Agent ==> users[i].agentReference.Some?
  }

  predicate ReferenceOnlyWhenAgent(users: seq<User>) {
    forall i :: 0 <= i < |users| ==> users[i].agentReference.Some? ==> users[i].state == Agent
  }

  /** Every queue time handed out is earlier than the clock. */
  predicate StampsInPast(s: Store) {
    forall i :: 0 <= i < |s.users| && s.users[i].queueTime.Some? ==> s.users[i].queueTime.value < s.clock
  }

  /** No agent conversation is referenced by two records. */
  predicate OneUserPerAgent(k: Identity, users: seq<User>) {
    forall i, j :: 0 <= i < j < |users| && users[i].agentReference.Some? && users[j].agentReference.Some? ==>
      Key(k, users[i].agentReference.value) != Key(k, users[j].agentReference.value)
  }

  /** What both variants keep. */
  predicate Consistent(k: Identity, s: Store) {
    && UniqueUsers(k, s.users)
    && QueueTimeIffQueued(s.users)
    && AgentHasReference(s.users)
    && StampsInPast(s)
    && OneUserPerAgent(k, s.users)
  }

  /** The full invariant: besides what `Consistent` says, an agent reference
      is set exactly when the state is Agent. */
  predicate Valid(k: Identity, s: Store) {
    Consistent(k, s) && ReferenceOnlyWhenAgent(s.users)
  }

  // ---- Operations ---------------------------------------------------------

  /** `findOrCreate`: the record for `ref`'s conversation, appended as a fresh
      Bot record when the store has none. */
  function FindOrCreate(k: Identity, s: Store, ref: Ref): (r: Step<nat>)
    ensures r.value < |r.store.users| && HasKey(k, Key(k, ref), r.store.users[r.value])
    ensures r.store.clock == s.clock && s.users <= r.store.users
    ensures FindUser(k, s.users, Key(k, ref)).Some? ==> r.store == s
    ensures FindUser(k, s.users, Key(k, ref)).None? ==>
              |r.store.users| == |s.users| + 1 && r.store.users[r.value] == NewUser(ref)
  {
    match FindUser(k, s.users, Key(k, ref))
    case Some(i) => Step(s, i)
    case None => Step(Store(s.users + [NewUser(ref)], s.clock), |s.users|)
  }

  /** The state of the record `findOrCreate(ref)` returns. */
  function StateOf(k: Identity, s: Store, ref: Ref): UserState {
    match FindUser(k, s.users, Key(k, ref))
    case Some(i) => s.users[i].state
    case None => Bot
  }

  /** `log`: appends an entry to the message log of record `i`. */
  function Log(s: Store, i: nat, e: LogEntry): Store
    requires i < |s.users|
  {
    s.(users := s.users[i := s.users[i].(messages := s.users[i].messages + [e])])
  }

  /** `queueForAgent`: the record for `ref` becomes Queued with the current
      clock as its queue time, and the clock advances. */
  function QueueForAgent(k: Identity, s: Store, ref: Ref): Step<nat> {
    var f := FindOrCreate(k, s, ref);
    var i := f.value;
    Step(Store(f.store.users[i := f.store.users[i].(state := Queued, queueTime := Some(f.store.clock))],
               f.store.clock + 1), i)
  }

  /** `dequeueForAgent` / `unqueueForAgent`: the record for `ref` goes back to
      Bot and loses its queue time. */
  function DequeueForAgent(k: Identity, s: Store, ref: Ref): Step<nat> {
    var f := FindOrCreate(k, s, ref);
    var i := f.value;
    Step(f.store.(users := f.store.users[i := f.store.users[i].(state := Bot, queueTime := None)]), i)
  }

  /** `connectToAgent`: bridges the head of the queue to `agent`; nothing when
      the queue is empty. */
  function ConnectToAgent(s: Store, agent: Ref): Step<Option<nat>> {
    var q := QueueOf(s.users);
    if |q| > 0 then
      assert q[0] in q;
      var h := q[0];
      Step(s.(users := s.users[h := s.users[h].(queueTime := None, state := Agent, agentReference := Some(agent))]), Some(h))
    else
      Step(s, None)
  }

  /** TypeScript `disconnectFromAgent`: the record bridged to `agent` goes back
      to Bot and loses its agent reference and queue time. The source reads
      the lookup's result without a check, so a bridged record is required. */
  function DisconnectFromAgent(k: Identity, s: Store, agent: Ref): Step<nat>
    requires FindAgent(k, s.users, Key(k, agent)).Some?
  {
    var i := FindAgent(k, s.users, Key(k, agent)).value;
    Step(s.(users := s.users[i := s.users[i].(state := Bot, queueTime := None, agentReference := None)]), i)
  }

  // ---- findOrCreate -------------------------------------------------------

  /** Asking twice for the same conversation gives the same record and
      creates nothing the second time. */
  lemma FindOrCreateIdempotent(k: Identity, s: Store, ref: Ref, ref': Ref)
    requires Key(k, ref') == Key(k, ref)
    ensures var f := FindOrCreate(k, s, ref);
            FindOrCreate(k, f.store, ref') == Step(f.store, f.value)
  {
    var f := FindOrCreate(k, s, ref);
    var g := FindUser(k, f.store.users, Key(k, ref));
    assert g.Some?;
    if FindUser(k, s.users, Key(k, ref)).None? {
      assert g.value == f.value;
    }
  }

  /** `findOrCreate` keeps the invariants and leaves the queue as it is. */
  lemma FindOrCreateKeeps(k: Identity, s: Store, ref: Ref)
    requires Consistent(k, s)
    ensures var f := FindOrCreate(k, s, ref);
            Consistent(k, f.store) && (Valid(k, s) ==> Valid(k, f.store))
            && QueueOf(f.store.users) == QueueOf(s.users)
            && f.store.users[f.value].state == StateOf(k, s, ref)
  {
    if FindUser(k, s.users, Key(k, ref)).None? {
      AppendNewKeeps(k, s, ref);
      QueueAppend(s.users, NewUser(ref));
    }
  }

  /** Appending the new record for a conversation the store does not hold
      keeps the invariants. */
  lemma AppendNewKeeps(k: Identity, s: Store, ref: Ref)
    requires Consistent(k, s) && FindUser(k, s.users, Key(k, ref)).None?
    ensures Consistent(k, Store(s.users + [NewUser(ref)], s.clock))
    ensures ReferenceOnlyWhenAgent(s.users) ==> ReferenceOnlyWhenAgent(s.users + [NewUser(ref)])
  {
    var users := s.users + [NewUser(ref)];
    assert forall j :: 0 <= j < |s.users| ==> users[j] == s.users[j];
    forall i, j | 0 <= i < j < |users|
      ensures Key(k, users[i].userReference) != Key(k, users[j].userReference)
    {
      if j == |s.users| {
        assert !HasKey(k, Key(k, ref), s.users[i]);
      }
    }
  }

  /** Replacing a record by one with the same references keeps the
      invariants, provided the new record's state, queue time and agent
      reference agree and its queue time is in the past. */
  lemma UpdateKeeps(k: Identity, s: Store, i: nat, u: User, clock: nat)
    requires Consistent(k, s) && i < |s.users| && s.clock <= clock
    requires u.userReference == s.users[i].userReference && u.agentReference == s.users[i].agentReference
    requires (u.state == Queued <==> u.queueTime.Some?) && (u.state == Agent ==> u.agentReference.Some?)
    requires u.queueTime.Some? ==> u.queueTime.value < clock
    ensures Consistent(k, Store(s.users[i := u], clock))
    ensures ReferenceOnlyWhenAgent(s.users) && (u.agentReference.Some? ==> u.state == Agent) ==>
              ReferenceOnlyWhenAgent(s.users[i := u])
  {
    var users := s.users[i := u];
    assert forall j :: 0 <= j < |users| ==>
      users[j].userReference == s.users[j].userReference && users[j].agentReference == s.users[j].agentReference;
  }

  // ---- log ------------------------------------------------------------------

  /** Logging changes nothing the routing reads: the invariants, the queue
      (`LogKeepsQueue`) and both lookups are as before. */
  lemma LogKeeps(k: Identity, s: Store, i: nat, e: LogEntry)
    requires i < |s.users|
    ensures Consistent(k, Log(s, i, e)) == Consistent(k, s)
    ensures Valid(k, Log(s, i, e)) == Valid(k, s)
  {
    var users' := Log(s, i, e).users;
    assert forall j :: 0 <= j < |users'| ==> users'[j] == s.users[j].(messages := users'[j].messages);
  }

  /** `findByAgent` reads only the agent references. */
  lemma FindAgentAgree(k: Identity, users: seq<User>, users': seq<User>, id: string)
    requires |users'| == |users|
    requires forall j :: 0 <= j < |users| ==> users'[j].agentReference == users[j].agentReference
    ensures FindAgent(k, users', id) == FindAgent(k, users, id)
  {
    assert forall j :: 0 <= j < |users| ==> (BridgedTo(k, id, users'[j]) <==> BridgedTo(k, id, users[j]));
  }

  /** `findOrCreate`'s lookup reads only the user references. */
  lemma FindUserAgree(k: Identity, users: seq<User>, users': seq<User>, id: string)
    requires |users'| == |users|
    requires forall j :: 0 <= j < |users| ==> users'[j].userReference == users[j].userReference
    ensures FindUser(k, users', id) == FindUser(k, users, id)
  {
    assert forall j :: 0 <= j < |users| ==> (HasKey(k, id, users'[j]) <==> HasKey(k, id, users[j]));
  }

  lemma LogKeepsQueue(s: Store, i: nat, e: LogEntry)
    requires i < |s.users|
    ensures QueueOf(Log(s, i, e).users) == QueueOf(s.users)
  {
    var users' := Log(s, i, e).users;
    assert users' == s.users[i := users'[i]];
    if s.users[i].state == Queued {
      QueueJoinSame(s.users, i, users'[i]);
    } else {
      QueueLeave(s.users, i, users'[i]);
      QueueMembership(s.users, i);
      WithoutAbsent(QueueOf(s.users), i);
    }
  }

  /** Replacing a queued record by one with the same queue time that is still
      queued leaves the queue as it is. */
  lemma QueueJoinSame(users: seq<User>, i: nat, u: User)
    requires i < |users| && users[i].state == Queued && u.state == Queued && u.queueTime == users[i].queueTime
    ensures QueueOf(users[i := u]) == QueueOf(users)
  {
    var users' := users[i := u];
    var q := QueueOf(users);
    assert forall j :: 0 <= j < |users'| ==> TimeAt(users', j) == TimeAt(users, j);
    OrderedTransfer(users, users', q);
    forall y ensures y in QueueOf(users') <==> y in q {
      QueueMembership(users', y);
      QueueMembership(users, y);
    }
    OrderedUnique(users', QueueOf(users'), q);
  }

  // ---- queueForAgent --------------------------------------------------------

  /** `queueForAgent` makes the record for `ref` Queued with a queue time later
      than every queue time already in the store, and touches no other record. */
  lemma QueueForAgentStamps(k: Identity, s: Store, ref: Ref)
    requires StampsInPast(s)
    ensures var r := QueueForAgent(k, s, ref);
            var u := r.store.users[r.value];
            && r.value == FindOrCreate(k, s, ref).value
            && HasKey(k, Key(k, ref), u) && u.state == Queued && u.queueTime == Some(s.clock)
            && (forall j :: 0 <= j < |s.users| && s.users[j].queueTime.Some? ==> s.users[j].queueTime.value < u.queueTime.value)
            && (forall j :: 0 <= j < |s.users| && j != r.value ==> r.store.users[j] == s.users[j])
            && r.store.clock > s.clock
  {
  }

  lemma QueueForAgentKeeps(k: Identity, s: Store, ref: Ref)
    requires Consistent(k, s)
    ensures Consistent(k, QueueForAgent(k, s, ref).store)
    ensures Valid(k, s) && StateOf(k, s, ref) != Agent ==> Valid(k, QueueForAgent(k, s, ref).store)
  {
    var f := FindOrCreate(k, s, ref);
    FindOrCreateKeeps(k, s, ref);
    var i := f.value;
    UpdateKeeps(k, f.store, i, f.store.users[i].(state := Queued, queueTime := Some(f.store.clock)), f.store.clock + 1);
  }

  /** FIFO admission: the record joins the queue at its back, leaving its
      earlier place if it was already queued. */
  lemma QueueForAgentJoinsBack(k: Identity, s: Store, ref: Ref)
    requires Consistent(k, s)
    ensures var r := QueueForAgent(k, s, ref);
            QueueOf(r.store.users) == Without(QueueOf(s.users), r.value) + [r.value]
  {
    var f := FindOrCreate(k, s, ref);
    FindOrCreateKeeps(k, s, ref);
    var i := f.value;
    var u := f.store.users[i].(state := Queued, queueTime := Some(f.store.clock));
    forall j | 0 <= j < |f.store.users| && j != i && f.store.users[j].state == Queued
      ensures TimeAt(f.store.users, j) < u.queueTime.value
    {
    }
    QueueJoin(f.store.users, i, u);
  }

  // ---- dequeueForAgent ------------------------------------------------------

  lemma DequeueForAgentEffect(k: Identity, s: Store, ref: Ref)
    ensures var r := DequeueForAgent(k, s, ref);
            var u := r.store.users[r.value];
            && r.value == FindOrCreate(k, s, ref).value
            && HasKey(k, Key(k, ref), u) && u.state == Bot && u.queueTime.None?
            && (forall j :: 0 <= j < |s.users| && j != r.value ==> r.store.users[j] == s.users[j])
            && r.store.clock == s.clock
  {
  }

  lemma DequeueForAgentKeeps(k: Identity, s: Store, ref: Ref)
    requires Consistent(k, s)
    ensures Consistent(k, DequeueForAgent(k, s, ref).store)
    ensures Valid(k, s) && StateOf(k, s, ref) != Agent ==> Valid(k, DequeueForAgent(k, s, ref).store)
  {
    var f := FindOrCreate(k, s, ref);
    FindOrCreateKeeps(k, s, ref);
    var i := f.value;
    UpdateKeeps(k, f.store, i, f.store.users[i].(state := Bot, queueTime := None), f.store.clock);
  }

  /** The record leaves the queue; the others keep their order. */
  lemma DequeueForAgentLeavesQueue(k: Identity, s: Store, ref: Ref)
    ensures var r := DequeueForAgent(k, s, ref);
            QueueOf(r.store.users) == Without(QueueOf(s.users), r.value)
  {
    var r := DequeueForAgent(k, s, ref);
    match FindUser(k, s.users, Key(k, ref))
    case None =>
      var u := NewUser(ref);
      assert r.store.users == s.users + [u] && r.value == |s.users|;
      DequeueNewRecord(s.users, u);
    case Some(i) =>
      assert r.store.users == s.users[i := s.users[i].(state := Bot, queueTime := None)] && r.value == i;
      QueueLeave(s.users, i, s.users[i].(state := Bot, queueTime := None));
  }

  lemma DequeueNewRecord(users: seq<User>, u: User)
    requires u.state == Bot
    ensures QueueOf(users + [u]) == Without(QueueOf(users), |users|)
  {
    QueueAppend(users, u);
    QueueMembership(users, |users|);
    WithoutAbsent(QueueOf(users), |users|);
  }

  /** Dequeueing twice is dequeueing once. */
  lemma DequeueForAgentIdempotent(k: Identity, s: Store, ref: Ref)
    ensures var r := DequeueForAgent(k, s, ref);
            DequeueForAgent(k, r.store, ref) == r
  {
    var f := FindOrCreate(k, s, ref);
    var r := DequeueForAgent(k, s, ref);
    var g := FindUser(k, r.store.users, Key(k, ref));
    FindOrCreateIdempotent(k, s, ref, ref);
    assert g == FindUser(k, f.store.users, Key(k, ref)) by {
      assert f.store.users[f.value].userReference == r.store.users[f.value].userReference;
      assert forall j :: 0 <= j < |r.store.users| ==> r.store.users[j].userReference == f.store.users[j].userReference;
      assert forall j :: 0 <= j < |r.store.users| ==> (HasKey(k, Key(k, ref), r.store.users[j]) <==> HasKey(k, Key(k, ref), f.store.users[j]));
    }
    assert r.store.users[r.value := r.store.users[r.value].(state := Bot, queueTime := None)] == r.store.users;
  }

  // ---- connectToAgent -------------------------------------------------------

  /** On an empty queue nothing happens; otherwise exactly the queue's head is
      bridged to `agent`, and it leaves the queue. */
  lemma ConnectToAgentPopsHead(s: Store, agent: Ref)
    ensures var r := ConnectToAgent(s, agent);
            && (r.value.None? <==> QueueOf(s.users) == [])
            && (r.value.None? ==> r.store == s)
            && (r.value.Some? ==>
                  var h := r.value.value;
                  && h == QueueOf(s.users)[0] && s.users[h].state == Queued
                  && r.store.users[h] == s.users[h].(state := Agent, agentReference := Some(agent), queueTime := None)
                  && |r.store.users| == |s.users|
                  && (forall j :: 0 <= j < |s.users| && j != h ==> r.store.users[j] == s.users[j])
                  && QueueOf(r.store.users) == QueueOf(s.users)[1..])
  {
    var q := QueueOf(s.users);
    if |q| > 0 {
      var h := q[0];
      QueueMembership(s.users, h);
      QueueLeave(s.users, h, s.users[h].(queueTime := None, state := Agent, agentReference := Some(agent)));
      WithoutHead(s.users, q);
    }
  }

  /** Connecting an agent that is not bridged keeps the invariants. */
  lemma ConnectToAgentKeeps(k: Identity, s: Store, agent: Ref)
    requires Consistent(k, s) && FindAgent(k, s.users, Key(k, agent)).None?
    ensures Consistent(k, ConnectToAgent(s, agent).store)
    ensures Valid(k, s) ==> Valid(k, ConnectToAgent(s, agent).store)
  {
    ConnectToAgentPopsHead(s, agent);
  }

  /** After a successful connect the agent is bridged to the record connected. */
  lemma ConnectToAgentBridges(k: Identity, s: Store, agent: Ref)
    requires FindAgent(k, s.users, Key(k, agent)).None?
    ensures var r := ConnectToAgent(s, agent);
            r.value.Some? ==> FindAgent(k, r.store.users, Key(k, agent)) == r.value
  {
    ConnectToAgentPopsHead(s, agent);
    var r := ConnectToAgent(s, agent);
    if r.value.Some? {
      var h := r.value.value;
      var users' := r.store.users;
      assert BridgedTo(k, Key(k, agent), users'[h]);
      forall j | 0 <= j < |users'| && j != h
        ensures !BridgedTo(k, Key(k, agent), users'[j])
      {
        assert users'[j] == s.users[j];
      }
    }
  }

  // ---- disconnectFromAgent (TypeScript) ------------------------------------

  /** The bridged record goes back to Bot with neither agent reference nor
      queue time; no other record changes. */
  lemma DisconnectFromAgentEffect(k: Identity, s: Store, agent: Ref)
    requires FindAgent(k, s.users, Key(k, agent)).Some?
    ensures var r := DisconnectFromAgent(k, s, agent);
            var u := r.store.users[r.value];
            && r.value == FindAgent(k, s.users, Key(k, agent)).value
            && u.state == Bot && u.agentReference.None? && u.queueTime.None?
            && u.userReference == s.users[r.value].userReference
            && |r.store.users| == |s.users|
            && (forall j :: 0 <= j < |s.users| && j != r.value ==> r.store.users[j] == s.users[j])
  {
  }

  /** Disconnecting keeps the invariants, leaves the queue as it is, and
      afterwards no record is bridged to that agent. */
  lemma DisconnectFromAgentKeeps(k: Identity, s: Store, agent: Ref)
    requires Valid(k, s) && FindAgent(k, s.users, Key(k, agent)).Some?
    ensures var r := DisconnectFromAgent(k, s, agent);
            && Valid(k, r.store)
            && FindAgent(k, r.store.users, Key(k, agent)).None?
            && QueueOf(r.store.users) == QueueOf(s.users)
  {
    var i := FindAgent(k, s.users, Key(k, agent)).value;
    var u := s.users[i].(state := Bot, queueTime := None, agentReference := None);
    assert DisconnectFromAgent(k, s, agent).store == Store(s.users[i := u], s.clock);
    DisconnectValid(k, s, i, u);
    DisconnectUnbridges(k, s.users, i, u, Key(k, agent));
    DisconnectQueue(s.users, i, u);
  }

  /** Clearing a record back to Bot, with no references and no queue time,
      keeps the full invariant. */
  lemma DisconnectValid(k: Identity, s: Store, i: nat, u: User)
    requires Valid(k, s) && i < |s.users|
    requires u == s.users[i].(state := Bot, queueTime := None, agentReference := None)
    ensures Valid(k, Store(s.users[i := u], s.clock))
  {
    var users := s.users[i := u];
    assert forall j :: 0 <= j < |users| ==> users[j].userReference == s.users[j].userReference;
    assert forall j :: 0 <= j < |users| && users[j].agentReference.Some? ==>
             users[j].agentReference == s.users[j].agentReference;
  }

  /** Once the record bridged to `id` is cleared, no record is bridged to it. */
  lemma DisconnectUnbridges(k: Identity, users: seq<User>, i: nat, u: User, id: string)
    requires OneUserPerAgent(k, users) && i < |users| && BridgedTo(k, id, users[i])
    requires u.agentReference.None?
    ensures FindAgent(k, users[i := u], id).None?
  {
    var users' := users[i := u];
    forall j | 0 <= j < |users'|
      ensures !BridgedTo(k, id, users'[j])
    {
      if j != i {
        assert users'[j] == users[j];
      }
    }
  }

  /** Clearing a record that is with an agent leaves the queue as it is. */
  lemma DisconnectQueue(users: seq<User>, i: nat, u: User)
    requires i < |users| && users[i].state == Agent && u.state == Bot
    ensures QueueOf(users[i := u]) == QueueOf(users)
  {
    QueueLeave(users, i, u);
    QueueMembership(users, i);
    WithoutAbsent(QueueOf(users), i);
  }

  // ---- The queue order as written --------------------------------------------

  /** Store operations that expose the queue order as written: user A is
      seen first, user B asks for an agent, then A asks. The intended queue
      serves B, who asked first; the queue as written serves A, who is first
      in the store. */
  lemma LateRequestServedFirstAsWritten(k: Identity, refA: Ref, refB: Ref)
    requires Key(k, refA) != Key(k, refB)
    ensures var s1 := FindOrCreate(k, Store([], 0), refA).store;
            var s2 := QueueForAgent(k, s1, refB).store;
            var s3 := QueueForAgent(k, s2, refA).store;
            && |s3.users| == 2
            && s3.users[0].userReference == refA && s3.users[1].userReference == refB
            && s3.users[0].queueTime == Some(1) && s3.users[1].queueTime == Some(0)
            && QueueOf(s3.users) == [1, 0]
            && QueueAsWritten(s3.users) == [0, 1]
  {
    var a := NewUser(refA);
    var b := NewUser(refB).(state := Queued, queueTime := Some(0));
    var users := [a.(state := Queued, queueTime := Some(1)), b];
    assert FindOrCreate(k, Store([], 0), refA).store == Store([a], 0);
    LateRequestSecond(k, refA, refB);
    LateRequestThird(k, refA, b);
    LateRequestQueue(users);
    QueueAsWrittenBothQueued(users);
  }

  lemma LateRequestSecond(k: Identity, refA: Ref, refB: Ref)
    requires Key(k, refA) != Key(k, refB)
    ensures QueueForAgent(k, Store([NewUser(refA)], 0), refB).store
         == Store([NewUser(refA), NewUser(refB).(state := Queued, queueTime := Some(0))], 1)
  {
    var s := Store([NewUser(refA)], 0);
    assert !HasKey(k, Key(k, refB), s.users[0]);
    assert FindUser(k, s.users, Key(k, refB)).None?;
    assert FindOrCreate(k, s, refB) == Step(Store([NewUser(refA), NewUser(refB)], 0), 1);
  }

  lemma LateRequestThird(k: Identity, refA: Ref, b: User)
    ensures QueueForAgent(k, Store([NewUser(refA), b], 1), refA).store
         == Store([NewUser(refA).(state := Queued, queueTime := Some(1)), b], 2)
  {
    var s := Store([NewUser(refA), b], 1);
    assert HasKey(k, Key(k, refA), s.users[0]);
    assert FindUser(k, s.users, Key(k, refA)) == Some(0);
  }

  lemma LateRequestQueue(users: seq<User>)
    requires |users| == 2 && users[0].state == Queued && users[1].state == Queued
    requires users[0].queueTime == Some(1) && users[1].queueTime == Some(0)
    ensures QueueOf(users) == [1, 0]
  {
    BothQueued(users);
    SortSwapped(users);
  }

  lemma BothQueued(users: seq<User>)
    requires |users| == 2 && users[0].state == Queued && users[1].state == Queued
    ensures QueuedIn(users, 2) == [0, 1]
  {
    assert QueuedIn(users, 1) == [0];
  }

  lemma SortSwapped(users: seq<User>)
    requires TimeAt(users, 1) < TimeAt(users, 0)
    ensures SortByTime(users, [0, 1]) == [1, 0]
  {
    assert [0, 1][1..] == [1] && [1][1..] == [];
    assert SortByTime(users, [1]) == [1];
    assert Insert(users, 0, [1]) == [1, 0];
  }

  lemma QueueAsWrittenBothQueued(users: seq<User>)
    requires |users| == 2 && users[0].state == Queued && users[1].state == Queued
    ensures QueueAsWritten(users) == [0, 1]
  {
    BothQueued(users);
  }
}
