/** The TypeScript `ArrayHandoverProvider`: an in-memory array of user
    records, updated in place. Records are identified by `conversation.id`.
    Each method is tied to the function of StoreSpec that gives the store
    afterwards; what those functions preserve is proved there. */
module TsProvider {
  import opened Handoff
  import QueueView
  import StoreSpec

  /** The TypeScript store compares references by `conversation.id`. */
  const Keying: Identity := ByConversation

  class ArrayHandoverProvider {
    var backingStore: seq<User>
    /** The logical clock standing for `new Date()`. */
    var clock: nat

    function State(): Store
      reads this
    {
      Store(backingStore, clock)
    }

    ghost predicate Valid()
      reads this
    {
      StoreSpec.Valid(Keying, State())
    }

    /** The store starts as the array handed in, empty by default. */
    constructor (backingStore: seq<User> := [], clock: nat := 0)
      ensures State() == Store(backingStore, clock)
      ensures backingStore == [] ==> Valid()
    {
      this.backingStore := backingStore;
      this.clock := clock;
    }

    method FindOrCreate(userReference: Ref) returns (i: nat)
      modifies this
      ensures State() == StoreSpec.FindOrCreate(Keying, old(State()), userReference).store
      ensures i == StoreSpec.FindOrCreate(Keying, old(State()), userReference).value
    {
      var user := StoreSpec.FindUser(Keying, backingStore, Key(Keying, userReference));
      if user.Some? {
        return user.value;
      }
      backingStore := backingStore + [NewUser(userReference)];
      i := |backingStore| - 1;
    }

    /** `findByAgent`: the first record whose agent reference names the
        agent's conversation, if any. */
    function FindByAgent(agentReference: Ref): (r: Option<nat>)
      reads this
      ensures r.Some? ==> r.value < |backingStore| && StoreSpec.BridgedTo(Keying, Key(Keying, agentReference), backingStore[r.value])
      ensures r.Some? ==> forall j :: 0 <= j < r.value ==> !StoreSpec.BridgedTo(Keying, Key(Keying, agentReference), backingStore[j])
      ensures r.None? <==> forall j :: 0 <= j < |backingStore| ==> !StoreSpec.BridgedTo(Keying, Key(Keying, agentReference), backingStore[j])
    {
      StoreSpec.FindAgent(Keying, backingStore, Key(Keying, agentReference))
    }

    method Log(i: nat, activity: Activity)
      requires i < |backingStore|
      modifies this
      ensures State() == StoreSpec.Log(old(State()), i, Logged(activity))
    {
      backingStore := backingStore[i := backingStore[i].(messages := backingStore[i].messages + [Logged(activity)])];
    }

    method QueueForAgent(userReference: Ref) returns (i: nat)
      modifies this
      ensures State() == StoreSpec.QueueForAgent(Keying, old(State()), userReference).store
      ensures i == StoreSpec.QueueForAgent(Keying, old(State()), userReference).value
      ensures old(Valid()) && StoreSpec.StateOf(Keying, old(State()), userReference) != Agent ==> Valid()
    {
      if StoreSpec.Consistent(Keying, State()) {
        StoreSpec.QueueForAgentKeeps(Keying, State(), userReference);
      }
      i := FindOrCreate(userReference);
      backingStore := backingStore[i := backingStore[i].(state := Queued)];
      backingStore := backingStore[i := backingStore[i].(queueTime := Some(clock))];
      clock := clock + 1;
    }

    method DequeueForAgent(userReference: Ref) returns (i: nat)
      modifies this
      ensures State() == StoreSpec.DequeueForAgent(Keying, old(State()), userReference).store
      ensures i == StoreSpec.DequeueForAgent(Keying, old(State()), userReference).value
    {
      i := FindOrCreate(userReference);
      backingStore := backingStore[i := backingStore[i].(state := Bot)];
      backingStore := backingStore[i := backingStore[i].(queueTime := None)];
    }

    method ConnectToAgent(agentReference: Ref) returns (r: Option<nat>)
      modifies this
      ensures State() == StoreSpec.ConnectToAgent(old(State()), agentReference).store
      ensures r == StoreSpec.ConnectToAgent(old(State()), agentReference).value
      ensures old(Valid()) && old(FindByAgent(agentReference)).None? ==> Valid()
    {
      if StoreSpec.Consistent(Keying, State()) && FindByAgent(agentReference).None? {
        StoreSpec.ConnectToAgentKeeps(Keying, State(), agentReference);
      }
      var queue := GetQueue();
      if |queue| > 0 {
        var h := queue[0];
        assert h in queue;
        backingStore := backingStore[h := backingStore[h].(queueTime := None)];
        backingStore := backingStore[h := backingStore[h].(state := Agent)];
        backingStore := backingStore[h := backingStore[h].(agentReference := Some(agentReference))];
        return Some(h);
      }
      return None;
    }

    method DisconnectFromAgent(agentReference: Ref) returns (i: nat)
      requires FindByAgent(agentReference).Some?
      modifies this
      ensures State() == StoreSpec.DisconnectFromAgent(Keying, old(State()), agentReference).store
      ensures i == StoreSpec.DisconnectFromAgent(Keying, old(State()), agentReference).value
    {
      var user := FindByAgent(agentReference);
      i := user.value;
      backingStore := backingStore[i := backingStore[i].(state := Bot)];
      backingStore := backingStore[i := backingStore[i].(queueTime := None)];
      backingStore := backingStore[i := backingStore[i].(agentReference := None)];
    }

    /** `getQueue`, in the intended order (see QueueView): every Queued
        record once, earliest queue time first. */
    function GetQueue(): (queue: seq<nat>)
      reads this
      ensures forall x :: x in queue <==> 0 <= x < |backingStore| && backingStore[x].state == Queued
      ensures forall a, b :: 0 <= a < b < |queue| ==> queue[a] != queue[b]
      ensures forall a, b :: 0 <= a < b < |queue| ==>
                QueueView.TimeAt(backingStore, queue[a]) <= QueueView.TimeAt(backingStore, queue[b])
    {
      QueueView.QueueMembers(backingStore);
      QueueView.QueueMembership(backingStore, 0);
      QueueView.QueueAscending(backingStore);
      QueueView.QueueOf(backingStore)
    }
  }
}
