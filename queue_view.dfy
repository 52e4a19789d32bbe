/** The queue view: `getQueue`, a read of the store restricted to the records
    in state Queued and ordered by queue time. Both variants share it.

    The queue is a sequence of store positions. Its intended order is `Before`:
    earlier queue time first, equal queue times by store position. Since
    `Before` is a strict total order, there is exactly one ordered sequence of
    any set of positions (`OrderedUnique`); the lemmas about how the queue
    evolves are proved from that. */
module QueueView {
  import opened Handoff

  /** The queue time of the record at position `i`, or 0 when there is none. */
  function TimeAt(users: seq<User>, i: nat): nat {
    if i < |users| && users[i].queueTime.Some? then users[i].queueTime.value else 0
  }

  /** Position `i` is served before position `j`. */
  predicate Before(users: seq<User>, i: nat, j: nat) {
    TimeAt(users, i) < TimeAt(users, j) || (TimeAt(users, i) == TimeAt(users, j) && i < j)
  }

  predicate Ordered(users: seq<User>, q: seq<nat>) {
    forall a, b :: 0 <= a < b < |q| ==> Before(users, q[a], q[b])
  }

  predicate Distinct(q: seq<nat>) {
    forall a, b :: 0 <= a < b < |q| ==> q[a] != q[b]
  }

  predicate InStore(users: seq<User>, q: seq<nat>) {
    forall x :: x in q ==> x < |users|
  }

  /** `filter(u => u.state === UserState.Queued)` over the first `n` records,
      as positions in store order. */
  function QueuedIn(users: seq<User>, n: nat): (q: seq<nat>)
    requires n <= |users|
    ensures forall x :: x in q <==> 0 <= x < n && users[x].state == Queued
    ensures forall a, b :: 0 <= a < b < |q| ==> q[a] < q[b]
  {
    if n == 0 then []
    else
      var p := QueuedIn(users, n - 1);
      assert forall a :: 0 <= a < |p| ==> p[a] in p;
      p + (if users[n - 1].state == Queued then [n - 1] else [])
  }

  lemma HeadFirst(users: seq<User>, q: seq<nat>)
    requires Ordered(users, q) && |q| > 0
    ensures forall y :: y in q[1..] ==> Before(users, q[0], y)
    ensures q[0] !in q[1..]
  {
    forall y | y in q[1..] ensures Before(users, q[0], y) {
      var c :| 0 <= c < |q[1..]| && q[1..][c] == y;
      assert q[c + 1] == y;
    }
  }

  /** Inserts position `x` into an ordered queue at its place. */
  function Insert(users: seq<User>, x: nat, q: seq<nat>): (r: seq<nat>)
    requires Ordered(users, q) && x !in q
    ensures Ordered(users, r)
    ensures forall y :: y in r <==> y == x || y in q
  {
    if q == [] then [x]
    else if Before(users, x, q[0]) then [x] + q
    else
      HeadFirst(users, q);
      assert q == [q[0]] + q[1..];
      [q[0]] + Insert(users, x, q[1..])
  }

  /** Orders distinct positions by `Before` (insertion sort). */
  function SortByTime(users: seq<User>, q: seq<nat>): (r: seq<nat>)
    requires Distinct(q)
    ensures Ordered(users, r)
    ensures forall y :: y in r <==> y in q
  {
    if q == [] then []
    else
      assert q == [q[0]] + q[1..];
      Insert(users, q[0], SortByTime(users, q[1..]))
  }

  /** The intended `getQueue`: the queued records, ascending by queue time. */
  function QueueOf(users: seq<User>): (q: seq<nat>)
    ensures InStore(users, q)
    ensures Ordered(users, q)
  {
    SortByTime(users, QueuedIn(users, |users|))
  }

  /** The queue is ascending by queue time. */
  lemma QueueAscending(users: seq<User>)
    ensures var q := QueueOf(users);
            forall a, b :: 0 <= a < b < |q| ==> TimeAt(users, q[a]) <= TimeAt(users, q[b])
  {
  }

  /** `QueueMembership` for every position at once. */
  lemma QueueMembers(users: seq<User>)
    ensures forall y :: y in QueueOf(users) <==> 0 <= y < |users| && users[y].state == Queued
  {
    forall y ensures y in QueueOf(users) <==> 0 <= y < |users| && users[y].state == Queued {
      if y >= 0 {
        QueueMembership(users, y);
      }
    }
  }

  /** The display names of the queued users, in queue order. */
  function Names(users: seq<User>, q: seq<nat>): seq<string>
    requires InStore(users, q)
  {
    seq(|q|, i requires 0 <= i < |q| => assert q[i] in q; users[q[i]].userReference.user.name)
  }

  /** The queue holds exactly the records in state Queued, each once. */
  lemma QueueMembership(users: seq<User>, x: nat)
    ensures x in QueueOf(users) <==> x < |users| && users[x].state == Queued
    ensures Distinct(QueueOf(users))
  {
  }

  lemma {:induction false} NoneQueuedIn(users: seq<User>, n: nat)
    requires n <= |users|
    requires forall i :: 0 <= i < |users| ==> users[i].state != Queued
    ensures QueuedIn(users, n) == []
  {
    if n > 0 {
      NoneQueuedIn(users, n - 1);
    }
  }

  /** With no record in state Queued the queue is empty. */
  lemma NoneQueued(users: seq<User>)
    requires forall i :: 0 <= i < |users| ==> users[i].state != Queued
    ensures QueueOf(users) == []
  {
    NoneQueuedIn(users, |users|);
  }

  /** Two ordered sequences of the same positions are equal. */
  lemma {:induction false} OrderedUnique(users: seq<User>, p: seq<nat>, q: seq<nat>)
    requires Ordered(users, p) && Ordered(users, q)
    requires forall y :: y in p <==> y in q
    ensures p == q
    decreases |p|
  {
    if p != [] { assert p[0] in p; }
    if q != [] { assert q[0] in q; }
    if p != [] && q != [] {
      assert p == [p[0]] + p[1..];
      assert q == [q[0]] + q[1..];
      HeadFirst(users, p);
      HeadFirst(users, q);
      assert p[0] in p && q[0] in q;
      assert p[0] in q && q[0] in p;
      if p[0] != q[0] {
        assert false;
      }
      forall y ensures y in p[1..] <==> y in q[1..] {
        assert y in p <==> y in q;
      }
      OrderedUnique(users, p[1..], q[1..]);
    }
  }

  /** Removes position `x` from a queue. */
  function Without(q: seq<nat>, x: nat): (r: seq<nat>)
    ensures forall y :: y in r <==> y in q && y != x
  {
    if q == [] then []
    else
      assert q == [q[0]] + q[1..];
      if q[0] == x then Without(q[1..], x) else [q[0]] + Without(q[1..], x)
  }

  lemma {:induction false} WithoutOrdered(users: seq<User>, q: seq<nat>, x: nat)
    requires Ordered(users, q)
    ensures Ordered(users, Without(q, x))
  {
    if q != [] {
      WithoutOrdered(users, q[1..], x);
      if q[0] != x {
        HeadFirst(users, q);
        var w := Without(q[1..], x);
        forall b | 0 <= b < |w| ensures Before(users, q[0], w[b]) {
          assert w[b] in w;
        }
      }
    }
  }

  lemma {:induction false} WithoutAbsent(q: seq<nat>, x: nat)
    requires x !in q
    ensures Without(q, x) == q
  {
    if q != [] {
      assert q == [q[0]] + q[1..];
      WithoutAbsent(q[1..], x);
    }
  }

  /** Removing the head of an ordered queue leaves its tail. */
  lemma WithoutHead(users: seq<User>, q: seq<nat>)
    requires Ordered(users, q) && |q| > 0
    ensures Without(q, q[0]) == q[1..]
  {
    HeadFirst(users, q);
    WithoutAbsent(q[1..], q[0]);
  }

  lemma OrderedTransfer(users: seq<User>, users': seq<User>, q: seq<nat>)
    requires Ordered(users, q)
    requires forall b :: 0 <= b < |q| ==> TimeAt(users', q[b]) == TimeAt(users, q[b])
    ensures Ordered(users', q)
  {
  }

  lemma AppendLast(users: seq<User>, q: seq<nat>, x: nat)
    requires Ordered(users, q)
    requires forall b :: 0 <= b < |q| ==> Before(users, q[b], x)
    ensures Ordered(users, q + [x])
  {
  }

  /** Appending a record that is not queued leaves the queue as it is. */
  lemma QueueAppend(users: seq<User>, u: User)
    requires u.state != Queued
    ensures QueueOf(users + [u]) == QueueOf(users)
  {
    var users' := users + [u];
    var q := QueueOf(users);
    forall b | 0 <= b < |q| ensures TimeAt(users', q[b]) == TimeAt(users, q[b]) {
      assert q[b] in q;
    }
    OrderedTransfer(users, users', q);
    forall y ensures y in QueueOf(users') <==> y in q {
      QueueMembership(users', y);
      QueueMembership(users, y);
    }
    OrderedUnique(users', QueueOf(users'), q);
  }

  /** A record that leaves state Queued leaves the queue; the others keep
      their order. */
  lemma QueueLeave(users: seq<User>, h: nat, u: User)
    requires h < |users| && u.state != Queued
    ensures QueueOf(users[h := u]) == Without(QueueOf(users), h)
  {
    var users' := users[h := u];
    var w := Without(QueueOf(users), h);
    WithoutOrdered(users, QueueOf(users), h);
    forall b | 0 <= b < |w| ensures TimeAt(users', w[b]) == TimeAt(users, w[b]) {
      assert w[b] in w;
    }
    OrderedTransfer(users, users', w);
    QueueLeaveMembers(users, h, u);
    OrderedUnique(users', QueueOf(users'), w);
  }

  lemma QueueLeaveMembers(users: seq<User>, h: nat, u: User)
    requires h < |users| && u.state != Queued
    ensures forall y :: y in QueueOf(users[h := u]) <==> y in Without(QueueOf(users), h)
  {
    QueueMembers(users[h := u]);
    QueueMembers(users);
  }

  /** A record stamped later than every other queued record joins the queue
      at its back (and leaves its earlier place, if it had one). */
  lemma QueueJoin(users: seq<User>, h: nat, u: User)
    requires h < |users| && u.state == Queued && u.queueTime.Some?
    requires forall j :: 0 <= j < |users| && j != h && users[j].state == Queued ==> TimeAt(users, j) < u.queueTime.value
    ensures QueueOf(users[h := u]) == Without(QueueOf(users), h) + [h]
  {
    var users' := users[h := u];
    var w := Without(QueueOf(users), h);
    WithoutOrdered(users, QueueOf(users), h);
    forall b | 0 <= b < |w| ensures TimeAt(users', w[b]) == TimeAt(users, w[b]) {
      assert w[b] in w;
    }
    OrderedTransfer(users, users', w);
    forall b | 0 <= b < |w| ensures Before(users', w[b], h) {
      assert w[b] in w;
      QueueMembership(users, w[b]);
    }
    AppendLast(users', w, h);
    forall y ensures y in QueueOf(users') <==> y in w + [h] {
      QueueMembership(users', y);
      QueueMembership(users, y);
    }
    OrderedUnique(users', QueueOf(users'), w + [h]);
  }

  /** `getQueue` as written: `.sort(u => u.queueTime.getTime())` hands `sort`
      a one-argument function, which as a comparator answers "greater" for
      every pair; V8's sort then leaves the filtered array unchanged, so the
      queue comes out in store order. It still holds the right records. */
  function QueueAsWritten(users: seq<User>): (q: seq<nat>)
    ensures forall x :: x in q <==> x in QueueOf(users)
    ensures forall a, b :: 0 <= a < b < |q| ==> q[a] < q[b]
  {
    QueueMembership(users, 0);
    QueuedIn(users, |users|)
  }

  /** A record created first but queued last is still served first by the
      queue as written, while the intended queue serves the earlier request. */
  lemma QueueAsWrittenIgnoresQueueTime()
    ensures var users := [
                User(Ref(Account("u0", "Ann"), "c0"), [], Queued, None, Some(5)),
                User(Ref(Account("u1", "Ben"), "c1"), [], Queued, None, Some(3))];
            QueueAsWritten(users) == [0, 1] && QueueOf(users) == [1, 0]
  {
    var users := [
      User(Ref(Account("u0", "Ann"), "c0"), [], Queued, None, Some(5)),
      User(Ref(Account("u1", "Ben"), "c1"), [], Queued, None, Some(3))];
    assert QueuedIn(users, 1) == [0];
    assert QueueAsWritten(users) == [0, 1];
    assert Ordered(users, [1, 0]);
    forall y ensures y in QueueOf(users) <==> y in [1, 0] {
      QueueMembership(users, y);
    }
    OrderedUnique(users, QueueOf(users), [1, 0]);
  }
}
