/**
 * The registry of live sessions and its fan-out (main.go, and the
 * delivery-scoped send of delivery_tracking.go): the set of registered
 * clients, the driver-id, customer-id and delivery-id indices, and the
 * non-blocking sends into the clients' queues.
 *
 * Every operation is one atomic step; the read/write lock and the
 * register/unregister/broadcast channels that serialise them are not modelled.
 */
module Registry {
  import opened Models
  import opened Session

  /** Capacity of every session's outbound queue. */
  const SendBufferSize: nat := 256

  predicate NoDup<T(==)>(s: seq<T>)
  {
    forall i, j :: 0 <= i < j < |s| ==> s[i] != s[j]
  }

  /** Position of the first occurrence of `x` in `s`, or |s| if there is none. */
  function IndexOf<T(==)>(s: seq<T>, x: T): (i: nat)
    ensures i <= |s|
    ensures i < |s| ==> s[i] == x
    ensures forall j :: 0 <= j < i ==> s[j] != x
    decreases |s|
  {
    if s == [] || s[0] == x then 0 else 1 + IndexOf(s[1..], x)
  }

  /** `s` without its first occurrence of `x`. */
  function RemoveFirst<T(==)>(s: seq<T>, x: T): seq<T>
  {
    var i := IndexOf(s, x);
    if i == |s| then s else s[..i] + s[i + 1..]
  }

  /** Removing the first occurrence takes exactly one copy of `x` out, and
      leaves a list without `x` as it was. */
  lemma RemoveFirstMultiset<T>(s: seq<T>, x: T)
    ensures x !in s ==> RemoveFirst(s, x) == s
    ensures multiset(RemoveFirst(s, x)) == multiset(s) - multiset{x}
  {
    var i := IndexOf(s, x);
    if i < |s| {
      assert s == s[..i] + [x] + s[i + 1..];
      assert multiset(s) == multiset(s[..i]) + multiset{x} + multiset(s[i + 1..]);
    } else {
      assert x !in multiset(s);
    }
  }

  /** What is left after the removal was in the list. */
  lemma RemoveFirstSubset<T>(s: seq<T>, x: T)
    ensures forall y :: y in RemoveFirst(s, x) ==> y in s
  {
    RemoveFirstMultiset(s, x);
    forall y | y in RemoveFirst(s, x) ensures y in s {
      assert y in multiset(RemoveFirst(s, x));
    }
  }

  /** On a duplicate-free list the removal takes `x` out altogether and the
      list stays duplicate-free. */
  lemma RemoveFirstNoDup<T>(s: seq<T>, x: T)
    requires NoDup(s)
    ensures NoDup(RemoveFirst(s, x)) && x !in RemoveFirst(s, x)
  {
    var i := IndexOf(s, x);
    if i < |s| {
      var r := RemoveFirst(s, x);
      assert |r| == |s| - 1;
      forall a, b | 0 <= a < b < |r| ensures r[a] != r[b] {
        var a' := if a < i then a else a + 1;
        var b' := if b < i then b else b + 1;
        assert r[a] == s[a'] && r[b] == s[b'];
      }
      forall k | 0 <= k < |r| ensures r[k] != x {
        var k' := if k < i then k else k + 1;
        assert r[k] == s[k'];
      }
    }
  }

  /** The scan-and-splice loop that removes a client from an index list. */
  method SpliceOut<T(==)>(s: seq<T>, x: T) returns (r: seq<T>)
    ensures r == RemoveFirst(s, x)
  {
    for i := 0 to |s|
      invariant x !in s[..i]
    {
      if s[i] == x {
        assert IndexOf(s, x) == i by {
          assert forall j :: 0 <= j < i ==> s[j] == s[..i][j];
        }
        return s[..i] + s[i + 1..];
      }
    }
    assert s[..|s|] == s;
    return s;
  }

  /** A missing key reads as the empty list (a nil slice). */
  function Lookup(m: map<string, seq<Client>>, k: string): seq<Client>
  {
    if k in m then m[k] else []
  }

  /** An index after removing the first occurrence of `c` from the list under `k`. */
  function RemoveFromIndex(m: map<string, seq<Client>>, k: string, c: Client): map<string, seq<Client>>
  {
    if k in m then m[k := RemoveFirst(m[k], c)] else m
  }

  /** Every driver entry is a known driver session filed under its own user id. */
  ghost predicate DriverIndexOk(m: map<string, Client>, known: set<Client>)
  {
    forall k :: k in m ==> m[k] in known && m[k].userType == "driver" && m[k].userID == k
  }

  /** Every customer list is duplicate-free and holds known customer sessions
      filed under their own user id. */
  ghost predicate CustomerIndexOk(m: map<string, seq<Client>>, known: set<Client>)
  {
    forall k :: k in m ==>
      && NoDup(m[k])
      && forall c :: c in m[k] ==> c in known && c.userType == "customer" && c.userID == k
  }

  /** Every watcher list is duplicate-free and holds known customer sessions
      filed under the (non-empty) delivery id they named. */
  ghost predicate WatcherIndexOk(m: map<string, seq<Client>>, known: set<Client>)
  {
    forall k :: k in m ==>
      && NoDup(m[k])
      && forall c :: c in m[k] ==> c in known && c.userType == "customer" && c.deliveryID == k && k != ""
  }

  ghost predicate ListsWithin(m: map<string, seq<Client>>, s: set<Client>)
  {
    forall k, c :: k in m && c in m[k] ==> c in s
  }

  lemma CustomerIndexAppend(m: map<string, seq<Client>>, known: set<Client>, c: Client)
    requires CustomerIndexOk(m, known) && c !in known && c.userType == "customer"
    ensures CustomerIndexOk(m[c.userID := Lookup(m, c.userID) + [c]], known + {c})
  {
  }

  lemma WatcherIndexAppend(m: map<string, seq<Client>>, known: set<Client>, c: Client)
    requires WatcherIndexOk(m, known) && c !in known && c.userType == "customer" && c.deliveryID != ""
    ensures WatcherIndexOk(m[c.deliveryID := Lookup(m, c.deliveryID) + [c]], known + {c})
  {
  }

  lemma CustomerIndexRemove(m: map<string, seq<Client>>, known: set<Client>, c: Client)
    requires CustomerIndexOk(m, known)
    ensures CustomerIndexOk(RemoveFromIndex(m, c.userID, c), known)
    ensures c.userID in m ==> c !in RemoveFromIndex(m, c.userID, c)[c.userID]
  {
    if c.userID in m {
      RemoveFirstSubset(m[c.userID], c);
      RemoveFirstNoDup(m[c.userID], c);
    }
  }

  lemma WatcherIndexRemove(m: map<string, seq<Client>>, known: set<Client>, c: Client)
    requires WatcherIndexOk(m, known)
    ensures WatcherIndexOk(RemoveFromIndex(m, c.deliveryID, c), known)
    ensures c.deliveryID in m ==> c !in RemoveFromIndex(m, c.deliveryID, c)[c.deliveryID]
  {
    if c.deliveryID in m {
      RemoveFirstSubset(m[c.deliveryID], c);
      RemoveFirstNoDup(m[c.deliveryID], c);
    }
  }

  /** Removing `c` from the list under `k` keeps every other list within `s - {c}`
      provided `c` is filed under `k` only. */
  lemma ListsWithinRemove(m: map<string, seq<Client>>, s: set<Client>, k: string, c: Client)
    requires ListsWithin(m, s)
    requires forall j :: j in m && c in m[j] ==> j == k
    requires k in m ==> NoDup(m[k])
    ensures ListsWithin(RemoveFromIndex(m, k, c), s - {c})
  {
    if k in m {
      RemoveFirstSubset(m[k], c);
      RemoveFirstNoDup(m[k], c);
    }
  }

  /** Queue snapshot `after` is `before` with `ms` offered, in order, to each
      client of `targets` and every other queue left as it was. */
  ghost predicate QueuesAfterOffer(before: map<Client, seq<Bytes>>, after: map<Client, seq<Bytes>>,
                                   targets: seq<Client>, ms: seq<Bytes>)
  {
    && before.Keys == after.Keys
    && forall c :: c in after ==>
         after[c] == if c in targets then OfferAll(before[c], c.capacity, ms) else before[c]
  }

  /** Two fan-outs to the same targets, one after the other, are one fan-out
      of both batches. */
  lemma QueuesAfterOfferChain(q0: map<Client, seq<Bytes>>, q1: map<Client, seq<Bytes>>,
                              q2: map<Client, seq<Bytes>>, targets: seq<Client>,
                              ms1: seq<Bytes>, ms2: seq<Bytes>)
    requires QueuesAfterOffer(q0, q1, targets, ms1) && QueuesAfterOffer(q1, q2, targets, ms2)
    ensures QueuesAfterOffer(q0, q2, targets, ms1 + ms2)
  {
    forall c | c in q2 && c in targets
      ensures q2[c] == OfferAll(q0[c], c.capacity, ms1 + ms2)
    {
      OfferAllAppend(q0[c], c.capacity, ms1, ms2);
    }
  }

  /** Offering nothing changes no queue. */
  lemma QueuesAfterOfferNothing(q: map<Client, seq<Bytes>>, targets: seq<Client>)
    ensures QueuesAfterOffer(q, q, targets, [])
  {
  }

  lemma ListsWithinAppend(m: map<string, seq<Client>>, s: set<Client>, k: string, c: Client)
    requires ListsWithin(m, s)
    ensures ListsWithin(m, s + {c})
    ensures ListsWithin(m[k := Lookup(m, k) + [c]], s + {c})
  {
  }

  /** After `c` leaves `s`, the driver index with its key dropped (for a driver)
      still refers only to clients in `s - {c}`. */
  lemma DriversWithinAfterRemoval(m: map<string, Client>, known: set<Client>, s: set<Client>, c: Client)
    requires DriverIndexOk(m, known) && m.Values <= s
    ensures (if c.userType == "driver" then m - {c.userID} else m).Values <= s - {c}
  {
    var m1 := if c.userType == "driver" then m - {c.userID} else m;
    forall x | x in m1.Values ensures x in s - {c} {
      var k :| k in m1 && m1[k] == x;
      assert m[k] == x;
    }
  }

  lemma CustomersWithinAfterRemoval(m: map<string, seq<Client>>, known: set<Client>, s: set<Client>, c: Client)
    requires CustomerIndexOk(m, known) && ListsWithin(m, s)
    ensures ListsWithin(if c.userType == "customer" then RemoveFromIndex(m, c.userID, c) else m, s - {c})
  {
    if c.userType == "customer" {
      ListsWithinRemove(m, s, c.userID, c);
    }
  }

  lemma WatchersWithinAfterRemoval(m: map<string, seq<Client>>, known: set<Client>, s: set<Client>, c: Client)
    requires WatcherIndexOk(m, known) && ListsWithin(m, s)
    ensures ListsWithin(if c.userType == "customer" && c.deliveryID != ""
                        then RemoveFromIndex(m, c.deliveryID, c) else m, s - {c})
  {
    if c.userType == "customer" && c.deliveryID != "" {
      ListsWithinRemove(m, s, c.deliveryID, c);
    }
  }

  class Hub {
    var clients: set<Client>
    var drivers: map<string, Client>
    var customers: map<string, seq<Client>>
    var deliveries: map<string, seq<Client>>
    /** Every client ever registered with this hub. */
    ghost var Repr: set<Client>

    /** The registry's own invariant, kept by every operation: all clients it
        refers to are known, a registered client's queue is open, queues stay
        within their capacity, every index entry sits under its own key with
        the right role, and no index list holds a client twice. */
    ghost predicate Valid()
      reads this, Repr
    {
      IndicesOk() && QueuesOk()
    }

    /** The part of the invariant about the indices; it depends on no queue. */
    ghost predicate IndicesOk()
      reads this
    {
      && clients <= Repr
      && DriverIndexOk(drivers, Repr)
      && CustomerIndexOk(customers, Repr)
      && WatcherIndexOk(deliveries, Repr)
    }

    ghost predicate QueuesOk()
      reads this, Repr
    {
      && (forall c :: c in Repr && c in clients ==> !c.closed)
      && (forall c :: c in Repr ==> |c.send| <= c.capacity)
    }

    /** Every client an index refers to is registered. Registration and
        unregistration keep this; the full-queue drop of BroadcastToAll does not. */
    ghost predicate Consistent()
      reads this
    {
      && drivers.Values <= clients
      && ListsWithin(customers, clients)
      && ListsWithin(deliveries, clients)
    }

    ghost predicate Indexed(c: Client)
      reads this
    {
      || c in drivers.Values
      || (exists k :: k in customers && c in customers[k])
      || (exists k :: k in deliveries && c in deliveries[k])
    }

    /** The clients watching a delivery. */
    function Watchers(deliveryID: string): seq<Client>
      reads this
    {
      Lookup(deliveries, deliveryID)
    }

    /** A snapshot of every known client's queue. */
    ghost function Queues(): map<Client, seq<Bytes>>
      reads this, Repr
    {
      map c | c in Repr :: c.send
    }

    /** The known clients whose queue is closed. */
    ghost function ClosedClients(): set<Client>
      reads this, Repr
    {
      set c | c in Repr && c.closed
    }

    /** Compared with the snapshot `before`, every watcher of `deliveryID` has
        been offered `ms` in order and every other queue is as it was. */
    ghost predicate Received(before: map<Client, seq<Bytes>>, deliveryID: string, ms: seq<Bytes>)
      reads this, Repr
    {
      QueuesAfterOffer(before, Queues(), Watchers(deliveryID), ms)
    }

    ghost predicate HasClosedWatcher(deliveryID: string)
      reads this, Repr
    {
      exists c :: c in Watchers(deliveryID) && c in ClosedClients()
    }

    /** The three indices after registering `c` on top of the given ones. */
    ghost predicate IndexedAsRegistered(c: Client, drivers0: map<string, Client>,
                                        customers0: map<string, seq<Client>>,
                                        deliveries0: map<string, seq<Client>>)
      reads this
    {
      && drivers == (if c.userType == "driver" then drivers0[c.userID := c] else drivers0)
      && customers == (if c.userType == "customer"
                       then customers0[c.userID := Lookup(customers0, c.userID) + [c]]
                       else customers0)
      && deliveries == (if c.userType == "customer" && c.deliveryID != ""
                        then deliveries0[c.deliveryID := Lookup(deliveries0, c.deliveryID) + [c]]
                        else deliveries0)
    }

    constructor ()
      ensures Valid() && Consistent()
      ensures clients == {} && drivers == map[] && customers == map[] && deliveries == map[]
      ensures Repr == {}
    {
      clients := {};
      drivers := map[];
      customers := map[];
      deliveries := map[];
      Repr := {};
    }

    /** Registration of a new session: it always joins `clients`; a driver
        takes over `drivers[userID]` (a previous session under that id stays
        registered and open); a customer is appended to its customer list and,
        when it names a delivery, to that delivery's watcher list; any other
        role is only added to `clients`. */
    method RegisterClient(c: Client)
      requires Valid()
      requires c !in Repr && !c.closed && |c.send| <= c.capacity
      modifies this
      ensures Valid() && Repr == old(Repr) + {c}
      ensures clients == old(clients) + {c}
      ensures IndexedAsRegistered(c, old(drivers), old(customers), old(deliveries))
      ensures old(Consistent()) ==> Consistent()
    {
      if c.userType == "customer" {
        CustomerIndexAppend(customers, Repr, c);
        if c.deliveryID != "" {
          WatcherIndexAppend(deliveries, Repr, c);
        }
      }
      if Consistent() {
        ListsWithinAppend(customers, clients, c.userID, c);
        ListsWithinAppend(deliveries, clients, c.deliveryID, c);
      }
      clients := clients + {c};
      Repr := Repr + {c};
      if c.userType == "driver" {
        drivers := drivers[c.userID := c];
      } else if c.userType == "customer" {
        customers := customers[c.userID := Lookup(customers, c.userID) + [c]];
        if c.deliveryID != "" {
          deliveries := deliveries[c.deliveryID := Lookup(deliveries, c.deliveryID) + [c]];
        }
      }
    }

    /** Unregistration: a client that is not registered is left alone (so the
        queue is closed at most once); otherwise it leaves `clients`, its queue
        is closed, and it leaves its role's index. For a driver the key
        `drivers[userID]` is deleted whatever session it now maps to. */
    method UnregisterClient(c: Client)
      requires Valid()
      modifies this, c
      ensures Valid() && Repr == old(Repr)
      ensures c !in old(clients) ==>
        && clients == old(clients) && drivers == old(drivers)
        && customers == old(customers) && deliveries == old(deliveries)
        && c.closed == old(c.closed) && c.send == old(c.send)
      ensures c in old(clients) ==>
        && clients == old(clients) - {c}
        && c.closed && c.send == old(c.send)
        && drivers == (if c.userType == "driver" then old(drivers) - {c.userID} else old(drivers))
        && customers == (if c.userType == "customer"
                         then RemoveFromIndex(old(customers), c.userID, c) else old(customers))
        && deliveries == (if c.userType == "customer" && c.deliveryID != ""
                          then RemoveFromIndex(old(deliveries), c.deliveryID, c) else old(deliveries))
      ensures old(Consistent()) ==> Consistent()
    {
      if c in clients {
        if Consistent() {
          DriversWithinAfterRemoval(drivers, Repr, clients, c);
          CustomersWithinAfterRemoval(customers, Repr, clients, c);
          WatchersWithinAfterRemoval(deliveries, Repr, clients, c);
        }
        clients := clients - {c};
        c.Close();
        if c.userType == "driver" {
          drivers := drivers - {c.userID};
        } else if c.userType == "customer" {
          RemoveCustomerClient(c);
        }
      }
    }

    /** Removal of a customer session from its customer list and, when it names
        a delivery, from that delivery's watcher list: only the first occurrence
        goes, the rest keep their order, and a list without it is unchanged. */
    method RemoveCustomerClient(c: Client)
      requires Valid()
      modifies this
      ensures Valid() && Repr == old(Repr)
      ensures clients == old(clients) && drivers == old(drivers)
      ensures customers == RemoveFromIndex(old(customers), c.userID, c)
      ensures deliveries == (if c.deliveryID != "" then RemoveFromIndex(old(deliveries), c.deliveryID, c)
                             else old(deliveries))
    {
      CustomerIndexRemove(customers, Repr, c);
      WatcherIndexRemove(deliveries, Repr, c);
      if c.userID in customers {
        var list := SpliceOut(customers[c.userID], c);
        customers := customers[c.userID := list];
      }
      if c.deliveryID != "" && c.deliveryID in deliveries {
        var list := SpliceOut(deliveries[c.deliveryID], c);
        deliveries := deliveries[c.deliveryID := list];
      }
    }

    /** Fan-out to every registered client: a client with room gets the
        message; a client whose queue is full has its queue closed and is
        dropped from `clients` only, staying in the driver, customer and
        delivery indices. */
    method BroadcastToAll(m: Bytes)
      requires Valid()
      modifies this, Repr
      ensures Valid() && Repr == old(Repr)
      ensures drivers == old(drivers) && customers == old(customers) && deliveries == old(deliveries)
      ensures clients == set c | c in old(clients) && |old(c.send)| < c.capacity
      ensures forall c :: c in Repr ==>
        c.send == if c in old(clients) then Offer(old(c.send), c.capacity, m) else old(c.send)
      ensures forall c :: c in Repr ==>
        c.closed == (old(c.closed) || (c in old(clients) && |old(c.send)| >= c.capacity))
    {
      var pending := clients;
      ghost var done: set<Client> := {};
      while pending != {}
        invariant pending !! done && pending + done == old(clients)
        invariant Repr == old(Repr)
        invariant drivers == old(drivers) && customers == old(customers) && deliveries == old(deliveries)
        invariant forall c :: c in clients <==> c in pending || (c in done && |old(c.send)| < c.capacity)
        invariant forall c :: c in Repr ==>
          c.send == if c in done then Offer(old(c.send), c.capacity, m) else old(c.send)
        invariant forall c :: c in Repr ==>
          c.closed == (old(c.closed) || (c in done && |old(c.send)| >= c.capacity))
        invariant Valid()
        decreases pending
      {
        var c :| c in pending;
        var sent := c.TrySend(m);
        if !sent {
          c.Close();
          clients := clients - {c};
        }
        pending := pending - {c};
        done := done + {c};
      }
    }

    /** The loop of SendToDeliveryWatchers: offer `m` to each client of `ws`
        in order, stopping at the first closed queue. */
    method OfferInOrder(ws: seq<Client>, m: Bytes) returns (stop: nat)
      requires NoDup(ws) && forall c :: c in ws ==> c in Repr
      requires forall c :: c in Repr ==> |c.send| <= c.capacity
      modifies Repr
      ensures stop <= |ws| && (stop < |ws| ==> ws[stop].closed)
      ensures forall j :: 0 <= j < stop ==> !ws[j].closed
      ensures forall c :: c in Repr ==> c.closed == old(c.closed) && |c.send| <= c.capacity
      ensures forall c :: c in Repr ==>
        c.send == if c in ws[..stop] then Offer(old(c.send), c.capacity, m) else old(c.send)
    {
      for i := 0 to |ws|
        invariant forall j :: 0 <= j < i ==> !ws[j].closed
        invariant forall c :: c in Repr ==> c.closed == old(c.closed) && |c.send| <= c.capacity
        invariant forall c :: c in Repr ==>
          c.send == if c in ws[..i] then Offer(old(c.send), c.capacity, m) else old(c.send)
      {
        var c := ws[i];
        assert c !in ws[..i];
        if c.closed {
          return i;
        }
        assert ws[..i + 1] == ws[..i] + [c];
        var _ := c.TrySend(m);
      }
      assert ws[..|ws|] == ws;
      return |ws|;
    }

    /** Fan-out to the watchers of one delivery, in list order: a watcher with
        room gets the message, a full one silently misses it and stays
        registered. A watcher whose queue is already closed makes the send
        panic there, leaving the later watchers untouched. */
    method SendToDeliveryWatchers(deliveryID: string, m: Bytes) returns (panicked: bool)
      requires Valid()
      modifies Repr
      ensures Valid()
      ensures ClosedClients() == old(ClosedClients())
      ensures panicked <==> HasClosedWatcher(deliveryID)
      ensures !panicked ==> Received(old(Queues()), deliveryID, [m])
      ensures panicked ==>
        exists i :: (&& 0 <= i < |Watchers(deliveryID)| && Watchers(deliveryID)[i].closed
                     && forall c :: c in Repr ==>
                          c.send == if c in Watchers(deliveryID)[..i] then Offer(old(Queues())[c], c.capacity, m)
                                    else old(Queues())[c])
      ensures old(Consistent()) ==> !panicked
    {
      var ws := Watchers(deliveryID);
      ghost var before := Queues();
      ghost var closedBefore := ClosedClients();
      var stop := OfferInOrder(ws, m);
      assert ClosedClients() == closedBefore;
      if stop < |ws| {
        var c := ws[stop];
        assert c in ClosedClients();
        assert Consistent() ==> c in clients;
        return true;
      }
      assert ws[..stop] == ws;
      forall c | c in ws ensures c !in ClosedClients() {
        var j :| 0 <= j < |ws| && ws[j] == c;
      }
      forall c | c in Repr
        ensures Queues()[c] == if c in ws then OfferAll(before[c], c.capacity, [m]) else before[c]
      {
        assert [m][1..] == [];
      }
      return false;
    }

    /** Fan-out to every registered client where a client with a full queue is
        unregistered altogether (closed and removed from every index), so no
        index is left holding a closed queue. */
    method BroadcastToAllUnregistering(m: Bytes)
      requires Valid() && Consistent()
      modifies this, Repr
      ensures Valid() && Consistent() && Repr == old(Repr)
      ensures clients == set c | c in old(clients) && |old(c.send)| < c.capacity
      ensures forall c :: c in Repr ==>
        c.send == if c in old(clients) then Offer(old(c.send), c.capacity, m) else old(c.send)
      ensures forall c :: c in Repr ==>
        c.closed == (old(c.closed) || (c in old(clients) && |old(c.send)| >= c.capacity))
      ensures forall c :: c in old(clients) && |old(c.send)| >= c.capacity ==> !Indexed(c)
    {
      var pending := clients;
      ghost var done: set<Client> := {};
      while pending != {}
        invariant pending !! done && pending + done == old(clients)
        invariant Repr == old(Repr)
        invariant forall c :: c in clients <==> c in pending || (c in done && |old(c.send)| < c.capacity)
        invariant forall c :: c in Repr ==>
          c.send == if c in done then Offer(old(c.send), c.capacity, m) else old(c.send)
        invariant forall c :: c in Repr ==>
          c.closed == (old(c.closed) || (c in done && |old(c.send)| >= c.capacity))
        invariant Valid() && Consistent()
        decreases pending
      {
        var c :| c in pending;
        var sent := c.TrySend(m);
        if !sent {
          UnregisterClient(c);
        }
        pending := pending - {c};
        done := done + {c};
      }
    }
  }

  /** Connection set-up: nothing is registered when the upgrade fails or when
      `user_id` or `user_type` is empty; otherwise a new session with an empty
      open queue of capacity 256 is registered. */
  method ServeWs(hub: Hub, upgraded: bool, userID: string, userType: string, deliveryID: string)
    returns (client: Client?)
    requires hub.Valid()
    modifies hub
    ensures hub.Valid()
    ensures client == null <==> !upgraded || userID == "" || userType == ""
    ensures client == null ==>
      && hub.clients == old(hub.clients) && hub.Repr == old(hub.Repr)
      && hub.drivers == old(hub.drivers) && hub.customers == old(hub.customers)
      && hub.deliveries == old(hub.deliveries)
    ensures client != null ==>
      && fresh(client)
      && client.userID == userID && client.userType == userType && client.deliveryID == deliveryID
      && client.capacity == SendBufferSize && client.send == [] && !client.closed
      && hub.clients == old(hub.clients) + {client} && hub.Repr == old(hub.Repr) + {client}
      && hub.IndexedAsRegistered(client, old(hub.drivers), old(hub.customers), old(hub.deliveries))
    ensures old(hub.Consistent()) ==> hub.Consistent()
  {
    if !upgraded {
      return null;
    }
    if userID == "" || userType == "" {
      return null;
    }
    client := new Client(userID, userType, deliveryID, SendBufferSize);
    hub.RegisterClient(client);
  }

  /** A customer watching a delivery whose queue is full when BroadcastToAll
      runs is closed but left in the delivery index; the next send to that
      delivery's watchers then sends on a closed queue and panics. */
  method DroppedWatcherPanics(m: Bytes) returns (panicked: bool)
    ensures panicked
  {
    var hub := new Hub();
    var c := ServeWs(hub, true, "customer-1", "customer", "delivery-1");
    assert c != null && c.userType == "customer" && c.deliveryID == "delivery-1";
    assert Lookup(map[], "delivery-1") + [c] == [c];
    var i := 0;
    while i < SendBufferSize
      invariant 0 <= i <= SendBufferSize
      invariant hub.Valid() && hub.clients == {c} && hub.Repr == {c}
      invariant hub.deliveries == map["delivery-1" := [c]]
      invariant |c.send| == i && !c.closed
    {
      hub.BroadcastToAll(m);
      i := i + 1;
    }
    hub.BroadcastToAll(m);
    assert c in hub.Watchers("delivery-1") && c in hub.ClosedClients();
    panicked := hub.SendToDeliveryWatchers("delivery-1", m);
    assert c in hub.ClosedClients();
  }
}
