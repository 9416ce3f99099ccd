/** `DefaultPipeStore` of client/pipe_store.go: the heap, the lanes per kind and the removed counter. */
module PipeStore {
  import opened Packages
  import opened IndexedHeap
  import opened StoreSpec

  class DefaultPipeStore {
    var removed: nat
    const pq: PriorityQueue
    var kinds: map<Kind, seq<Package>>
    /** Every package ever added. */
    ghost var known: set<Package>

    ghost function Values(): map<Package, Attrs>
      reads this`known, known`priority, known`retries, known`time
    {
      map p | p in known :: p.Value()
    }

    /** The store as a value. */
    ghost function Model(): Store<Package>
      reads this, pq, known`priority, known`retries, known`time
    {
      Store(Values(), pq.Members(), kinds, removed)
    }

    /** The queue is an indexed heap of known packages; known packages outside it carry index -1. */
    ghost predicate Queued()
      reads this, pq, pq.Members(), known
    {
      && pq.Members() <= known
      && pq.Valid()
      && (forall p :: p in known && p !in pq.Members() ==> p.index == -1)
    }

    /** Besides, the heap and the lanes hold the same packages. */
    ghost predicate Valid()
      reads this, pq, pq.Members(), known
    {
      Queued() && WellFormed(Model())
    }

    constructor ()
      ensures Valid() && fresh(pq) && known == {}
      ensures Model() == Empty()
    {
      removed := 0;
      pq := new PriorityQueue();
      kinds := map[];
      known := {};
    }

    method Len() returns (n: nat)
      requires Valid()
      ensures n == |Model().pending|
    {
      n := |pq.items|;
      pq.CountMembers();
    }

    /** The heap half of `remove` and `removeKind`: by the package's stored position. */
    method Detach(p: Package)
      requires Queued() && p in pq.Members()
      modifies pq, pq.Members()`index
      ensures Queued() && p.index == -1
      ensures pq.Members() == old(pq.Members()) - {p}
      ensures Values() == old(Values())
    {
      pq.Remove(p.index);
    }

    /** The lane half of `remove`: by search. */
    static method Cut(lane: seq<Package>, p: Package) returns (rest: seq<Package>)
      ensures rest == Without(lane, p)
    {
      for i := 0 to |lane|
        invariant p !in lane[..i]
      {
        if lane[i] == p {
          WithoutAt(lane, i);
          return lane[..i] + lane[i + 1..];
        }
      }
      WithoutAbsent(lane, p);
      return lane;
    }

    method Remove(p: Package)
      requires Valid() && p in pq.Members()
      modifies this, pq, pq.Members()`index
      ensures Valid() && known == old(known) && p.index == -1
      ensures Model() == StoreSpec.Remove(old(Model()), p)
    {
      RemoveKeeps(Model(), p);
      Detach(p);
      if p.kind in kinds {
        var lane := Cut(kinds[p.kind], p);
        kinds := kinds[p.kind := lane];
      }
      assert Model() == StoreSpec.Remove(old(Model()), p);
    }

    /** `peek`: returns null exactly when nothing is pending. */
    method Peek(now: int) returns (p: Package?)
      requires Valid()
      modifies this, pq, known
      ensures Valid() && known == old(known)
      ensures p == null <==> old(Model()).pending == {}
      ensures p == null ==> Model() == old(Model())
      ensures p != null ==> IsFront(old(Model()), p) && Model() == StoreSpec.Peek(old(Model()), p, now)
      ensures p != null ==> p == old(pq.items)[0]
      ensures (p != null && TimeExpired(p.Value(), now)) <==>
              old(pq.items != [] && TimeExpired(pq.items[0].Value(), now))
      ensures p != null && IsFront(Model(), p) ==> pq.items != [] && pq.items[0] == p
    {
      p := Front();
      if p == null {
        return;
      }
      DropIfExpired(p, now);
      Retry(p);
    }

    /** The expiry half of `peek`. */
    method DropIfExpired(p: Package, now: int)
      requires Valid() && p in pq.Members()
      modifies this, pq, pq.Members()`index
      ensures Valid() && known == old(known)
      ensures Model() == Overdue(old(Model()), p, now)
      ensures p in pq.Members() ==> pq.items == old(pq.items)
    {
      if p.expiryTime.Some? && now > p.expiryTime.value {
        removed := removed + 1;
        Remove(p);
      }
    }

    method Front() returns (p: Package?)
      requires Valid()
      ensures p == null <==> Model().pending == {}
      ensures p != null ==> IsFront(Model(), p) && p == pq.items[0]
    {
      if |pq.items| > 0 {
        p := pq.First();
        assert Model().attrs[p] == p.Value();
        assert forall x :: x in pq.Members() ==> x in known && Model().attrs[x] == x.Value();
      } else {
        p := null;
      }
    }

    /** The fields and the heap under a retry: a demotion moves the package if it is queued. */
    method Bump(p: Package)
      requires Queued() && p in known
      modifies pq, pq.Members()`index, p`retries, p`priority
      ensures Queued() && pq.Members() == old(pq.Members())
      ensures Values() == old(Values())[p := Retried(old(p.Value()))]
      ensures old(p.index) == 0 && (forall x :: x in pq.Members() ==> !Before(x, p)) ==> pq.items == old(pq.items)
    {
      p.retries := p.retries + 1;
      if p.retryLimit > 0 && p.retries % p.retryLimit == 0 {
        pq.Demote(p);
      }
    }

    /** A front of the model is a package that no queued one goes before. */
    lemma FrontIsFirst(p: Package)
      requires Queued() && IsFront(Model(), p)
      ensures forall x :: x in pq.Members() ==> !Before(x, p)
    {
      forall x | x in pq.Members() ensures !Before(x, p) {
        assert !Less(Model().attrs[x], Model().attrs[p]);
      }
    }

    /** The retry half of `peek`. */
    method Retry(p: Package)
      requires Valid() && p in known
      modifies this, pq, pq.Members()`index, p`retries, p`priority
      ensures Valid() && known == old(known)
      ensures Model() == StoreSpec.Retry(old(Model()), p)
      ensures old(p.index) == 0 && IsFront(Model(), p) ==> pq.items == old(pq.items)
    {
      ghost var before := Model();
      RetryKeeps(before, p);
      Bump(p);
      assert Model() == StoreSpec.Retry(before, p);
      if IsFront(Model(), p) {
        FrontIsFirst(p);
      }
    }

    method Ack(p: Package)
      requires Valid() && p in known
      modifies this, pq, pq.Members()`index
      ensures Valid() && known == old(known)
      ensures Model() == StoreSpec.Ack(old(Model()), p)
    {
      if p.index >= 0 {
        Remove(p);
      }
    }

    method Pop(now: int) returns (p: Package?)
      requires Valid()
      modifies this, pq, known
      ensures Valid() && known == old(known)
      ensures p == null <==> old(Model()).pending == {}
      ensures p == null ==> Model() == old(Model())
      ensures p != null ==> IsFront(old(Model()), p) && Model() == StoreSpec.Pop(old(Model()), p, now)
      ensures p != null ==> p == old(pq.items)[0]
      ensures (p != null && TimeExpired(p.Value(), now)) <==>
              old(pq.items != [] && TimeExpired(pq.items[0].Value(), now))
    {
      p := Peek(now);
      if p != null {
        Ack(p);
      }
    }

    /** The heap half of `Add`. */
    method Enqueue(p: Package, stamp: int)
      requires Queued() && p !in pq.Members()
      modifies this`known, pq, pq.Members()`index, p`index, p`time
      ensures Queued() && known == old(known) + {p}
      ensures pq.Members() == old(pq.Members()) + {p}
      ensures Values() == old(Values())[p := Stamped(old(p.Value()), stamp)]
    {
      if p.time == ZERO_TIME {
        p.time := stamp;
      }
      known := known + {p};
      pq.Insert(p);
    }

    /** `Add` up to its expiry scan. */
    method Join(p: Package, stamp: int)
      requires Valid() && p !in pq.Members()
      modifies this, pq, pq.Members()`index, p`index, p`time
      ensures Valid() && known == old(known) + {p}
      ensures Model() == StoreSpec.Join(old(Model()), p, old(p.Value()), stamp)
    {
      ghost var before := Model();
      JoinKeeps(before, p, p.Value(), stamp);
      Enqueue(p, stamp);
      var lane := if p.kind in kinds then kinds[p.kind] else [];
      kinds := kinds[p.kind := lane + [p]];
      assert Model() == StoreSpec.Join(before, p, old(p.Value()), stamp);
    }

    /** `removeKind`: out of the heap by its stored position, out of its lane by the given one. */
    method RemoveAt(k: Kind, i: nat)
      requires Valid() && k in kinds && i < |kinds[k]|
      modifies this, pq, pq.Members()`index
      ensures Valid() && known == old(known)
      ensures kinds == old(kinds)[k := old(kinds[k][..i] + kinds[k][i + 1..])]
      ensures old(kinds[k][i]) in old(known)
      ensures Model() == StoreSpec.Remove(old(Model()), old(kinds[k][i]))
    {
      var p := kinds[k][i];
      CutIsRemove(Model(), k, i);
      Detach(p);
      kinds := kinds[k := kinds[k][..i] + kinds[k][i + 1..]];
      assert Model() == StoreSpec.Remove(old(Model()), p);
    }

    method ExpireAt(k: Kind, i: nat)
      requires Valid() && k in kinds && i < |kinds[k]|
      modifies this, pq, pq.Members()`index
      ensures Valid() && known == old(known)
      ensures kinds == old(kinds)[k := old(kinds[k][..i] + kinds[k][i + 1..])]
      ensures old(kinds[k][i]) in old(known)
      ensures Model() == StoreSpec.Remove(old(Model()), old(kinds[k][i])).(removed := old(removed) + 1)
    {
      RemoveAt(k, i);
      ghost var s := Model();
      removed := removed + 1;
      assert Model() == s.(removed := s.removed + 1);
    }

    /** The expiry scan of `Add`: in place, over a lane that shrinks under it. */
    method Scan(k: Kind, now: int)
      requires Valid() && k in kinds
      modifies this, pq, known`index
      ensures Valid() && known == old(known)
      ensures Model() == SweepLane(old(Model()), k, now)
    {
      var i := 0;
      ghost var before := Model();
      ScanStart(before, k, now);
      while i < |kinds[k]|
        invariant Valid() && known == old(known)
        invariant Scanned(before, Model(), k, i, now)
        decreases |kinds[k]| - i
      {
        ScanStep(before, Model(), k, i, now);
        var p := kinds[k][i];
        if (p.expiryCount > 0 && p.expiryCount < |kinds[k]|) || (p.expiryTime.Some? && now > p.expiryTime.value) {
          ExpireAt(k, i);
        } else {
          i := i + 1;
        }
      }
      ScanEnd(before, Model(), k, now);
    }

    /** Returns the number of packages that expired since the last Add. */
    method Add(p: Package, stamp: int, now: int) returns (reported: nat)
      requires Valid() && p !in pq.Members()
      modifies this, pq, known, p`index, p`time
      ensures Valid() && known == old(known) + {p}
      ensures Added(Model(), reported) == StoreSpec.Add(old(Model()), p, old(p.Value()), stamp, now)
    {
      Join(p, stamp);
      Scan(p.kind, now);
      reported := removed;
      removed := 0;
    }
  }
}
