/** What a batch of deliveries reports and forgets, told delivery by delivery without the loop. */
module BatchLaws {
  import opened Basics
  import opened Policies
  import opened ResultsCache
  import opened OpaEngine

  /** The policies that delivery i of a batch meets. */
  function Met(e: Engine, ds: seq<Delivery>, i: nat, parses: Parser): Policies
    requires i <= |ds|
  {
    DeliverAll(e.policies, ds[..i], parses)
  }

  lemma MetInPrefix(e: Engine, ds: seq<Delivery>, n: nat, parses: Parser)
    requires n <= |ds|
    ensures forall i :: 0 <= i <= n ==> Met(e, ds[..n], i, parses) == Met(e, ds, i, parses)
  {
    forall i | 0 <= i <= n ensures Met(e, ds[..n], i, parses) == Met(e, ds, i, parses) {
      assert ds[..n][..i] == ds[..i];
    }
  }

  /** A batch in progress that has not crashed holds the policies after its deliveries, in order. */
  lemma {:induction false} BatchPolicies(e: Engine, ds: seq<Delivery>, parses: Parser)
    requires !ReceivedAll(e, ds, parses).crashed
    ensures ReceivedAll(e, ds, parses).engine.policies == DeliverAll(e.policies, ds, parses)
  {
    if ds != [] {
      BatchPolicies(e, ds[..|ds| - 1], parses);
    }
  }

  /** What the last delivery of a batch adds to it, in terms of the policies it meets. */
  lemma LastDelivery(e: Engine, ds: seq<Delivery>, parses: Parser)
    requires ds != []
    ensures var n := |ds| - 1; var before, after := ReceivedAll(e, ds[..n], parses), ReceivedAll(e, ds, parses);
      var ps, d := Met(e, ds, n, parses), ds[n];
      && (after.crashed <==> before.crashed || Derails(ps, d, parses))
      && (!after.crashed ==>
            && after.updated == before.updated + (if Accepted(ps, d, parses) then [d.id] else [])
            && after.failed == before.failed + (if Refused(ps, d, parses) then {d.id} else {})
            && after.engine.cache == if Voids(ps, d, parses)
                                     then WithoutConstraint(before.engine.cache, d.id) else before.engine.cache)
  {
    var n := |ds| - 1;
    if !ReceivedAll(e, ds[..n], parses).crashed {
      BatchPolicies(e, ds[..n], parses);
      OutcomeIs(Met(e, ds, n, parses), ds[n], parses);
    }
  }

  ghost predicate Derailed(e: Engine, ds: seq<Delivery>, parses: Parser) {
    exists i :: 0 <= i < |ds| && Derails(Met(e, ds, i, parses), ds[i], parses)
  }

  /** A batch crashes if and only if some delivery meets a stored constraint without its template. */
  lemma {:induction false} BatchCrashesIff(e: Engine, ds: seq<Delivery>, parses: Parser)
    ensures ReceivedAll(e, ds, parses).crashed <==> Derailed(e, ds, parses)
  {
    if ds != [] {
      var n := |ds| - 1;
      BatchCrashesIff(e, ds[..n], parses);
      MetInPrefix(e, ds, n, parses);
      LastDelivery(e, ds, parses);
      assert forall i :: 0 <= i < n ==> ds[..n][i] == ds[i];
      if Derailed(e, ds[..n], parses) {
        var i :| 0 <= i < n && Derails(Met(e, ds[..n], i, parses), ds[..n][i], parses);
        assert Derails(Met(e, ds, i, parses), ds[i], parses);
      }
    }
  }

  /** The positions of the deliveries that are accepted against the policies they meet. */
  ghost function AcceptedIn(e: Engine, ds: seq<Delivery>, parses: Parser): set<nat> {
    set i: nat | i < |ds| && Accepted(Met(e, ds, i, parses), ds[i], parses)
  }

  lemma AcceptedExtend(e: Engine, ds: seq<Delivery>, parses: Parser)
    requires ds != []
    ensures var n := |ds| - 1;
      AcceptedIn(e, ds, parses) == AcceptedIn(e, ds[..n], parses) +
        if Accepted(Met(e, ds, n, parses), ds[n], parses) then {n} else {}
  {
    var n := |ds| - 1;
    MetInPrefix(e, ds, n, parses);
    assert forall i :: 0 <= i < n ==> ds[..n][i] == ds[i];
  }

  /** `at` lists the members of s in increasing order. */
  ghost predicate ListsInOrder(at: seq<nat>, s: set<nat>) {
    (forall k, m :: 0 <= k < m < |at| ==> at[k] < at[m]) && Elems(at) == s
  }

  lemma ListOneMore(at: seq<nat>, s: set<nat>, n: nat)
    requires ListsInOrder(at, s) && forall i :: i in s ==> i < n
    ensures ListsInOrder(at + [n], s + {n})
  {
    forall k | 0 <= k < |at| ensures at[k] < n {
      assert at[k] in Elems(at);
    }
    assert Elems(at + [n]) == Elems(at) + {n};
  }

  /** `ids` are those of the deliveries at the given positions. */
  ghost predicate IdsAt(ids: seq<string>, ds: seq<Delivery>, at: seq<nat>) {
    |ids| == |at| && forall k :: 0 <= k < |at| ==> at[k] < |ds| && ids[k] == ds[at[k]].id
  }

  lemma IdsExtend(ids: seq<string>, ds: seq<Delivery>, at: seq<nat>)
    requires ds != [] && IdsAt(ids, ds[..|ds| - 1], at)
    ensures IdsAt(ids, ds, at) && IdsAt(ids + [ds[|ds| - 1].id], ds, at + [|ds| - 1])
  {
  }

  /**
   A batch that does not crash reports as updated, in order and with repetitions, the ids of exactly
   the deliveries that are accepted against the policies they meet.
   */
  lemma {:induction false} UpdatedAreAccepted(e: Engine, ds: seq<Delivery>, parses: Parser) returns (at: seq<nat>)
    requires !ReceivedAll(e, ds, parses).crashed
    ensures ListsInOrder(at, AcceptedIn(e, ds, parses)) && IdsAt(ReceivedAll(e, ds, parses).updated, ds, at)
  {
    at := [];
    if ds != [] {
      var n := |ds| - 1;
      LastDelivery(e, ds, parses);
      at := UpdatedAreAccepted(e, ds[..n], parses);
      AcceptedExtend(e, ds, parses);
      IdsExtend(ReceivedAll(e, ds[..n], parses).updated, ds, at);
      if Accepted(Met(e, ds, n, parses), ds[n], parses) {
        ListOneMore(at, AcceptedIn(e, ds[..n], parses), n);
        at := at + [n];
      }
    }
  }

  /** Some delivery of constraint id is refused. */
  ghost predicate RefusedIn(e: Engine, ds: seq<Delivery>, parses: Parser, id: string) {
    exists i :: 0 <= i < |ds| && ds[i].id == id && Refused(Met(e, ds, i, parses), ds[i], parses)
  }

  lemma RefusedExtend(e: Engine, ds: seq<Delivery>, parses: Parser, id: string)
    requires ds != []
    ensures var n := |ds| - 1;
      RefusedIn(e, ds, parses, id) <==>
        RefusedIn(e, ds[..n], parses, id) || (ds[n].id == id && Refused(Met(e, ds, n, parses), ds[n], parses))
  {
    var n := |ds| - 1;
    MetInPrefix(e, ds, n, parses);
    assert forall i :: 0 <= i < n ==> ds[..n][i] == ds[i];
  }

  /** It reports as failed the ids of exactly the deliveries whose code had to be parsed and does not. */
  lemma {:induction false} FailedAreRefused(e: Engine, ds: seq<Delivery>, parses: Parser, id: string)
    requires !ReceivedAll(e, ds, parses).crashed
    ensures id in ReceivedAll(e, ds, parses).failed <==> RefusedIn(e, ds, parses, id)
  {
    if ds != [] {
      LastDelivery(e, ds, parses);
      FailedAreRefused(e, ds[..|ds| - 1], parses, id);
      RefusedExtend(e, ds, parses, id);
    }
  }

  /** An accepted update, or a deletion of a stored constraint: what is cached for the constraint is void. */
  predicate Voids(ps: Policies, d: Delivery, parses: Parser) {
    Accepted(ps, d, parses) || Deletes(ps, d)
  }

  /** Some delivery voids what is cached for constraint id. */
  ghost predicate VoidedIn(e: Engine, ds: seq<Delivery>, parses: Parser, id: string) {
    exists i :: 0 <= i < |ds| && ds[i].id == id && Voids(Met(e, ds, i, parses), ds[i], parses)
  }

  lemma VoidedExtend(e: Engine, ds: seq<Delivery>, parses: Parser, id: string)
    requires ds != []
    ensures var n := |ds| - 1;
      VoidedIn(e, ds, parses, id) <==>
        VoidedIn(e, ds[..n], parses, id) || (ds[n].id == id && Voids(Met(e, ds, n, parses), ds[n], parses))
  {
    var n := |ds| - 1;
    MetInPrefix(e, ds, n, parses);
    assert forall i :: 0 <= i < n ==> ds[..n][i] == ds[i];
  }

  /** It forgets the statuses of exactly the constraints it updates or deletes. */
  lemma {:induction false} BatchForgets(e: Engine, ds: seq<Delivery>, parses: Parser, id: string, key: string)
    requires !ReceivedAll(e, ds, parses).crashed
    ensures Lookup(ReceivedAll(e, ds, parses).engine.cache, id, key) ==
      if VoidedIn(e, ds, parses, id) then None else Lookup(e.cache, id, key)
  {
    if ds != [] {
      LastDelivery(e, ds, parses);
      BatchForgets(e, ds[..|ds| - 1], parses, id, key);
      VoidedExtend(e, ds, parses, id);
    }
  }
}
