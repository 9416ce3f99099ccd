/** Which of several deliveries of one constraint ends up stored, whatever their order. */
module NewestWins {
  import opened Policies
  import opened OpaEngine

  /** What Update does to the constraints map, whatever becomes of the template. */
  function Keep(constraints: map<string, Constraint>, d: Delivery): map<string, Constraint> {
    if d.id in constraints && d.updatedAt <= constraints[d.id].updatedAt then constraints
    else constraints[d.id := Stored(d)]
  }

  /** The policies after updates with ds, in order, from none; a crash stops the process. */
  function AfterUpdates(ds: seq<Delivery>, parses: Parser): Step {
    if ds == [] then Step(Policies(map[], map[]), Unchanged)
    else
      var before := AfterUpdates(ds[..|ds| - 1], parses);
      if before.outcome.Crash? then before else Update(before.policies, ds[|ds| - 1], parses)
  }

  function Folded(ds: seq<Delivery>): map<string, Constraint> {
    if ds == [] then map[] else Keep(Folded(ds[..|ds| - 1]), ds[|ds| - 1])
  }

  /** Even a delivery whose code does not parse is stored if it is new or newer. */
  lemma {:induction false} UpdatesFold(ds: seq<Delivery>, parses: Parser)
    requires !AfterUpdates(ds, parses).outcome.Crash?
    ensures AfterUpdates(ds, parses).policies.constraints == Folded(ds)
  {
    if ds != [] {
      UpdatesFold(ds[..|ds| - 1], parses);
    }
  }

  /** ds[k] is the newest delivery of its constraint, the first among equally new ones. */
  ghost predicate Newest(ds: seq<Delivery>, k: nat) {
    k < |ds| && forall j :: 0 <= j < |ds| && ds[j].id == ds[k].id ==>
      ds[j].updatedAt <= ds[k].updatedAt && (j < k ==> ds[j].updatedAt < ds[k].updatedAt)
  }

  ghost predicate Delivered(ds: seq<Delivery>, id: string) {
    exists k :: 0 <= k < |ds| && ds[k].id == id
  }

  lemma {:induction false} FoldedIsNewest(ds: seq<Delivery>, id: string) returns (k: nat)
    ensures id in Folded(ds) <==> Delivered(ds, id)
    ensures id in Folded(ds) ==> Newest(ds, k) && ds[k].id == id && Folded(ds)[id] == Stored(ds[k])
  {
    k := 0;
    if ds != [] {
      var n := |ds| - 1;
      k := FoldedIsNewest(ds[..n], id);
      if ds[n].id == id {
        if id !in Folded(ds[..n]) || ds[n].updatedAt > Folded(ds[..n])[id].updatedAt {
          k := n;
        }
      } else if Delivered(ds, id) {
        var j :| 0 <= j < |ds| && ds[j].id == id;
        assert ds[..n][j].id == id;
      }
    }
  }

  /**
   For any sequence of updates that does not crash: a constraint is stored exactly when it was
   delivered, and what is stored is its newest delivery, the first among equally new ones.
   */
  lemma NewestIsStored(ds: seq<Delivery>, parses: Parser, id: string)
    requires !AfterUpdates(ds, parses).outcome.Crash?
    ensures var constraints := AfterUpdates(ds, parses).policies.constraints;
      && (id in constraints <==> Delivered(ds, id))
      && (id in constraints ==>
            exists k: nat :: Newest(ds, k) && ds[k].id == id && constraints[id] == Stored(ds[k]))
  {
    UpdatesFold(ds, parses);
    var k := FoldedIsNewest(ds, id);
  }

  /** Deliveries of one constraint with the same time are the same delivery. */
  ghost predicate Unambiguous(ds: seq<Delivery>) {
    forall i, j :: 0 <= i < |ds| && 0 <= j < |ds| && ds[i].id == ds[j].id && ds[i].updatedAt == ds[j].updatedAt ==>
      Stored(ds[i]) == Stored(ds[j])
  }

  /** What a sender can check: nothing is deleted, all code parses, and an id keeps its template. */
  ghost predicate Regular(ds: seq<Delivery>, parses: Parser) {
    && (forall i :: 0 <= i < |ds| ==> !ds[i].deleted && parses(ds[i].code))
    && (forall i, j :: 0 <= i < |ds| && 0 <= j < |ds| && ds[i].id == ds[j].id ==> ds[i].templateId == ds[j].templateId)
  }

  /** Regular updates never crash, and keep the usage counts right. */
  lemma {:induction false} RegularUpdatesAreSafe(ds: seq<Delivery>, parses: Parser)
    requires Regular(ds, parses)
    ensures !AfterUpdates(ds, parses).outcome.Crash? && Tallied(AfterUpdates(ds, parses).policies)
  {
    if ds == [] {
      NothingIsTallied();
    } else {
      var n := |ds| - 1;
      var before, d := AfterUpdates(ds[..n], parses), ds[n];
      RegularUpdatesAreSafe(ds[..n], parses);
      UpdatesFold(ds[..n], parses);
      var k := FoldedIsNewest(ds[..n], d.id);
      assert d.id in before.policies.constraints ==> before.policies.constraints[d.id].templateId == ds[k].templateId;
      CountsKeptIffAdmissible(before.policies, d, parses);
    }
  }

  lemma NothingIsTallied()
    ensures Tallied(Policies(map[], map[]))
  {
    forall tId ensures CountFits(Policies(map[], map[]), tId) {
      assert Users(map[], tId) == {};
    }
  }

  /**
   Any permutation and any re-delivery of the same regular deliveries, with times distinct per
   constraint, stores the same constraints, and none of them crashes.
   */
  lemma OrderIsIrrelevant(ds: seq<Delivery>, es: seq<Delivery>, parses: Parser)
    requires forall d :: d in ds <==> d in es
    requires Regular(ds, parses) && Unambiguous(ds)
    ensures !AfterUpdates(ds, parses).outcome.Crash? && !AfterUpdates(es, parses).outcome.Crash?
    ensures AfterUpdates(ds, parses).policies.constraints == AfterUpdates(es, parses).policies.constraints
  {
    RegularUpdatesAreSafe(ds, parses);
    RegularAnyOrder(ds, es, parses);
    RegularUpdatesAreSafe(es, parses);
    OrderIsIrrelevantIfNoCrash(ds, es, parses);
  }

  lemma RegularAnyOrder(ds: seq<Delivery>, es: seq<Delivery>, parses: Parser)
    requires forall d :: d in ds <==> d in es
    requires Regular(ds, parses)
    ensures Regular(es, parses)
  {
    forall i | 0 <= i < |es| ensures !es[i].deleted && parses(es[i].code) {
      assert es[i] in ds;
    }
    forall i, j | 0 <= i < |es| && 0 <= j < |es| && es[i].id == es[j].id ensures es[i].templateId == es[j].templateId {
      assert es[i] in ds && es[j] in ds;
    }
  }

  /** Without deletions, a batch delivered to an empty engine does to the policies what the updates do. */
  lemma {:induction false} BatchIsUpdates(ds: seq<Delivery>, parses: Parser)
    requires forall i :: 0 <= i < |ds| ==> !ds[i].deleted
    ensures var b := ReceivedAll(Engine(Policies(map[], map[]), map[]), ds, parses);
      b.engine.policies == AfterUpdates(ds, parses).policies && b.crashed == AfterUpdates(ds, parses).outcome.Crash?
  {
    if ds != [] {
      BatchIsUpdates(ds[..|ds| - 1], parses);
    }
  }

  /** Even with code that does not parse: whenever neither order crashes, the constraints are the same. */
  lemma OrderIsIrrelevantIfNoCrash(ds: seq<Delivery>, es: seq<Delivery>, parses: Parser)
    requires forall d :: d in ds <==> d in es
    requires Unambiguous(ds)
    requires !AfterUpdates(ds, parses).outcome.Crash? && !AfterUpdates(es, parses).outcome.Crash?
    ensures AfterUpdates(ds, parses).policies.constraints == AfterUpdates(es, parses).policies.constraints
  {
    UpdatesFold(ds, parses);
    UpdatesFold(es, parses);
    forall id ensures id in Folded(ds) <==> id in Folded(es)
      ensures id in Folded(ds) ==> Folded(ds)[id] == Folded(es)[id]
    {
      SameNewest(ds, es, id);
    }
  }

  lemma SameNewest(ds: seq<Delivery>, es: seq<Delivery>, id: string)
    requires forall d :: d in ds <==> d in es
    requires Unambiguous(ds)
    ensures id in Folded(ds) <==> id in Folded(es)
    ensures id in Folded(ds) ==> Folded(ds)[id] == Folded(es)[id]
  {
    var k := FoldedIsNewest(ds, id);
    var m := FoldedIsNewest(es, id);
    if id in Folded(ds) {
      assert ds[k] in es;
    }
    if id in Folded(es) {
      assert es[m] in ds;
      var i :| 0 <= i < |ds| && ds[i] == es[m];
      assert ds[i].id == id;
    }
  }
}
