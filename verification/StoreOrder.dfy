/** What a run promises about order and about packages that come back: stretches of a run. */
module StoreOrder {
  import opened Basics
  import opened Packages
  import opened StoreSpec
  import opened StoreLaws
  import opened StoreRuns

  ghost predicate NoAdd<T>(ops: seq<Op<T>>, from: nat, to: nat)
    requires to <= |ops|
  {
    forall m :: from <= m < to ==> !ops[m].OpAdd?
  }

  ghost predicate NoAddOf<T>(ops: seq<Op<T>>, from: nat, to: nat, k: Kind)
    requires to <= |ops|
  {
    forall m :: from <= m < to && ops[m].OpAdd? ==> ops[m].a.kind != k
  }

  // ---------------------------------------------------------------- ordered drain

  /** Without an Add, packages only leave, and only become less urgent. */
  lemma StepOnlyDemotes<T>(l: Ledger<T>, op: Op<T>, x: T)
    requires Sound(l.store) && Allowed(l, op) && !op.OpAdd?
    requires x in After(l.store, op).pending
    ensures x in l.store.pending && x in After(l.store, op).attrs
    ensures !Less(After(l.store, op).attrs[x], l.store.attrs[x])
    ensures op.OpPop? ==> !Less(After(l.store, op).attrs[x], l.store.attrs[op.p])
  {
    StepAttrs(l, op);
    if op.OpPop? {
      PopTakes(l.store, op.p, op.now);
    }
  }

  lemma NotLessChain(a: Attrs, b: Attrs, c: Attrs)
    requires !Less(a, b) && !Less(b, c)
    ensures !Less(a, c)
  {
  }

  lemma {:induction false} NothingMoreUrgent<T>(ls: seq<Ledger<T>>, ops: seq<Op<T>>, i: nat, m: nat, x: T)
    requires Steps(ls, ops) && Sound(ls[0].store) && i < m <= |ops| && ops[i].OpPop?
    requires NoAdd(ops, i, m)
    requires x in ls[m].store.pending
    ensures ops[i].p in ls[i].store.attrs && x in ls[m].store.attrs
    ensures !Less(ls[m].store.attrs[x], ls[i].store.attrs[ops[i].p])
  {
    assert StepAt(ls, ops, i) && StepAt(ls, ops, m - 1);
    StepsAreSound(ls, ops, m - 1);
    StepOnlyDemotes(ls[m - 1], ops[m - 1], x);
    if m > i + 1 {
      NothingMoreUrgent(ls, ops, i, m - 1, x);
      NotLessChain(ls[m].store.attrs[x], ls[m - 1].store.attrs[x], ls[i].store.attrs[ops[i].p]);
    }
  }

  /**
   Between two Pops without an Add in between (Peeks, Acks and other Pops are free), the later one
   does not return a more urgent package, each measured just before its own Pop.
   */
  lemma OrderedDrain<T>(ls: seq<Ledger<T>>, ops: seq<Op<T>>, i: nat, j: nat)
    requires Steps(ls, ops) && Sound(ls[0].store) && i < j < |ops|
    requires ops[i].OpPop? && ops[j].OpPop? && NoAdd(ops, i, j)
    ensures ops[i].p in ls[i].store.attrs && ops[j].p in ls[j].store.attrs
    ensures !Less(ls[j].store.attrs[ops[j].p], ls[i].store.attrs[ops[i].p])
  {
    assert StepAt(ls, ops, j);
    StepsAreSound(ls, ops, j);
    NothingMoreUrgent(ls, ops, i, j, ops[j].p);
  }

  // ---------------------------------------------------------------- what is taken is gone

  /** The operation takes op.p out of the store for good. */
  predicate Takes<T>(op: Op<T>) {
    op.OpPop? || op.OpAck?
  }

  ghost predicate NoAddOfPackage<T>(ops: seq<Op<T>>, from: nat, to: nat, p: T)
    requires to <= |ops|
  {
    forall m :: from <= m < to && ops[m].OpAdd? ==> ops[m].p != p
  }

  lemma StepTakes<T>(l: Ledger<T>, op: Op<T>)
    requires Sound(l.store) && Allowed(l, op) && Takes(op)
    ensures After(l.store, op).pending == l.store.pending - {op.p}
  {
    if op.OpPop? {
      PopTakes(l.store, op.p, op.now);
    }
  }

  /** Only its own Add makes a package pending. */
  lemma StepBringsNothingElse<T>(l: Ledger<T>, op: Op<T>, p: T)
    requires Sound(l.store) && Allowed(l, op) && (op.OpAdd? ==> op.p != p) && p !in l.store.pending
    ensures p !in After(l.store, op).pending
  {
    if op.OpAdd? {
      AddReports(l.store, op.p, op.a, op.stamp, op.now);
    } else if op.OpPop? {
      PopTakes(l.store, op.p, op.now);
    }
  }

  lemma {:induction false} TakenStaysOut<T>(ls: seq<Ledger<T>>, ops: seq<Op<T>>, i: nat, m: nat)
    requires Steps(ls, ops) && Sound(ls[0].store) && i < m <= |ops|
    requires Takes(ops[i]) && NoAddOfPackage(ops, i, m, ops[i].p)
    ensures ops[i].p !in ls[m].store.pending
  {
    StepsAreSound(ls, ops, m - 1);
    assert StepAt(ls, ops, m - 1);
    if m == i + 1 {
      StepTakes(ls[i], ops[i]);
    } else {
      TakenStaysOut(ls, ops, i, m - 1);
      StepBringsNothingElse(ls[m - 1], ops[m - 1], ops[i].p);
    }
  }

  /** A package popped or acknowledged is handed out again only after it is added again. */
  lemma TakenIsGone<T>(ls: seq<Ledger<T>>, ops: seq<Op<T>>, i: nat, j: nat)
    requires Steps(ls, ops) && Sound(ls[0].store) && i < j < |ops|
    requires Takes(ops[i]) && HandsOut(ops[j]) && NoAddOfPackage(ops, i, j, ops[i].p)
    ensures ops[j].p != ops[i].p
  {
    TakenStaysOut(ls, ops, i, j);
    assert StepAt(ls, ops, j);
  }

  // ---------------------------------------------------------------- coming back

  /** Unless a package of kind k is added, lane k only loses packages. */
  lemma StepShrinksLane<T>(l: Ledger<T>, op: Op<T>, k: Kind)
    requires Sound(l.store) && Allowed(l, op) && (op.OpAdd? ==> op.a.kind != k)
    ensures |Lane(After(l.store, op), k)| <= |Lane(l.store, k)|
    ensures forall x :: x in Lane(After(l.store, op), k) ==> x in Lane(l.store, k)
  {
    var s := l.store;
    if !op.OpAdd? {
      var lane := Lane(s, s.attrs[op.p].kind);
      WithoutShrinks(lane, op.p);
      WithoutShrinks(Without(lane, op.p), op.p);
    }
  }

  lemma {:induction false} WithoutShrinks<T>(xs: seq<T>, p: T)
    ensures |Without(xs, p)| <= |xs|
    ensures forall x :: x in Without(xs, p) ==> x in xs
  {
    if xs != [] {
      WithoutShrinks(xs[1..], p);
    }
  }

  lemma {:induction false} LaneOnlyShrinks<T>(ls: seq<Ledger<T>>, ops: seq<Op<T>>, i: nat, m: nat, k: Kind)
    requires Steps(ls, ops) && Sound(ls[0].store) && i <= m <= |ops| && NoAddOf(ops, i, m, k)
    ensures |Lane(ls[m].store, k)| <= |Lane(ls[i].store, k)|
    ensures forall x :: x in Lane(ls[m].store, k) ==> x in Lane(ls[i].store, k)
  {
    if i < m {
      LaneOnlyShrinks(ls, ops, i, m - 1, k);
      assert StepAt(ls, ops, m - 1);
      StepsAreSound(ls, ops, m - 1);
      StepShrinksLane(ls[m - 1], ops[m - 1], k);
    }
  }

  /** What is in lane k at i, with nothing of the kind added since, tolerates at j the length the lane had at i. */
  lemma StillTolerates<T>(ls: seq<Ledger<T>>, ops: seq<Op<T>>, i: nat, j: nat, k: Kind, x: T)
    requires Steps(ls, ops) && Sound(ls[0].store) && i <= j <= |ops|
    requires x in Lane(ls[i].store, k)
    ensures x in ls[j].store.attrs && CountOk(ls[j].store.attrs[x], |Lane(ls[i].store, k)|)
  {
    StepsAreSound(ls, ops, i);
    var s := ls[i].store;
    assert LaneOk(s.attrs, s.pending, k, s.kinds[k]);
    FieldsNeverChange(ls, ops, i, j, x);
    assert CountOk(s.attrs[x], |Lane(s, k)|);
  }

  /** Adding to a lane that tolerates one more package drops exactly what is past its time. */
  lemma AddDropsByTimeOnly<T>(s: Store<T>, p: T, a: Attrs, stamp: int, now: int)
    requires Sound(s) && p !in s.pending
    requires CountOk(a, |Lane(s, a.kind)| + 1)
    requires forall x :: x in Lane(s, a.kind) ==> x in s.attrs && CountOk(s.attrs[x], |Lane(s, a.kind)| + 1)
    ensures var s' := Add(s, p, a, stamp, now).store;
      && (forall x :: x in Lane(s, a.kind) + [p] ==> x in s'.attrs)
      && Lane(s', a.kind) == InTime(s'.attrs, Lane(s, a.kind) + [p], now)
  {
    JoinKeeps(s, p, a, stamp);
    var s1 := Join(s, p, a, stamp);
    assert LaneOk(s1.attrs, s1.pending, a.kind, s1.kinds[a.kind]);
    SweepByTimeOnly(s1.attrs, 0, s1.kinds[a.kind], now);
  }

  lemma AddDropsNothing<T>(s: Store<T>, p: T, a: Attrs, stamp: int, now: int)
    requires Sound(s) && p !in s.pending
    requires CountOk(a, |Lane(s, a.kind)| + 1) && !TimeExpired(a, now)
    requires forall x :: x in Lane(s, a.kind) ==> x in s.attrs && CountOk(s.attrs[x], |Lane(s, a.kind)| + 1)
    requires forall x :: x in s.pending ==> !TimeExpired(s.attrs[x], now)
    ensures Add(s, p, a, stamp, now).store.pending == s.pending + {p}
  {
    AddDropsByTimeOnly(s, p, a, stamp, now);
    var s' := Add(s, p, a, stamp, now).store;
    var lane := Lane(s, a.kind) + [p];
    forall x | x in lane ensures x in s'.attrs && !TimeExpired(s'.attrs[x], now) {
      if x != p {
        assert LaneOk(s.attrs, s.pending, a.kind, s.kinds[a.kind]);
      }
    }
    InTimeIsAll(s'.attrs, lane, now);
    assert Elems(lane) - Elems(Lane(s', a.kind)) == {};
  }

  /** After a pop of kind k at i, with nothing of the kind added up to j, the lane has room for one more. */
  lemma LaneHasRoom<T>(ls: seq<Ledger<T>>, ops: seq<Op<T>>, i: nat, j: nat, k: Kind)
    requires Steps(ls, ops) && Sound(ls[0].store) && i < j <= |ops| && ops[i].OpPop?
    requires NoAddOf(ops, i + 1, j, k)
    requires ops[i].p in ls[i].store.attrs && ls[i].store.attrs[ops[i].p].kind == k
    ensures |Lane(ls[j].store, k)| + 1 <= |Lane(ls[i].store, k)|
    ensures forall x :: x in Lane(ls[j].store, k) ==> x in Lane(ls[i].store, k)
  {
    PopShrinksLane(ls, ops, i, k);
    LaneOnlyShrinks(ls, ops, i + 1, j, k);
  }

  lemma PopShrinksLane<T>(ls: seq<Ledger<T>>, ops: seq<Op<T>>, i: nat, k: Kind)
    requires Steps(ls, ops) && Sound(ls[0].store) && i < |ops| && ops[i].OpPop?
    requires ops[i].p in ls[i].store.attrs && ls[i].store.attrs[ops[i].p].kind == k
    ensures |Lane(ls[i + 1].store, k)| + 1 == |Lane(ls[i].store, k)|
    ensures forall x :: x in Lane(ls[i + 1].store, k) ==> x in Lane(ls[i].store, k)
  {
    assert StepAt(ls, ops, i);
    StepsAreSound(ls, ops, i);
    PopTakes(ls[i].store, ops[i].p, ops[i].now);
    StepShrinksLane(ls[i], ops[i], k);
  }

  /** A package added back has the kind and the expiry count it had when it was popped. */
  lemma SamePackage<T>(ls: seq<Ledger<T>>, ops: seq<Op<T>>, i: nat, j: nat)
    requires Steps(ls, ops) && Sound(ls[0].store) && i < j < |ops|
    requires ops[i].OpPop? && ops[j].OpAdd? && ops[j].p == ops[i].p
    ensures var s := ls[i].store;
      && ops[i].p in s.pending && ops[i].p in s.attrs
      && s.attrs[ops[i].p].kind == ops[j].a.kind && s.attrs[ops[i].p].expiryCount == ops[j].a.expiryCount
      && CountOk(s.attrs[ops[i].p], |Lane(s, ops[j].a.kind)|)
    ensures ops[j].p !in ls[j].store.pending
  {
    StepsAreSound(ls, ops, i);
    assert StepAt(ls, ops, i) && StepAt(ls, ops, j);
    FieldsNeverChange(ls, ops, i, j, ops[i].p);
  }

  /**
   A package popped and later added back, with no package of its kind added in between, comes back
   at the end of its lane, and the Add drops nothing by count: only packages past their time go.
   */
  lemma ComingBackDropsNothingByCount<T>(ls: seq<Ledger<T>>, ops: seq<Op<T>>, i: nat, j: nat)
    requires Steps(ls, ops) && Sound(ls[0].store) && i < j < |ops|
    requires ops[i].OpPop? && ops[j].OpAdd? && ops[j].p == ops[i].p
    requires NoAddOf(ops, i + 1, j, ops[j].a.kind)
    ensures var s, s', op := ls[j].store, ls[j + 1].store, ops[j];
      && (forall x :: x in Lane(s, op.a.kind) + [op.p] ==> x in s'.attrs)
      && Lane(s', op.a.kind) == InTime(s'.attrs, Lane(s, op.a.kind) + [op.p], op.now)
  {
    var s, op := ls[j].store, ops[j];
    SamePackage(ls, ops, i, j);
    LaneHasRoom(ls, ops, i, j, op.a.kind);
    forall x | x in Lane(s, op.a.kind) ensures x in s.attrs && CountOk(s.attrs[x], |Lane(s, op.a.kind)| + 1) {
      StillTolerates(ls, ops, i, j, op.a.kind, x);
    }
    StepsAreSound(ls, ops, j);
    AddDropsByTimeOnly(s, op.p, op.a, op.stamp, op.now);
    assert StepAt(ls, ops, j);
  }

  // ---------------------------------------------------------------- peeking twice

  /** Looking at a once more completes a round of retries and demotes it. */
  predicate DueForDemotion(a: Attrs) {
    a.retryLimit > 0 && (a.retries + 1) % a.retryLimit == 0
  }

  /** x would pass a if a were demoted by one. */
  predicate WouldPass(x: Attrs, a: Attrs) {
    x.priority <= a.priority || (x.priority == a.priority + 1 && x.time < a.time)
  }

  /** The front p has not expired, and is not due for a demotion by which another pending package would pass it. */
  ghost predicate StaysFirst<T>(s: Store<T>, p: T, now: int)
    requires WellFormed(s) && p in s.pending
  {
    && !TimeExpired(s.attrs[p], now)
    && (DueForDemotion(s.attrs[p]) ==> forall x :: x in s.pending && x != p ==> !WouldPass(s.attrs[x], s.attrs[p]))
  }

  /** A front that was peeked at is a front again if and only if it stays first. */
  lemma PeekRepeatsIffStaysFirst<T>(s: Store<T>, p: T, now: int)
    requires Sound(s) && IsFront(s, p)
    ensures IsFront(Peek(s, p, now), p) <==> StaysFirst(s, p, now)
  {
    PeekKeeps(s, p, now);
    var s' := Peek(s, p, now);
    assert s'.attrs == s.attrs[p := Retried(s.attrs[p])];
    forall x | x in s.pending && x != p
      ensures Less(s'.attrs[x], s'.attrs[p]) <==> DueForDemotion(s.attrs[p]) && WouldPass(s.attrs[x], s.attrs[p])
    {
      assert !Less(s.attrs[x], s.attrs[p]);
    }
  }

  /** A package that never expires, as given. */
  function Lasting(k: Kind, time: int): Attrs {
    Attrs(k, None, 0, 1, 1, 0, time)
  }

  ghost predicate AllLasting<T>(s: Store<T>) {
    forall x :: x in s.attrs ==> s.attrs[x].expiryTime.None? && s.attrs[x].expiryCount == 0
  }

  /** Adding a lasting package to a store of lasting packages drops nothing. */
  lemma AddLasting<T>(s: Store<T>, p: T, k: Kind, time: int, now: int)
    requires Sound(s) && AllLasting(s) && p !in s.attrs && time != ZERO_TIME
    ensures var s' := Add(s, p, Lasting(k, time), now, now).store;
      Sound(s') && AllLasting(s') && s'.pending == s.pending + {p} && s'.attrs == s.attrs[p := Lasting(k, time)]
  {
    AddKeeps(s, p, Lasting(k, time), now, now);
    forall x | x in Lane(s, k) ensures x in s.attrs {
      assert LaneOk(s.attrs, s.pending, k, s.kinds[k]);
    }
    AddDropsNothing(s, p, Lasting(k, time), now, now);
  }

  lemma StepsExtend<T>(ls: seq<Ledger<T>>, ops: seq<Op<T>>, op: Op<T>, l': Ledger<T>)
    requires Steps(ls, ops) && Step(ls[|ops|], op, l')
    ensures Steps(ls + [l'], ops + [op])
  {
    var ls', ops' := ls + [l'], ops + [op];
    forall i | 0 <= i < |ops'| ensures StepAt(ls', ops', i) {
      if i < |ops| {
        assert StepAt(ls, ops, i);
        assert ls'[i] == ls[i] && ls'[i + 1] == ls[i + 1] && ops'[i] == ops[i];
      } else {
        assert ls'[i] == ls[|ops|] && ls'[i + 1] == l' && ops'[i] == op;
      }
    }
  }

  /** One more lasting package, added at the end of a run. */
  lemma AddLastingToRun<T>(ls: seq<Ledger<T>>, ops: seq<Op<T>>, p: T, k: Kind, time: int, now: int)
    returns (l: Ledger<T>)
    requires Steps(ls, ops) && time != ZERO_TIME
    requires var s := ls[|ops|].store; Sound(s) && AllLasting(s) && p !in s.attrs && p !in s.pending
    ensures Steps(ls + [l], ops + [OpAdd(p, Lasting(k, time), now, now)])
    ensures Sound(l.store) && AllLasting(l.store) && l.store.pending == ls[|ops|].store.pending + {p}
    ensures l.store.attrs == ls[|ops|].store.attrs[p := Lasting(k, time)]
  {
    AddLasting(ls[|ops|].store, p, k, time, now);
    l := Entered(ls[|ops|], OpAdd(p, Lasting(k, time), now, now));
    StepsExtend(ls, ops, OpAdd(p, Lasting(k, time), now, now), l);
  }

  lemma TwoLasting(k: Kind, now: int) returns (ls: seq<Ledger<nat>>, ops: seq<Op<nat>>)
    ensures Run(ls, ops) && |ops| == 2 && ops[0].OpAdd? && ops[1].OpAdd?
    ensures Sound(ls[2].store) && AllLasting(ls[2].store) && ls[2].store.pending == {0, 1}
    ensures ls[2].store.attrs == map[0 := Lasting(k, 1), 1 := Lasting(k, 2)]
  {
    ls, ops := [Start<nat>()], [];
    var l1 := AddLastingToRun(ls, ops, 0, k, 1, now);
    ls, ops := ls + [l1], ops + [OpAdd(0, Lasting(k, 1), now, now)];
    var l2 := AddLastingToRun(ls, ops, 1, k, 2, now);
    ls, ops := ls + [l2], ops + [OpAdd(1, Lasting(k, 2), now, now)];
  }

  /**
   A reachable store where the front does not stay first: of two packages of equal priority, both
   demoted on every retry and neither ever expiring, the older is peeked at; then only the younger is first.
   */
  lemma PeekCanSwitch(k: Kind, now: int) returns (ls: seq<Ledger<nat>>, ops: seq<Op<nat>>)
    ensures Run(ls, ops) && |ops| == 2 && ops[0].OpAdd? && ops[1].OpAdd?
    ensures var s := ls[2].store;
      && Sound(s) && AllLasting(s) && s.pending == {0, 1} && 0 in s.attrs
      && IsFront(s, 0) && !IsFront(s, 1)
      && !IsFront(Peek(s, 0, now), 0) && IsFront(Peek(s, 0, now), 1)
  {
    ls, ops := TwoLasting(k, now);
    PeekRepeatsIffStaysFirst(ls[2].store, 0, now);
  }
}
