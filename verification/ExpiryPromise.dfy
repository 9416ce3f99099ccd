/**
 The documented promise of ExpiryTime (client/pipe_store.go:15-16), "afterwards will not try to send",
 over runs of the store: it is broken by at most one hand-out per package.
 */
module ExpiryPromise {
  import opened Basics
  import opened Packages
  import opened StoreSpec
  import opened StoreLaws
  import opened StoreRuns
  import opened StoreOrder

  /** The reading of the clock by which an operation decides what is past its time. */
  predicate Timed<T>(op: Op<T>) {
    !op.OpAck?
  }

  ghost predicate ClockNondecreasing<T>(ops: seq<Op<T>>) {
    forall i, j :: 0 <= i < j < |ops| && Timed(ops[i]) && Timed(ops[j]) ==> ops[i].now <= ops[j].now
  }

  /** The operation at i hands out a package that is past its time. */
  ghost predicate HandsOutLate<T>(ls: seq<Ledger<T>>, ops: seq<Op<T>>, i: nat)
    requires i < |ops| && i < |ls|
  {
    HandsOut(ops[i]) && ops[i].p in ls[i].store.attrs && TimeExpired(ls[i].store.attrs[ops[i].p], ops[i].now)
  }

  /** p has left, and is past its time from `since` on. */
  ghost predicate LeftLate<T>(s: Store<T>, p: T, since: int) {
    p in s.attrs && p !in s.pending && TimeExpired(s.attrs[p], since)
  }

  /** A package that is past its time when it is added leaves again inside that Add. */
  lemma AddDropsLate<T>(s: Store<T>, p: T, a: Attrs, stamp: int, now: int)
    requires Sound(s) && p !in s.pending && TimeExpired(a, now)
    ensures p !in Add(s, p, a, stamp, now).store.pending
  {
    JoinKeeps(s, p, a, stamp);
    var s1 := Join(s, p, a, stamp);
    var lane := s1.kinds[a.kind];
    assert LaneOk(s1.attrs, s1.pending, a.kind, lane);
    SweepSound(s1.attrs, 0, lane, now);
    assert lane[|lane| - 1] == p;
  }

  /** Handing out a package past its time takes it out of the store. */
  lemma HandOutLeaves<T>(l: Ledger<T>, op: Op<T>)
    requires Sound(l.store) && Allowed(l, op) && HandsOut(op) && TimeExpired(l.store.attrs[op.p], op.now)
    ensures LeftLate(After(l.store, op), op.p, op.now)
  {
    StepAttrs(l, op);
    if op.OpPop? {
      PopTakes(l.store, op.p, op.now);
    }
  }

  /** From then on it never stays in the store: if it is added back, that Add drops it. */
  lemma StaysLeft<T>(l: Ledger<T>, op: Op<T>, p: T, since: int)
    requires Sound(l.store) && Allowed(l, op) && LeftLate(l.store, p, since)
    requires Timed(op) ==> since <= op.now
    ensures LeftLate(After(l.store, op), p, since)
  {
    StepAttrs(l, op);
    match op
    case OpAdd(q, a, stamp, now) =>
      AddReports(l.store, q, a, stamp, now);
      if q == p {
        AddDropsLate(l.store, p, a, stamp, now);
      }
    case OpPeek(_, _) =>
    case OpPop(q, now) => PopTakes(l.store, q, now);
    case OpAck(_) =>
  }

  lemma {:induction false} LateIsGone<T>(ls: seq<Ledger<T>>, ops: seq<Op<T>>, i: nat, m: nat)
    requires Steps(ls, ops) && Sound(ls[0].store) && ClockNondecreasing(ops) && i < m <= |ops|
    requires HandsOutLate(ls, ops, i)
    ensures LeftLate(ls[m].store, ops[i].p, ops[i].now)
  {
    StepsAreSound(ls, ops, m - 1);
    assert StepAt(ls, ops, m - 1);
    if m == i + 1 {
      HandOutLeaves(ls[i], ops[i]);
    } else {
      LateIsGone(ls, ops, i, m - 1);
      StaysLeft(ls[m - 1], ops[m - 1], ops[i].p, ops[i].now);
    }
  }

  /**
   With a clock that does not go back, a package handed out past its time is never handed out again,
   by no later Peek or Pop, even if it is added back: the promise is broken at most once per package.
   */
  lemma LateAtMostOnce<T>(ls: seq<Ledger<T>>, ops: seq<Op<T>>, i: nat, j: nat)
    requires Steps(ls, ops) && Sound(ls[0].store) && ClockNondecreasing(ops) && i < j < |ops|
    requires HandsOutLate(ls, ops, i) && HandsOut(ops[j])
    ensures ops[j].p != ops[i].p
  {
    LateIsGone(ls, ops, i, j);
    assert StepAt(ls, ops, j);
  }

  /** After an Add, everything pending of its kind is in time. */
  lemma AddLeavesInTime<T>(s: Store<T>, p: T, a: Attrs, stamp: int, now: int, x: T)
    requires Sound(s) && p !in s.pending
    requires var s' := Add(s, p, a, stamp, now).store; x in s'.pending && x in s'.attrs && s'.attrs[x].kind == a.kind
    ensures !TimeExpired(Add(s, p, a, stamp, now).store.attrs[x], now)
  {
    AddKeeps(s, p, a, stamp, now);
    JoinKeeps(s, p, a, stamp);
    var s1, s' := Join(s, p, a, stamp), Add(s, p, a, stamp, now).store;
    assert LaneOk(s1.attrs, s1.pending, a.kind, s1.kinds[a.kind]);
    assert InLane(s'.attrs, s'.kinds, x);
    SweepSound(s1.attrs, 0, s1.kinds[a.kind], now);
  }

  /**
   A package is handed out past its time only if it expired after the last Add of its kind: at any
   earlier Add of its kind that left it pending it was still in time.
   */
  lemma LateExpiredSinceLastAdd<T>(ls: seq<Ledger<T>>, ops: seq<Op<T>>, m: nat, i: nat)
    requires Steps(ls, ops) && Sound(ls[0].store) && m < i < |ops| && HandsOutLate(ls, ops, i)
    requires ops[m].OpAdd? && ops[i].p in ls[m + 1].store.pending
    requires ops[m].a.kind == ls[i].store.attrs[ops[i].p].kind
    ensures ls[i].store.attrs[ops[i].p].expiryTime.Some?
    ensures ops[m].now <= ls[i].store.attrs[ops[i].p].expiryTime.value < ops[i].now
  {
    var p := ops[i].p;
    StepsAreSound(ls, ops, m);
    StepsAreSound(ls, ops, m + 1);
    FieldsNeverChange(ls, ops, m + 1, i, p);
    assert StepAt(ls, ops, m);
    AddLeavesInTime(ls[m].store, ops[m].p, ops[m].a, ops[m].stamp, ops[m].now, p);
  }

  function Expiring(k: Kind, expiry: int): Attrs {
    Attrs(k, Some(expiry), 0, 1, 0, 0, 1)
  }

  lemma OneExpiring(k: Kind, expiry: int) returns (l: Ledger<nat>)
    ensures Steps([Start<nat>(), l], [OpAdd(0, Expiring(k, expiry), expiry, expiry)])
    ensures Sound(l.store) && l.store.pending == {0} && l.store.attrs == map[0 := Expiring(k, expiry)]
  {
    var l0, a := Start<nat>(), Expiring(k, expiry);
    AddKeeps(l0.store, 0, a, expiry, expiry);
    AddDropsNothing(l0.store, 0, a, expiry, expiry);
    l := Entered(l0, OpAdd(0, a, expiry, expiry));
    StepsExtend([l0], [], OpAdd(0, a, expiry, expiry), l);
    assert [l0] + [l] == [l0, l] && [] + [OpAdd(0, a, expiry, expiry)] == [OpAdd(0, a, expiry, expiry)];
  }

  /** It does happen: one Add in time, then a Pop after the expiry time that returns the package. */
  lemma LateHandOut(k: Kind, expiry: int) returns (ls: seq<Ledger<nat>>, ops: seq<Op<nat>>)
    ensures Run(ls, ops) && |ops| == 2 && ClockNondecreasing(ops)
    ensures ops[0].OpAdd? && ops[0].p == 0 && !TimeExpired(ops[0].a, ops[0].now)
    ensures ops[1].OpPop? && ops[1].p == 0 && HandsOutLate(ls, ops, 1)
  {
    var add, pop := OpAdd(0, Expiring(k, expiry), expiry, expiry), OpPop(0, expiry + 1);
    var l := OneExpiring(k, expiry);
    var l' := Entered(l, pop);
    StepsExtend([Start<nat>(), l], [add], pop, l');
    ls, ops := [Start<nat>(), l] + [l'], [add] + [pop];
  }
}
