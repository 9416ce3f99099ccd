/**
 Bounded bypass. One worker, every send fails, nothing new arrives and nothing passes its expiry
 time: the worker keeps popping a front package and adding it back, a little less urgent each time
 its retries complete a round. How long can a pending package be overtaken?
 */
module Bypass {
  import opened Packages
  import opened StoreSpec
  import opened StoreLaws
  import opened StoreRuns
  import opened StoreOrder
  import opened CountPromise

  /** The clock readings of one turn: at the pop, and the two inside the add. */
  datatype Clock = Clock(popAt: int, stamp: int, addAt: int)

  /** One turn of the worker: the package popped, and the clock. */
  datatype Turn<T> = Turn(p: T, clock: Clock)

  ghost function FailedTurn<T>(s: Store<T>, t: Turn<T>): Store<T>
    requires Sound(s) && IsFront(s, t.p)
  {
    PopTakes(s, t.p, t.clock.popAt);
    var s1 := Pop(s, t.p, t.clock.popAt);
    Add(s1, t.p, s1.attrs[t.p], t.clock.stamp, t.clock.addAt).store
  }

  /** Every pending package is demoted after finitely many retries, and none expires by time during t. */
  ghost predicate Quiet<T>(s: Store<T>, t: Turn<T>)
    requires WellFormed(s)
  {
    forall x :: x in s.pending ==>
      && s.attrs[x].retryLimit > 0
      && !TimeExpired(s.attrs[x], t.clock.popAt)
      && !TimeExpired(s.attrs[x], t.clock.addAt)
  }

  /** From an unsound store, anything could follow. */
  ghost predicate TurnAt<T>(ss: seq<Store<T>>, ts: seq<Turn<T>>, i: nat)
    requires i < |ts| && i + 1 < |ss|
  {
    Sound(ss[i]) ==> IsFront(ss[i], ts[i].p) && Quiet(ss[i], ts[i]) && ss[i + 1] == FailedTurn(ss[i], ts[i])
  }

  ghost predicate Turns<T>(ss: seq<Store<T>>, ts: seq<Turn<T>>) {
    |ss| == |ts| + 1 && Sound(ss[0]) && forall i :: 0 <= i < |ts| ==> TurnAt(ss, ts, i)
  }

  // ---------------------------------------------------------------- the measure

  /** How many more times x can be popped before it is strictly less urgent than priority b. */
  function Debt(b: int, x: Attrs): nat
    requires x.retryLimit > 0
  {
    var d := (b - x.priority + 1) * x.retryLimit - x.retries % x.retryLimit;
    if d < 0 then 0 else d
  }

  ghost predicate Retryable<T>(attrs: map<T, Attrs>, xs: set<T>) {
    forall x :: x in xs ==> x in attrs && attrs[x].retryLimit > 0
  }

  ghost function Owed<T>(attrs: map<T, Attrs>, others: set<T>, b: int): nat
    requires Retryable(attrs, others)
  {
    if others == {} then 0
    else var x :| x in others; Debt(b, attrs[x]) + Owed(attrs, others - {x}, b)
  }

  /** The bound: what the other pending packages owe to B. */
  ghost function Overtakes<T>(s: Store<T>, b: T): nat
    requires Retryable(s.attrs, s.pending) && b in s.pending
  {
    Owed(s.attrs, s.pending - {b}, s.attrs[b].priority)
  }

  /** The sum does not depend on the order of summation. */
  lemma {:induction false} OwedPick<T>(attrs: map<T, Attrs>, others: set<T>, b: int, x: T)
    requires Retryable(attrs, others) && x in others
    ensures Owed(attrs, others, b) == Debt(b, attrs[x]) + Owed(attrs, others - {x}, b)
    decreases others
  {
    var y :| y in others && Owed(attrs, others, b) == Debt(b, attrs[y]) + Owed(attrs, others - {y}, b);
    if y != x {
      OwedPick(attrs, others - {y}, b, x);
      OwedPick(attrs, others - {x}, b, y);
      assert others - {y} - {x} == others - {x} - {y};
    }
  }

  lemma {:induction false} OwedSame<T>(attrs: map<T, Attrs>, attrs': map<T, Attrs>, others: set<T>, b: int)
    requires Retryable(attrs, others) && Retryable(attrs', others)
    requires forall x :: x in others ==> attrs'[x] == attrs[x]
    ensures Owed(attrs', others, b) == Owed(attrs, others, b)
    decreases others
  {
    if others != {} {
      var x :| x in others;
      OwedPick(attrs, others, b, x);
      OwedPick(attrs', others, b, x);
      OwedSame(attrs, attrs', others - {x}, b);
    }
  }

  /** Changing one package changes the sum by the change of its own debt. */
  lemma OwedPays<T>(attrs: map<T, Attrs>, others: set<T>, b: int, p: T, a: Attrs)
    requires Retryable(attrs, others) && p in others
    requires a.retryLimit > 0 && Debt(b, a) == Debt(b, attrs[p]) - 1
    ensures Retryable(attrs[p := a], others)
    ensures Owed(attrs[p := a], others, b) == Owed(attrs, others, b) - 1
  {
    OwedPick(attrs, others, b, p);
    OwedPick(attrs[p := a], others, b, p);
    OwedSame(attrs, attrs[p := a], others - {p}, b);
  }

  /** Popping a package no less urgent than b pays off exactly one of its debt. */
  lemma DebtPays(b: int, x: Attrs)
    requires x.retryLimit > 0 && x.priority <= b
    ensures Debt(b, x) >= 1 && Debt(b, Retried(x)) == Debt(b, x) - 1
    ensures Retried(x).retryLimit == x.retryLimit
  {
    var m, d := x.retryLimit, b - x.priority;
    DivStep(x.retries, m);
    assert (d + 1) * m == d * m + m;
    assert d * m >= 0;
    assert Retried(x).priority != x.priority ==> (b - Retried(x).priority + 1) * m == d * m;
  }

  /** A package owes nothing exactly when it is strictly less urgent. */
  lemma DebtIsPaidOff(b: int, x: Attrs)
    requires x.retryLimit > 0
    ensures Debt(b, x) == 0 <==> x.priority > b
  {
    var m, d := x.retryLimit, b - x.priority + 1;
    if x.priority > b {
      MulAtLeast(m, d);
    } else {
      DebtPays(b, x);
    }
  }

  lemma {:induction false} NothingOwed<T>(attrs: map<T, Attrs>, others: set<T>, b: int)
    requires Retryable(attrs, others)
    ensures Owed(attrs, others, b) == 0 <==> forall x :: x in others ==> attrs[x].priority > b
    decreases others
  {
    if others != {} {
      var x :| x in others;
      OwedPick(attrs, others, b, x);
      NothingOwed(attrs, others - {x}, b);
      DebtIsPaidOff(b, attrs[x]);
    }
  }

  /** The bound is zero exactly when every other pending package has a strictly greater priority number than B. */
  lemma PaidOffIsFirst<T>(s: Store<T>, b: T)
    requires WellFormed(s) && Retryable(s.attrs, s.pending) && b in s.pending
    ensures Overtakes(s, b) == 0 <==> forall x :: x in s.pending && x != b ==> s.attrs[x].priority > s.attrs[b].priority
    ensures Overtakes(s, b) == 0 ==> forall p :: IsFront(s, p) <==> p == b
  {
    NothingOwed(s.attrs, s.pending - {b}, s.attrs[b].priority);
    if Overtakes(s, b) == 0 {
      forall p | IsFront(s, p) ensures p == b {
        assert !Less(s.attrs[b], s.attrs[p]);
      }
    }
  }

  // ---------------------------------------------------------------- failed turns

  /** After a pop, the lane has room for the popped package as far as the counts are concerned. */
  lemma RoomToComeBack<T>(s: Store<T>, p: T, now: int)
    requires Sound(s) && p in s.pending
    ensures var s1 := Pop(s, p, now); var k := s.attrs[p].kind;
      && p in s1.attrs && CountOk(s1.attrs[p], |Lane(s1, k)| + 1)
      && forall x :: x in Lane(s1, k) ==> x in s1.attrs && CountOk(s1.attrs[x], |Lane(s1, k)| + 1)
  {
    PopTakes(s, p, now);
    var s1, k := Pop(s, p, now), s.attrs[p].kind;
    assert CountOk(s.attrs[p], |Lane(s, k)|);
    forall x | x in Lane(s1, k) ensures x in s1.attrs && CountOk(s1.attrs[x], |Lane(s1, k)| + 1) {
      assert LaneOk(s1.attrs, s1.pending, k, s1.kinds[k]);
      assert CountOk(s.attrs[x], |Lane(s, k)|);
    }
  }

  /** Adding p back where the counts leave room for it drops exactly what is past its time, of its kind. */
  lemma AddBack<T>(s1: Store<T>, p: T, stamp: int, now: int)
    requires Sound(s1) && p !in s1.pending && p in s1.attrs
    requires CountOk(s1.attrs[p], |Lane(s1, s1.attrs[p].kind)| + 1)
    requires forall x :: x in Lane(s1, s1.attrs[p].kind) ==>
      x in s1.attrs && CountOk(s1.attrs[x], |Lane(s1, s1.attrs[p].kind)| + 1)
    ensures var s' := Add(s1, p, s1.attrs[p], stamp, now).store;
      && Sound(s')
      && (forall x :: x in s'.pending <==>
            && (x in s1.pending || x == p)
            && (s1.attrs[x].kind == s1.attrs[p].kind ==> !TimeExpired(s1.attrs[x], now)))
      && s'.attrs == s1.attrs[p := Stamped(s1.attrs[p], stamp)]
      && s'.removed == 0
  {
    var a := s1.attrs[p];
    AddKeeps(s1, p, a, stamp, now);
    AddReports(s1, p, a, stamp, now);
    AddDropsByTimeOnly(s1, p, a, stamp, now);
    AddLeavesOtherKinds(s1, p, a, stamp, now);
    AddSweepsItsLane(s1, p, a, stamp, now);
    var s', lane := Add(s1, p, a, stamp, now).store, Lane(s1, a.kind) + [p];
    InTimeMembers(s'.attrs, lane, now);
    forall x | (x in s1.pending || x == p) && s1.attrs[x].kind == a.kind
      ensures x in s'.pending <==> !TimeExpired(s1.attrs[x], now)
    {
      assert x != p ==> InLane(s1.attrs, s1.kinds, x);
      assert x in lane;
    }
  }

  /**
   A failed turn at any time: whatever was popped comes back with one more retry and the time it had.
   Of its kind exactly the packages past their time at the Add are gone, itself included; the other
   kinds are as before; the counter of expired packages starts again.
   */
  lemma FailedTurnExactly<T>(s: Store<T>, t: Turn<T>)
    requires Sound(s) && IsFront(s, t.p)
    ensures Sound(FailedTurn(s, t))
    ensures var s' := FailedTurn(s, t); var k := s.attrs[t.p].kind;
      && (forall x :: x in s'.pending <==>
            x in s.pending && (s.attrs[x].kind == k ==> !TimeExpired(s.attrs[x], t.clock.addAt)))
      && s'.attrs == s.attrs[t.p := Stamped(Retried(s.attrs[t.p]), t.clock.stamp)]
      && s'.removed == 0
  {
    PopTakes(s, t.p, t.clock.popAt);
    RoomToComeBack(s, t.p, t.clock.popAt);
    var s1 := Pop(s, t.p, t.clock.popAt);
    AddBack(s1, t.p, t.clock.stamp, t.clock.addAt);
  }

  /** A failed turn in quiet times leaves the same packages pending; only the popped one changes. */
  lemma TurnRestores<T>(s: Store<T>, t: Turn<T>)
    requires Sound(s) && IsFront(s, t.p) && Quiet(s, t)
    ensures Sound(FailedTurn(s, t))
    ensures FailedTurn(s, t).pending == s.pending
    ensures FailedTurn(s, t).attrs == s.attrs[t.p := Stamped(Retried(s.attrs[t.p]), t.clock.stamp)]
  {
    FailedTurnExactly(s, t);
  }

  // ---------------------------------------------------------------- the theorem

  /** Each turn that passes over B lowers the bound by exactly one. */
  lemma TurnPays<T>(s: Store<T>, t: Turn<T>, b: T)
    requires Sound(s) && IsFront(s, t.p) && Quiet(s, t)
    requires b in s.pending && b != t.p
    ensures Retryable(s.attrs, s.pending)
    ensures b in FailedTurn(s, t).pending && Retryable(FailedTurn(s, t).attrs, FailedTurn(s, t).pending)
    ensures Overtakes(FailedTurn(s, t), b) == Overtakes(s, b) - 1
  {
    TurnRestores(s, t);
    assert !Less(s.attrs[b], s.attrs[t.p]);
    OvertakesAfter(s, FailedTurn(s, t), b, t.p, t.clock.stamp);
  }

  lemma OvertakesAfter<T>(s: Store<T>, s': Store<T>, b: T, p: T, stamp: int)
    requires Retryable(s.attrs, s.pending) && b in s.pending && p in s.pending && b != p
    requires s.attrs[p].priority <= s.attrs[b].priority
    requires s'.pending == s.pending && s'.attrs == s.attrs[p := Stamped(Retried(s.attrs[p]), stamp)]
    ensures Retryable(s'.attrs, s'.pending) && Overtakes(s', b) == Overtakes(s, b) - 1
  {
    var b', x := s.attrs[b].priority, s.attrs[p];
    DebtPays(b', x);
    OwedPays(s.attrs, s.pending - {b}, b', p, Stamped(Retried(x), stamp));
  }

  /**
   Among any number of turns that never pop B, there are at most as many as the bound computed in
   the first state: B is popped after at most that many earlier pops.
   */
  lemma {:induction false} BoundedBypass<T>(ss: seq<Store<T>>, ts: seq<Turn<T>>, b: T, n: nat)
    requires Turns(ss, ts) && 0 < n <= |ts|
    requires b in ss[0].pending && forall i :: 0 <= i < n ==> ts[i].p != b
    ensures Sound(ss[n])
    ensures Retryable(ss[0].attrs, ss[0].pending) && n <= Overtakes(ss[0], b)
    ensures b in ss[n].pending && Retryable(ss[n].attrs, ss[n].pending)
    ensures Overtakes(ss[n], b) == Overtakes(ss[0], b) - n
  {
    if n > 1 {
      BoundedBypass(ss, ts, b, n - 1);
    }
    assert TurnAt(ss, ts, n - 1);
    TurnRestores(ss[n - 1], ts[n - 1]);
    TurnPays(ss[n - 1], ts[n - 1], b);
  }
}
