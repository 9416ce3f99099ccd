/**
 What an Add keeps, on any lane, told without the scan: exactly which packages it drops, which
 fields it changes, and that it leaves the other kinds alone.
 */
module CountPromise {
  import opened Basics
  import opened Packages
  import opened StoreSpec
  import opened StoreLaws
  import opened StoreRuns
  import opened StoreOrder

  // ---------------------------------------------------------------- one lane

  /** The packages of a lane before position i that the sweep keeps. */
  ghost function OlderKept<T>(lane: seq<T>, kept: seq<T>, i: nat): set<T>
    requires i <= |lane|
  {
    set x | x in lane[..i] && x in kept
  }

  /** Examining one package more or less, at the old end of the lane. */
  lemma OlderKeptStep<T>(lane: seq<T>, kept: seq<T>, i: nat)
    requires Distinct(lane) && 0 < i <= |lane|
    ensures lane[0] !in kept ==> OlderKept(lane, kept, i) == OlderKept(lane[1..], kept, i - 1)
    ensures lane[0] !in lane[1..] &&
      |OlderKept(lane, [lane[0]] + kept, i)| == 1 + |OlderKept(lane[1..], kept, i - 1)|
  {
    assert lane[..i] == [lane[0]] + lane[1..][..i - 1];
    var older := OlderKept(lane[1..], kept, i - 1);
    assert lane[0] !in lane[1..];
    assert lane[0] !in older by {
      assert forall x :: x in lane[1..][..i - 1] ==> x in lane[1..];
    }
    assert OlderKept(lane, [lane[0]] + kept, i) == {lane[0]} + older;
  }

  /**
   The package at position i stays if and only if it is in time and its expiry count covers itself,
   the newer ones, and those older ones that stay.
   */
  lemma {:induction false} SweepAt<T>(attrs: map<T, Attrs>, kept: nat, rest: seq<T>, now: int, i: nat)
    requires forall x :: x in rest ==> x in attrs
    requires Distinct(rest) && i < |rest|
    ensures var swept := Sweep(attrs, kept, rest, now);
      rest[i] in swept <==>
        !Expired(attrs[rest[i]], kept + |OlderKept(rest, swept, i)| + |rest| - i, now)
    decreases rest
  {
    var swept := Sweep(attrs, kept, rest, now);
    var drop := Expired(attrs[rest[0]], kept + |rest|, now);
    var kept' := if drop then kept else kept + 1;
    SweepKeepsSome(attrs, kept', rest[1..], now);
    assert rest[0] !in rest[1..];
    if i == 0 {
      assert OlderKept(rest, swept, 0) == {};
    } else {
      SweepAt(attrs, kept', rest[1..], now, i - 1);
      OlderKeptStep(rest, Sweep(attrs, kept', rest[1..], now), i);
    }
  }

  // ---------------------------------------------------------------- the whole store

  /** An Add sweeps its own lane with the new package at the end, and touches nothing else. */
  lemma AddSweepsItsLane<T>(s: Store<T>, p: T, a: Attrs, stamp: int, now: int)
    requires Sound(s) && p !in s.pending
    ensures var s' := Add(s, p, a, stamp, now).store; var lane := Lane(s, a.kind) + [p];
      && Distinct(lane) && (forall x :: x in lane ==> x in s'.attrs && s'.attrs[x].kind == a.kind)
      && Lane(s', a.kind) == Sweep(s'.attrs, 0, lane, now)
      && (forall x :: x in lane && x in s'.pending ==> x in Lane(s', a.kind))
      && (forall x :: x in Lane(s', a.kind) ==> x in lane && x in s'.pending)
  {
    AddKeeps(s, p, a, stamp, now);
    JoinKeeps(s, p, a, stamp);
    var s1 := Join(s, p, a, stamp);
    var lane := s1.kinds[a.kind];
    assert LaneOk(s1.attrs, s1.pending, a.kind, lane);
    SweepKeepsSome(s1.attrs, 0, lane, now);
  }

  /** The only field an Add can change is the time of the added package, and only a zero time. */
  lemma AddStampsOnlyZero<T>(s: Store<T>, p: T, a: Attrs, stamp: int, now: int)
    requires Sound(s) && p !in s.pending
    ensures var s' := Add(s, p, a, stamp, now).store;
      && p in s'.attrs && s'.attrs[p] == a.(time := if a.time == 0 then stamp else a.time)
      && (forall x :: x in s.attrs && x != p ==> x in s'.attrs && s'.attrs[x] == s.attrs[x])
  {
    AddKeeps(s, p, a, stamp, now);
  }

  /** Packages of the other kinds stay pending, in the order they were. */
  lemma AddLeavesOtherKinds<T>(s: Store<T>, p: T, a: Attrs, stamp: int, now: int)
    requires Sound(s) && p !in s.pending
    ensures var s' := Add(s, p, a, stamp, now).store;
      && (forall k :: k != a.kind ==> Lane(s', k) == Lane(s, k))
      && (forall x :: x in s.pending && s.attrs[x].kind != a.kind ==> x in s'.pending)
  {
    JoinKeeps(s, p, a, stamp);
    var s1 := Join(s, p, a, stamp);
    assert LaneOk(s1.attrs, s1.pending, a.kind, s1.kinds[a.kind]);
  }

  /**
   Exactly what an Add drops, whatever the expiry counts in the lane: of the packages of its kind, the
   new one last, the one at position i stays pending if and only if it is not past its time and its
   expiry count, if positive, covers itself, the newer ones, and those older ones that stay.
   */
  lemma AddDropsExactly<T>(s: Store<T>, p: T, a: Attrs, stamp: int, now: int, i: nat)
    requires Sound(s) && p !in s.pending && i <= |Lane(s, a.kind)|
    ensures var s' := Add(s, p, a, stamp, now).store; var lane := Lane(s, a.kind) + [p]; var x := lane[i];
      var covered := |OlderKept(lane, Lane(s', a.kind), i)| + |lane| - i;
      && x in s'.attrs
      && (x in s'.pending <==>
            && (s'.attrs[x].expiryTime.Some? ==> now <= s'.attrs[x].expiryTime.value)
            && (s'.attrs[x].expiryCount > 0 ==> covered <= s'.attrs[x].expiryCount))
  {
    AddSweepsItsLane(s, p, a, stamp, now);
    var s', lane := Add(s, p, a, stamp, now).store, Lane(s, a.kind) + [p];
    assert lane[i] in lane;
    SweepAt(s'.attrs, 0, lane, now, i);
  }

  /**
   The documented promise of ExpiryCount, that a package expires if this number of packages come
   afterwards, is kept. It can expire earlier: exactly if older ones that stay make up the number.
   */
  lemma CountPromiseIsKept<T>(s: Store<T>, p: T, a: Attrs, stamp: int, now: int, i: nat)
    requires Sound(s) && p !in s.pending && i <= |Lane(s, a.kind)|
    ensures var s' := Add(s, p, a, stamp, now).store; var lane := Lane(s, a.kind) + [p]; var x := lane[i];
      var newer, older := |lane| - 1 - i, |OlderKept(lane, Lane(s', a.kind), i)|;
      && x in s'.attrs
      && (0 < s'.attrs[x].expiryCount <= newer ==> x !in s'.pending)
      && (s'.attrs[x].expiryCount > newer && !TimeExpired(s'.attrs[x], now) ==>
            (x !in s'.pending <==> s'.attrs[x].expiryCount <= newer + older))
  {
    AddDropsExactly(s, p, a, stamp, now, i);
  }

  lemma LaneOfOne<T>(s: Store<T>, k: Kind, x: T)
    requires Sound(s) && s.pending == {x} && x in s.attrs && s.attrs[x].kind == k
    ensures Lane(s, k) == [x]
  {
    assert InLane(s.attrs, s.kinds, x);
    var lane := Lane(s, k);
    assert LaneOk(s.attrs, s.pending, k, lane);
    CountDistinct(lane);
    assert Elems(lane) == {x};
  }

  /** Adding a package with expiry count 1 behind an older one that never expires drops it at once. */
  lemma DroppedAtOnce<T>(s: Store<T>, x: T, p: T, a: Attrs, now: int)
    requires Sound(s) && AllLasting(s) && s.pending == {x} && x in s.attrs && s.attrs[x].kind == a.kind
    requires p !in s.attrs && a.expiryCount == 1 && a.expiryTime.None?
    ensures Add(s, p, a, now, now).store.pending == {x}
  {
    LaneOfOne(s, a.kind, x);
    AddStampsOnlyZero(s, p, a, now, now);
    AddReports(s, p, a, now, now);
    AddSweepsItsLane(s, p, a, now, now);
    var s' := Add(s, p, a, now, now).store;
    SweepOfTwo(s'.attrs, x, p, now);
    assert Lane(s, a.kind) + [p] == [x, p];
  }

  lemma SweepOfTwo<T>(attrs: map<T, Attrs>, x: T, p: T, now: int)
    requires x in attrs && attrs[x].expiryTime.None? && attrs[x].expiryCount == 0
    requires p in attrs && attrs[p].expiryCount == 1
    ensures Sweep(attrs, 0, [x, p], now) == [x]
  {
    assert [x, p][1..] == [p] && [p][1..] == [];
  }

  /** A run in which a package with a positive expiry count expires although nothing came after it. */
  lemma ExpiresEarly(k: Kind, now: int) returns (ls: seq<Ledger<nat>>, ops: seq<Op<nat>>)
    ensures Run(ls, ops) && |ops| == 2 && ops[0].OpAdd? && ops[1].OpAdd?
    ensures ops[0].p == 0 && ops[1].p == 1 && ops[1].a.kind == k && ops[1].a.expiryCount == 1
    ensures !TimeExpired(ops[1].a, now) && ls[2].store.pending == {0}
  {
    ls, ops := [Start<nat>()], [];
    var l1 := AddLastingToRun(ls, ops, 0, k, 1, now);
    ls, ops := ls + [l1], ops + [OpAdd(0, Lasting(k, 1), now, now)];
    var op := OpAdd(1, Attrs(k, None, 1, 1, 1, 0, 2), now, now);
    DroppedAtOnce(l1.store, 0, 1, op.a, now);
    var l2 := Entered(l1, op);
    StepsExtend(ls, ops, op, l2);
    ls, ops := ls + [l2], ops + [op];
  }

  // ---------------------------------------------------------------- one expiry count

  /** Every pending package of kind k has expiry count c. */
  ghost predicate LaneOf<T>(s: Store<T>, k: Kind, c: int) {
    forall x :: x in Lane(s, k) ==> x in s.attrs && s.attrs[x].expiryCount == c
  }

  /**
   If the pending packages of a kind and the new one have one expiry count c > 0, the lane after the
   Add is the newest c of the lane before and the new package, less those past their time.
   */
  lemma AddKeepsNewest<T>(s: Store<T>, p: T, a: Attrs, stamp: int, now: int)
    requires Sound(s) && p !in s.pending && a.expiryCount > 0 && LaneOf(s, a.kind, a.expiryCount)
    ensures var s' := Add(s, p, a, stamp, now).store; var newest := Newest(Lane(s, a.kind) + [p], a.expiryCount);
      && (forall x :: x in newest ==> x in s'.attrs)
      && Lane(s', a.kind) == InTime(s'.attrs, newest, now)
      && ((forall x :: x in newest ==> !TimeExpired(s'.attrs[x], now)) ==> Lane(s', a.kind) == newest)
  {
    AddSweepsItsLane(s, p, a, stamp, now);
    AddStampsOnlyZero(s, p, a, stamp, now);
    var s', lane := Add(s, p, a, stamp, now).store, Lane(s, a.kind) + [p];
    SweepKeepsNewest(s'.attrs, lane, now, a.expiryCount);
    var newest := Newest(lane, a.expiryCount);
    if forall x :: x in newest ==> !TimeExpired(s'.attrs[x], now) {
      InTimeIsAll(s'.attrs, newest, now);
    }
  }

  lemma {:induction false} InTimeMembers<T>(attrs: map<T, Attrs>, xs: seq<T>, now: int)
    requires forall x :: x in xs ==> x in attrs
    ensures forall x :: x in InTime(attrs, xs, now) <==> x in xs && !TimeExpired(attrs[x], now)
    decreases xs
  {
    if xs != [] {
      InTimeMembers(attrs, xs[1..], now);
    }
  }

  /** In particular the new package is pending, unless it is past its time already. */
  lemma NewPackageStays<T>(s: Store<T>, p: T, a: Attrs, stamp: int, now: int)
    requires Sound(s) && p !in s.pending && a.expiryCount > 0 && LaneOf(s, a.kind, a.expiryCount)
    ensures p in Add(s, p, a, stamp, now).store.pending <==> !TimeExpired(a, now)
  {
    AddKeepsNewest(s, p, a, stamp, now);
    AddSweepsItsLane(s, p, a, stamp, now);
    AddStampsOnlyZero(s, p, a, stamp, now);
    var s', newest := Add(s, p, a, stamp, now).store, Newest(Lane(s, a.kind) + [p], a.expiryCount);
    assert newest[|newest| - 1] == p;
    InTimeMembers(s'.attrs, newest, now);
    assert (Lane(s, a.kind) + [p])[|Lane(s, a.kind)|] == p;
  }
}
