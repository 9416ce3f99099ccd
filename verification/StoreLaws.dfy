/** Laws of the store operations, one operation at a time. */
module StoreLaws {
  import opened Basics
  import opened Packages
  import opened StoreSpec

  // ---------------------------------------------------------------- the sweep

  predicate CountOk(a: Attrs, laneLength: nat) {
    !CountExpired(a, laneLength)
  }

  /** The packages of a lane that have not passed their expiry time, in order. */
  function InTime<T>(attrs: map<T, Attrs>, xs: seq<T>, now: int): seq<T>
    requires forall x :: x in xs ==> x in attrs
    decreases xs
  {
    if xs == [] then []
    else (if TimeExpired(attrs[xs[0]], now) then [] else [xs[0]]) + InTime(attrs, xs[1..], now)
  }

  /** The sweep keeps some of the lane, in order and without duplicates. */
  lemma {:induction false} SweepKeepsSome<T>(attrs: map<T, Attrs>, kept: nat, rest: seq<T>, now: int)
    requires forall x :: x in rest ==> x in attrs
    requires Distinct(rest)
    ensures Distinct(Sweep(attrs, kept, rest, now))
    ensures forall x :: x in Sweep(attrs, kept, rest, now) ==> x in rest
    decreases rest
  {
    if rest != [] {
      SweepKeepsSome(attrs, kept, rest[1..], now);
      SweepKeepsSome(attrs, kept + 1, rest[1..], now);
      assert rest[0] !in rest[1..];
    }
  }

  /** Whatever the sweep keeps is in time, and tolerates the lane at its final length. */
  lemma {:induction false} SweepSound<T>(attrs: map<T, Attrs>, kept: nat, rest: seq<T>, now: int)
    requires forall x :: x in rest ==> x in attrs
    ensures forall x :: x in Sweep(attrs, kept, rest, now) ==>
      x in rest && !TimeExpired(attrs[x], now) && CountOk(attrs[x], kept + |Sweep(attrs, kept, rest, now)|)
    decreases rest
  {
    if rest != [] {
      SweepSound(attrs, kept, rest[1..], now);
      SweepSound(attrs, kept + 1, rest[1..], now);
    }
  }

  /** If everything tolerates the lane as it is, the sweep is exactly the filter by expiry time. */
  lemma {:induction false} SweepByTimeOnly<T>(attrs: map<T, Attrs>, kept: nat, rest: seq<T>, now: int)
    requires forall x :: x in rest ==> x in attrs && CountOk(attrs[x], kept + |rest|)
    ensures Sweep(attrs, kept, rest, now) == InTime(attrs, rest, now)
    decreases rest
  {
    if rest != [] {
      SweepByTimeOnly(attrs, kept, rest[1..], now);
      if !TimeExpired(attrs[rest[0]], now) {
        SweepByTimeOnly(attrs, kept + 1, rest[1..], now);
      }
    }
  }

  lemma {:induction false} InTimeIsAll<T>(attrs: map<T, Attrs>, xs: seq<T>, now: int)
    requires forall x :: x in xs ==> x in attrs && !TimeExpired(attrs[x], now)
    ensures InTime(attrs, xs, now) == xs
    decreases xs
  {
    if xs != [] {
      InTimeIsAll(attrs, xs[1..], now);
    }
  }

  /** The last c of xs, or all of them if there are fewer. */
  function Newest<T>(xs: seq<T>, c: nat): seq<T> {
    if |xs| <= c then xs else xs[|xs| - c..]
  }

  /** A lane of packages with one expiry count c keeps, of its newest c, exactly those in time. */
  lemma {:induction false} SweepKeepsNewest<T>(attrs: map<T, Attrs>, rest: seq<T>, now: int, c: nat)
    requires c > 0
    requires forall x :: x in rest ==> x in attrs && attrs[x].expiryCount == c
    ensures Sweep(attrs, 0, rest, now) == InTime(attrs, Newest(rest, c), now)
    decreases rest
  {
    if |rest| <= c {
      SweepByTimeOnly(attrs, 0, rest, now);
    } else {
      SweepKeepsNewest(attrs, rest[1..], now, c);
      assert Newest(rest[1..], c) == Newest(rest, c);
    }
  }

  // ---------------------------------------------------------------- the count invariant

  /** Every pending package tolerates the number pending of its kind. */
  ghost predicate Counted<T>(s: Store<T>)
    requires WellFormed(s)
  {
    forall x :: x in s.pending ==> CountOk(s.attrs[x], |Lane(s, s.attrs[x].kind)|)
  }

  ghost predicate Sound<T>(s: Store<T>) {
    WellFormed(s) && Counted(s)
  }

  lemma SweepLaneKeeps<T>(s: Store<T>, k: Kind, now: int)
    requires WellFormed(s) && k in s.kinds
    ensures WellFormed(SweepLane(s, k, now))
  {
    var lane := s.kinds[k];
    assert LaneOk(s.attrs, s.pending, k, lane);
    SweepKeepsSome(s.attrs, 0, lane, now);
    var s' := SweepLane(s, k, now);
    forall x | x in s'.pending ensures InLane(s'.attrs, s'.kinds, x) {
      assert InLane(s.attrs, s.kinds, x);
    }
    forall k' | k' in s'.kinds ensures LaneOk(s'.attrs, s'.pending, k', s'.kinds[k']) {
      assert LaneOk(s.attrs, s.pending, k', s.kinds[k']);
    }
  }

  lemma AddKeeps<T>(s: Store<T>, p: T, a: Attrs, stamp: int, now: int)
    requires Sound(s) && p !in s.pending
    ensures Sound(Add(s, p, a, stamp, now).store)
    ensures Add(s, p, a, stamp, now).store.attrs == s.attrs[p := Stamped(a, stamp)]
  {
    JoinKeeps(s, p, a, stamp);
    var s1 := Join(s, p, a, stamp);
    SweepLaneKeeps(s1, a.kind, now);
    var s' := Add(s, p, a, stamp, now).store;
    assert s'.kinds == SweepLane(s1, a.kind, now).kinds;
    forall x | x in s'.pending ensures CountOk(s'.attrs[x], |Lane(s', s'.attrs[x].kind)|) {
      assert InLane(s'.attrs, s'.kinds, x);
      if s'.attrs[x].kind == a.kind {
        assert LaneOk(s1.attrs, s1.pending, a.kind, s1.kinds[a.kind]);
        SweepSound(s1.attrs, 0, s1.kinds[a.kind], now);
      } else {
        assert x in s.pending;
      }
    }
  }

  lemma {:induction false} WithoutLength<T>(xs: seq<T>, x: T)
    ensures |Without(xs, x)| == if x in xs then |xs| - 1 else |xs|
  {
    if xs != [] && xs[0] != x {
      WithoutLength(xs[1..], x);
    }
  }

  lemma RemoveSound<T>(s: Store<T>, p: T)
    requires Sound(s) && p in s.pending
    ensures Sound(Remove(s, p))
    ensures |Remove(s, p).pending| == |s.pending| - 1
  {
    RemoveKeeps(s, p);
    WithoutLength(Lane(s, s.attrs[p].kind), p);
  }

  lemma RetrySound<T>(s: Store<T>, p: T)
    requires Sound(s) && p in s.attrs
    ensures Sound(Retry(s, p))
  {
    RetryKeeps(s, p);
  }

  lemma PeekKeeps<T>(s: Store<T>, p: T, now: int)
    requires Sound(s) && p in s.pending
    ensures Sound(Peek(s, p, now))
  {
    RemoveSound(s, p);
    RetrySound(Overdue(s, p, now), p);
  }

  lemma AckKeeps<T>(s: Store<T>, p: T)
    requires Sound(s) && p in s.attrs
    ensures Sound(Ack(s, p))
  {
    if p in s.pending {
      RemoveSound(s, p);
    }
  }

  /** A popped package is no longer pending, expired or not; the others stay, with their fields. */
  lemma PopTakes<T>(s: Store<T>, p: T, now: int)
    requires Sound(s) && p in s.pending
    ensures Sound(Pop(s, p, now))
    ensures Pop(s, p, now).pending == s.pending - {p}
    ensures Pop(s, p, now).attrs == s.attrs[p := Retried(s.attrs[p])]
    ensures Pop(s, p, now).removed == s.removed + if TimeExpired(s.attrs[p], now) then 1 else 0
    ensures |Lane(Pop(s, p, now), s.attrs[p].kind)| == |Lane(s, s.attrs[p].kind)| - 1
  {
    PeekKeeps(s, p, now);
    AckKeeps(Peek(s, p, now), p);
    assert InLane(s.attrs, s.kinds, p);
    WithoutLength(Lane(s, s.attrs[p].kind), p);
  }

  /**
   The number an Add reports is the removed counter plus the packages that Add itself dropped:
   those that were pending, or just added, and no longer are.
   */
  lemma AddReports<T>(s: Store<T>, p: T, a: Attrs, stamp: int, now: int)
    requires Sound(s) && p !in s.pending
    ensures var r := Add(s, p, a, stamp, now);
      && r.store.pending <= s.pending + {p}
      && r.reported == s.removed + |s.pending + {p} - r.store.pending|
      && r.store.removed == 0
  {
    JoinKeeps(s, p, a, stamp);
    var s1 := Join(s, p, a, stamp);
    var lane := s1.kinds[a.kind];
    assert LaneOk(s1.attrs, s1.pending, a.kind, lane);
    var kept := Sweep(s1.attrs, 0, lane, now);
    SweepKeepsSome(s1.attrs, 0, lane, now);
    CountDistinct(lane);
    CountDistinct(kept);
    assert Elems(kept) <= Elems(lane) <= s1.pending;
    assert s1.pending - Add(s, p, a, stamp, now).store.pending == Elems(lane) - Elems(kept);
  }
}
