/**
 What the pipe store promises, without its heap: a store is a set of pending packages, one
 insertion-ordered lane per packet kind, and a counter of expired packages not yet reported.
 The operations are functions of the store, of the package concerned and of the clock; the only
 freedom left to an implementation is which of several equally urgent packages comes first.
 `T` is the identity of a package; `attrs` also remembers the packages that have left.
 */
module StoreSpec {
  import opened Basics
  import opened Packages

  datatype Store<T> = Store(
    attrs: map<T, Attrs>,
    pending: set<T>,
    kinds: map<Kind, seq<T>>,
    removed: nat)

  function Lane<T>(s: Store<T>, k: Kind): seq<T> {
    if k in s.kinds then s.kinds[k] else []
  }

  ghost predicate InLane<T>(attrs: map<T, Attrs>, kinds: map<Kind, seq<T>>, x: T) {
    x in attrs && attrs[x].kind in kinds && x in kinds[attrs[x].kind]
  }

  ghost predicate LaneOk<T>(attrs: map<T, Attrs>, pending: set<T>, k: Kind, lane: seq<T>)
    requires pending <= attrs.Keys
  {
    Distinct(lane) && forall x :: x in lane ==> x in pending && attrs[x].kind == k
  }

  /** The two indexes agree: the lanes split the pending packages by kind, without duplicates. */
  ghost predicate Agree<T>(attrs: map<T, Attrs>, pending: set<T>, kinds: map<Kind, seq<T>>) {
    && pending <= attrs.Keys
    && (forall x :: x in pending ==> InLane(attrs, kinds, x))
    && (forall k :: k in kinds ==> LaneOk(attrs, pending, k, kinds[k]))
  }

  ghost predicate WellFormed<T>(s: Store<T>) {
    Agree(s.attrs, s.pending, s.kinds)
  }

  function Empty<T>(): Store<T> {
    Store(map[], {}, map[], 0)
  }

  // ---------------------------------------------------------------- removal

  /** xs without the first occurrence of x. */
  function Without<T(==)>(xs: seq<T>, x: T): seq<T> {
    if xs == [] then [] else if xs[0] == x then xs[1..] else [xs[0]] + Without(xs[1..], x)
  }

  lemma {:induction false} WithoutAt<T>(xs: seq<T>, i: nat)
    requires i < |xs| && xs[i] !in xs[..i]
    ensures Without(xs, xs[i]) == xs[..i] + xs[i + 1..]
  {
    if i > 0 {
      assert xs[1..][..i - 1] == xs[..i][1..];
      assert xs[0] == xs[..i][0];
      WithoutAt(xs[1..], i - 1);
    }
  }

  lemma {:induction false} WithoutAbsent<T>(xs: seq<T>, x: T)
    requires x !in xs
    ensures Without(xs, x) == xs
  {
    if xs != [] {
      WithoutAbsent(xs[1..], x);
    }
  }

  /** Cutting position i out of a list without duplicates. */
  lemma CutOne<T>(xs: seq<T>, i: nat)
    requires Distinct(xs) && i < |xs|
    ensures Without(xs, xs[i]) == xs[..i] + xs[i + 1..]
    ensures Distinct(xs[..i] + xs[i + 1..])
    ensures forall x :: x in xs[..i] + xs[i + 1..] <==> x in xs && x != xs[i]
  {
    WithoutAt(xs, i);
    CutMembers(xs, i);
  }

  lemma CutMembers<T>(xs: seq<T>, i: nat)
    requires Distinct(xs) && i < |xs|
    ensures forall x :: x in xs[..i] + xs[i + 1..] <==> x in xs && x != xs[i]
  {
    forall x | x in xs && x != xs[i] ensures x in xs[..i] + xs[i + 1..] {
      var j :| 0 <= j < |xs| && xs[j] == x;
      if j < i {
        assert xs[..i][j] == x;
      } else {
        assert xs[i + 1..][j - i - 1] == x;
      }
    }
  }

  function Remove<T(==)>(s: Store<T>, p: T): Store<T>
    requires p in s.attrs
  {
    var k := s.attrs[p].kind;
    Store(s.attrs, s.pending - {p}, if k in s.kinds then s.kinds[k := Without(s.kinds[k], p)] else s.kinds, s.removed)
  }

  /** Taking p out of both indexes keeps them in agreement. */
  lemma RemoveKeeps<T>(s: Store<T>, p: T)
    requires WellFormed(s) && p in s.pending
    ensures WellFormed(Remove(s, p))
  {
    var k := s.attrs[p].kind;
    assert InLane(s.attrs, s.kinds, p) && LaneOk(s.attrs, s.pending, k, s.kinds[k]);
    var i :| 0 <= i < |s.kinds[k]| && s.kinds[k][i] == p;
    CutOne(s.kinds[k], i);
    var s' := Remove(s, p);
    forall x | x in s'.pending ensures InLane(s'.attrs, s'.kinds, x) {
      assert InLane(s.attrs, s.kinds, x);
    }
    forall k' | k' in s'.kinds ensures LaneOk(s'.attrs, s'.pending, k', s'.kinds[k']) {
      assert LaneOk(s.attrs, s.pending, k', s.kinds[k']);
    }
  }

  /** Cutting position i out of lane k is removing the package found there. */
  lemma CutIsRemove<T>(s: Store<T>, k: Kind, i: nat)
    requires WellFormed(s) && k in s.kinds && i < |s.kinds[k]|
    ensures var p := s.kinds[k][i];
      && p in s.pending && s.attrs[p].kind == k
      && WellFormed(Remove(s, p))
      && Remove(s, p).kinds == s.kinds[k := s.kinds[k][..i] + s.kinds[k][i + 1..]]
  {
    assert LaneOk(s.attrs, s.pending, k, s.kinds[k]);
    CutOne(s.kinds[k], i);
    RemoveKeeps(s, s.kinds[k][i]);
  }

  // ---------------------------------------------------------------- looking and taking

  /** p may come first: it is pending and nothing pending is more urgent. */
  ghost predicate IsFront<T>(s: Store<T>, p: T) {
    && p in s.pending
    && s.pending <= s.attrs.Keys
    && forall x :: x in s.pending ==> !Less(s.attrs[x], s.attrs[p])
  }

  /** A front past its expiry time leaves the store and is counted. */
  function Overdue<T(==)>(s: Store<T>, p: T, now: int): Store<T>
    requires p in s.attrs
  {
    if TimeExpired(s.attrs[p], now) then Remove(s, p).(removed := s.removed + 1) else s
  }

  function Retry<T(==)>(s: Store<T>, p: T): Store<T>
    requires p in s.attrs
  {
    s.(attrs := s.attrs[p := Retried(s.attrs[p])])
  }

  lemma RetryKeeps<T>(s: Store<T>, p: T)
    requires WellFormed(s) && p in s.attrs
    ensures WellFormed(Retry(s, p))
  {
    var s' := Retry(s, p);
    forall x | x in s'.pending ensures InLane(s'.attrs, s'.kinds, x) {
      assert InLane(s.attrs, s.kinds, x);
    }
    forall k | k in s'.kinds ensures LaneOk(s'.attrs, s'.pending, k, s'.kinds[k]) {
      assert LaneOk(s.attrs, s.pending, k, s.kinds[k]);
    }
  }

  /** Looking at front p, which is handed out even when it has just expired. */
  function Peek<T(==)>(s: Store<T>, p: T, now: int): Store<T>
    requires p in s.attrs
  {
    Retry(Overdue(s, p, now), p)
  }

  /** Acknowledging a package that already left does nothing. */
  function Ack<T(==)>(s: Store<T>, p: T): Store<T>
    requires p in s.attrs
  {
    if p in s.pending then Remove(s, p) else s
  }

  function Pop<T(==)>(s: Store<T>, p: T, now: int): Store<T>
    requires p in s.attrs
  {
    Ack(Peek(s, p, now), p)
  }

  // ---------------------------------------------------------------- adding

  predicate Expired(a: Attrs, laneLength: nat, now: int) {
    CountExpired(a, laneLength) || TimeExpired(a, now)
  }

  /**
   The oldest-first filter of a lane. `kept` packages were examined and kept already, so the lane
   is `kept + |rest|` long at the moment the oldest of the rest is examined.
   */
  function Sweep<T>(attrs: map<T, Attrs>, kept: nat, rest: seq<T>, now: int): seq<T>
    requires forall x :: x in rest ==> x in attrs
    ensures |Sweep(attrs, kept, rest, now)| <= |rest|
    decreases rest
  {
    if rest == [] then []
    else if Expired(attrs[rest[0]], kept + |rest|, now) then Sweep(attrs, kept, rest[1..], now)
    else [rest[0]] + Sweep(attrs, kept + 1, rest[1..], now)
  }

  datatype Added<T> = Added(store: Store<T>, reported: int)

  /** p, whose fields are a, joins the end of its lane. */
  function Join<T(==)>(s: Store<T>, p: T, a: Attrs, stamp: int): Store<T> {
    Store(
      s.attrs[p := Stamped(a, stamp)],
      s.pending + {p},
      s.kinds[a.kind := Lane(s, a.kind) + [p]],
      s.removed)
  }

  lemma JoinKeeps<T>(s: Store<T>, p: T, a: Attrs, stamp: int)
    requires WellFormed(s) && p !in s.pending
    ensures WellFormed(Join(s, p, a, stamp))
  {
    var s' := Join(s, p, a, stamp);
    forall x | x in s'.pending ensures InLane(s'.attrs, s'.kinds, x) {
      if x != p {
        assert InLane(s.attrs, s.kinds, x);
      }
    }
    forall k | k in s'.kinds ensures LaneOk(s'.attrs, s'.pending, k, s'.kinds[k]) {
      assert k in s.kinds ==> LaneOk(s.attrs, s.pending, k, s.kinds[k]);
    }
  }

  /** The lane of kind k after its expired packages are swept out. */
  ghost function SweepLane<T>(s: Store<T>, k: Kind, now: int): Store<T>
    requires WellFormed(s) && k in s.kinds
  {
    assert LaneOk(s.attrs, s.pending, k, s.kinds[k]);
    var kept := Sweep(s.attrs, 0, s.kinds[k], now);
    Store(
      s.attrs,
      s.pending - (Elems(s.kinds[k]) - Elems(kept)),
      s.kinds[k := kept],
      s.removed + |s.kinds[k]| - |kept|)
  }

  /** Halfway through the in-place scan of lane k: positions below i are settled, the rest is still to sweep. */
  ghost predicate Scanned<T>(before: Store<T>, s: Store<T>, k: Kind, i: nat, now: int)
    requires WellFormed(before) && k in before.kinds
    requires WellFormed(s)
  {
    && k in s.kinds && i <= |s.kinds[k]|
    && s.attrs == before.attrs
    && s.kinds == before.kinds[k := s.kinds[k]]
    && SweepLane(before, k, now).kinds[k] == s.kinds[k][..i] + Settle(s, k, i, now)
    && s.pending == before.pending - (Elems(before.kinds[k]) - Elems(s.kinds[k]))
    && Elems(s.kinds[k]) <= Elems(before.kinds[k])
    && s.removed + |s.kinds[k]| == before.removed + |before.kinds[k]|
  }

  /** What the sweep will keep of lane k from position i on. */
  ghost function Settle<T>(s: Store<T>, k: Kind, i: nat, now: int): seq<T>
    requires WellFormed(s) && k in s.kinds && i <= |s.kinds[k]|
  {
    assert LaneOk(s.attrs, s.pending, k, s.kinds[k]);
    Sweep(s.attrs, i, s.kinds[k][i..], now)
  }

  lemma ScanStart<T>(s: Store<T>, k: Kind, now: int)
    requires WellFormed(s) && k in s.kinds
    ensures Scanned(s, s, k, 0, now)
  {
    assert s.kinds[k][0..] == s.kinds[k];
    assert s.kinds == s.kinds[k := s.kinds[k]];
  }

  lemma ScanStep<T>(before: Store<T>, s: Store<T>, k: Kind, i: nat, now: int)
    requires WellFormed(before) && k in before.kinds && WellFormed(s)
    requires Scanned(before, s, k, i, now) && i < |s.kinds[k]|
    ensures s.kinds[k][i] in s.pending
    ensures var p := s.kinds[k][i];
      if Expired(s.attrs[p], |s.kinds[k]|, now)
      then WellFormed(Remove(s, p)) && Scanned(before, Remove(s, p).(removed := s.removed + 1), k, i, now)
      else Scanned(before, s, k, i + 1, now)
  {
    var lane := s.kinds[k];
    var p := lane[i];
    assert LaneOk(s.attrs, s.pending, k, lane);
    assert lane[i..][0] == p && lane[i..][1..] == lane[i + 1..];
    if Expired(s.attrs[p], |lane|, now) {
      RemoveKeeps(s, p);
      CutOne(lane, i);
      var s' := Remove(s, p).(removed := s.removed + 1);
      assert s'.kinds[k][..i] == lane[..i] && s'.kinds[k][i..] == lane[i + 1..];
      assert s'.kinds == before.kinds[k := s'.kinds[k]];
    } else {
      assert lane[..i + 1] == lane[..i] + [p];
    }
  }

  lemma ScanEnd<T>(before: Store<T>, s: Store<T>, k: Kind, now: int)
    requires WellFormed(before) && k in before.kinds && WellFormed(s)
    requires Scanned(before, s, k, |Lane(s, k)|, now)
    ensures s == SweepLane(before, k, now)
  {
    var lane := s.kinds[k];
    assert lane[..|lane|] == lane && lane[|lane|..] == [];
    assert SweepLane(before, k, now).kinds[k] == lane;
  }

  /** Adding p: it joins its lane, the lane is swept, and the removed counter is reported and reset. */
  ghost function Add<T>(s: Store<T>, p: T, a: Attrs, stamp: int, now: int): Added<T>
    requires WellFormed(s) && p !in s.pending
  {
    JoinKeeps(s, p, a, stamp);
    var s' := SweepLane(Join(s, p, a, stamp), a.kind, now);
    Added(s'.(removed := 0), s'.removed)
  }
}
