/** `Pipe` of client/pipe.go over the concrete store: Send, and one turn of a worker's loop. */
module PipeClient {
  import opened Packages
  import opened StoreSpec
  import opened StoreLaws
  import opened PipeStore
  import opened Bypass

  class Pipe {
    const storage: DefaultPipeStore
    /** Calls of cond.Broadcast so far. */
    var broadcasts: nat

    ghost predicate Valid()
      reads this, storage, storage.pq, storage.pq.Members(), storage.known
    {
      storage.Valid() && Sound(storage.Model())
    }

    constructor ()
      ensures Valid() && fresh(storage) && fresh(storage.pq) && storage.known == {}
      ensures storage.Model() == Empty()
    {
      storage := new DefaultPipeStore();
      broadcasts := 0;
    }

    /**
     Send takes its argument by value, so the store gets a new package object, stamped with the clock;
     Add reads the clock again.
     */
    method Send(a: Attrs, data: Data, stamp: int, now: int) returns (p: Package, dropped: nat)
      requires Valid()
      modifies this`broadcasts, storage, storage.pq, storage.known
      ensures Valid() && fresh(p) && storage.known == old(storage.known) + {p}
      ensures p.data == data && p.kind == a.kind
      ensures Added(storage.Model(), dropped) == Add(old(storage.Model()), p, a.(time := stamp), now, now)
      ensures broadcasts == old(broadcasts) + 1
    {
      p := new Package(a.(time := stamp), data, 0);
      AddKeeps(storage.Model(), p, a.(time := stamp), now, now);
      dropped := storage.Add(p, now, now);
      broadcasts := broadcasts + 1;
    }

    /**
     One turn of the worker loop: pop, send, and add back if the send failed (`sent` is what the
     sender answered). Returns null when there was nothing to pop. No turn broadcasts.
     */
    method Work(clock: Clock, sent: bool) returns (p: Package?)
      requires Valid()
      modifies storage, storage.pq, storage.known
      ensures Valid() && storage.known == old(storage.known)
      ensures p == null <==> old(storage.Model()).pending == {}
      ensures p == null ==> storage.Model() == old(storage.Model())
      ensures p != null ==> IsFront(old(storage.Model()), p)
      ensures p != null && sent ==> storage.Model() == Pop(old(storage.Model()), p, clock.popAt)
      ensures p != null && !sent ==>
        storage.Model() == FailedTurn(old(storage.Model()), Turn(p, clock))
    {
      p := storage.Pop(clock.popAt);
      if p == null {
        return;
      }
      PopTakes(old(storage.Model()), p, clock.popAt);
      if !sent {
        PutBack(p, clock.stamp, clock.addAt);
      }
    }

    /** The failure branch of the loop; the number Add returns is ignored. */
    method PutBack(p: Package, stamp: int, now: int)
      requires Valid() && p in storage.known && p !in storage.Model().pending
      modifies storage, storage.pq, storage.known
      ensures Valid() && storage.known == old(storage.known)
      ensures storage.Model() == Add(old(storage.Model()), p, old(storage.Model()).attrs[p], stamp, now).store
    {
      AddKeeps(storage.Model(), p, p.Value(), stamp, now);
      var _ := storage.Add(p, stamp, now);
    }
  }

  /** Nothing pending in s is past its time at any of the first n readings of the clock. */
  ghost predicate InTimeFor(s: Store<Package>, clocks: nat -> Clock, n: nat)
    requires WellFormed(s)
  {
    forall i: nat, x :: i < n && x in s.pending ==>
      !TimeExpired(s.attrs[x], clocks(i).popAt) && !TimeExpired(s.attrs[x], clocks(i).addAt)
  }

  /** The turns of a run follow the clock, and only the last one is for b. */
  ghost predicate ReachesOnce(ts: seq<Turn<Package>>, clocks: nat -> Clock, b: Package) {
    && |ts| > 0 && ts[|ts| - 1].p == b
    && (forall i :: 0 <= i < |ts| ==> ts[i].clock == clocks(i))
    && (forall i :: 0 <= i < |ts| - 1 ==> ts[i].p != b)
  }

  /** After n turns from s0 on the way to b: b and the pending set are as at the start, with a bound on what is left. */
  ghost predicate Pressing(s0: Store<Package>, s: Store<Package>, clocks: nat -> Clock,
                           b: Package, bound: nat, n: nat)
  {
    && Sound(s) && s.pending == s0.pending && b in s.pending && b in s0.attrs && s.attrs[b] == s0.attrs[b]
    && Retryable(s.attrs, s.pending) && InTimeFor(s, clocks, bound + 1)
    && n + Overtakes(s, b) == bound
  }

  /** On the way to b: turns for other packages only. */
  ghost predicate Underway(ss: seq<Store<Package>>, ts: seq<Turn<Package>>, clocks: nat -> Clock,
                           b: Package, bound: nat)
  {
    && Turns(ss, ts)
    && (forall i :: 0 <= i < |ts| ==> ts[i].p != b && ts[i].clock == clocks(i))
    && Pressing(ss[0], ss[|ts|], clocks, b, bound, |ts|)
  }

  /** The end of the way: b has had its turn, and one more retry. */
  ghost predicate Arrived(ss: seq<Store<Package>>, ts: seq<Turn<Package>>, clocks: nat -> Clock, b: Package) {
    && Turns(ss, ts) && ReachesOnce(ts, clocks, b)
    && var s0, s := ss[0], ss[|ts|];
       && s.pending == s0.pending && b in s.attrs && b in s0.attrs
       && s.attrs[b].retries == s0.attrs[b].retries + 1
  }

  lemma NextIsQuiet(s: Store<Package>, p: Package, clocks: nat -> Clock, i: nat, n: nat)
    requires WellFormed(s) && Retryable(s.attrs, s.pending) && InTimeFor(s, clocks, n) && i < n
    ensures Quiet(s, Turn(p, clocks(i)))
  {
  }

  /** Retrying another package, no less urgent than b, is one turn less to go. */
  lemma PressOn(s0: Store<Package>, s: Store<Package>, s': Store<Package>,
                clocks: nat -> Clock, b: Package, bound: nat, n: nat, p: Package, stamp: int)
    requires Pressing(s0, s, clocks, b, bound, n)
    requires p in s.pending && p != b && s.attrs[p].priority <= s.attrs[b].priority
    requires Sound(s') && s'.pending == s.pending
    requires s'.attrs == s.attrs[p := Stamped(Retried(s.attrs[p]), stamp)]
    ensures Pressing(s0, s', clocks, b, bound, n + 1)
  {
    OvertakesAfter(s, s', b, p, stamp);
  }

  lemma TurnsExtend(ss: seq<Store<Package>>, ts: seq<Turn<Package>>, t: Turn<Package>)
    requires Turns(ss, ts) && Sound(ss[|ts|]) && IsFront(ss[|ts|], t.p) && Quiet(ss[|ts|], t)
    ensures Turns(ss + [FailedTurn(ss[|ts|], t)], ts + [t])
  {
    var ss', ts' := ss + [FailedTurn(ss[|ts|], t)], ts + [t];
    forall i | 0 <= i < |ts'| ensures TurnAt(ss', ts', i) {
      if i < |ts| {
        assert TurnAt(ss, ts, i);
        assert ss'[i] == ss[i] && ss'[i + 1] == ss[i + 1] && ts'[i] == ts[i];
      }
    }
  }

  lemma PressTurn(s0: Store<Package>, s: Store<Package>, clocks: nat -> Clock,
                  b: Package, bound: nat, n: nat, p: Package)
    requires Pressing(s0, s, clocks, b, bound, n) && IsFront(s, p) && p != b
    ensures Quiet(s, Turn(p, clocks(n)))
    ensures Pressing(s0, FailedTurn(s, Turn(p, clocks(n))), clocks, b, bound, n + 1)
  {
    NextIsQuiet(s, p, clocks, n, bound + 1);
    TurnRestores(s, Turn(p, clocks(n)));
    assert !Less(s.attrs[b], s.attrs[p]);
    PressOn(s0, s, FailedTurn(s, Turn(p, clocks(n))), clocks, b, bound, n, p, clocks(n).stamp);
  }

  lemma ExtendUnderway(ss: seq<Store<Package>>, ts: seq<Turn<Package>>, clocks: nat -> Clock, b: Package, bound: nat,
                       s': Store<Package>, t: Turn<Package>)
    requires Underway(ss, ts, clocks, b, bound) && t.p != b && t.clock == clocks(|ts|)
    requires Turns(ss + [s'], ts + [t]) && Pressing(ss[0], s', clocks, b, bound, |ts| + 1)
    ensures Underway(ss + [s'], ts + [t], clocks, b, bound)
  {
    assert (ss + [s'])[0] == ss[0] && (ss + [s'])[|ts| + 1] == s';
  }

  /** A turn for another package leaves the worker underway. */
  lemma StillUnderway(ss: seq<Store<Package>>, ts: seq<Turn<Package>>, clocks: nat -> Clock, b: Package, bound: nat,
                      p: Package)
    requires Underway(ss, ts, clocks, b, bound) && IsFront(ss[|ts|], p) && p != b
    ensures var t := Turn(p, clocks(|ts|));
      Underway(ss + [FailedTurn(ss[|ts|], t)], ts + [t], clocks, b, bound)
  {
    var t := Turn(p, clocks(|ts|));
    PressTurn(ss[0], ss[|ts|], clocks, b, bound, |ts|, p);
    TurnsExtend(ss, ts, t);
    ExtendUnderway(ss, ts, clocks, b, bound, FailedTurn(ss[|ts|], t), t);
  }

  lemma LastTurn(s0: Store<Package>, s: Store<Package>, clocks: nat -> Clock, b: Package, bound: nat, n: nat)
    requires Pressing(s0, s, clocks, b, bound, n) && IsFront(s, b)
    ensures n <= bound && Quiet(s, Turn(b, clocks(n)))
    ensures var s' := FailedTurn(s, Turn(b, clocks(n)));
      s'.pending == s0.pending && b in s'.attrs && s'.attrs[b].retries == s0.attrs[b].retries + 1
  {
    NextIsQuiet(s, b, clocks, n, bound + 1);
    TurnRestores(s, Turn(b, clocks(n)));
  }

  /** A turn for b ends the way. */
  lemma Arrives(ss: seq<Store<Package>>, ts: seq<Turn<Package>>, clocks: nat -> Clock, b: Package, bound: nat)
    requires Underway(ss, ts, clocks, b, bound) && IsFront(ss[|ts|], b)
    ensures var t := Turn(b, clocks(|ts|));
      |ts| <= bound && Arrived(ss + [FailedTurn(ss[|ts|], t)], ts + [t], clocks, b)
  {
    LastTurn(ss[0], ss[|ts|], clocks, b, bound, |ts|);
    TurnsExtend(ss, ts, Turn(b, clocks(|ts|)));
    ExtendArrived(ss, ts, clocks, b, bound, FailedTurn(ss[|ts|], Turn(b, clocks(|ts|))));
  }

  lemma ExtendArrived(ss: seq<Store<Package>>, ts: seq<Turn<Package>>, clocks: nat -> Clock, b: Package, bound: nat,
                      s': Store<Package>)
    requires Underway(ss, ts, clocks, b, bound) && Turns(ss + [s'], ts + [Turn(b, clocks(|ts|))])
    requires s'.pending == ss[0].pending && b in s'.attrs && s'.attrs[b].retries == ss[0].attrs[b].retries + 1
    ensures Arrived(ss + [s'], ts + [Turn(b, clocks(|ts|))], clocks, b)
  {
    assert (ss + [s'])[0] == ss[0] && (ss + [s'])[|ts| + 1] == s';
  }

  /**
   With one worker and every send failing, the worker reaches b: on the concrete store its loop ends
   with a turn for b, after `turns` turns for other packages, at most as many as the bound in the first
   state. The clock is read anew at every turn; nothing pending is past its time at those readings.
   */
  method WorkUntil(pipe: Pipe, b: Package, clocks: nat -> Clock)
    returns (turns: nat, ghost ss: seq<Store<Package>>, ghost ts: seq<Turn<Package>>)
    requires pipe.Valid() && b in pipe.storage.Model().pending
    requires Retryable(pipe.storage.Model().attrs, pipe.storage.Model().pending)
    requires InTimeFor(pipe.storage.Model(), clocks, Overtakes(pipe.storage.Model(), b) + 1)
    modifies pipe.storage, pipe.storage.pq, pipe.storage.known
    ensures pipe.Valid() && pipe.storage.Model().pending == old(pipe.storage.Model()).pending
    ensures Turns(ss, ts) && ss[0] == old(pipe.storage.Model()) && ss[|ts|] == pipe.storage.Model()
    ensures |ts| == turns + 1 && ReachesOnce(ts, clocks, b)
    ensures turns <= Overtakes(old(pipe.storage.Model()), b)
    ensures b in pipe.storage.known && b.retries == old(b.retries) + 1
  {
    turns := 0;
    ss, ts := [pipe.storage.Model()], [];
    ghost var bound := Overtakes(pipe.storage.Model(), b);
    var reached := false;
    while !reached
      invariant pipe.Valid() && pipe.storage.known == old(pipe.storage.known)
      invariant |ss| == |ts| + 1 && ss[0] == old(pipe.storage.Model()) && ss[|ts|] == pipe.storage.Model()
      invariant !reached ==> turns == |ts| && Underway(ss, ts, clocks, b, bound)
      invariant reached ==> |ts| == turns + 1 && turns <= bound && Arrived(ss, ts, clocks, b)
      decreases !reached, bound - turns
    {
      var popped := pipe.Work(clocks(turns), false);
      ghost var p: Package := popped;
      if popped == b {
        Arrives(ss, ts, clocks, b, bound);
        reached := true;
      } else {
        StillUnderway(ss, ts, clocks, b, bound, p);
        turns := turns + 1;
      }
      ss, ts := ss + [pipe.storage.Model()], ts + [Turn(p, clocks(|ts|))];
    }
    assert b.Value() == pipe.storage.Model().attrs[b];
  }
}
