/**
 The pipe of client/pipe.go as a step system: clients that call Send, and any number of workers that
 pop, send and add back on failure. Every store operation is one step, because the store's mutex
 makes it one; the two halves of Send, and a worker's empty Pop and its registration as a waiter,
 are separate steps, because nothing in the code joins them.
 */
module PipeSystem {
  import opened Packages
  import opened StoreSpec
  import opened StoreLaws

  datatype Worker<+T> =
    | Awake            // about to pop
    | Missed           // holds cond.L; its Pop returned nil; not yet registered as a waiter
    | Waiting          // registered in cond.Wait
    | Sending(p: T)

  datatype Pipe<T> = Pipe(
    store: Store<T>,
    workers: seq<Worker<T>>,
    due: nat,           // Sends that have added but not yet broadcast
    sent: set<T>,       // every package ever handed to Send
    delivered: set<T>,  // sent without an error
    dropped: set<T>)    // expired inside an Add

  datatype Move<T> =
    | ClientAdd(p: T, a: Attrs, now: int)
    | Broadcast
    | Take(w: nat, p: T, now: int)
    | Miss(w: nat)
    | Register(w: nat)
    | MissAndRegister(w: nat)
    | Succeed(w: nat)
    | Fail(w: nat, stamp: int, now: int)

  ghost predicate Init<T>(s: Pipe<T>, workers: nat) {
    s == Pipe(Empty(), seq(workers, _ => Awake), 0, {}, {}, {})
  }

  /** cond.L is free: no worker sits between its empty Pop and its registration. */
  ghost predicate Unlocked<T>(s: Pipe<T>) {
    forall w :: 0 <= w < |s.workers| ==> !s.workers[w].Missed?
  }

  predicate At<T(==)>(s: Pipe<T>, w: nat, state: Worker<T>) {
    w < |s.workers| && s.workers[w] == state
  }

  ghost predicate Enabled<T>(s: Pipe<T>, m: Move<T>) {
    match m
    case ClientAdd(p, a, _) => p !in s.sent && a.retries == 0
    case Broadcast => s.due > 0
    case Take(w, p, _) => At(s, w, Awake) && Unlocked(s) && IsFront(s.store, p)
    case Miss(w) => At(s, w, Awake) && Unlocked(s) && s.store.pending == {}
    case Register(w) => At(s, w, Missed)
    case MissAndRegister(w) => At(s, w, Awake) && Unlocked(s) && s.store.pending == {}
    case Succeed(w) => w < |s.workers| && s.workers[w].Sending?
    case Fail(w, _, _) => w < |s.workers| && s.workers[w].Sending?
  }

  function Woken<T>(workers: seq<Worker<T>>): (r: seq<Worker<T>>)
    ensures |r| == |workers|
    ensures forall w :: 0 <= w < |r| ==> r[w] == if workers[w].Waiting? then Awake else workers[w]
  {
    seq(|workers|, w requires 0 <= w < |workers| => if workers[w].Waiting? then Awake else workers[w])
  }

  /** Add p to the store; whatever is then missing was dropped. */
  ghost function Putting<T>(s: Pipe<T>, p: T, a: Attrs, stamp: int, now: int): Pipe<T>
    requires WellFormed(s.store) && p !in s.store.pending
  {
    var store := Add(s.store, p, a, stamp, now).store;
    s.(store := store, dropped := s.dropped + (s.store.pending + {p} - store.pending))
  }

  ghost function Next<T>(s: Pipe<T>, m: Move<T>): Pipe<T>
    requires Conserved(s) && Enabled(s, m)
  {
    match m
    case ClientAdd(p, a, now) => Putting(s, p, a, now, now).(due := s.due + 1, sent := s.sent + {p})
    case Broadcast => s.(workers := Woken(s.workers), due := s.due - 1)
    case Take(w, p, now) => s.(store := Pop(s.store, p, now), workers := s.workers[w := Sending(p)])
    case Miss(w) => s.(workers := s.workers[w := Missed])
    case Register(w) => s.(workers := s.workers[w := Waiting])
    case MissAndRegister(w) => s.(workers := s.workers[w := Waiting])
    case Succeed(w) => s.(workers := s.workers[w := Awake], delivered := s.delivered + {s.workers[w].p})
    case Fail(w, stamp, now) =>
      var p := s.workers[w].p;
      assert Carries(s.workers, p);
      Putting(s, p, s.store.attrs[p], stamp, now).(workers := s.workers[w := Awake])
  }

  // ---------------------------------------------------------------- conservation

  ghost predicate Carries<T>(workers: seq<Worker<T>>, p: T) {
    exists w :: 0 <= w < |workers| && workers[w] == Sending(p)
  }

  ghost predicate OneCarrier<T>(workers: seq<Worker<T>>) {
    forall v, w :: 0 <= v < w < |workers| && workers[v].Sending? && workers[w].Sending? ==> workers[v].p != workers[w].p
  }

  /** How many of the four places hold p: pending, in flight, delivered, dropped. */
  ghost function Places<T>(s: Pipe<T>, p: T): nat {
    (if p in s.store.pending then 1 else 0) + (if Carries(s.workers, p) then 1 else 0)
    + (if p in s.delivered then 1 else 0) + (if p in s.dropped then 1 else 0)
  }

  /**
   Every package ever sent is in exactly one place, no package that was not sent is anywhere, no two
   workers carry the same package, and the store is sound.
   */
  ghost predicate Conserved<T>(s: Pipe<T>) {
    && Sound(s.store)
    && OneCarrier(s.workers)
    && (forall p :: p in s.sent ==> p in s.store.attrs && Places(s, p) == 1)
    && s.store.pending + s.delivered + s.dropped <= s.sent
    && (forall w :: 0 <= w < |s.workers| && s.workers[w].Sending? ==> s.workers[w].p in s.sent)
  }

  /** Who carries q after worker w changes state. */
  lemma CarriesUpdate<T>(workers: seq<Worker<T>>, w: nat, state: Worker<T>, q: T)
    requires w < |workers| && OneCarrier(workers)
    ensures Carries(workers[w := state], q) <==>
      state == Sending(q) || (Carries(workers, q) && workers[w] != Sending(q))
  {
    var workers' := workers[w := state];
    if state == Sending(q) {
      assert workers'[w] == Sending(q);
    } else if Carries(workers, q) && workers[w] != Sending(q) {
      var v :| 0 <= v < |workers| && workers[v] == Sending(q);
      assert workers'[v] == Sending(q);
    }
    if Carries(workers', q) {
      var v :| 0 <= v < |workers'| && workers'[v] == Sending(q);
      assert v != w ==> workers[v] == Sending(q);
    }
  }

  /** A worker that carries nothing, or that picks up what nobody carries, leaves one carrier each. */
  lemma OneCarrierUpdate<T>(workers: seq<Worker<T>>, w: nat, state: Worker<T>)
    requires w < |workers| && OneCarrier(workers)
    requires state.Sending? ==> !Carries(workers, state.p)
    ensures OneCarrier(workers[w := state])
  {
    var workers' := workers[w := state];
    forall u, v | 0 <= u < v < |workers'| && workers'[u].Sending? && workers'[v].Sending?
      ensures workers'[u].p != workers'[v].p
    {
      assert u != w ==> workers[u] == Sending(workers'[u].p);
      assert v != w ==> workers[v] == Sending(workers'[v].p);
    }
  }

  /** The effect of an Add on the places: p, carried by nobody afterwards, is pending or dropped. */
  ghost predicate PutInto<T>(s: Pipe<T>, p: T, s': Pipe<T>) {
    && Sound(s'.store)
    && p in s'.store.attrs && (forall q :: q in s.store.attrs ==> q in s'.store.attrs)
    && s'.store.pending <= s.store.pending + {p}
    && s'.dropped == s.dropped + (s.store.pending + {p} - s'.store.pending)
    && s'.delivered == s.delivered
    && s'.sent == s.sent + {p}
  }

  lemma AddPutsInto<T>(s: Pipe<T>, p: T, a: Attrs, stamp: int, now: int)
    requires Sound(s.store) && p !in s.store.pending
    ensures PutInto(s, p, Putting(s, p, a, stamp, now).(sent := s.sent + {p}))
  {
    AddKeeps(s.store, p, a, stamp, now);
    AddReports(s.store, p, a, stamp, now);
  }

  lemma PutConserves<T>(s: Pipe<T>, p: T, s': Pipe<T>)
    requires Conserved(s) && PutInto(s, p, s') && OneCarrier(s'.workers)
    requires p !in s.store.pending && p !in s.delivered && p !in s.dropped
    requires forall q :: q in s'.sent ==> (Carries(s'.workers, q) <==> Carries(s.workers, q) && q != p)
    requires forall w :: 0 <= w < |s'.workers| && s'.workers[w].Sending? ==> s'.workers[w].p in s.sent
    ensures Conserved(s')
  {
    forall q | q in s'.sent ensures q in s'.store.attrs && Places(s', q) == 1 {
      assert q in s.sent ==> Places(s, q) == 1;
    }
  }

  lemma ClientAddConserves<T>(s: Pipe<T>, m: Move<T>)
    requires Conserved(s) && m.ClientAdd? && Enabled(s, m)
    ensures Conserved(Next(s, m))
  {
    assert !Carries(s.workers, m.p);
    AddPutsInto(s, m.p, m.a, m.now, m.now);
    PutConserves(s, m.p, Next(s, m));
  }

  lemma BroadcastConserves<T>(s: Pipe<T>)
    requires Conserved(s) && Enabled(s, Broadcast)
    ensures Conserved(Next(s, Broadcast))
  {
    var s' := Next(s, Broadcast);
    assert forall w :: 0 <= w < |s.workers| ==> (s'.workers[w].Sending? <==> s.workers[w].Sending?);
    forall q | q in s'.sent ensures q in s'.store.attrs && Places(s', q) == 1 {
      assert Places(s, q) == 1;
      if Carries(s.workers, q) {
        var w :| 0 <= w < |s.workers| && s.workers[w] == Sending(q);
        assert s'.workers[w] == Sending(q);
      }
    }
  }

  lemma TakeConserves<T>(s: Pipe<T>, m: Move<T>)
    requires Conserved(s) && m.Take? && Enabled(s, m)
    ensures Conserved(Next(s, m))
  {
    PopTakes(s.store, m.p, m.now);
    assert Places(s, m.p) == 1;
    OneCarrierUpdate(s.workers, m.w, Sending(m.p));
    var s' := Next(s, m);
    forall q | q in s'.sent ensures q in s'.store.attrs && Places(s', q) == 1 {
      assert Places(s, q) == 1;
      CarriesUpdate(s.workers, m.w, Sending(m.p), q);
    }
  }

  lemma IdleConserves<T>(s: Pipe<T>, w: nat, state: Worker<T>)
    requires Conserved(s) && w < |s.workers| && !s.workers[w].Sending? && !state.Sending?
    ensures Conserved(s.(workers := s.workers[w := state]))
  {
    OneCarrierUpdate(s.workers, w, state);
    var s' := s.(workers := s.workers[w := state]);
    forall q | q in s'.sent ensures Places(s', q) == 1 {
      assert Places(s, q) == 1;
      CarriesUpdate(s.workers, w, state, q);
    }
  }

  lemma SucceedConserves<T>(s: Pipe<T>, m: Move<T>)
    requires Conserved(s) && m.Succeed? && Enabled(s, m)
    ensures Conserved(Next(s, m))
  {
    var p := s.workers[m.w].p;
    OneCarrierUpdate(s.workers, m.w, Awake);
    var s' := Next(s, m);
    forall q | q in s'.sent ensures q in s'.store.attrs && Places(s', q) == 1 {
      assert Places(s, q) == 1;
      assert q == p ==> Carries(s.workers, q);
      CarriesUpdate(s.workers, m.w, Awake, q);
    }
  }

  lemma FailConserves<T>(s: Pipe<T>, m: Move<T>)
    requires Conserved(s) && m.Fail? && Enabled(s, m)
    ensures Conserved(Next(s, m))
  {
    var p := s.workers[m.w].p;
    assert Carries(s.workers, p) && Places(s, p) == 1;
    AddPutsInto(s, p, s.store.attrs[p], m.stamp, m.now);
    OneCarrierUpdate(s.workers, m.w, Awake);
    var s' := Next(s, m);
    assert s'.sent == s.sent + {p} && s'.workers == s.workers[m.w := Awake];
    forall q | q in s'.sent ensures Carries(s'.workers, q) <==> Carries(s.workers, q) && q != p {
      CarriesUpdate(s.workers, m.w, Awake, q);
    }
    PutConserves(s, p, s');
  }

  lemma NextConserves<T>(s: Pipe<T>, m: Move<T>)
    requires Conserved(s) && Enabled(s, m)
    ensures Conserved(Next(s, m))
  {
    match m
    case ClientAdd(_, _, _) => ClientAddConserves(s, m);
    case Broadcast => BroadcastConserves(s);
    case Take(_, _, _) => TakeConserves(s, m);
    case Miss(w) => IdleConserves(s, w, Missed);
    case Register(w) => IdleConserves(s, w, Waiting);
    case MissAndRegister(w) => IdleConserves(s, w, Waiting);
    case Succeed(_) => SucceedConserves(s, m);
    case Fail(_, _, _) => FailConserves(s, m);
  }

  // ---------------------------------------------------------------- runs

  /** From a state that breaks conservation, anything could follow. */
  ghost predicate MoveAt<T>(ps: seq<Pipe<T>>, ms: seq<Move<T>>, i: nat)
    requires i < |ms| && i + 1 < |ps|
  {
    Enabled(ps[i], ms[i]) && (Conserved(ps[i]) ==> ps[i + 1] == Next(ps[i], ms[i]))
  }

  ghost predicate Run<T>(ps: seq<Pipe<T>>, ms: seq<Move<T>>, workers: nat) {
    && |ps| == |ms| + 1 && Init(ps[0], workers)
    && forall i :: 0 <= i < |ms| ==> MoveAt(ps, ms, i)
  }

  /** With any number of workers and any interleaving, every reachable state conserves packages. */
  lemma {:induction false} RunsConserve<T>(ps: seq<Pipe<T>>, ms: seq<Move<T>>, workers: nat, n: nat)
    requires Run(ps, ms, workers) && n < |ps|
    ensures Conserved(ps[n]) && |ps[n].workers| == workers
  {
    if n > 0 {
      RunsConserve(ps, ms, workers, n - 1);
      assert MoveAt(ps, ms, n - 1);
      NextConserves(ps[n - 1], ms[n - 1]);
    }
  }
}
