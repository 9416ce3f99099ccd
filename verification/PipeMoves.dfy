/**
 What the moves of the pipe mean: where each package is, told from the moves of the run, and how the
 moves compose to the calls of the concrete pipe.
 */
module PipeMoves {
  import opened Packages
  import opened StoreSpec
  import opened Bypass
  import opened PipeSystem

  // ---------------------------------------------------------------- where a package is, and why

  /** A worker's send of p is answered without an error. */
  ghost predicate Succeeds<T>(s: Pipe<T>, m: Move<T>, p: T) {
    m.Succeed? && At(s, m.w, Sending(p))
  }

  ghost predicate HandsIn<T>(m: Move<T>, p: T) {
    m.ClientAdd? && m.p == p
  }

  /** A client's Add, or a worker's Add after a failed send, leaves p out: it was pending or is the one added. */
  ghost predicate Drops<T>(s: Pipe<T>, m: Move<T>, s': Pipe<T>, p: T) {
    && p !in s'.store.pending
    && (m.ClientAdd? || m.Fail?)
    && (p in s.store.pending || HandsIn(m, p) || (m.Fail? && At(s, m.w, Sending(p))))
  }

  lemma NextPlaces<T>(s: Pipe<T>, m: Move<T>, p: T)
    requires Conserved(s) && Enabled(s, m)
    ensures var s' := Next(s, m);
      && (p in s'.sent <==> p in s.sent || HandsIn(m, p))
      && (p in s'.delivered <==> p in s.delivered || Succeeds(s, m, p))
      && (p in s'.dropped <==> p in s.dropped || Drops(s, m, s', p))
  {
  }

  ghost predicate HandedIn<T>(ms: seq<Move<T>>, n: nat, p: T)
    requires n <= |ms|
  {
    exists i :: 0 <= i < n && HandsIn(ms[i], p)
  }

  ghost predicate Succeeded<T>(ps: seq<Pipe<T>>, ms: seq<Move<T>>, n: nat, p: T)
    requires n <= |ms| && n < |ps|
  {
    exists i :: 0 <= i < n && Succeeds(ps[i], ms[i], p)
  }

  ghost predicate Dropped<T>(ps: seq<Pipe<T>>, ms: seq<Move<T>>, n: nat, p: T)
    requires n <= |ms| && n < |ps|
  {
    exists i :: 0 <= i < n && Drops(ps[i], ms[i], ps[i + 1], p)
  }

  /**
   In every state of every run: a package counts as sent exactly if a client handed it in, as delivered
   exactly if some worker's send of it succeeded, and as dropped exactly if some Add left it out.
   */
  lemma {:induction false} PlacesAreEarned<T>(ps: seq<Pipe<T>>, ms: seq<Move<T>>, workers: nat, n: nat, p: T)
    requires Run(ps, ms, workers) && n < |ps|
    ensures p in ps[n].sent <==> HandedIn(ms, n, p)
    ensures p in ps[n].delivered <==> Succeeded(ps, ms, n, p)
    ensures p in ps[n].dropped <==> Dropped(ps, ms, n, p)
  {
    if n > 0 {
      PlacesAreEarned(ps, ms, workers, n - 1, p);
      PlacesAt(ps, ms, workers, n - 1, p);
    }
  }

  lemma PlacesAt<T>(ps: seq<Pipe<T>>, ms: seq<Move<T>>, workers: nat, i: nat, p: T)
    requires Run(ps, ms, workers) && i < |ms|
    ensures p in ps[i + 1].sent <==> p in ps[i].sent || HandsIn(ms[i], p)
    ensures p in ps[i + 1].delivered <==> p in ps[i].delivered || Succeeds(ps[i], ms[i], p)
    ensures p in ps[i + 1].dropped <==> p in ps[i].dropped || Drops(ps[i], ms[i], ps[i + 1], p)
  {
    RunsConserve(ps, ms, workers, i);
    assert MoveAt(ps, ms, i);
    NextPlaces(ps[i], ms[i], p);
  }

  /** Whatever a client hands in is, in every later state, delivered, dropped, pending or being sent. */
  lemma NothingIsLost<T>(ps: seq<Pipe<T>>, ms: seq<Move<T>>, workers: nat, i: nat, n: nat)
    requires Run(ps, ms, workers) && i < n < |ps| && ms[i].ClientAdd?
    ensures var p := ms[i].p;
      Succeeded(ps, ms, n, p) || Dropped(ps, ms, n, p) || p in ps[n].store.pending || Carries(ps[n].workers, p)
    ensures !(Succeeded(ps, ms, n, ms[i].p) && Dropped(ps, ms, n, ms[i].p))
  {
    var p := ms[i].p;
    assert HandsIn(ms[i], p);
    PlacesAreEarned(ps, ms, workers, n, p);
    RunsConserve(ps, ms, workers, n);
    assert Places(ps[n], p) == 1;
  }

  // ---------------------------------------------------------------- moves and calls

  /** A worker's turn is two moves: it takes a front package, and is answered. */
  lemma TurnIsTwoMoves<T>(s: Pipe<T>, w: nat, p: T, clock: Clock)
    requires Conserved(s) && Enabled(s, Take(w, p, clock.popAt))
    ensures var s1 := Next(s, Take(w, p, clock.popAt));
      && Conserved(s1) && At(s1, w, Sending(p)) && s1.store == Pop(s.store, p, clock.popAt)
      && Next(s1, Succeed(w)).store == s1.store
      && Next(s1, Fail(w, clock.stamp, clock.addAt)).store == FailedTurn(s.store, Turn(p, clock))
      && At(Next(s1, Succeed(w)), w, Awake) && At(Next(s1, Fail(w, clock.stamp, clock.addAt)), w, Awake)
  {
    NextConserves(s, Take(w, p, clock.popAt));
  }

  /** A failed turn with nothing past its time puts the package back: it is pending, and with no worker. */
  lemma FailedSendReturns<T>(s: Pipe<T>, w: nat, p: T, clock: Clock)
    requires Conserved(s) && Enabled(s, Take(w, p, clock.popAt)) && Quiet(s.store, Turn(p, clock))
    ensures var s1 := Next(s, Take(w, p, clock.popAt));
      && Conserved(s1) && Enabled(s1, Fail(w, clock.stamp, clock.addAt))
      && var s2 := Next(s1, Fail(w, clock.stamp, clock.addAt));
         && s2.store.pending == s.store.pending && s2.delivered == s.delivered
         && s2.dropped == s.dropped && s2.due == s.due
  {
    TurnIsTwoMoves(s, w, p, clock);
    TurnRestores(s.store, Turn(p, clock));
    var s1 := Next(s, Take(w, p, clock.popAt));
    var s2 := Next(s1, Fail(w, clock.stamp, clock.addAt));
    NextConserves(s1, Fail(w, clock.stamp, clock.addAt));
    assert s1.store.pending + {p} - s2.store.pending == {};
  }

  /** A Send is two moves: its Add, after which a broadcast is due, and the broadcast, after which nobody waits. */
  lemma SendIsTwoMoves<T>(s: Pipe<T>, p: T, a: Attrs, now: int)
    requires Conserved(s) && Enabled(s, ClientAdd(p, a, now))
    ensures var s1 := Next(s, ClientAdd(p, a, now));
      && Conserved(s1) && s1.due == s.due + 1 && Enabled(s1, Broadcast)
      && s1.store == Add(s.store, p, a, now, now).store && s1.workers == s.workers
      && var s2 := Next(s1, Broadcast);
         && s2.store == s1.store && s2.due == s.due
         && forall w :: 0 <= w < |s2.workers| ==> !s2.workers[w].Waiting?
  {
    NextConserves(s, ClientAdd(p, a, now));
  }
}
