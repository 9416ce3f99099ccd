/**
 Wake-ups. `Send` adds and broadcasts without holding cond.L, so a worker whose Pop returned nil can
 miss the broadcast if it comes before the worker registers in Wait. This module finds exactly when
 a package can be left in the store with every worker asleep.
 */
module Wakeup {
  import opened Packages
  import opened StoreSpec
  import opened PipeSystem

  ghost predicate Stirring<T>(s: Pipe<T>) {
    exists w :: 0 <= w < |s.workers| && !s.workers[w].Waiting?
  }

  /** If something is pending, some worker is not asleep or a broadcast is still due. */
  ghost predicate Watched<T>(s: Pipe<T>) {
    s.store.pending != {} ==> s.due > 0 || Stirring(s)
  }

  /** The last worker up goes to sleep on a non-empty store, after the broadcast has passed it by. */
  ghost predicate Missteps<T>(s: Pipe<T>, m: Move<T>) {
    && m.Register? && s.store.pending != {} && s.due == 0
    && forall v :: 0 <= v < |s.workers| && v != m.w ==> s.workers[v].Waiting?
  }

  lemma StirringUpdate<T>(s: Pipe<T>, s': Pipe<T>, w: nat)
    requires w < |s.workers| && |s'.workers| == |s.workers|
    requires !s'.workers[w].Waiting?
    ensures Stirring(s')
  {
  }

  /** One step: a watched state stays watched, except exactly at the misstep. */
  lemma WatchedUnlessMisstep<T>(s: Pipe<T>, m: Move<T>)
    requires Conserved(s) && Enabled(s, m) && Watched(s) && s.workers != []
    ensures Watched(Next(s, m)) <==> !Missteps(s, m)
  {
    var s' := Next(s, m);
    match m
    case ClientAdd(_, _, _) =>
    case Broadcast => StirringUpdate(s, s', 0);
    case Take(w, _, _) => StirringUpdate(s, s', w);
    case Miss(w) =>
    case MissAndRegister(w) =>
    case Succeed(w) => StirringUpdate(s, s', w);
    case Fail(w, _, _) => StirringUpdate(s, s', w);
    case Register(w) =>
      assert s'.workers[w].Waiting?;
      if s.store.pending != {} && s.due == 0 && !Missteps(s, m) {
        var v :| 0 <= v < |s.workers| && v != w && !s.workers[v].Waiting?;
        StirringUpdate(s, s', v);
      }
  }

  /** A run in which an empty Pop and the registration in Wait are always one step. */
  ghost predicate Joined<T>(ms: seq<Move<T>>) {
    forall i :: 0 <= i < |ms| ==> !ms[i].Miss?
  }

  lemma {:induction false} NeverMissed<T>(ps: seq<Pipe<T>>, ms: seq<Move<T>>, workers: nat, n: nat)
    requires Run(ps, ms, workers) && Joined(ms) && n < |ps|
    ensures Unlocked(ps[n])
  {
    if n > 0 {
      NeverMissed(ps, ms, workers, n - 1);
      RunsConserve(ps, ms, workers, n - 1);
      assert MoveAt(ps, ms, n - 1);
    }
  }

  lemma {:induction false} JoinedIsWatched<T>(ps: seq<Pipe<T>>, ms: seq<Move<T>>, workers: nat, n: nat)
    requires Run(ps, ms, workers) && workers > 0 && Joined(ms) && n < |ps|
    ensures Watched(ps[n])
  {
    if n > 0 {
      JoinedIsWatched(ps, ms, workers, n - 1);
      NeverMissed(ps, ms, workers, n - 1);
      RunsConserve(ps, ms, workers, n - 1);
      assert MoveAt(ps, ms, n - 1);
      WatchedUnlessMisstep(ps[n - 1], ms[n - 1]);
    }
  }

  /**
   No lost wake-up when an empty Pop and the registration are one step: in every reachable state with
   a package pending, a worker is about to pop or sending, or a broadcast is due. A failed send adds
   its package back without any broadcast, and this still holds.
   */
  lemma NoLostWakeup<T>(ps: seq<Pipe<T>>, ms: seq<Move<T>>, workers: nat, n: nat)
    requires Run(ps, ms, workers) && workers > 0 && Joined(ms) && n < |ps|
    ensures ps[n].store.pending != {} && ps[n].due == 0 ==>
      exists w :: 0 <= w < |ps[n].workers| && (ps[n].workers[w].Awake? || ps[n].workers[w].Sending?)
  {
    JoinedIsWatched(ps, ms, workers, n);
    NeverMissed(ps, ms, workers, n);
    if ps[n].store.pending != {} && ps[n].due == 0 {
      var w :| 0 <= w < |ps[n].workers| && !ps[n].workers[w].Waiting?;
      assert ps[n].workers[w].Awake? || ps[n].workers[w].Sending?;
    }
  }

  /** In the code's own interleaving: a run loses sight of a pending package only by a misstep. */
  lemma {:induction false} LostOnlyByMisstep<T>(ps: seq<Pipe<T>>, ms: seq<Move<T>>, workers: nat, n: nat)
    requires Run(ps, ms, workers) && workers > 0 && n < |ps|
    requires !Watched(ps[n])
    ensures exists i :: 0 <= i < n && Missteps(ps[i], ms[i])
  {
    RunsConserve(ps, ms, workers, n);
    if n > 0 {
      RunsConserve(ps, ms, workers, n - 1);
      assert MoveAt(ps, ms, n - 1);
      if Watched(ps[n - 1]) {
        WatchedUnlessMisstep(ps[n - 1], ms[n - 1]);
      } else {
        LostOnlyByMisstep(ps, ms, workers, n - 1);
      }
    }
  }

  ghost predicate AllWatched<T>(ps: seq<Pipe<T>>) {
    forall n :: 0 <= n < |ps| ==> Watched(ps[n])
  }

  ghost predicate NoMisstep<T>(ps: seq<Pipe<T>>, ms: seq<Move<T>>) {
    forall i :: 0 <= i < |ms| && i < |ps| ==> !Missteps(ps[i], ms[i])
  }

  /** A misstep leaves the state after it unwatched. */
  lemma MisstepLoses<T>(ps: seq<Pipe<T>>, ms: seq<Move<T>>, workers: nat, i: nat)
    requires Run(ps, ms, workers) && workers > 0 && i < |ms| && Missteps(ps[i], ms[i])
    ensures !Watched(ps[i + 1])
  {
    RunsConserve(ps, ms, workers, i);
    assert MoveAt(ps, ms, i);
    assert Stirring(ps[i]);
    WatchedUnlessMisstep(ps[i], ms[i]);
  }

  /** At the code's interleaving: a run never loses a wake-up if and only if none of its steps is a misstep. */
  lemma RunIsWatchedIffNoMisstep<T>(ps: seq<Pipe<T>>, ms: seq<Move<T>>, workers: nat)
    requires Run(ps, ms, workers) && workers > 0
    ensures AllWatched(ps) <==> NoMisstep(ps, ms)
  {
    if AllWatched(ps) {
      forall i | 0 <= i < |ms| ensures !Missteps(ps[i], ms[i]) {
        if Missteps(ps[i], ms[i]) {
          MisstepLoses(ps, ms, workers, i);
        }
      }
    }
    if NoMisstep(ps, ms) {
      forall n | 0 <= n < |ps| ensures Watched(ps[n]) {
        if !Watched(ps[n]) {
          LostOnlyByMisstep(ps, ms, workers, n);
        }
      }
    }
  }

  /** Once lost, only the next Send can move anything, and its Add already makes the state watched. */
  lemma LostUntilNextSend<T>(s: Pipe<T>, m: Move<T>)
    requires Conserved(s) && Enabled(s, m) && !Watched(s)
    ensures m.ClientAdd? && Watched(Next(s, m))
  {
    assert forall w :: 0 <= w < |s.workers| ==> s.workers[w].Waiting?;
  }

  /** Some package of a non-empty set goes before no other. */
  lemma {:induction false} LeastOf<T>(attrs: map<T, Attrs>, xs: set<T>) returns (p: T)
    requires xs != {} && xs <= attrs.Keys
    ensures p in xs && forall x :: x in xs ==> !Less(attrs[x], attrs[p])
    decreases xs
  {
    var first :| first in xs;
    assert xs == {first} + (xs - {first});
    p := first;
    if xs - {first} != {} {
      var q := LeastOf(attrs, xs - {first});
      if Less(attrs[q], attrs[first]) {
        p := q;
      }
    }
  }

  /** A worker that is not asleep has a move, or waits for cond.L, whose holder has one. */
  lemma StirringMoves<T>(s: Pipe<T>, w: nat) returns (m: Move<T>)
    requires Conserved(s) && s.store.pending != {} && w < |s.workers| && !s.workers[w].Waiting?
    ensures Enabled(s, m) && !m.ClientAdd?
  {
    match s.workers[w]
    case Missed => m := Register(w);
    case Sending(_) => m := Succeed(w);
    case Awake =>
      if Unlocked(s) {
        var p := LeastOf(s.store.attrs, s.store.pending);
        m := Take(w, p, 0);
      } else {
        var v :| 0 <= v < |s.workers| && s.workers[v].Missed?;
        m := Register(v);
      }
  }

  /** With a package pending, the pipe can move without another Send if and only if the state is watched. */
  lemma StuckIffLost<T>(s: Pipe<T>)
    requires Conserved(s) && s.store.pending != {}
    ensures (exists m :: Enabled(s, m) && !m.ClientAdd?) <==> Watched(s)
  {
    if Watched(s) {
      if s.due > 0 {
        assert Enabled(s, Broadcast);
      } else {
        var w :| 0 <= w < |s.workers| && !s.workers[w].Waiting?;
        var m := StirringMoves(s, w);
      }
    } else {
      forall m | Enabled(s, m) ensures m.ClientAdd? {
        LostUntilNextSend(s, m);
      }
    }
  }

  /** An Add of a package that cannot expire, to an empty store, leaves it pending. */
  lemma AddToEmpty<T>(p: T, a: Attrs, now: int)
    requires a.expiryTime.None? && a.expiryCount <= 0
    ensures p in Add(Empty<T>(), p, a, now, now).store.pending
  {
    assert Lane(Empty<T>(), a.kind) + [p] == [p];
    assert [p][1..] == [];
  }

  ghost function Alone<T>(state: Worker<T>): Pipe<T> {
    Pipe(Empty(), [state], 0, {}, {}, {})
  }

  lemma EmptyPopAlone<T>()
    ensures Init(Alone<T>(Awake), 1) && Conserved(Alone<T>(Awake)) && Enabled(Alone<T>(Awake), Miss(0))
    ensures Next(Alone<T>(Awake), Miss(0)) == Alone(Missed)
  {
    assert Alone<T>(Awake).workers == seq(1, _ => Awake);
  }

  lemma RegisterAlone<T>(s: Pipe<T>)
    requires Conserved(s) && s.workers == [Missed]
    ensures Enabled(s, Register(0)) && Next(s, Register(0)) == s.(workers := [Waiting])
  {
  }

  /** A Send, add then broadcast, that finds the only worker between its empty Pop and its registration. */
  lemma SendPassesBy<T>(p: T, a: Attrs, now: int) returns (added: Pipe<T>, called: Pipe<T>)
    requires a.expiryTime.None? && a.expiryCount <= 0 && a.retries == 0
    ensures Conserved(Alone<T>(Missed)) && Enabled(Alone(Missed), ClientAdd(p, a, now))
    ensures added == Next(Alone(Missed), ClientAdd(p, a, now))
    ensures Conserved(added) && Enabled(added, Broadcast)
    ensures called == Next(added, Broadcast) && Conserved(called)
    ensures p in called.store.pending && called.due == 0 && called.workers == [Missed]
  {
    NextConserves(Alone(Missed), ClientAdd(p, a, now));
    added := Next(Alone(Missed), ClientAdd(p, a, now));
    NextConserves(added, Broadcast);
    called := Next(added, Broadcast);
    AddToEmpty(p, a, now);
  }

  /**
   The misstep is reachable with one worker: its Pop finds nothing, a Send adds and broadcasts, and
   only then does the worker register. The package stays pending with the worker asleep.
   */
  lemma LostWakeupTrace<T>(p: T, a: Attrs, now: int) returns (ps: seq<Pipe<T>>, ms: seq<Move<T>>)
    requires a.expiryTime.None? && a.expiryCount <= 0 && a.retries == 0
    ensures Run(ps, ms, 1) && |ms| == 4
    ensures p in ps[4].store.pending && ps[4].due == 0 && ps[4].workers == [Waiting]
  {
    var added, called := SendPassesBy(p, a, now);
    EmptyPopAlone<T>();
    RegisterAlone(called);
    ms := [Miss(0), ClientAdd(p, a, now), Broadcast, Register(0)];
    ps := [Alone(Awake), Alone(Missed), added, called, called.(workers := [Waiting])];
    assert MoveAt(ps, ms, 0) && MoveAt(ps, ms, 1) && MoveAt(ps, ms, 2) && MoveAt(ps, ms, 3);
  }
}
