/** Log lines leave in packages of five: client/logging.go over the pipe. */
module LogBatching {
  import opened Basics
  import opened Packages
  import opened StoreSpec
  import opened StoreLaws
  import opened CountPromise
  import opened Bypass
  import opened PipeSystem
  import PipeClient

  const LOG_BATCH_SIZE: nat := 5
  const LOG_EXPIRY_PERIOD: int := 600_000_000_000 // ten minutes, in nanoseconds
  const LOG_EXPIRY_COUNT: nat := 2
  const LOG_PRIORITY: int := 9
  const LOG_RETRY_COUNT: int := 4
  const LOGS: Kind := "logs"

  // ---------------------------------------------------------------- a bound for any kind

  /** Every package of kind k that the store ever saw came with expiry count c. */
  ghost predicate Uniform<T>(s: Store<T>, k: Kind, c: int) {
    forall x :: x in s.attrs && s.attrs[x].kind == k ==> s.attrs[x].expiryCount == c
  }

  ghost function PendingOf<T>(s: Store<T>, k: Kind): set<T>
    requires WellFormed(s)
  {
    set x | x in s.pending && s.attrs[x].kind == k
  }

  lemma UniformBound<T>(s: Store<T>, k: Kind, c: nat)
    requires Sound(s) && Uniform(s, k, c) && c > 0
    ensures |PendingOf(s, k)| <= c
  {
    var lane := Lane(s, k);
    forall x | x in PendingOf(s, k) ensures x in lane {
      assert InLane(s.attrs, s.kinds, x);
    }
    assert k in s.kinds ==> LaneOk(s.attrs, s.pending, k, s.kinds[k]);
    CountDistinct(lane);
    assert Elems(lane) == PendingOf(s, k) + (Elems(lane) - PendingOf(s, k));
    if lane != [] {
      assert lane[0] in s.pending && CountOk(s.attrs[lane[0]], |lane|);
    }
  }

  lemma AddStaysUniform<T>(s: Store<T>, p: T, a: Attrs, stamp: int, now: int, k: Kind, c: int)
    requires Sound(s) && Uniform(s, k, c) && p !in s.pending
    requires a.kind == k ==> a.expiryCount == c
    ensures Uniform(Add(s, p, a, stamp, now).store, k, c)
  {
    AddKeeps(s, p, a, stamp, now);
  }

  /** An Add brings at most its own package into the pending packages of a kind, and only of its own kind. */
  lemma AddPending<T>(s: Store<T>, p: T, a: Attrs, stamp: int, now: int, k: Kind)
    requires Sound(s) && p !in s.pending
    ensures var s' := Add(s, p, a, stamp, now).store;
      && WellFormed(s')
      && forall x :: x in PendingOf(s', k) ==> x in PendingOf(s, k) || (x == p && a.kind == k)
  {
    AddKeeps(s, p, a, stamp, now);
    AddReports(s, p, a, stamp, now);
  }

  lemma NextStaysUniform<T>(s: Pipe<T>, m: Move<T>, k: Kind, c: int)
    requires Conserved(s) && Enabled(s, m) && Uniform(s.store, k, c)
    requires m.ClientAdd? && m.a.kind == k ==> m.a.expiryCount == c
    ensures Uniform(Next(s, m).store, k, c)
  {
    match m
    case ClientAdd(p, a, now) => AddStaysUniform(s.store, p, a, now, now, k, c);
    case Take(_, p, now) => PopTakes(s.store, p, now);
    case Fail(w, stamp, now) =>
      var p := s.workers[w].p;
      assert Carries(s.workers, p) && Places(s, p) == 1;
      AddStaysUniform(s.store, p, s.store.attrs[p], stamp, now, k, c);
    case _ =>
  }

  lemma {:induction false} RunsStayUniform<T>(ps: seq<Pipe<T>>, ms: seq<Move<T>>, workers: nat, k: Kind, c: int, n: nat)
    requires Run(ps, ms, workers) && n < |ps|
    requires forall i :: 0 <= i < |ms| && ms[i].ClientAdd? && ms[i].a.kind == k ==> ms[i].a.expiryCount == c
    ensures Uniform(ps[n].store, k, c)
  {
    if n > 0 {
      RunsStayUniform(ps, ms, workers, k, c, n - 1);
      RunsConserve(ps, ms, workers, n - 1);
      assert MoveAt(ps, ms, n - 1);
      NextStaysUniform(ps[n - 1], ms[n - 1], k, c);
    }
  }

  /** A worker's turn brings no package into the pending ones of a kind and changes no expiry count. */
  lemma TurnStaysUniform<T>(s: Store<T>, p: T, clock: Clock, sent: bool, k: Kind, c: int)
    requires Sound(s) && IsFront(s, p) && Uniform(s, k, c)
    ensures var s' := if sent then Pop(s, p, clock.popAt) else FailedTurn(s, Turn(p, clock));
      && WellFormed(s') && Uniform(s', k, c)
      && forall x :: x in PendingOf(s', k) ==> x in PendingOf(s, k)
  {
    PopTakes(s, p, clock.popAt);
    var s1 := Pop(s, p, clock.popAt);
    if !sent {
      AddStaysUniform(s1, p, s1.attrs[p], clock.stamp, clock.addAt, k, c);
      AddPending(s1, p, s1.attrs[p], clock.stamp, clock.addAt, k);
    }
  }

  /**
   If every package of a kind is sent with the same positive expiry count, then in every state of
   every run, under any interleaving of clients and workers, at most that many of the kind are pending.
   */
  lemma PendingOfKindIsBounded<T>(ps: seq<Pipe<T>>, ms: seq<Move<T>>, workers: nat, k: Kind, c: nat, n: nat)
    requires Run(ps, ms, workers) && n < |ps| && c > 0
    requires forall i :: 0 <= i < |ms| && ms[i].ClientAdd? && ms[i].a.kind == k ==> ms[i].a.expiryCount == c
    ensures Conserved(ps[n]) && |PendingOf(ps[n].store, k)| <= c
  {
    RunsStayUniform(ps, ms, workers, k, c, n);
    RunsConserve(ps, ms, workers, n);
    UniformBound(ps[n].store, k, c);
  }

  // ---------------------------------------------------------------- the log writer

  /** The clock at the line, at the flush that sets the expiry time, in Send, and in Add. */
  datatype LogClock = LogClock(line: int, flush: int, stamp: int, add: int)

  function LogAttrs(clock: LogClock): Attrs {
    Attrs(LOGS, Some(clock.flush + LOG_EXPIRY_PERIOD), LOG_EXPIRY_COUNT, LOG_PRIORITY, LOG_RETRY_COUNT, 0, clock.stamp)
  }

  /** The lines a package carries. */
  function Lines(p: Package): seq<LogItem> {
    if p.data.Logs? then p.data.items else []
  }

  /** The lines of some packages, in order. */
  function Flat(ps: seq<Package>): seq<LogItem> {
    if ps == [] then [] else Flat(ps[..|ps| - 1]) + Lines(ps[|ps| - 1])
  }

  ghost predicate AllShort(ps: set<Package>) {
    forall p :: p in ps ==> |Lines(p)| <= LOG_BATCH_SIZE
  }

  lemma FlatAppend(ps: seq<Package>, p: Package)
    ensures Flat(ps + [p]) == Flat(ps) + Lines(p)
  {
    assert (ps + [p])[..|ps|] == ps;
  }

  /** Adding a log package p with this payload took the store from s to s'; `err` says packages were dropped. */
  ghost predicate SentAs(s: Store<Package>, s': Store<Package>, p: Package,
                         payload: seq<LogItem>, clock: LogClock, err: bool)
  {
    && p.kind == LOGS && p.data == Logs(payload)
    && WellFormed(s) && p !in s.pending
    && s' == Add(s, p, LogAttrs(clock), clock.add, clock.add).store
    && (err <==> Add(s, p, LogAttrs(clock), clock.add, clock.add).reported > 0)
  }

  /**
   What a log package is: its fields, and that it is pending afterwards unless ten minutes passed
   between the flush and the Add. The error says that something was dropped, now or since the last Add.
   */
  lemma LogPackageStays(s: Store<Package>, s': Store<Package>, p: Package,
                        payload: seq<LogItem>, clock: LogClock, err: bool)
    requires Sound(s) && Uniform(s, LOGS, LOG_EXPIRY_COUNT) && SentAs(s, s', p, payload, clock, err)
    ensures p in s'.attrs && var time := if clock.stamp == 0 then clock.add else clock.stamp;
      s'.attrs[p] == Attrs("logs", Some(clock.flush + 600_000_000_000), 2, 9, 4, 0, time)
    ensures p in s'.pending <==> clock.add <= clock.flush + 600_000_000_000
    ensures err <==> s.removed > 0 || !(s.pending + {p} <= s'.pending)
  {
    assert forall x :: x in Lane(s, LOGS) ==> LaneOk(s.attrs, s.pending, LOGS, s.kinds[LOGS]);
    AddStampsOnlyZero(s, p, LogAttrs(clock), clock.add, clock.add);
    NewPackageStays(s, p, LogAttrs(clock), clock.add, clock.add);
    AddReports(s, p, LogAttrs(clock), clock.add, clock.add);
  }

  class LogWriter {
    const pipe: PipeClient.Pipe
    const shouldSendLogs: bool
    var logBuffer: seq<LogItem>
    /** The packages put in the pipe so far, and every line accepted so far. */
    ghost var packages: seq<Package>
    ghost var written: seq<LogItem>

    /** At most two log packages are pending, each of at most five lines. */
    ghost predicate Piped()
      reads pipe, pipe.storage, pipe.storage.pq, pipe.storage.pq.Members(), pipe.storage.known
    {
      && pipe.Valid()
      && Uniform(pipe.storage.Model(), LOGS, LOG_EXPIRY_COUNT)
      && |PendingOf(pipe.storage.Model(), LOGS)| <= LOG_EXPIRY_COUNT
      && AllShort(PendingOf(pipe.storage.Model(), LOGS))
    }

    /** Packages carry at most five lines; their lines, then the buffer, are the lines written, in order. */
    ghost predicate Kept()
      reads this
    {
      && (forall i :: 0 <= i < |packages| ==> |Lines(packages[i])| <= LOG_BATCH_SIZE)
      && Flat(packages) + logBuffer == written
    }

    /** Every one of the packages was added to the store of the pipe. */
    ghost predicate AllAdded()
      reads this, pipe.storage
    {
      forall i :: 0 <= i < |packages| ==> packages[i] in pipe.storage.known
    }

    /** Between calls at most four lines are buffered. */
    ghost predicate Valid()
      reads this, pipe, pipe.storage, pipe.storage.pq, pipe.storage.pq.Members(), pipe.storage.known
    {
      Piped() && Kept() && AllAdded() && |logBuffer| < LOG_BATCH_SIZE
    }

    constructor (pipe: PipeClient.Pipe, shouldSendLogs: bool)
      requires pipe.Valid() && Uniform(pipe.storage.Model(), LOGS, LOG_EXPIRY_COUNT)
      requires PendingOf(pipe.storage.Model(), LOGS) == {}
      ensures Valid() && this.pipe == pipe && this.shouldSendLogs == shouldSendLogs
      ensures logBuffer == [] && written == []
    {
      this.pipe, this.shouldSendLogs := pipe, shouldSendLogs;
      logBuffer, packages, written := [], [], [];
      new;
      UniformBound(pipe.storage.Model(), LOGS, LOG_EXPIRY_COUNT);
    }

    /** Puts a new log package in the pipe; the error says whether packages were dropped since the last Add. */
    method SendLogs(payload: seq<LogItem>, clock: LogClock) returns (err: bool, ghost p: Package)
      requires Piped() && |payload| <= LOG_BATCH_SIZE
      modifies pipe`broadcasts, pipe.storage, pipe.storage.pq, pipe.storage.known
      ensures Piped() && fresh(p) && pipe.storage.known == old(pipe.storage.known) + {p}
      ensures SentAs(old(pipe.storage.Model()), pipe.storage.Model(), p, payload, clock, err)
      ensures p.kind == "logs" && p.data == Logs(payload)
      ensures p.expiryTime == Some(clock.flush + 600_000_000_000) && p.expiryCount == 2
      ensures p.priority == 9 && p.retryLimit == 4 && p.retries == 0
      ensures p in pipe.storage.Model().pending <==> clock.add <= clock.flush + 600_000_000_000
      ensures pipe.broadcasts == old(pipe.broadcasts) + 1
    {
      ghost var s := pipe.storage.Model();
      var dropped;
      p, dropped := pipe.Send(LogAttrs(clock), Logs(payload), clock.stamp, clock.add);
      AddStaysUniform(s, p, LogAttrs(clock), clock.add, clock.add, LOGS, LOG_EXPIRY_COUNT);
      UniformBound(pipe.storage.Model(), LOGS, LOG_EXPIRY_COUNT);
      AddPending(s, p, LogAttrs(clock), clock.add, clock.add, LOGS);
      err := dropped > 0;
      LogPackageStays(s, pipe.storage.Model(), p, payload, clock, err);
      assert p.Value() == pipe.storage.Model().attrs[p];
    }

    /** Books the package that carries the buffer, and starts a new buffer. */
    method StartBuffer(ghost p: Package)
      requires Kept() && AllAdded() && |logBuffer| <= LOG_BATCH_SIZE
      requires p.data == Logs(logBuffer) && p in pipe.storage.known
      modifies `logBuffer, `packages
      ensures pipe.storage.Model() == old(pipe.storage.Model())
      ensures Kept() && AllAdded() && logBuffer == [] && packages == old(packages) + [p]
    {
      packages := packages + [p];
      FlatAppend(old(packages), p);
      logBuffer := [];
    }

    /** Sends the whole buffer, even an empty one, in one new package, and starts a new buffer. */
    method FlushLogs(clock: LogClock) returns (err: bool)
      requires Piped() && Kept() && AllAdded() && |logBuffer| <= LOG_BATCH_SIZE
      modifies `logBuffer, `packages, pipe`broadcasts, pipe.storage, pipe.storage.pq, pipe.storage.known
      ensures Valid() && logBuffer == []
      ensures |packages| == |old(packages)| + 1 && packages[..|old(packages)|] == old(packages)
      ensures fresh(packages[|old(packages)|]) && pipe.broadcasts == old(pipe.broadcasts) + 1
      ensures SentAs(old(pipe.storage.Model()), pipe.storage.Model(), packages[|old(packages)|],
                     old(logBuffer), clock, err)
      ensures packages[|old(packages)|] in pipe.storage.Model().pending <==>
              clock.add <= clock.flush + 600_000_000_000
    {
      ghost var before, payload := pipe.storage.Model(), logBuffer;
      var dropping, p := SendLogs(logBuffer, clock);
      ghost var after := pipe.storage.Model();
      assert SentAs(before, after, p, payload, clock, dropping);
      StartBuffer(p);
      assert pipe.storage.Model() == after && packages[|old(packages)|] == p;
      return dropping;
    }

    /** Accepts a line, and flushes when it completes a batch. Returns the number of lines still buffered. */
    method Write(data: string, clock: LogClock) returns (n: nat, err: bool)
      requires Valid()
      modifies this, pipe`broadcasts, pipe.storage, pipe.storage.pq, pipe.storage.known
      ensures Valid() && n == |logBuffer|
      ensures written == if shouldSendLogs then old(written) + [LogItem(clock.line, data)] else old(written)
      ensures shouldSendLogs && |old(logBuffer)| == 4 ==>
        && logBuffer == []
        && |packages| == |old(packages)| + 1 && packages[..|old(packages)|] == old(packages)
        && fresh(packages[|old(packages)|]) && pipe.broadcasts == old(pipe.broadcasts) + 1
        && SentAs(old(pipe.storage.Model()), pipe.storage.Model(), packages[|old(packages)|],
                  old(logBuffer) + [LogItem(clock.line, data)], clock, err)
        && (packages[|old(packages)|] in pipe.storage.Model().pending <==>
              clock.add <= clock.flush + 600_000_000_000)
      ensures !(shouldSendLogs && |old(logBuffer)| == 4) ==>
        && logBuffer == old(logBuffer) + (if shouldSendLogs then [LogItem(clock.line, data)] else [])
        && packages == old(packages) && pipe.storage.Model() == old(pipe.storage.Model())
        && pipe.broadcasts == old(pipe.broadcasts) && !err
    {
      err := false;
      if shouldSendLogs {
        Append(LogItem(clock.line, data));
        if |logBuffer| == LOG_BATCH_SIZE {
          err := FlushLogs(clock);
        }
      }
      return |logBuffer|, err;
    }

    /** Buffers one line; the pipe is not touched. */
    method Append(item: LogItem)
      requires Piped() && Kept() && AllAdded()
      modifies `logBuffer, `written
      ensures Piped() && Kept() && AllAdded() && pipe.storage.Model() == old(pipe.storage.Model())
      ensures logBuffer == old(logBuffer) + [item] && written == old(written) + [item]
    {
      logBuffer := logBuffer + [item];
      written := written + [item];
    }

    /** A worker's turn beside the writer, whatever it pops and whatever the sender answers, keeps the invariant. */
    method WorkBeside(clock: Clock, sent: bool) returns (p: Package?)
      requires Valid()
      modifies pipe.storage, pipe.storage.pq, pipe.storage.known
      ensures Valid()
      ensures p == null <==> old(pipe.storage.Model()).pending == {}
      ensures forall x :: x in PendingOf(pipe.storage.Model(), LOGS) ==> x in PendingOf(old(pipe.storage.Model()), LOGS)
    {
      ghost var s := pipe.storage.Model();
      p := pipe.Work(clock, sent);
      if p != null {
        TurnStaysUniform(s, p, clock, sent, LOGS, LOG_EXPIRY_COUNT);
      }
      UniformBound(pipe.storage.Model(), LOGS, LOG_EXPIRY_COUNT);
    }

    /** So does a client that sends a package of another kind. */
    method SendBeside(a: Attrs, data: Data, stamp: int, now: int) returns (p: Package, dropped: nat)
      requires Valid() && a.kind != LOGS
      modifies pipe`broadcasts, pipe.storage, pipe.storage.pq, pipe.storage.known
      ensures Valid() && fresh(p)
      ensures forall x :: x in PendingOf(pipe.storage.Model(), LOGS) ==> x in PendingOf(old(pipe.storage.Model()), LOGS)
    {
      ghost var s := pipe.storage.Model();
      p, dropped := pipe.Send(a, data, stamp, now);
      AddStaysUniform(s, p, a.(time := stamp), now, now, LOGS, LOG_EXPIRY_COUNT);
      AddPending(s, p, a.(time := stamp), now, now, LOGS);
      UniformBound(pipe.storage.Model(), LOGS, LOG_EXPIRY_COUNT);
    }

    method Sync(clock: LogClock) returns (err: bool)
      requires Valid()
      modifies this, pipe`broadcasts, pipe.storage, pipe.storage.pq, pipe.storage.known
      ensures Valid() && logBuffer == [] && written == old(written)
      ensures |packages| == |old(packages)| + 1 && packages[..|old(packages)|] == old(packages)
      ensures fresh(packages[|old(packages)|]) && pipe.broadcasts == old(pipe.broadcasts) + 1
      ensures SentAs(old(pipe.storage.Model()), pipe.storage.Model(), packages[|old(packages)|],
                     old(logBuffer), clock, err)
      ensures packages[|old(packages)|] in pipe.storage.Model().pending <==>
              clock.add <= clock.flush + 600_000_000_000
    {
      err := FlushLogs(clock);
    }
  }
}
