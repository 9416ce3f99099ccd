/**
 Runs of the store: any sequence of Add, Peek, Pop and Ack, in which no package is added while it
 is pending and only packages that were once added are acknowledged. A ledger watches the run from
 outside, counting what enters and leaves the pending set and what the Adds report.
 */
module StoreRuns {
  import opened Packages
  import opened StoreSpec
  import opened StoreLaws

  datatype Ledger<T> = Ledger(
    store: Store<T>,
    initial: map<T, int>, // the priority each package first came with
    adds: nat,            // calls of Add
    reported: int,        // sum of the numbers the Adds returned
    swept: nat,           // packages that left inside an Add
    overdue: nat,         // packages that left because they were found expired at the front
    taken: nat)           // packages that left by being acknowledged

  datatype Op<T> =
    | OpAdd(p: T, a: Attrs, stamp: int, now: int)
    | OpPeek(p: T, now: int)
    | OpPop(p: T, now: int)
    | OpAck(p: T)

  function Start<T>(): Ledger<T> {
    Ledger(Empty(), map[], 0, 0, 0, 0, 0)
  }

  /**
   A new package has not been retried; a package added again comes with the fields it had. Peek and
   Pop hand out a front package; on an empty store they return nothing and change nothing.
   */
  ghost predicate Allowed<T>(l: Ledger<T>, op: Op<T>) {
    match op
    case OpAdd(p, a, _, _) =>
      p !in l.store.pending && if p in l.store.attrs then a == l.store.attrs[p] else a.retries == 0
    case OpPeek(p, _) => IsFront(l.store, p)
    case OpPop(p, _) => IsFront(l.store, p)
    case OpAck(p) => p in l.store.attrs
  }

  ghost function After<T>(s: Store<T>, op: Op<T>): Store<T>
    requires Sound(s)
    requires op.OpAdd? ==> op.p !in s.pending
    requires !op.OpAdd? ==> op.p in s.attrs
  {
    match op
    case OpAdd(p, a, stamp, now) => Add(s, p, a, stamp, now).store
    case OpPeek(p, now) => Peek(s, p, now)
    case OpPop(p, now) => Pop(s, p, now)
    case OpAck(p) => Ack(s, p)
  }

  function Origin<T(==)>(initial: map<T, int>, p: T, priority: int): map<T, int> {
    if p in initial then initial else initial[p := priority]
  }

  /** The number an operation returns to its caller. */
  ghost function Returned<T>(s: Store<T>, op: Op<T>): int
    requires Sound(s)
    requires op.OpAdd? ==> op.p !in s.pending
  {
    if op.OpAdd? then Add(s, op.p, op.a, op.stamp, op.now).reported else 0
  }

  /** Whether a package that leaves in this operation leaves as expired at the front. */
  predicate FrontExpiry<T>(s: Store<T>, op: Op<T>)
    requires op.OpPop? ==> op.p in s.attrs
  {
    op.OpPeek? || (op.OpPop? && TimeExpired(s.attrs[op.p], op.now))
  }

  /** The entries are differences of what can be seen before and after the operation. */
  function Book<T>(l: Ledger<T>, op: Op<T>, s': Store<T>, returned: int): Ledger<T>
    requires op.OpPop? ==> op.p in l.store.attrs
  {
    var before := if op.OpAdd? then l.store.pending + {op.p} else l.store.pending;
    var left := |before - s'.pending|;
    Ledger(
      s',
      if op.OpAdd? then Origin(l.initial, op.p, op.a.priority) else l.initial,
      if op.OpAdd? then l.adds + 1 else l.adds,
      l.reported + returned,
      if op.OpAdd? then l.swept + left else l.swept,
      if FrontExpiry(l.store, op) then l.overdue + left else l.overdue,
      if op.OpAdd? || FrontExpiry(l.store, op) then l.taken else l.taken + left)
  }

  ghost function Entered<T>(l: Ledger<T>, op: Op<T>): Ledger<T>
    requires Sound(l.store) && Allowed(l, op)
  {
    Book(l, op, After(l.store, op), Returned(l.store, op))
  }

  /** From an unsound store, anything could follow. */
  ghost predicate Step<T>(l: Ledger<T>, op: Op<T>, l': Ledger<T>) {
    Allowed(l, op) && (Sound(l.store) ==> l' == Entered(l, op))
  }

  ghost predicate StepAt<T>(ls: seq<Ledger<T>>, ops: seq<Op<T>>, i: nat)
    requires i < |ops| && i + 1 < |ls|
  {
    Step(ls[i], ops[i], ls[i + 1])
  }

  /** Each ledger follows from the one before by one operation. */
  ghost predicate Steps<T>(ls: seq<Ledger<T>>, ops: seq<Op<T>>) {
    |ls| == |ops| + 1 && forall i :: 0 <= i < |ops| ==> StepAt(ls, ops, i)
  }

  ghost predicate Run<T>(ls: seq<Ledger<T>>, ops: seq<Op<T>>) {
    Steps(ls, ops) && ls[0] == Start()
  }

  // ---------------------------------------------------------------- the laws

  /** Priority is the initial priority plus one for every full round of retries. */
  ghost predicate Demoted<T>(l: Ledger<T>) {
    Scheduled(l.store.attrs, l.initial)
  }

  ghost predicate Scheduled<T>(attrs: map<T, Attrs>, initial: map<T, int>) {
    initial.Keys == attrs.Keys && forall x :: x in initial ==> OnSchedule(attrs[x], initial[x])
  }

  predicate OnSchedule(a: Attrs, initial: int) {
    a.priority == initial + if a.retryLimit > 0 then a.retries / a.retryLimit else 0
  }

  /** Everything reported, or still to report, left by expiry; and conversely. */
  ghost predicate Reported<T>(l: Ledger<T>) {
    l.reported + l.store.removed == l.swept + l.overdue
  }

  /** Every addition is still pending or has left in exactly one way. */
  ghost predicate Balanced<T>(l: Ledger<T>) {
    l.adds == |l.store.pending| + l.swept + l.overdue + l.taken
  }

  ghost predicate Lawful<T>(l: Ledger<T>) {
    Sound(l.store) && Demoted(l) && Reported(l) && Balanced(l)
  }

  lemma DivStep(n: nat, m: nat)
    requires m > 0
    ensures (n + 1) % m == 0 ==> (n + 1) / m == n / m + 1 && n % m == m - 1
    ensures (n + 1) % m != 0 ==> (n + 1) / m == n / m && (n + 1) % m == n % m + 1
  {
    var q, r := n / m, n % m;
    assert n == m * q + r;
    if r == m - 1 {
      assert n + 1 == m * (q + 1);
      DivOf(m, q + 1, 0);
    } else {
      assert n + 1 == m * q + (r + 1);
      DivOf(m, q, r + 1);
    }
  }

  lemma DivOf(m: nat, q: nat, r: nat)
    requires r < m
    ensures (m * q + r) / m == q && (m * q + r) % m == r
  {
    var n := m * q + r;
    assert n == m * (n / m) + n % m;
    MulAtLeast(m, n / m - q);
  }

  lemma MulAtLeast(m: nat, d: int)
    ensures d >= 1 ==> m * d >= m
    ensures d <= -1 ==> m * d + m <= 0
  {
  }

  lemma RetriedOnSchedule(a: Attrs, initial: int)
    requires OnSchedule(a, initial)
    ensures OnSchedule(Retried(a), initial)
  {
    if a.retryLimit > 0 {
      DivStep(a.retries, a.retryLimit);
    }
  }

  lemma StepSound<T>(l: Ledger<T>, op: Op<T>)
    requires Sound(l.store) && Allowed(l, op)
    ensures Sound(After(l.store, op))
  {
    match op
    case OpAdd(p, a, stamp, now) => AddKeeps(l.store, p, a, stamp, now);
    case OpPeek(p, now) => PeekKeeps(l.store, p, now);
    case OpPop(p, now) => PopTakes(l.store, p, now);
    case OpAck(p) => AckKeeps(l.store, p);
  }

  /** The fields of the package an operation concerns, after the operation. */
  function Touched<T>(s: Store<T>, op: Op<T>): Attrs
    requires op.OpAdd? || op.p in s.attrs
  {
    match op
    case OpAdd(_, a, stamp, _) => Stamped(a, stamp)
    case OpPeek(p, _) => Retried(s.attrs[p])
    case OpPop(p, _) => Retried(s.attrs[p])
    case OpAck(p) => s.attrs[p]
  }

  lemma StepAttrs<T>(l: Ledger<T>, op: Op<T>)
    requires Sound(l.store) && Allowed(l, op)
    ensures After(l.store, op).attrs == l.store.attrs[op.p := Touched(l.store, op)]
  {
    if op.OpPop? {
      PopTakes(l.store, op.p, op.now);
    }
  }

  lemma AddCounts<T>(l: Ledger<T>, op: Op<T>)
    requires Sound(l.store) && Allowed(l, op) && op.OpAdd?
    requires Reported(l) && Balanced(l)
    ensures Reported(Entered(l, op)) && Balanced(Entered(l, op))
  {
    AddReports(l.store, op.p, op.a, op.stamp, op.now);
    SplitSize(l.store.pending + {op.p}, After(l.store, op).pending);
  }

  lemma SplitSize<T>(whole: set<T>, part: set<T>)
    requires part <= whole
    ensures |whole| == |part| + |whole - part|
  {
    assert whole == part + (whole - part);
  }

  lemma PeekCounts<T>(l: Ledger<T>, op: Op<T>)
    requires Sound(l.store) && Allowed(l, op) && op.OpPeek?
    requires Reported(l) && Balanced(l)
    ensures Reported(Entered(l, op)) && Balanced(Entered(l, op))
  {
    var left := l.store.pending - Peek(l.store, op.p, op.now).pending;
    assert left == if TimeExpired(l.store.attrs[op.p], op.now) then {op.p} else {};
  }

  /** Booking a Pop needs to know only what it did to the pending set and to the counter. */
  lemma BookPop<T>(l: Ledger<T>, op: Op<T>, s': Store<T>)
    requires op.OpPop? && op.p in l.store.pending && op.p in l.store.attrs
    requires s'.pending == l.store.pending - {op.p}
    requires s'.removed == l.store.removed + if TimeExpired(l.store.attrs[op.p], op.now) then 1 else 0
    requires Reported(l) && Balanced(l)
    ensures Reported(Book(l, op, s', 0)) && Balanced(Book(l, op, s', 0))
  {
    assert l.store.pending - s'.pending == {op.p};
  }

  lemma PopCounts<T>(l: Ledger<T>, op: Op<T>)
    requires Sound(l.store) && Allowed(l, op) && op.OpPop?
    requires Reported(l) && Balanced(l)
    ensures Reported(Entered(l, op)) && Balanced(Entered(l, op))
  {
    PopTakes(l.store, op.p, op.now);
    BookPop(l, op, Pop(l.store, op.p, op.now));
  }

  lemma AckCounts<T>(l: Ledger<T>, op: Op<T>)
    requires Sound(l.store) && Allowed(l, op) && op.OpAck?
    requires Reported(l) && Balanced(l)
    ensures Reported(Entered(l, op)) && Balanced(Entered(l, op))
  {
    var left := l.store.pending - Ack(l.store, op.p).pending;
    assert left == if op.p in l.store.pending then {op.p} else {};
  }

  lemma TouchScheduled<T>(attrs: map<T, Attrs>, initial: map<T, int>, p: T, a: Attrs, i: int)
    requires Scheduled(attrs, initial) && OnSchedule(a, if p in initial then initial[p] else i)
    ensures Scheduled(attrs[p := a], Origin(initial, p, i))
  {
  }

  lemma TouchedOnSchedule<T>(l: Ledger<T>, op: Op<T>)
    requires Allowed(l, op) && Demoted(l)
    ensures var a := Touched(l.store, op);
      OnSchedule(a, if op.p in l.initial then l.initial[op.p] else a.priority)
  {
    if op.p in l.initial {
      assert OnSchedule(l.store.attrs[op.p], l.initial[op.p]);
      RetriedOnSchedule(l.store.attrs[op.p], l.initial[op.p]);
    }
  }

  /**
   Per step: an Add accounts for exactly the packages it drops, none of which it returns; a Peek or Pop
   accounts for one package exactly if the package it returns has expired; an Ack accounts for none.
   */
  lemma ExpiryIsCountedOnce<T>(l: Ledger<T>, op: Op<T>)
    requires Sound(l.store) && Allowed(l, op)
    ensures var l' := Entered(l, op);
      var counted := l'.reported + l'.store.removed - (l.reported + l.store.removed);
      match op
      case OpAdd(p, _, _, _) => counted == |l.store.pending + {p} - l'.store.pending|
      case OpPeek(p, now) => counted == if TimeExpired(l.store.attrs[p], now) then 1 else 0
      case OpPop(p, now) => counted == if TimeExpired(l.store.attrs[p], now) then 1 else 0
      case OpAck(_) => counted == 0
  {
    match op
    case OpAdd(p, a, stamp, now) => AddReports(l.store, p, a, stamp, now);
    case OpPeek(_, _) =>
    case OpPop(p, now) => PopTakes(l.store, p, now);
    case OpAck(_) =>
  }

  lemma StepDemotes<T>(l: Ledger<T>, op: Op<T>)
    requires Sound(l.store) && Allowed(l, op) && Demoted(l)
    ensures Demoted(Entered(l, op))
  {
    StepAttrs(l, op);
    TouchedOnSchedule(l, op);
    TouchScheduled(l.store.attrs, l.initial, op.p, Touched(l.store, op), Touched(l.store, op).priority);
    assert Entered(l, op).initial == Origin(l.initial, op.p, Touched(l.store, op).priority);
  }

  lemma StepLawful<T>(l: Ledger<T>, op: Op<T>)
    requires Lawful(l) && Allowed(l, op)
    ensures Lawful(Entered(l, op))
  {
    StepSound(l, op);
    StepDemotes(l, op);
    match op
    case OpAdd(_, _, _, _) => AddCounts(l, op);
    case OpPeek(_, _) => PeekCounts(l, op);
    case OpPop(_, _) => PopCounts(l, op);
    case OpAck(_) => AckCounts(l, op);
  }

  /**
   In every state of every run: the two indexes agree, every pending package tolerates the number
   pending of its kind, priorities follow the demotion law, what the Adds reported plus the
   removed counter is the number of packages that left by expiry, and nothing is lost.
   */
  lemma {:induction false} RunsAreLawful<T>(ls: seq<Ledger<T>>, ops: seq<Op<T>>, n: nat)
    requires Run(ls, ops) && n < |ls|
    ensures Lawful(ls[n])
  {
    if n > 0 {
      RunsAreLawful(ls, ops, n - 1);
      assert StepAt(ls, ops, n - 1);
      StepLawful(ls[n - 1], ops[n - 1]);
    }
  }

  /** A stretch of operations from any sound store stays sound. */
  lemma {:induction false} StepsAreSound<T>(ls: seq<Ledger<T>>, ops: seq<Op<T>>, n: nat)
    requires Steps(ls, ops) && Sound(ls[0].store) && n < |ls|
    ensures Sound(ls[n].store)
  {
    if n > 0 {
      StepsAreSound(ls, ops, n - 1);
      assert StepAt(ls, ops, n - 1);
      StepSound(ls[n - 1], ops[n - 1]);
    }
  }

  // ---------------------------------------------------------------- fields of a package over a run

  /** The same package later on: its identity, its expiry and, once it carries one, its time are as before. */
  predicate Unaltered(before: Attrs, after: Attrs) {
    && after.kind == before.kind && after.retryLimit == before.retryLimit
    && after.expiryTime == before.expiryTime && after.expiryCount == before.expiryCount
    && (before.time != 0 ==> after.time == before.time)
  }

  lemma StepUnaltered<T>(l: Ledger<T>, op: Op<T>, x: T)
    requires Sound(l.store) && Allowed(l, op) && x in l.store.attrs
    ensures x in After(l.store, op).attrs && Unaltered(l.store.attrs[x], After(l.store, op).attrs[x])
  {
    StepAttrs(l, op);
  }

  /** No operation ever changes them: a package that comes back after a failed send keeps its time. */
  lemma {:induction false} FieldsNeverChange<T>(ls: seq<Ledger<T>>, ops: seq<Op<T>>, i: nat, m: nat, x: T)
    requires Steps(ls, ops) && Sound(ls[0].store) && i <= m <= |ops| && x in ls[i].store.attrs
    ensures x in ls[m].store.attrs && Unaltered(ls[i].store.attrs[x], ls[m].store.attrs[x])
  {
    if i < m {
      FieldsNeverChange(ls, ops, i, m - 1, x);
      assert StepAt(ls, ops, m - 1);
      StepsAreSound(ls, ops, m - 1);
      StepUnaltered(ls[m - 1], ops[m - 1], x);
    }
  }

  /** The operation hands op.p to its caller. */
  predicate HandsOut<T>(op: Op<T>) {
    op.OpPeek? || op.OpPop?
  }

  /** How many of the operations hand out x. */
  function HandOuts<T(==)>(ops: seq<Op<T>>, x: T): nat {
    if ops == [] then 0
    else
      var last := ops[|ops| - 1];
      HandOuts(ops[..|ops| - 1], x) + if HandsOut(last) && last.p == x then 1 else 0
  }

  lemma StepRetries<T>(l: Ledger<T>, op: Op<T>, x: T)
    requires Sound(l.store) && Allowed(l, op)
    ensures Retries(After(l.store, op), x) == Retries(l.store, x) + if HandsOut(op) && op.p == x then 1 else 0
  {
    StepAttrs(l, op);
  }

  /** The retries counted for x; none before it is added. */
  function Retries<T>(s: Store<T>, x: T): nat {
    if x in s.attrs then s.attrs[x].retries else 0
  }

  /** In every state of every run, the retries of a package are the Peeks and Pops that returned it. */
  lemma {:induction false} RetriesCountHandOuts<T>(ls: seq<Ledger<T>>, ops: seq<Op<T>>, n: nat, x: T)
    requires Run(ls, ops) && n < |ls|
    ensures Retries(ls[n].store, x) == HandOuts(ops[..n], x)
  {
    if n > 0 {
      RetriesCountHandOuts(ls, ops, n - 1, x);
      RunsAreLawful(ls, ops, n - 1);
      assert StepAt(ls, ops, n - 1);
      StepRetries(ls[n - 1], ops[n - 1], x);
      assert ops[..n][..n - 1] == ops[..n - 1];
    }
  }

  /** So its priority is the one it came with plus one for every full round of Peeks and Pops that returned it. */
  lemma PriorityCountsRounds<T>(ls: seq<Ledger<T>>, ops: seq<Op<T>>, n: nat, x: T)
    requires Run(ls, ops) && n < |ls| && x in ls[n].store.attrs
    ensures x in ls[n].initial
    ensures var a := ls[n].store.attrs[x];
      a.priority == ls[n].initial[x] + if a.retryLimit > 0 then HandOuts(ops[..n], x) / a.retryLimit else 0
  {
    RunsAreLawful(ls, ops, n);
    RetriesCountHandOuts(ls, ops, n, x);
    assert OnSchedule(ls[n].store.attrs[x], ls[n].initial[x]);
  }
}
