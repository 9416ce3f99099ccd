/**
 The auditor's life as a step system (auditor/auditor.go over opa-auditor.go): deliveries of
 constraints, resource events, and audits of single resources, in any interleaving. A history
 records what was handed to the result handler and what made earlier results void.
 */
module AuditLoop {
  import opened Basics
  import opened EntityKeys
  import opened Policies
  import opened ResultsCache
  import opened Audit
  import opened OpaEngine

  datatype Past =
    | Handed(constraint: string, entity: Entity, status: Status) // passed to sendAuditResult
    | Cleared(constraint: string)                                // update accepted, or deletion received
    | Gone(entity: Entity)                                       // resource deleted

  datatype Loop = Loop(engine: Engine, synced: bool, crashed: bool, history: seq<Past>)

  /** The policy library. */
  datatype Library = Library(parses: Parser, eval: Evaluator)

  datatype Event =
    | Receive(d: Delivery)
    | EntityChange(q: Request, order: seq<string>, results: seq<AuditResult>)
    | EntityDelete(r: Resource)
    /** One resource of a full audit: policy change, first constraints, command, sync or timer. */
    | AuditResource(q: Request, ids: seq<string>, order: seq<string>, results: seq<AuditResult>)
    | EntitiesSync

  ghost predicate Init(l: Loop) {
    l == Loop(Engine(Policies(map[], map[]), map[]), false, false, [])
  }

  /** The audit would look up a template that is not there. */
  ghost predicate Doomed(l: Loop, q: Request, ids: seq<string>) {
    !Exempt(q.r, q.parent) && !Auditable(l.engine.policies, q.r, ids)
  }

  ghost predicate Enabled(l: Loop, lib: Library, ev: Event) {
    && !l.crashed
    && (ev.EntityChange? && l.synced && !Doomed(l, ev.q, []) ==>
          IsAudit(l.engine.policies, lib.eval, ev.q, [], ev.order, ev.results))
    && (ev.AuditResource? && !Doomed(l, ev.q, ev.ids) ==>
          IsAudit(l.engine.policies, lib.eval, ev.q, ev.ids, ev.order, ev.results))
  }

  /** The results whose status is news for entity e, in order. */
  function News(c: Cache, e: Entity, results: seq<AuditResult>): seq<AuditResult> {
    if results == [] then []
    else
      var x := results[|results| - 1];
      News(c, e, results[..|results| - 1]) + if IsNews(c, x.constraintId, e, x.status) then [x] else []
  }

  function Handings(results: seq<AuditResult>): seq<Past> {
    if results == [] then []
    else
      var x := results[|results| - 1];
      Handings(results[..|results| - 1]) + [Handed(x.constraintId, EntityOf(x), x.status)]
  }

  /** Results are recorded in the cache, then handed over. */
  function HandOver(l: Loop, results: seq<AuditResult>): Loop {
    l.(engine := l.engine.(cache := Recorded(l.engine.cache, results)), history := l.history + Handings(results))
  }

  function Mentions(outcome: Outcome, d: Delivery): seq<Past> {
    if outcome.Updated? || (d.deleted && !outcome.Crash?) then [Cleared(d.id)] else []
  }

  function Receiving(l: Loop, d: Delivery, parses: Parser): Loop {
    var b := Received(Batch(l.engine, [], {}, false), d, parses);
    l.(engine := b.engine, crashed := b.crashed,
       history := l.history + Mentions(Deliver(l.engine.policies, d, parses).outcome, d))
  }

  ghost function Next(l: Loop, lib: Library, ev: Event): Loop {
    match ev
    case Receive(d) => Receiving(l, d, lib.parses)
    case EntityChange(q, _, results) =>
      if !l.synced then l
      else if Doomed(l, q, []) then l.(crashed := true)
      else HandOver(l, News(l.engine.cache, q.r.entity, results))
    case EntityDelete(r) =>
      l.(engine := l.engine.(cache := WithoutResource(l.engine.cache, Key(r.entity))),
         history := l.history + [Gone(r.entity)])
    case AuditResource(q, ids, _, results) =>
      if Doomed(l, q, ids) then l.(crashed := true) else HandOver(l, results)
    case EntitiesSync => l.(synced := true)
  }

  ghost predicate EventAt(ls: seq<Loop>, lib: Library, evs: seq<Event>, i: nat)
    requires i < |evs| && i + 1 < |ls|
  {
    Enabled(ls[i], lib, evs[i]) && ls[i + 1] == Next(ls[i], lib, evs[i])
  }

  ghost predicate Run(ls: seq<Loop>, lib: Library, evs: seq<Event>) {
    |ls| == |evs| + 1 && Init(ls[0]) && forall i :: 0 <= i < |evs| ==> EventAt(ls, lib, evs, i)
  }

  // ---------------------------------------------------------------- the cache is the history

  /** The last status handed over for (constraint, key) that nothing has voided since. */
  function Latest(history: seq<Past>, constraint: string, key: string): Option<Status> {
    if history == [] then None
    else
      var earlier := Latest(history[..|history| - 1], constraint, key);
      match history[|history| - 1]
      case Handed(c, e, s) => if c == constraint && Key(e) == key then Some(s) else earlier
      case Cleared(c) => if c == constraint then None else earlier
      case Gone(e) => if Key(e) == key then None else earlier
  }

  /** The same, told by entity instead of by key. */
  function LatestFor(history: seq<Past>, constraint: string, entity: Entity): Option<Status> {
    if history == [] then None
    else
      var earlier := LatestFor(history[..|history| - 1], constraint, entity);
      match history[|history| - 1]
      case Handed(c, e, s) => if c == constraint && e == entity then Some(s) else earlier
      case Cleared(c) => if c == constraint then None else earlier
      case Gone(e) => if e == entity then None else earlier
  }

  ghost predicate Mirrors(c: Cache, history: seq<Past>) {
    forall i, k :: Lookup(c, i, k) == Latest(history, i, k)
  }

  /** The cache mirrors the history, and holds statuses of stored constraints only. */
  ghost predicate Faithful(l: Loop) {
    && Mirrors(l.engine.cache, l.history)
    && l.engine.cache.Keys <= l.engine.policies.constraints.Keys
    && Keyed(l.engine.policies)
  }

  lemma LatestAppend(history: seq<Past>, p: Past, constraint: string, key: string)
    ensures Latest(history + [p], constraint, key) ==
      match p
      case Handed(c, e, s) => if c == constraint && Key(e) == key then Some(s) else Latest(history, constraint, key)
      case Cleared(c) => if c == constraint then None else Latest(history, constraint, key)
      case Gone(e) => if Key(e) == key then None else Latest(history, constraint, key)
  {
    assert (history + [p])[..|history|] == history;
  }

  lemma {:induction false} RecordingMirrors(c: Cache, history: seq<Past>, results: seq<AuditResult>)
    requires Mirrors(c, history)
    ensures Mirrors(Recorded(c, results), history + Handings(results))
  {
    if results == [] {
      assert history + [] == history;
    } else {
      var rest, x := results[..|results| - 1], results[|results| - 1];
      RecordingMirrors(c, history, rest);
      var p := Handed(x.constraintId, EntityOf(x), x.status);
      assert history + Handings(results) == (history + Handings(rest)) + [p];
      forall i, k ensures Lookup(Recorded(c, results), i, k) == Latest(history + Handings(results), i, k) {
        LatestAppend(history + Handings(rest), p, i, k);
      }
    }
  }

  lemma {:induction false} RecordedKeys(c: Cache, results: seq<AuditResult>, ids: set<string>)
    requires c.Keys <= ids && forall x :: x in results ==> x.constraintId in ids
    ensures Recorded(c, results).Keys <= ids
  {
    if results != [] {
      RecordedKeys(c, results[..|results| - 1], ids);
    }
  }

  lemma HandOverIsFaithful(l: Loop, results: seq<AuditResult>)
    requires Faithful(l) && forall x :: x in results ==> x.constraintId in l.engine.policies.constraints
    ensures Faithful(HandOver(l, results))
  {
    RecordingMirrors(l.engine.cache, l.history, results);
    RecordedKeys(l.engine.cache, results, l.engine.policies.constraints.Keys);
  }

  lemma {:induction false} NewsIsSome(c: Cache, e: Entity, results: seq<AuditResult>)
    ensures forall x :: x in News(c, e, results) <==> x in results && IsNews(c, x.constraintId, e, x.status)
  {
    if results != [] {
      NewsIsSome(c, e, results[..|results| - 1]);
      assert results == results[..|results| - 1] + [results[|results| - 1]];
    }
  }

  /** Results of an audit are for stored constraints and for the audited entity. */
  lemma AuditedResults(ps: Policies, eval: Evaluator, q: Request, ids: seq<string>,
                       order: seq<string>, results: seq<AuditResult>)
    requires Keyed(ps) && IsAudit(ps, eval, q, ids, order, results)
    ensures forall x :: x in results ==> x.constraintId in ps.constraints && EntityOf(x) == q.r.entity
  {
    forall i | 0 <= i < |results|
      ensures results[i].constraintId in ps.constraints && EntityOf(results[i]) == q.r.entity
    {
      assert ResultAt(ps, eval, q, order[i], results[i]);
    }
  }

  /** Forgetting a constraint mirrors its being voided. */
  lemma ClearingMirrors(c: Cache, history: seq<Past>, id: string)
    requires Mirrors(c, history)
    ensures Mirrors(WithoutConstraint(c, id), history + [Cleared(id)])
  {
    forall i, k ensures Lookup(WithoutConstraint(c, id), i, k) == Latest(history + [Cleared(id)], i, k) {
      LatestAppend(history, Cleared(id), i, k);
    }
  }

  /** A constraint of which nothing is cached need not be forgotten. */
  lemma NothingToClear(c: Cache, id: string)
    requires id !in c
    ensures WithoutConstraint(c, id) == c
  {
  }

  lemma ClearedIsFaithful(l: Loop, l': Loop, id: string)
    requires Faithful(l) && Keyed(l'.engine.policies)
    requires l'.engine.cache == WithoutConstraint(l.engine.cache, id) && l'.history == l.history + [Cleared(id)]
    requires l.engine.policies.constraints.Keys - {id} <= l'.engine.policies.constraints.Keys
    ensures Faithful(l')
  {
    ClearingMirrors(l.engine.cache, l.history, id);
  }

  lemma ReceivingIsFaithful(l: Loop, d: Delivery, parses: Parser)
    requires Faithful(l)
    ensures Faithful(Receiving(l, d, parses))
  {
    DeliverKeeps(l.engine.policies, d, parses);
    var l' := Receiving(l, d, parses);
    var outcome := Deliver(l.engine.policies, d, parses).outcome;
    if Mentions(outcome, d) == [] {
      assert l'.history == l.history && l'.engine.cache == l.engine.cache;
    } else {
      if outcome.Unchanged? {
        NothingToClear(l.engine.cache, d.id);
      }
      ClearedIsFaithful(l, l', d.id);
    }
  }

  lemma DeletingIsFaithful(l: Loop, lib: Library, r: Resource)
    requires Faithful(l)
    ensures Faithful(Next(l, lib, EntityDelete(r)))
  {
    var l' := Next(l, lib, EntityDelete(r));
    forall i, k ensures Lookup(l'.engine.cache, i, k) == Latest(l'.history, i, k) {
      LatestAppend(l.history, Gone(r.entity), i, k);
    }
  }

  lemma NextIsFaithful(l: Loop, lib: Library, ev: Event)
    requires Faithful(l) && Enabled(l, lib, ev)
    ensures Faithful(Next(l, lib, ev))
  {
    match ev
    case Receive(d) => ReceivingIsFaithful(l, d, lib.parses);
    case EntityChange(q, order, results) =>
      if l.synced && !Doomed(l, q, []) {
        AuditedResults(l.engine.policies, lib.eval, q, [], order, results);
        NewsIsSome(l.engine.cache, q.r.entity, results);
        HandOverIsFaithful(l, News(l.engine.cache, q.r.entity, results));
      }
    case EntityDelete(r) => DeletingIsFaithful(l, lib, r);
    case AuditResource(q, ids, order, results) =>
      if !Doomed(l, q, ids) {
        AuditedResults(l.engine.policies, lib.eval, q, ids, order, results);
        HandOverIsFaithful(l, results);
      }
    case EntitiesSync =>
  }

  /**
   In every state of every run, parse errors and all: the cache holds status s under (constraint,
   key) exactly when the latest event for that pair is the hand-over of a result with status s.
   */
  lemma {:induction false} CacheIsHistory(ls: seq<Loop>, lib: Library, evs: seq<Event>, n: nat)
    requires Run(ls, lib, evs) && n < |ls|
    ensures Faithful(ls[n])
  {
    if n > 0 {
      CacheIsHistory(ls, lib, evs, n - 1);
      assert EventAt(ls, lib, evs, n - 1);
      NextIsFaithful(ls[n - 1], lib, evs[n - 1]);
    }
  }

  predicate PlainPast(p: Past) {
    match p
    case Handed(_, e, _) => Plain(e)
    case Cleared(_) => true
    case Gone(e) => Plain(e)
  }

  /** As long as namespaces and kinds contain no colon, the history by key is the history by entity. */
  lemma {:induction false} LatestByEntity(history: seq<Past>, constraint: string, entity: Entity)
    requires Plain(entity) && forall p :: p in history ==> PlainPast(p)
    ensures Latest(history, constraint, Key(entity)) == LatestFor(history, constraint, entity)
  {
    if history != [] {
      LatestByEntity(history[..|history| - 1], constraint, entity);
      var p := history[|history| - 1];
      assert PlainPast(p);
      if !p.Cleared? && Key(p.entity) == Key(entity) {
        PlainKeysDiffer(p.entity, entity);
      }
    }
  }

  /** The event is about an entity without a colon in namespace and kind, or about none. */
  predicate PlainEvent(ev: Event) {
    match ev
    case Receive(_) => true
    case EntityChange(q, _, _) => Plain(q.r.entity)
    case EntityDelete(r) => Plain(r.entity)
    case AuditResource(q, _, _, _) => Plain(q.r.entity)
    case EntitiesSync => true
  }

  lemma {:induction false} HandingsArePlain(results: seq<AuditResult>)
    requires forall x :: x in results ==> Plain(EntityOf(x))
    ensures forall p :: p in Handings(results) ==> PlainPast(p)
  {
    if results != [] {
      HandingsArePlain(results[..|results| - 1]);
    }
  }

  lemma NextIsPlain(l: Loop, lib: Library, ev: Event)
    requires Faithful(l) && Enabled(l, lib, ev) && PlainEvent(ev)
    requires forall p :: p in l.history ==> PlainPast(p)
    ensures forall p :: p in Next(l, lib, ev).history ==> PlainPast(p)
  {
    if ev.EntityChange? && l.synced && !Doomed(l, ev.q, []) {
      AuditedResults(l.engine.policies, lib.eval, ev.q, [], ev.order, ev.results);
      NewsIsSome(l.engine.cache, ev.q.r.entity, ev.results);
      HandingsArePlain(News(l.engine.cache, ev.q.r.entity, ev.results));
    } else if ev.AuditResource? && !Doomed(l, ev.q, ev.ids) {
      AuditedResults(l.engine.policies, lib.eval, ev.q, ev.ids, ev.order, ev.results);
      HandingsArePlain(ev.results);
    }
  }

  lemma {:induction false} PlainRunsHavePlainHistory(ls: seq<Loop>, lib: Library, evs: seq<Event>, n: nat)
    requires Run(ls, lib, evs) && n < |ls| && forall i :: 0 <= i < n ==> PlainEvent(evs[i])
    ensures forall p :: p in ls[n].history ==> PlainPast(p)
  {
    if n > 0 {
      PlainRunsHavePlainHistory(ls, lib, evs, n - 1);
      CacheIsHistory(ls, lib, evs, n - 1);
      assert EventAt(ls, lib, evs, n - 1);
      NextIsPlain(ls[n - 1], lib, evs[n - 1]);
    }
  }

  /**
   In every state of every run whose events are about plain entities, the cache holds status s for a
   plain entity exactly when the latest event for that constraint and that entity is a hand-over of s.
   */
  lemma CacheIsHistoryOfEntity(ls: seq<Loop>, lib: Library, evs: seq<Event>, n: nat, constraint: string, e: Entity)
    requires Run(ls, lib, evs) && n < |ls| && Plain(e) && forall i :: 0 <= i < n ==> PlainEvent(evs[i])
    ensures Lookup(ls[n].engine.cache, constraint, Key(e)) == LatestFor(ls[n].history, constraint, e)
  {
    CacheIsHistory(ls, lib, evs, n);
    PlainRunsHavePlainHistory(ls, lib, evs, n);
    LatestByEntity(ls[n].history, constraint, e);
    assert Lookup(ls[n].engine.cache, constraint, Key(e)) == Latest(ls[n].history, constraint, Key(e));
  }

  /** By key, for any entities: an entity change hands over exactly the results whose status is new for their key. */
  lemma ChangeHandsOverNewsByKey(ls: seq<Loop>, lib: Library, evs: seq<Event>, n: nat, x: AuditResult)
    requires Run(ls, lib, evs) && n < |evs|
    requires evs[n].EntityChange? && ls[n].synced && !Doomed(ls[n], evs[n].q, [])
    ensures ls[n + 1] == HandOver(ls[n], News(ls[n].engine.cache, evs[n].q.r.entity, evs[n].results))
    ensures x in evs[n].results ==> EntityOf(x) == evs[n].q.r.entity
    ensures x in News(ls[n].engine.cache, evs[n].q.r.entity, evs[n].results) <==>
      x in evs[n].results && Latest(ls[n].history, x.constraintId, Key(EntityOf(x))) != Some(x.status)
  {
    CacheIsHistory(ls, lib, evs, n);
    assert EventAt(ls, lib, evs, n);
    var l, q := ls[n], evs[n].q;
    AuditedResults(l.engine.policies, lib.eval, q, [], evs[n].order, evs[n].results);
    NewsIsSome(l.engine.cache, q.r.entity, evs[n].results);
    var key := Key(q.r.entity);
    assert Lookup(l.engine.cache, x.constraintId, key) == Latest(l.history, x.constraintId, key);
  }

  /**
   An entity change hands over exactly those results of the audit whose status differs from the
   latest one handed over for the same constraint and entity: it never repeats, and never withholds news.
   */
  lemma ChangeHandsOverNews(ls: seq<Loop>, lib: Library, evs: seq<Event>, n: nat, x: AuditResult)
    requires Run(ls, lib, evs) && n < |evs| && forall i :: 0 <= i <= n ==> PlainEvent(evs[i])
    requires evs[n].EntityChange? && ls[n].synced && !Doomed(ls[n], evs[n].q, [])
    ensures ls[n + 1] == HandOver(ls[n], News(ls[n].engine.cache, evs[n].q.r.entity, evs[n].results))
    ensures x in News(ls[n].engine.cache, evs[n].q.r.entity, evs[n].results) <==>
      x in evs[n].results && LatestFor(ls[n].history, x.constraintId, evs[n].q.r.entity) != Some(x.status)
  {
    ChangeHandsOverNewsByKey(ls, lib, evs, n, x);
    PlainRunsHavePlainHistory(ls, lib, evs, n);
    assert PlainEvent(evs[n]);
    LatestByEntity(ls[n].history, x.constraintId, evs[n].q.r.entity);
  }

  // ---------------------------------------------------------------- no missing template

  ghost predicate Safe(l: Loop) {
    !l.crashed && Tallied(l.engine.policies)
  }

  /** From a safe state, exactly the deliveries that are not admissible lead out of safety. */
  lemma SafeIffAdmissible(l: Loop, lib: Library, ev: Event)
    requires Safe(l) && Enabled(l, lib, ev)
    ensures Safe(Next(l, lib, ev)) <==> (ev.Receive? ==> Admissible(l.engine.policies, ev.d, lib.parses))
  {
    match ev
    case Receive(d) => CountsKeptIffAdmissible(l.engine.policies, d, lib.parses);
    case EntityChange(q, _, _) => TalliedIsAuditable(l.engine.policies, q.r, []);
    case EntityDelete(_) =>
    case AuditResource(q, ids, _, _) => TalliedIsAuditable(l.engine.policies, q.r, ids);
    case EntitiesSync =>
  }

  /** With admissible deliveries only, usage counts stay right and no step looks up a missing template. */
  lemma {:induction false} AdmissibleRunsAreSafe(ls: seq<Loop>, lib: Library, evs: seq<Event>, n: nat)
    requires Run(ls, lib, evs) && n < |ls|
    requires forall i :: 0 <= i < n && evs[i].Receive? ==> Admissible(ls[i].engine.policies, evs[i].d, lib.parses)
    ensures Safe(ls[n])
  {
    if n > 0 {
      AdmissibleRunsAreSafe(ls, lib, evs, n - 1);
      assert EventAt(ls, lib, evs, n - 1);
      SafeIffAdmissible(ls[n - 1], lib, evs[n - 1]);
    }
  }

  /** What a sender can check on the events: all code that is not deleted parses, and an id keeps its template. */
  ghost predicate RegularEvents(evs: seq<Event>, parses: Parser) {
    && (forall i :: 0 <= i < |evs| && evs[i].Receive? && !evs[i].d.deleted ==> parses(evs[i].d.code))
    && (forall i, j :: 0 <= i < |evs| && 0 <= j < |evs| && evs[i].Receive? && evs[j].Receive?
          && !evs[i].d.deleted && !evs[j].d.deleted && evs[i].d.id == evs[j].d.id
          ==> evs[i].d.templateId == evs[j].d.templateId)
  }

  /** Some delivery before n brought constraint id with its stored template. */
  ghost predicate Brought(l: Loop, evs: seq<Event>, n: nat, id: string)
    requires n <= |evs| && id in l.engine.policies.constraints
  {
    exists i :: 0 <= i < n && evs[i].Receive? && !evs[i].d.deleted && evs[i].d.id == id
      && evs[i].d.templateId == l.engine.policies.constraints[id].templateId
  }

  /** A step leaves each constraint as it was, or stores the one it delivers. */
  lemma NextConstraint(l: Loop, lib: Library, ev: Event, id: string)
    requires id in Next(l, lib, ev).engine.policies.constraints
    ensures var c := Next(l, lib, ev).engine.policies.constraints[id];
      || (id in l.engine.policies.constraints && l.engine.policies.constraints[id] == c)
      || (ev.Receive? && !ev.d.deleted && ev.d.id == id && c == Stored(ev.d))
  {
  }

  lemma {:induction false} StoredWasBrought(ls: seq<Loop>, lib: Library, evs: seq<Event>, n: nat, id: string)
    requires Run(ls, lib, evs) && n < |ls| && id in ls[n].engine.policies.constraints
    ensures Brought(ls[n], evs, n, id)
  {
    if n > 0 {
      assert EventAt(ls, lib, evs, n - 1);
      NextConstraint(ls[n - 1], lib, evs[n - 1], id);
      var before := ls[n - 1].engine.policies.constraints;
      if id in before && before[id] == ls[n].engine.policies.constraints[id] {
        StoredWasBrought(ls, lib, evs, n - 1, id);
        var i :| 0 <= i < n - 1 && evs[i].Receive? && !evs[i].d.deleted && evs[i].d.id == id
          && evs[i].d.templateId == before[id].templateId;
        assert 0 <= i < n;
      } else {
        assert evs[n - 1].d.templateId == ls[n].engine.policies.constraints[id].templateId;
      }
    }
  }

  /** Deletions, stale and repeated deliveries included: regular deliveries never lead to a missing template. */
  lemma {:induction false} RegularRunsAreSafe(ls: seq<Loop>, lib: Library, evs: seq<Event>, n: nat)
    requires Run(ls, lib, evs) && n < |ls| && RegularEvents(evs, lib.parses)
    ensures Safe(ls[n])
  {
    if n > 0 {
      RegularRunsAreSafe(ls, lib, evs, n - 1);
      assert EventAt(ls, lib, evs, n - 1);
      var ps, ev := ls[n - 1].engine.policies, evs[n - 1];
      if ev.Receive? && ev.d.id in ps.constraints {
        StoredWasBrought(ls, lib, evs, n - 1, ev.d.id);
      }
      SafeIffAdmissible(ls[n - 1], lib, ev);
    }
  }

  /**
   The failing family: a first delivery whose code does not parse, for a template nobody else uses, is
   stored all the same. Deleting that constraint, or delivering a newer version that does parse, crashes.
   */
  lemma UnparsedThenTouchedCrashes(l: Loop, d: Delivery, d': Delivery, parses: Parser)
    requires !l.crashed && !d.deleted && d.id !in l.engine.policies.constraints
    requires d.templateId !in l.engine.policies.templates && !parses(d.code)
    requires d'.id == d.id
    requires d'.deleted || (d'.updatedAt > d.updatedAt && parses(d'.code) && d'.templateId == d.templateId)
    ensures !Receiving(l, d, parses).crashed
    ensures Receiving(Receiving(l, d, parses), d', parses).crashed
  {
    var l1 := Receiving(l, d, parses);
    assert l1.engine.policies.constraints[d.id] == Stored(d);
  }

  /** A newer version that does not parse is stored too, but the statuses cached for its predecessor stay. */
  lemma RefusedVersionKeepsStatuses(l: Loop, d: Delivery, parses: Parser)
    requires !l.crashed && !d.deleted && d.id in l.engine.policies.constraints
    requires d.updatedAt > l.engine.policies.constraints[d.id].updatedAt && !parses(d.code)
    ensures Receiving(l, d, parses).engine.policies.constraints[d.id] == Stored(d)
    ensures Receiving(l, d, parses).engine.cache == l.engine.cache && Receiving(l, d, parses).history == l.history
  {
    assert l.history + [] == l.history;
  }
}
