/**
 What the auditor remembers of what it handed over, over stretches of runs: a status that was handed
 over is known until something voids it, and what is known is not handed over again.
 */
module AuditMemory {
  import opened Basics
  import opened EntityKeys
  import opened Policies
  import opened ResultsCache
  import opened Audit
  import opened OpaEngine
  import opened AuditLoop

  // ---------------------------------------------------------------- one hand-over

  ghost predicate OneEach(results: seq<AuditResult>) {
    forall i, j :: 0 <= i < j < |results| ==> results[i].constraintId != results[j].constraintId
  }

  /** Recording results changes the cache for their own pairs only. */
  lemma {:induction false} RecordedElsewhere(c: Cache, results: seq<AuditResult>, constraint: string, key: string)
    requires forall x :: x in results ==> x.constraintId != constraint || Key(EntityOf(x)) != key
    ensures Lookup(Recorded(c, results), constraint, key) == Lookup(c, constraint, key)
  {
    if results != [] {
      RecordedElsewhere(c, results[..|results| - 1], constraint, key);
      assert results[|results| - 1] in results;
    }
  }

  /** Results for different constraints are all remembered. */
  lemma {:induction false} RecordedHolds(c: Cache, results: seq<AuditResult>, k: nat)
    requires OneEach(results) && k < |results|
    ensures Lookup(Recorded(c, results), results[k].constraintId, Key(EntityOf(results[k]))) == Some(results[k].status)
  {
    if k < |results| - 1 {
      RecordedHolds(c, results[..|results| - 1], k);
      assert results[k].constraintId != results[|results| - 1].constraintId;
    }
  }

  /** Filtering by news keeps one result per constraint. */
  lemma {:induction false} NewsOneEach(c: Cache, e: Entity, results: seq<AuditResult>)
    requires OneEach(results)
    ensures OneEach(News(c, e, results))
  {
    if results != [] {
      var rest, last := results[..|results| - 1], results[|results| - 1];
      NewsOneEach(c, e, rest);
      NewsIsSome(c, e, rest);
      forall x | x in News(c, e, rest) ensures x.constraintId != last.constraintId {
        assert x in rest;
        var i :| 0 <= i < |rest| && rest[i] == x;
        assert results[i] == x;
      }
    }
  }

  // ---------------------------------------------------------------- the history and what was sent

  /** The hand-overs of a history, in order. */
  function HandedIn(history: seq<Past>): seq<Past> {
    if history == [] then []
    else
      var last := history[|history| - 1];
      HandedIn(history[..|history| - 1]) + if last.Handed? then [last] else []
  }

  /** All results sent so far, in order. */
  function Flat(outbox: seq<seq<AuditResult>>): seq<AuditResult> {
    if outbox == [] then [] else Flat(outbox[..|outbox| - 1]) + outbox[|outbox| - 1]
  }

  /** The entries are the hand-overs of the results, one by one. */
  ghost predicate HandingsOf(entries: seq<Past>, results: seq<AuditResult>) {
    && |entries| == |results|
    && forall i :: 0 <= i < |results| ==>
         entries[i] == Handed(results[i].constraintId, EntityOf(results[i]), results[i].status)
  }

  /** What the history says was handed over is what was sent. */
  ghost predicate Booked(history: seq<Past>, outbox: seq<seq<AuditResult>>) {
    HandingsOf(HandedIn(history), Flat(outbox))
  }

  lemma HandingsOfBoth(entries: seq<Past>, results: seq<AuditResult>, entries': seq<Past>, results': seq<AuditResult>)
    requires HandingsOf(entries, results) && HandingsOf(entries', results')
    ensures HandingsOf(entries + entries', results + results')
  {
  }

  lemma {:induction false} HandedInAppend(history: seq<Past>, more: seq<Past>)
    ensures HandedIn(history + more) == HandedIn(history) + HandedIn(more)
  {
    if more == [] {
      assert history + more == history;
    } else {
      HandedInAppend(history, more[..|more| - 1]);
      assert (history + more)[..|history + more| - 1] == history + more[..|more| - 1];
    }
  }

  lemma {:induction false} HandingsAre(results: seq<AuditResult>)
    ensures HandingsOf(Handings(results), results)
  {
    if results != [] {
      HandingsAre(results[..|results| - 1]);
    }
  }

  lemma {:induction false} AllHanded(more: seq<Past>)
    requires forall p :: p in more ==> p.Handed?
    ensures HandedIn(more) == more
  {
    if more != [] {
      AllHanded(more[..|more| - 1]);
    }
  }

  lemma {:induction false} NoneHanded(more: seq<Past>)
    requires forall p :: p in more ==> !p.Handed?
    ensures HandedIn(more) == []
  {
    if more != [] {
      NoneHanded(more[..|more| - 1]);
    }
  }

  lemma FlatAppend(outbox: seq<seq<AuditResult>>, results: seq<AuditResult>)
    ensures Flat(outbox + [results]) == Flat(outbox) + results
  {
    assert (outbox + [results])[..|outbox|] == outbox;
  }

  lemma HandedInHandings(history: seq<Past>, results: seq<AuditResult>)
    ensures HandedIn(history + Handings(results)) == HandedIn(history) + Handings(results)
  {
    HandingsAre(results);
    HandedInAppend(history, Handings(results));
    AllHanded(Handings(results));
  }

  /** Recording and sending the same results keeps the books. */
  lemma SendingBooks(history: seq<Past>, outbox: seq<seq<AuditResult>>, results: seq<AuditResult>)
    requires Booked(history, outbox)
    ensures Booked(history + Handings(results), outbox + [results])
  {
    HandingsAre(results);
    HandedInHandings(history, results);
    FlatAppend(outbox, results);
    HandingsOfBoth(HandedIn(history), Flat(outbox), Handings(results), results);
  }

  /** So does an event that hands over nothing. */
  lemma VoidingBooks(history: seq<Past>, outbox: seq<seq<AuditResult>>, more: seq<Past>)
    requires Booked(history, outbox) && forall p :: p in more ==> !p.Handed?
    ensures Booked(history + more, outbox)
  {
    HandedInAppend(history, more);
    NoneHanded(more);
  }

  // ---------------------------------------------------------------- one step

  /** The event audits a resource in state l, and the audit does not look up a missing template. */
  ghost predicate Audits(l: Loop, ev: Event) {
    || (ev.EntityChange? && l.synced && !Doomed(l, ev.q, []))
    || (ev.AuditResource? && !Doomed(l, ev.q, ev.ids))
  }

  /** The results an audit hands over: a changed resource only those that are news, a full audit all. */
  function HandedOver(l: Loop, ev: Event): seq<AuditResult>
    requires ev.EntityChange? || ev.AuditResource?
  {
    if ev.EntityChange? then News(l.engine.cache, ev.q.r.entity, ev.results) else ev.results
  }

  /** Its results are one per constraint, for stored constraints, and about the audited entity. */
  lemma AuditIsTidy(l: Loop, lib: Library, ev: Event)
    requires Keyed(l.engine.policies) && Enabled(l, lib, ev) && Audits(l, ev)
    ensures OneEach(ev.results) && forall x :: x in ev.results ==> EntityOf(x) == ev.q.r.entity
  {
    var ids := if ev.EntityChange? then [] else ev.ids;
    AuditedResults(l.engine.policies, lib.eval, ev.q, ids, ev.order, ev.results);
    AuditIsExact(l.engine.policies, lib.eval, ev.q, ids, ev.order, ev.results);
  }

  /** What is handed over are results of the audit, one per constraint, and the rest is known already. */
  lemma HandedOverIsTidy(l: Loop, lib: Library, ev: Event)
    requires Keyed(l.engine.policies) && Enabled(l, lib, ev) && Audits(l, ev)
    ensures OneEach(HandedOver(l, ev)) && forall x :: x in HandedOver(l, ev) ==> x in ev.results
    ensures forall x :: x in ev.results && x !in HandedOver(l, ev) ==>
      Lookup(l.engine.cache, x.constraintId, Key(ev.q.r.entity)) == Some(x.status)
  {
    AuditIsTidy(l, lib, ev);
    if ev.EntityChange? {
      NewsOneEach(l.engine.cache, ev.q.r.entity, ev.results);
      NewsIsSome(l.engine.cache, ev.q.r.entity, ev.results);
    }
  }

  /** Recording some of the results does not touch what is known of another one. */
  lemma KnownStays(c: Cache, handed: seq<AuditResult>, results: seq<AuditResult>, x: AuditResult)
    requires OneEach(results) && OneEach(handed) && x in results && x !in handed
    requires forall y :: y in handed ==> y in results
    ensures Lookup(Recorded(c, handed), x.constraintId, Key(EntityOf(x))) == Lookup(c, x.constraintId, Key(EntityOf(x)))
  {
    forall y | y in handed ensures y.constraintId != x.constraintId {
      var i, j :| 0 <= i < |results| && 0 <= j < |results| && results[i] == x && results[j] == y;
      assert i != j;
    }
    RecordedElsewhere(c, handed, x.constraintId, Key(EntityOf(x)));
  }

  /** Cache c' holds the status of every result under the key, and is c for every other pair. */
  ghost predicate Learned(c: Cache, c': Cache, results: seq<AuditResult>, key: string) {
    && (forall x :: x in results ==> Lookup(c', x.constraintId, key) == Some(x.status))
    && (forall i, k :: k != key || (forall x :: x in results ==> x.constraintId != i) ==>
          Lookup(c', i, k) == Lookup(c, i, k))
  }

  /** Recording what is handed over, where the rest is known already, is learning all results. */
  lemma RecordedIsLearned(c: Cache, handed: seq<AuditResult>, results: seq<AuditResult>, key: string)
    requires OneEach(results) && OneEach(handed) && forall x :: x in handed ==> x in results
    requires forall x :: x in results ==> Key(EntityOf(x)) == key
    requires forall x :: x in results && x !in handed ==> Lookup(c, x.constraintId, key) == Some(x.status)
    ensures Learned(c, Recorded(c, handed), results, key)
  {
    forall x | x in results ensures Lookup(Recorded(c, handed), x.constraintId, key) == Some(x.status) {
      if x in handed {
        var k :| 0 <= k < |handed| && handed[k] == x;
        RecordedHolds(c, handed, k);
      } else {
        KnownStays(c, handed, results, x);
      }
    }
    forall i, k | k != key || (forall x :: x in results ==> x.constraintId != i)
      ensures Lookup(Recorded(c, handed), i, k) == Lookup(c, i, k)
    {
      RecordedElsewhere(c, handed, i, k);
    }
  }

  lemma NextRecords(l: Loop, lib: Library, ev: Event)
    requires Audits(l, ev)
    ensures Next(l, lib, ev).engine == l.engine.(cache := Recorded(l.engine.cache, HandedOver(l, ev)))
  {
  }

  /**
   After an audit the cache holds the status of every one of its results, handed over or not, and is
   as before for every other pair.
   */
  lemma AuditIsKnown(l: Loop, lib: Library, ev: Event)
    requires Keyed(l.engine.policies) && Enabled(l, lib, ev) && Audits(l, ev)
    ensures Learned(l.engine.cache, Next(l, lib, ev).engine.cache, ev.results, Key(ev.q.r.entity))
    ensures Next(l, lib, ev).engine.policies == l.engine.policies
  {
    AuditIsTidy(l, lib, ev);
    HandedOverIsTidy(l, lib, ev);
    RecordedIsLearned(l.engine.cache, HandedOver(l, ev), ev.results, Key(ev.q.r.entity));
    NextRecords(l, lib, ev);
  }

  /** The history grows by the hand-overs of exactly what an audit hands over, and by no others. */
  lemma NextBooks(l: Loop, lib: Library, ev: Event) returns (more: seq<Past>)
    ensures Next(l, lib, ev).history == l.history + more
    ensures HandingsOf(HandedIn(more), if Audits(l, ev) then HandedOver(l, ev) else [])
  {
    if Audits(l, ev) {
      more := Handings(HandedOver(l, ev));
      HandingsAre(HandedOver(l, ev));
      AllHanded(more);
    } else {
      more := match ev
        case Receive(d) => Mentions(Deliver(l.engine.policies, d, lib.parses).outcome, d)
        case EntityDelete(r) => [Gone(r.entity)]
        case _ => [];
      NoneHanded(more);
      assert l.history + [] == l.history;
    }
  }

  // ---------------------------------------------------------------- runs

  /** What event i of a run hands over. */
  ghost function HandedAt(ls: seq<Loop>, evs: seq<Event>, i: nat): seq<AuditResult>
    requires i < |evs| && i < |ls|
  {
    if Audits(ls[i], evs[i]) then HandedOver(ls[i], evs[i]) else []
  }

  /** All that the first n events of a run hand over, in order. */
  ghost function Sent(ls: seq<Loop>, evs: seq<Event>, n: nat): seq<AuditResult>
    requires n <= |evs| && n <= |ls|
  {
    if n == 0 then [] else Sent(ls, evs, n - 1) + HandedAt(ls, evs, n - 1)
  }

  lemma StepBooks(ls: seq<Loop>, lib: Library, evs: seq<Event>, i: nat) returns (more: seq<Past>)
    requires Run(ls, lib, evs) && i < |evs|
    ensures ls[i + 1].history == ls[i].history + more && HandingsOf(HandedIn(more), HandedAt(ls, evs, i))
  {
    assert EventAt(ls, lib, evs, i);
    more := NextBooks(ls[i], lib, evs[i]);
  }

  lemma BooksBoth(history: seq<Past>, sent: seq<AuditResult>, more: seq<Past>, handed: seq<AuditResult>)
    requires HandingsOf(HandedIn(history), sent) && HandingsOf(HandedIn(more), handed)
    ensures HandingsOf(HandedIn(history + more), sent + handed)
  {
    HandedInAppend(history, more);
    HandingsOfBoth(HandedIn(history), sent, HandedIn(more), handed);
  }

  /** In every state of every run, the hand-overs in the history are all results handed over, in order. */
  lemma {:induction false} HistoryIsWhatWasSent(ls: seq<Loop>, lib: Library, evs: seq<Event>, n: nat)
    requires Run(ls, lib, evs) && n < |ls|
    ensures HandingsOf(HandedIn(ls[n].history), Sent(ls, evs, n))
  {
    if n > 0 {
      HistoryIsWhatWasSent(ls, lib, evs, n - 1);
      var more := StepBooks(ls, lib, evs, n - 1);
      BooksBoth(ls[n - 1].history, Sent(ls, evs, n - 1), more, HandedAt(ls, evs, n - 1));
    }
  }

  /** The event concerns neither the constraint nor an entity with this key. */
  predicate Unrelated(ev: Event, constraint: string, key: string) {
    match ev
    case Receive(d) => d.id != constraint
    case EntityChange(q, _, _) => Key(q.r.entity) != key
    case EntityDelete(r) => Key(r.entity) != key
    case AuditResource(q, _, _, _) => Key(q.r.entity) != key
    case EntitiesSync => true
  }

  lemma StepRemembers(l: Loop, lib: Library, ev: Event, constraint: string, key: string)
    requires Keyed(l.engine.policies) && Enabled(l, lib, ev) && Unrelated(ev, constraint, key)
    ensures Lookup(Next(l, lib, ev).engine.cache, constraint, key) == Lookup(l.engine.cache, constraint, key)
  {
    if Audits(l, ev) {
      AuditIsKnown(l, lib, ev);
    }
  }

  lemma {:induction false} RunRemembers(ls: seq<Loop>, lib: Library, evs: seq<Event>, n: nat, m: nat,
                                        constraint: string, key: string)
    requires Run(ls, lib, evs) && n <= m <= |evs|
    requires forall i :: n <= i < m ==> Unrelated(evs[i], constraint, key)
    ensures Lookup(ls[m].engine.cache, constraint, key) == Lookup(ls[n].engine.cache, constraint, key)
  {
    if n < m {
      RunRemembers(ls, lib, evs, n, m - 1, constraint, key);
      CacheIsHistory(ls, lib, evs, m - 1);
      assert EventAt(ls, lib, evs, m - 1);
      StepRemembers(ls[m - 1], lib, evs[m - 1], constraint, key);
    }
  }

  /** The status an audit finds stays known as long as no event concerns its constraint or its entity's key. */
  lemma FoundIsKnown(ls: seq<Loop>, lib: Library, evs: seq<Event>, n: nat, m: nat, x: AuditResult)
    requires Run(ls, lib, evs) && n < m <= |evs| && Audits(ls[n], evs[n]) && x in evs[n].results
    requires forall i :: n < i < m ==> Unrelated(evs[i], x.constraintId, Key(evs[n].q.r.entity))
    ensures Lookup(ls[m].engine.cache, x.constraintId, Key(evs[n].q.r.entity)) == Some(x.status)
  {
    KnownAt(ls, lib, evs, n, x);
    RunRemembers(ls, lib, evs, n + 1, m, x.constraintId, Key(evs[n].q.r.entity));
  }

  lemma KnownAt(ls: seq<Loop>, lib: Library, evs: seq<Event>, n: nat, x: AuditResult)
    requires Run(ls, lib, evs) && n < |evs| && Audits(ls[n], evs[n]) && x in evs[n].results
    ensures Lookup(ls[n + 1].engine.cache, x.constraintId, Key(evs[n].q.r.entity)) == Some(x.status)
  {
    CacheIsHistory(ls, lib, evs, n);
    assert EventAt(ls, lib, evs, n);
    AuditIsKnown(ls[n], lib, evs[n]);
  }

  /**
   If a result of one audit, handed over or already known, has the status that a later change of the same
   entity finds for the same constraint, and no event between concerns that constraint or that entity's
   key, then the later change does not hand it over.
   */
  lemma KnownIsNotRepeated(ls: seq<Loop>, lib: Library, evs: seq<Event>, n: nat, m: nat, x: AuditResult, y: AuditResult)
    requires Run(ls, lib, evs) && n < m < |evs| && Audits(ls[n], evs[n])
    requires evs[m].EntityChange? && Audits(ls[m], evs[m]) && evs[m].q.r.entity == evs[n].q.r.entity
    requires x in evs[n].results && y in evs[m].results
    requires y.constraintId == x.constraintId && y.status == x.status
    requires forall i :: n < i < m ==> Unrelated(evs[i], x.constraintId, Key(evs[n].q.r.entity))
    ensures y !in HandedOver(ls[m], evs[m])
  {
    FoundIsKnown(ls, lib, evs, n, m, x);
    NewsIsSome(ls[m].engine.cache, evs[m].q.r.entity, evs[m].results);
  }

  /**
   Once a delivery of a constraint is accepted, or a resource deleted, the next audit of a changed
   resource hands over whatever it finds for that constraint, or for that resource's key.
   */
  lemma VoidedIsHandedOver(ls: seq<Loop>, lib: Library, evs: seq<Event>, n: nat, m: nat, y: AuditResult)
    requires Run(ls, lib, evs) && n < m < |evs| && evs[m].EntityChange? && Audits(ls[m], evs[m])
    requires y in evs[m].results
    requires
      || (evs[n].Receive? && evs[n].d.id == y.constraintId && Accepted(ls[n].engine.policies, evs[n].d, lib.parses))
      || (evs[n].EntityDelete? && Key(evs[n].r.entity) == Key(evs[m].q.r.entity))
    requires forall i :: n < i < m ==> Unrelated(evs[i], y.constraintId, Key(evs[m].q.r.entity))
    ensures y in HandedOver(ls[m], evs[m])
  {
    var key := Key(evs[m].q.r.entity);
    assert EventAt(ls, lib, evs, n);
    if evs[n].Receive? {
      OutcomeIs(ls[n].engine.policies, evs[n].d, lib.parses);
    }
    assert Lookup(ls[n + 1].engine.cache, y.constraintId, key) == None;
    RunRemembers(ls, lib, evs, n + 1, m, y.constraintId, key);
    NewsIsSome(ls[m].engine.cache, evs[m].q.r.entity, evs[m].results);
  }
}
