/** `Auditor` of auditor/auditor.go: one method per kind of event its loop handles. */
module AuditorEvents {
  import opened Basics
  import opened EntityKeys
  import opened Policies
  import opened ResultsCache
  import opened Audit
  import opened OpaEngine
  import opened AuditLoop
  import opened AuditMemory
  import opened BatchLaws

  /** A batch of deliveries is a series of steps, cut short by a crash. */
  function ReceivingAll(l: Loop, ds: seq<Delivery>, parses: Parser): Loop {
    if ds == [] then l
    else
      var before := ReceivingAll(l, ds[..|ds| - 1], parses);
      if before.crashed then before else Receiving(before, ds[|ds| - 1], parses)
  }

  /** The series of steps computes what the batch computes. */
  lemma {:induction false} BatchIsSteps(l: Loop, ds: seq<Delivery>, parses: Parser)
    requires !l.crashed
    ensures ReceivingAll(l, ds, parses).engine == ReceivedAll(l.engine, ds, parses).engine
    ensures ReceivingAll(l, ds, parses).crashed == ReceivedAll(l.engine, ds, parses).crashed
    ensures ReceivingAll(l, ds, parses).synced == l.synced
  {
    if ds != [] {
      BatchIsSteps(l, ds[..|ds| - 1], parses);
    }
  }

  /** A batch keeps the cache in step with the history, and hands over nothing. */
  lemma {:induction false} BatchIsFaithful(l: Loop, ds: seq<Delivery>, parses: Parser, outbox: seq<seq<AuditResult>>)
    requires Faithful(l) && Booked(l.history, outbox)
    ensures Faithful(ReceivingAll(l, ds, parses)) && Booked(ReceivingAll(l, ds, parses).history, outbox)
  {
    if ds != [] {
      var before, d := ReceivingAll(l, ds[..|ds| - 1], parses), ds[|ds| - 1];
      BatchIsFaithful(l, ds[..|ds| - 1], parses, outbox);
      ReceivingIsFaithful(before, d, parses);
      VoidingBooks(before.history, outbox, Mentions(Deliver(before.engine.policies, d, parses).outcome, d));
    }
  }

  ghost function Played(l: Loop, lib: Library, evs: seq<Event>): Loop {
    if evs == [] then l else Next(Played(l, lib, evs[..|evs| - 1]), lib, evs[|evs| - 1])
  }

  ghost predicate Playable(l: Loop, lib: Library, evs: seq<Event>) {
    evs == [] ||
    (Playable(l, lib, evs[..|evs| - 1]) && Enabled(Played(l, lib, evs[..|evs| - 1]), lib, evs[|evs| - 1]))
  }

  /** One audit event per request, in order, each for the given ids. */
  ghost predicate AuditsOf(evs: seq<Event>, qs: seq<Request>, ids: seq<string>) {
    |evs| == |qs| && forall i :: 0 <= i < |qs| ==> evs[i].AuditResource? && evs[i].q == qs[i] && evs[i].ids == ids
  }

  /** The outbox grew by the results of the events, one entry each, in order. */
  ghost predicate Appended(before: seq<seq<AuditResult>>, after: seq<seq<AuditResult>>, evs: seq<Event>) {
    && |after| == |before| + |evs| && after[..|before|] == before
    && (forall i :: 0 <= i < |evs| ==> evs[i].AuditResource? && after[|before| + i] == evs[i].results)
  }

  /** The audits for some requests took the loop from l to l' and the outbox from sent to sent'. */
  ghost predicate Audited(l: Loop, l': Loop, lib: Library, sent: seq<seq<AuditResult>>, sent': seq<seq<AuditResult>>,
                          evs: seq<Event>, qs: seq<Request>, ids: seq<string>)
  {
    && Playable(l, lib, evs) && l' == Played(l, lib, evs)
    && l'.engine.policies == l.engine.policies
    && AuditsOf(evs, qs, ids)
    && Appended(sent, sent', evs)
  }

  lemma PlayOneMore(l: Loop, lib: Library, evs: seq<Event>, ev: Event)
    requires Playable(l, lib, evs) && Enabled(Played(l, lib, evs), lib, ev)
    ensures Playable(l, lib, evs + [ev])
    ensures Played(l, lib, evs + [ev]) == Next(Played(l, lib, evs), lib, ev)
  {
    assert (evs + [ev])[..|evs|] == evs;
  }

  lemma AuditKeepsPolicies(l: Loop, lib: Library, ev: Event)
    requires ev.AuditResource?
    ensures Next(l, lib, ev).engine.policies == l.engine.policies
  {
  }

  lemma BooksOneMore(evs: seq<Event>, qs: seq<Request>, ids: seq<string>, ev: Event,
                     sent: seq<seq<AuditResult>>, sent': seq<seq<AuditResult>>)
    requires AuditsOf(evs, qs, ids) && Appended(sent, sent', evs) && ev.AuditResource? && ev.ids == ids
    ensures AuditsOf(evs + [ev], qs + [ev.q], ids) && Appended(sent, sent' + [ev.results], evs + [ev])
  {
  }

  lemma AuditOneMore(l: Loop, l': Loop, lib: Library, sent: seq<seq<AuditResult>>, sent': seq<seq<AuditResult>>,
                     evs: seq<Event>, qs: seq<Request>, ids: seq<string>, ev: Event)
    requires Audited(l, l', lib, sent, sent', evs, qs, ids)
    requires ev.AuditResource? && ev.ids == ids && Enabled(l', lib, ev)
    ensures Audited(l, Next(l', lib, ev), lib, sent, sent' + [ev.results], evs + [ev], qs + [ev.q], ids)
  {
    PlayOneMore(l, lib, evs, ev);
    AuditKeepsPolicies(l', lib, ev);
    BooksOneMore(evs, qs, ids, ev, sent, sent');
  }

  lemma StillNotDoomed(l: Loop, l': Loop, q: Request, ids: seq<string>)
    requires l'.engine.policies == l.engine.policies && !Doomed(l, q, ids)
    ensures !Doomed(l', q, ids)
  {
  }

  /** The event that HandleConstraints posts: the first constraints, or a change of policy. */
  datatype Posted = Initial(ids: seq<string>) | PolicyChange(ids: seq<string>)

  class Auditor {
    const opa: OpaAuditor
    var entitiesSynced: bool
    /** One entry per call of sendAuditResult. */
    var outbox: seq<seq<AuditResult>>
    ghost var history: seq<Past>

    ghost function Model(): Loop
      reads this, opa, opa.cache
    {
      Loop(opa.Model(), entitiesSynced, false, history)
    }

    ghost function Lib(): Library {
      Library(opa.parses, opa.eval)
    }

    /** The cache is in step with the history, and what the history says was handed over is the outbox. */
    ghost predicate Valid()
      reads this, opa, opa.cache
    {
      Faithful(Model()) && Booked(history, outbox)
    }

    constructor (parses: Parser, eval: Evaluator)
      ensures Valid() && Init(Model()) && outbox == [] && Lib() == Library(parses, eval)
      ensures fresh(opa) && fresh(opa.cache)
    {
      opa := new OpaAuditor(parses, eval);
      entitiesSynced, outbox, history := false, [], [];
    }

    /**
     Posts an event exactly when some delivery was accepted, with the ids of the accepted ones, which
     lie at positions `at` of the batch: the initial event if no constraint was stored before.
     */
    method HandleConstraints(ds: seq<Delivery>)
      returns (posted: Option<Posted>, failed: set<string>, crashed: bool, ghost at: seq<nat>)
      requires Valid()
      modifies this, opa, opa.cache
      ensures Valid() && outbox == old(outbox)
      ensures Model().(crashed := crashed) == ReceivingAll(old(Model()), ds, opa.parses)
      ensures crashed <==> Derailed(old(opa.Model()), ds, opa.parses)
      ensures !crashed ==> ListsInOrder(at, AcceptedIn(old(opa.Model()), ds, opa.parses))
      ensures !crashed ==> (posted.None? <==> at == [])
      ensures posted.Some? ==> !crashed && IdsAt(posted.value.ids, ds, at)
      ensures posted.Some? ==> (posted.value.Initial? <==> old(opa.constraints) == map[])
      ensures !crashed ==> forall id :: id in failed <==> RefusedIn(old(opa.Model()), ds, opa.parses, id)
    {
      var first := |opa.constraints| == 0;
      ghost var before, e := Model(), opa.Model();
      var updated;
      updated, failed, crashed := opa.UpdateConstraints(ds);
      BatchIsSteps(before, ds, opa.parses);
      BatchIsFaithful(before, ds, opa.parses, outbox);
      BatchCrashesIff(e, ds, opa.parses);
      history := ReceivingAll(before, ds, opa.parses).history;
      posted, at := None, [];
      if !crashed {
        at := UpdatedAreAccepted(e, ds, opa.parses);
        forall id ensures id in failed <==> RefusedIn(e, ds, opa.parses, id) {
          FailedAreRefused(e, ds, opa.parses, id);
        }
      }
      if |updated| > 0 && !crashed {
        posted := Some(if first then Initial(updated) else PolicyChange(updated));
      }
    }

    method Filter(r: Resource, results: seq<AuditResult>) returns (news: seq<AuditResult>)
      ensures news == News(opa.cache.cache, r.entity, results)
    {
      news := [];
      for i := 0 to |results|
        invariant news == News(opa.cache.cache, r.entity, results[..i])
      {
        assert results[..i + 1][..i] == results[..i];
        var isNews := opa.CheckResourceStatusWithConstraint(results[i].constraintId, r, results[i].status);
        if isNews {
          news := news + [results[i]];
        }
      }
      assert results[..|results|] == results;
    }

    /** A changed resource: audited once entities are synced; only news is recorded and sent. */
    method OnEntityChange(q: Request) returns (ghost ev: Event)
      requires Valid() && (entitiesSynced ==> !Doomed(Model(), q, []))
      modifies `outbox, `history, opa.cache
      ensures Valid()
      ensures ev.EntityChange? && ev.q == q && Enabled(old(Model()), Lib(), ev)
      ensures Model() == Next(old(Model()), Lib(), ev)
      ensures outbox == old(outbox) +
        if entitiesSynced then [News(old(opa.cache.cache), q.r.entity, ev.results)] else []
      ensures !entitiesSynced ==> opa.cache.cache == old(opa.cache.cache)
      ensures entitiesSynced ==> forall x :: x in ev.results ==>
        Lookup(opa.cache.cache, x.constraintId, Key(q.r.entity)) == Some(x.status)
      ensures entitiesSynced ==> forall x :: x in outbox[|outbox| - 1] <==>
        x in ev.results && Lookup(old(opa.cache.cache), x.constraintId, Key(q.r.entity)) != Some(x.status)
    {
      if !entitiesSynced {
        return EntityChange(q, [], []);
      }
      ghost var l := Model();
      var results, _, order := opa.Audit(q, []);
      ev := EntityChange(q, order, results);
      var news := Filter(q.r, results);
      NewsIsSome(l.engine.cache, q.r.entity, results);
      AuditIsKnown(l, Lib(), ev);
      RecordAndSend(l, ev, news);
    }

    /** Records the statuses of what an audit hands over, and hands it over. */
    method RecordAndSend(ghost l: Loop, ghost ev: Event, results: seq<AuditResult>)
      requires Valid() && l == Model() && Enabled(l, Lib(), ev)
      requires Audits(l, ev) && results == HandedOver(l, ev)
      modifies `outbox, `history, opa.cache
      ensures Valid() && Model() == Next(l, Lib(), ev)
      ensures outbox == old(outbox) + [results]
    {
      NextIsFaithful(l, Lib(), ev);
      opa.UpdateCache(results);
      outbox := outbox + [results];
      history := history + Handings(results);
      SendingBooks(old(history), old(outbox), results);
    }

    method OnEntityDelete(r: Resource)
      requires Valid()
      modifies `history, opa.cache
      ensures Valid() && Model() == Next(old(Model()), Lib(), EntityDelete(r)) && outbox == old(outbox)
      ensures forall i, k ::
        Lookup(opa.cache.cache, i, k) == if k == Key(r.entity) then None else Lookup(old(opa.cache.cache), i, k)
    {
      DeletingIsFaithful(Model(), Lib(), r);
      opa.RemoveResource(r);
      history := history + [Gone(r.entity)];
      VoidingBooks(old(history), outbox, [Gone(r.entity)]);
    }

    method AuditAndSend(q: Request, ids: seq<string>) returns (ghost ev: Event)
      requires Valid() && !Doomed(Model(), q, ids)
      modifies `outbox, `history, opa.cache
      ensures Valid()
      ensures ev.AuditResource? && ev.q == q && ev.ids == ids && Enabled(old(Model()), Lib(), ev)
      ensures Model() == Next(old(Model()), Lib(), ev)
      ensures outbox == old(outbox) + [ev.results]
      ensures forall x :: x in ev.results ==>
        Lookup(opa.cache.cache, x.constraintId, Key(q.r.entity)) == Some(x.status)
    {
      ghost var l := Model();
      var results, _, order := opa.Audit(q, ids);
      ev := AuditResource(q, ids, order, results);
      AuditIsKnown(l, Lib(), ev);
      RecordAndSend(l, ev, results);
    }

    /** `auditAllResourcesAndSendData`: every resource is audited for the given ids and sent, unfiltered. */
    method AuditAll(qs: seq<Request>, ids: seq<string>) returns (ghost evs: seq<Event>)
      requires Valid() && forall i :: 0 <= i < |qs| ==> !Doomed(Model(), qs[i], ids)
      modifies `outbox, `history, opa.cache
      ensures Valid()
      ensures Playable(old(Model()), Lib(), evs) && Model() == Played(old(Model()), Lib(), evs)
      ensures AuditsOf(evs, qs, ids)
      ensures Appended(old(outbox), outbox, evs)
    {
      evs := [];
      ghost var l, sent := Model(), outbox;
      for n := 0 to |qs|
        invariant Valid() && Audited(l, Model(), Lib(), sent, outbox, evs, qs[..n], ids)
      {
        assert qs[..n] + [qs[n]] == qs[..n + 1];
        evs := AuditNext(qs[n], ids, l, sent, evs, qs[..n]);
      }
      assert qs[..|qs|] == qs;
    }

    /** One iteration of `auditAllResourcesAndSendData`, with `done` audited before. */
    method AuditNext(q: Request, ids: seq<string>,
                     ghost l: Loop, ghost sent: seq<seq<AuditResult>>, ghost evs: seq<Event>, ghost done: seq<Request>)
      returns (ghost evs': seq<Event>)
      requires Valid() && !Doomed(l, q, ids) && Audited(l, Model(), Lib(), sent, outbox, evs, done, ids)
      modifies `outbox, `history, opa.cache
      ensures Valid() && Audited(l, Model(), Lib(), sent, outbox, evs', done + [q], ids)
    {
      ghost var l', sent' := Model(), outbox;
      StillNotDoomed(l, l', q, ids);
      ghost var ev := AuditAndSend(q, ids);
      AuditOneMore(l, l', Lib(), sent, sent', evs, done, ids, ev);
      evs' := evs + [ev];
    }

    method OnEntitiesSync(qs: seq<Request>) returns (ghost evs: seq<Event>)
      requires Valid() && forall i :: 0 <= i < |qs| ==> !Doomed(Model(), qs[i], [])
      modifies this, opa.cache
      ensures Valid() && entitiesSynced
      ensures var synced := Next(old(Model()), Lib(), EntitiesSync);
        Playable(synced, Lib(), evs) && Model() == Played(synced, Lib(), evs)
      ensures AuditsOf(evs, qs, [])
      ensures Appended(old(outbox), outbox, evs)
    {
      entitiesSynced := true;
      evs := AuditAll(qs, []);
    }
  }

  /**
   The same resource changed twice with nothing between: whatever order Go visits the constraints in,
   the second change sends nothing.
   */
  method ChangeTwice(a: Auditor, q: Request)
    requires a.Valid() && a.entitiesSynced && !Doomed(a.Model(), q, [])
    modifies a, a.opa.cache
    ensures a.Valid() && |a.outbox| == |old(a.outbox)| + 2 && a.outbox[..|old(a.outbox)|] == old(a.outbox)
    ensures a.outbox[|a.outbox| - 1] == []
  {
    ghost var l := a.Model();
    ghost var first := a.OnEntityChange(q);
    StillNotDoomed(l, a.Model(), q, []);
    ghost var second := a.OnEntityChange(q);
    AuditIsExact(l.engine.policies, a.Lib().eval, q, [], first.order, first.results);
    AuditIsExact(l.engine.policies, a.Lib().eval, q, [], second.order, second.results);
    if a.outbox[|a.outbox| - 1] != [] {
      SomeMember(a.outbox[|a.outbox| - 1]);
    }
  }
}
