/** `OpaAuditor` of auditor/opa-auditor/opa-auditor.go: policies and result cache behind one object. */
module OpaEngine {
  import opened Basics
  import opened EntityKeys
  import opened Parents
  import opened Policies
  import opened ResultsCache
  import opened Audit

  datatype Engine = Engine(policies: Policies, cache: Cache)

  /** The entity a result is about; nil fields count as empty. */
  function EntityOf(x: AuditResult): Entity {
    Entity(if x.namespaceName.Some? then x.namespaceName.value else "",
           if x.entityKind.Some? then x.entityKind.value else "",
           if x.entityName.Some? then x.entityName.value else "")
  }

  /** The cache after the statuses of some results are recorded, in order. */
  function Recorded(c: Cache, results: seq<AuditResult>): Cache {
    if results == [] then c
    else
      var x := results[|results| - 1];
      WithStatus(Recorded(c, results[..|results| - 1]), x.constraintId, Key(EntityOf(x)), x.status)
  }

  /** Whether a status for (constraint, entity) is news to the cache. */
  predicate IsNews(c: Cache, constraint: string, e: Entity, status: Status) {
    Lookup(c, constraint, Key(e)) != Some(status)
  }

  // ---------------------------------------------------------------- batches of deliveries

  /** A batch in progress: what it has updated, what failed to parse, whether it crashed. */
  datatype Batch = Batch(engine: Engine, updated: seq<string>, failed: set<string>, crashed: bool)

  function Received(b: Batch, d: Delivery, parses: Parser): Batch {
    if b.crashed then b
    else
      var step := Deliver(b.engine.policies, d, parses);
      match step.outcome
      case Unchanged => b.(engine := b.engine.(policies := step.policies))
      case ParseError => b.(engine := b.engine.(policies := step.policies), failed := b.failed + {d.id})
      case Removed => b.(engine := Engine(step.policies, WithoutConstraint(b.engine.cache, d.id)))
      case Updated =>
        b.(engine := Engine(step.policies, WithoutConstraint(b.engine.cache, d.id)), updated := b.updated + [d.id])
      case Crash => b.(engine := b.engine.(policies := step.policies), crashed := true)
  }

  function ReceivedAll(e: Engine, ds: seq<Delivery>, parses: Parser): Batch {
    if ds == [] then Batch(e, [], {}, false)
    else Received(ReceivedAll(e, ds[..|ds| - 1], parses), ds[|ds| - 1], parses)
  }

  /** Every delivery of the batch is admissible when its turn comes. */
  predicate AllAdmissible(e: Engine, ds: seq<Delivery>, parses: Parser) {
    ds == [] || (AllAdmissible(e, ds[..|ds| - 1], parses)
                 && Admissible(ReceivedAll(e, ds[..|ds| - 1], parses).engine.policies, ds[|ds| - 1], parses))
  }

  /** A batch of admissible deliveries keeps the usage counts right and does not crash. */
  lemma {:induction false} AdmissibleBatchIsSafe(e: Engine, ds: seq<Delivery>, parses: Parser)
    requires Tallied(e.policies) && AllAdmissible(e, ds, parses)
    ensures !ReceivedAll(e, ds, parses).crashed && Tallied(ReceivedAll(e, ds, parses).engine.policies)
  {
    if ds != [] {
      AdmissibleBatchIsSafe(e, ds[..|ds| - 1], parses);
      CountsKeptIffAdmissible(ReceivedAll(e, ds[..|ds| - 1], parses).engine.policies, ds[|ds| - 1], parses);
    }
  }

  class OpaAuditor {
    var templates: map<string, Template>
    var constraints: map<string, Constraint>
    const cache: AuditResultsCache
    const parses: Parser
    const eval: Evaluator

    ghost function Model(): Engine
      reads this, cache
    {
      Engine(Policies(templates, constraints), cache.cache)
    }

    constructor (parses: Parser, eval: Evaluator)
      ensures Model() == Engine(Policies(map[], map[]), map[]) && fresh(cache)
      ensures this.parses == parses && this.eval == eval
    {
      templates, constraints := map[], map[];
      cache := new AuditResultsCache();
      this.parses, this.eval := parses, eval;
    }

    method UpdateConstraint(d: Delivery) returns (outcome: Outcome)
      modifies this
      ensures Step(Policies(templates, constraints), outcome) ==
              Update(old(Policies(templates, constraints)), d, parses)
    {
      var found := d.id in constraints;
      if !found {
        constraints := constraints[d.id := Stored(d)];
        if d.templateId !in templates {
          if !parses(d.code) {
            return ParseError;
          }
          templates := templates[d.templateId := TemplateOf(d, 1)];
        } else {
          var t := templates[d.templateId];
          templates := templates[d.templateId := t.(usage := t.usage + 1)];
        }
        return Updated;
      } else if d.updatedAt > constraints[d.id].updatedAt {
        constraints := constraints[d.id := Stored(d)];
        if !parses(d.code) {
          return ParseError;
        }
        if d.templateId !in templates {
          return Crash;
        }
        templates := templates[d.templateId := TemplateOf(d, templates[d.templateId].usage)];
        return Updated;
      }
      return Unchanged;
    }

    method RemoveConstraint(id: string) returns (outcome: Outcome)
      modifies this, cache
      ensures Step(Policies(templates, constraints), outcome) == Remove(old(Policies(templates, constraints)), id)
      ensures cache.cache == if outcome.Removed? then WithoutConstraint(old(cache.cache), id) else old(cache.cache)
    {
      if id !in constraints {
        return Unchanged;
      }
      var tId := constraints[id].templateId;
      if tId !in templates {
        return Crash;
      }
      if templates[tId].usage > 1 {
        templates := templates[tId := templates[tId].(usage := templates[tId].usage - 1)];
      } else {
        templates := templates - {tId};
      }
      constraints := constraints - {id};
      cache.RemoveConstraint(id);
      return Removed;
    }

    /** Returns the ids updated and the ids that failed to parse; a crash cuts the batch short. */
    method UpdateConstraints(ds: seq<Delivery>) returns (updated: seq<string>, failed: set<string>, crashed: bool)
      modifies this, cache
      ensures Batch(Model(), updated, failed, crashed) == ReceivedAll(old(Model()), ds, parses)
    {
      updated, failed, crashed := [], {}, false;
      for i := 0 to |ds|
        invariant Batch(Model(), updated, failed, crashed) == ReceivedAll(old(Model()), ds[..i], parses)
      {
        assert ds[..i + 1][..i] == ds[..i];
        if !crashed {
          var d := ds[i];
          if d.deleted {
            var outcome := RemoveConstraint(d.id);
            crashed := outcome.Crash?;
          } else {
            var outcome := UpdateConstraint(d);
            match outcome
            case ParseError => failed := failed + {d.id};
            case Updated =>
              updated := updated + [d.id];
              cache.RemoveConstraint(d.id);
            case Crash => crashed := true;
            case _ =>
          }
        }
      }
      assert ds[..|ds|] == ds;
    }

    method RemoveResource(r: Resource)
      modifies cache
      ensures cache.cache == WithoutResource(old(cache.cache), Key(r.entity))
    {
      cache.RemoveResource(Key(r.entity));
    }

    /** Whether the status differs from the cached one, or none is cached. */
    method CheckResourceStatusWithConstraint(constraint: string, r: Resource, status: Status) returns (news: bool)
      ensures news <==> IsNews(cache.cache, constraint, r.entity, status)
    {
      var known := cache.Get(constraint, Key(r.entity));
      return known.None? || known.value != status;
    }

    method UpdateCache(results: seq<AuditResult>)
      modifies cache
      ensures cache.cache == Recorded(old(cache.cache), results)
    {
      for i := 0 to |results|
        invariant cache.cache == Recorded(old(cache.cache), results[..i])
      {
        assert results[..i + 1][..i] == results[..i];
        cache.Put(results[i].constraintId, Key(EntityOf(results[i])), results[i].status);
      }
      assert results[..|results|] == results;
    }

    /** Audits one resource, visiting the selected constraints in any order; collects the failed evaluations. */
    method Audit(q: Request, ids: seq<string>)
      returns (results: seq<AuditResult>, errs: seq<string>, ghost order: seq<string>)
      requires Exempt(q.r, q.parent) || Auditable(Model().policies, q.r, ids)
      ensures IsAudit(Model().policies, eval, q, ids, order, results)
      ensures errs == Unevaluated(results)
    {
      results, errs, order := [], [], [];
      if q.r.ownerReferences > 0 {
        return;
      }
      var chosen := GetConstraints(ids, constraints);
      if q.parent.Parent? && (q.r.entity.kind == "Pod" || q.r.entity.kind == "ReplicaSet") {
        return;
      }
      ghost var ps := Policies(templates, constraints);
      var todo := chosen.Keys;
      while todo != {}
        invariant todo <= chosen.Keys
        invariant |results| == |order| && Distinct(order)
        invariant forall id :: id in order <==> id in Picked(ps, q.r, ids) && id !in todo
        invariant forall i :: 0 <= i < |order| ==> ResultAt(ps, eval, q, order[i], results[i])
        invariant errs == Unevaluated(results)
        decreases todo
      {
        var id :| id in todo;
        var matches := MatchEntity(q.r, chosen[id].match_);
        todo := todo - {id};
        if matches {
          assert id in Picked(ps, q.r, ids);
          DistinctAppend(order, id);
          var result := Evaluate(q, chosen[id]);
          assert (results + [result])[..|results|] == results;
          results, order := results + [result], order + [id];
          if result.status.Unset? {
            errs := errs + [result.constraintId];
          }
        }
      }
    }

    method Evaluate(q: Request, c: Constraint) returns (result: AuditResult)
      requires c.templateId in templates
      ensures result == ResultFor(templates[c.templateId], c, eval, q.r, q.parent, q.trigger)
      ensures result.status == match eval(templates[c.templateId].code, q.r.spec, c.parameters)
                               case Complies => Compliant
                               case Violates(_) => Violating
                               case Fails => Unset
    {
      var t := templates[c.templateId];
      var parentName, parentKind := "", "";
      if q.parent.Parent? {
        var root := RootParent(q.parent);
        LastOfChain(q.parent);
        parentName, parentKind := root.name, root.kind;
      }
      var status, msg := Unset, None;
      match eval(t.code, q.r.spec, c.parameters) {
        case Complies => status := Compliant;
        case Violates(m) =>
          var title := if m.Some? then m.value else c.name;
          status, msg := Violating, Some(title + " in " + q.r.entity.kind + " " + q.r.entity.name);
        case Fails =>
      }
      result := AuditResult(
        c.templateId, c.id, c.categoryId, c.severity, c.standards, c.controls, t.description, t.howToSolve,
        Some(q.r.entity.name), Some(q.r.entity.kind), Some(q.r.entity.namespace),
        parentName, parentKind, q.r.spec, q.trigger, status, msg);
    }
  }
}
