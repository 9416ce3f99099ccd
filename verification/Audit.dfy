/** Matching and auditing one resource: Audit, getConstraints and matchEntity of opa-auditor.go. */
module Audit {
  import opened Basics
  import opened EntityKeys
  import opened Parents
  import opened Policies
  import opened ResultsCache

  datatype Resource = Resource(entity: Entity, labels: map<string, string>, ownerReferences: nat, spec: Json)

  /** What the policy library answers: compliance, a violation with an optional message, or another error. */
  datatype Verdict = Complies | Violates(msg: Option<string>) | Fails

  /** Policy evaluation: code, resource and parameters. */
  type Evaluator = (string, Json, Json) -> Verdict

  datatype AuditResult = AuditResult(
    templateId: string, constraintId: string, categoryId: string, severity: string,
    standards: seq<string>, controls: seq<string>, description: string, howToSolve: string,
    entityName: Option<string>, entityKind: Option<string>, namespaceName: Option<string>,
    parentName: string, parentKind: string, entitySpec: Json, trigger: string,
    status: Status, msg: Option<string>)

  // ---------------------------------------------------------------- matching

  predicate LabelMatches(labels: map<string, string>, wanted: map<string, string>, key: string)
    requires key in wanted
  {
    key in labels && (wanted[key] == "*" || wanted[key] == labels[key])
  }

  ghost predicate AnyLabelMatches(labels: map<string, string>, wanted: map<string, string>) {
    exists key :: key in wanted && LabelMatches(labels, wanted, key)
  }

  /** Any listed kind, any listed namespace, and any pair of any label set; an empty list matches everything. */
  ghost predicate Matches(r: Resource, m: Match) {
    && (m.kinds == [] || r.entity.kind in m.kinds)
    && (m.namespaces == [] || r.entity.namespace in m.namespaces)
    && (m.labels == [] || exists i :: 0 <= i < |m.labels| && AnyLabelMatches(r.labels, m.labels[i]))
  }

  method Among(x: string, xs: seq<string>) returns (found: bool)
    ensures found <==> x in xs
  {
    for i := 0 to |xs|
      invariant x !in xs[..i]
    {
      if xs[i] == x {
        return true;
      }
    }
    return false;
  }

  /** Visits the wanted pairs in any order. */
  method MatchLabels(labels: map<string, string>, wanted: map<string, string>) returns (found: bool)
    ensures found <==> AnyLabelMatches(labels, wanted)
  {
    var todo := wanted.Keys;
    while todo != {}
      invariant todo <= wanted.Keys
      invariant forall key :: key in wanted && key !in todo ==> !LabelMatches(labels, wanted, key)
      decreases todo
    {
      var key :| key in todo;
      if key in labels && (wanted[key] == "*" || wanted[key] == labels[key]) {
        assert LabelMatches(labels, wanted, key);
        return true;
      }
      todo := todo - {key};
    }
    return false;
  }

  method MatchEntity(r: Resource, m: Match) returns (matches: bool)
    ensures matches <==> Matches(r, m)
  {
    var matchKind := m.kinds == [];
    if !matchKind {
      matchKind := Among(r.entity.kind, m.kinds);
    }
    var matchNamespace := m.namespaces == [];
    if !matchNamespace {
      matchNamespace := Among(r.entity.namespace, m.namespaces);
    }
    var matchLabel := m.labels == [];
    var i := 0;
    while i < |m.labels| && !matchLabel
      invariant 0 <= i <= |m.labels|
      invariant !matchLabel ==> m.labels != [] && forall j :: 0 <= j < i ==> !AnyLabelMatches(r.labels, m.labels[j])
      invariant matchLabel && m.labels != [] ==> i > 0 && AnyLabelMatches(r.labels, m.labels[i - 1])
    {
      matchLabel := MatchLabels(r.labels, m.labels[i]);
      i := i + 1;
    }
    return matchKind && matchNamespace && matchLabel;
  }

  // ---------------------------------------------------------------- selection

  function Selected(constraints: map<string, Constraint>, ids: seq<string>): map<string, Constraint> {
    map id | id in constraints && (ids == [] || id in ids) :: constraints[id]
  }

  method GetConstraints(ids: seq<string>, cached: map<string, Constraint>) returns (chosen: map<string, Constraint>)
    ensures chosen == Selected(cached, ids)
  {
    if ids == [] {
      return cached;
    }
    chosen := map[];
    for i := 0 to |ids|
      invariant chosen == map id | id in cached && id in ids[..i] :: cached[id]
    {
      if ids[i] in cached {
        chosen := chosen[ids[i] := cached[ids[i]]];
      }
    }
    assert ids[..|ids|] == ids;
  }

  // ---------------------------------------------------------------- auditing

  /** An owned resource, or a Pod or ReplicaSet with a known parent, is audited through its parent. */
  predicate Exempt(r: Resource, parent: Parent) {
    r.ownerReferences > 0 || (parent.Parent? && (r.entity.kind == "Pod" || r.entity.kind == "ReplicaSet"))
  }

  function StatusOf(v: Verdict): Status {
    match v
    case Complies => Compliant
    case Violates(_) => Violating
    case Fails => Unset
  }

  function Message(v: Verdict, c: Constraint, e: Entity): Option<string> {
    if v.Violates? then Some((if v.msg.Some? then v.msg.value else c.name) + " in " + e.kind + " " + e.name) else None
  }

  /** The result for one matching constraint. */
  function ResultFor(t: Template, c: Constraint, eval: Evaluator, r: Resource, parent: Parent, trigger: string)
    : AuditResult
  {
    var v := eval(t.code, r.spec, c.parameters);
    AuditResult(
      c.templateId, c.id, c.categoryId, c.severity, c.standards, c.controls, t.description, t.howToSolve,
      Some(r.entity.name), Some(r.entity.kind), Some(r.entity.namespace),
      if parent.Parent? then Last(parent).name else "",
      if parent.Parent? then Last(parent).kind else "",
      r.spec, trigger, StatusOf(v), Message(v, c, r.entity))
  }

  /** The constraints an audit applies. */
  ghost function Picked(ps: Policies, r: Resource, ids: seq<string>): set<string> {
    set id | id in Selected(ps.constraints, ids) && Matches(r, ps.constraints[id].match_)
  }

  /** What the audit of a resource is about, besides the policies. */
  datatype Request = Request(r: Resource, parent: Parent, trigger: string)

  ghost predicate ResultAt(ps: Policies, eval: Evaluator, q: Request, id: string, result: AuditResult) {
    && id in ps.constraints && ps.constraints[id].templateId in ps.templates
    && var c := ps.constraints[id];
       result == ResultFor(ps.templates[c.templateId], c, eval, q.r, q.parent, q.trigger)
  }

  /** results[i] is the result for constraint order[i], and order lists each picked constraint once. */
  ghost predicate IsAudit(ps: Policies, eval: Evaluator, q: Request, ids: seq<string>,
                          order: seq<string>, results: seq<AuditResult>)
  {
    && |results| == |order| && Distinct(order)
    && Elems(order) == (if Exempt(q.r, q.parent) then {} else Picked(ps, q.r, ids))
    && forall i :: 0 <= i < |order| ==> ResultAt(ps, eval, q, order[i], results[i])
  }

  /** The constraints whose evaluation failed, in the order of the results. */
  function Unevaluated(results: seq<AuditResult>): seq<string> {
    if results == [] then []
    else
      var last := results[|results| - 1];
      Unevaluated(results[..|results| - 1]) + if last.status.Unset? then [last.constraintId] else []
  }

  /** Every selected matching constraint finds its template; otherwise the audit dereferences nil. */
  ghost predicate Auditable(ps: Policies, r: Resource, ids: seq<string>) {
    forall id :: id in Picked(ps, r, ids) ==> ps.constraints[id].templateId in ps.templates
  }

  /** Constraints are filed under their own id. */
  ghost predicate Keyed(ps: Policies) {
    forall id :: id in ps.constraints ==> ps.constraints[id].id == id
  }

  lemma DeliverKeeps(ps: Policies, d: Delivery, parses: Parser)
    requires Keyed(ps)
    ensures Keyed(Deliver(ps, d, parses).policies)
  {
  }

  /** Exactly one result per picked constraint: whatever the order, the results are these and no others. */
  lemma AuditIsExact(ps: Policies, eval: Evaluator, q: Request, ids: seq<string>,
                     order: seq<string>, results: seq<AuditResult>)
    requires Keyed(ps) && IsAudit(ps, eval, q, ids, order, results)
    ensures forall x :: x in results <==>
      !Exempt(q.r, q.parent) && x.constraintId in Picked(ps, q.r, ids) && ResultAt(ps, eval, q, x.constraintId, x)
    ensures forall i, j :: 0 <= i < j < |results| ==> results[i].constraintId != results[j].constraintId
  {
    forall i | 0 <= i < |results| ensures results[i].constraintId == order[i] {
      assert ResultAt(ps, eval, q, order[i], results[i]);
    }
    forall x: AuditResult |
      !Exempt(q.r, q.parent) && x.constraintId in Picked(ps, q.r, ids) && ResultAt(ps, eval, q, x.constraintId, x)
      ensures x in results
    {
      assert x.constraintId in Elems(order);
      var i :| 0 <= i < |order| && order[i] == x.constraintId;
      assert ResultAt(ps, eval, q, order[i], results[i]);
    }
    forall x | x in results ensures x.constraintId in Elems(order) && ResultAt(ps, eval, q, x.constraintId, x) {
      var i :| 0 <= i < |results| && results[i] == x;
      assert order[i] in Elems(order) && ResultAt(ps, eval, q, order[i], results[i]);
    }
  }

  /** An audit for some ids yields exactly the results of the full audit that belong to those ids. */
  lemma AuditForIdsIsFiltered(ps: Policies, eval: Evaluator, q: Request, ids: seq<string>,
                              order: seq<string>, results: seq<AuditResult>,
                              fullOrder: seq<string>, full: seq<AuditResult>)
    requires Keyed(ps) && ids != []
    requires IsAudit(ps, eval, q, ids, order, results)
    requires IsAudit(ps, eval, q, [], fullOrder, full)
    ensures forall x :: x in results <==> x in full && x.constraintId in ids
  {
    AuditIsExact(ps, eval, q, ids, order, results);
    AuditIsExact(ps, eval, q, [], fullOrder, full);
    assert forall id :: id in Picked(ps, q.r, ids) <==> id in Picked(ps, q.r, []) && id in ids;
  }

  /** With the usage counts right, no audit looks up a missing template. */
  lemma TalliedIsAuditable(ps: Policies, r: Resource, ids: seq<string>)
    requires Tallied(ps)
    ensures Auditable(ps, r, ids)
  {
    forall id | id in Picked(ps, r, ids) ensures ps.constraints[id].templateId in ps.templates {
      TalliedFinds(ps, id);
    }
  }

  // ---------------------------------------------------------------- what an audit says

  /**
   Which constraints have a result, in plain terms: the resource has no owner and is not a Pod or ReplicaSet
   with a known parent, and the constraint is stored, asked for, and lists the kind, the namespace and
   some label of the resource wherever it lists any.
   */
  lemma AuditedIff(ps: Policies, eval: Evaluator, q: Request, ids: seq<string>,
                   order: seq<string>, results: seq<AuditResult>, id: string)
    requires Keyed(ps) && IsAudit(ps, eval, q, ids, order, results)
    ensures (exists x :: x in results && x.constraintId == id) <==>
      && q.r.ownerReferences == 0
      && !(q.parent.Parent? && (q.r.entity.kind == "Pod" || q.r.entity.kind == "ReplicaSet"))
      && id in ps.constraints && (ids == [] || id in ids)
      && var m := ps.constraints[id].match_;
         && (m.kinds == [] || q.r.entity.kind in m.kinds)
         && (m.namespaces == [] || q.r.entity.namespace in m.namespaces)
         && (m.labels == [] ||
             exists i, key ::
               && 0 <= i < |m.labels| && key in m.labels[i] && key in q.r.labels
               && (m.labels[i][key] == "*" || m.labels[i][key] == q.r.labels[key]))
  {
    AuditIsExact(ps, eval, q, ids, order, results);
    if !Exempt(q.r, q.parent) && id in Picked(ps, q.r, ids) {
      var i :| 0 <= i < |order| && order[i] == id;
      assert ResultAt(ps, eval, q, order[i], results[i]) && results[i] in results;
    }
    if id in ps.constraints {
      LabelsMatch(q.r.labels, ps.constraints[id].match_.labels);
    }
  }

  lemma LabelsMatch(labels: map<string, string>, wanted: seq<map<string, string>>)
    ensures (exists i :: 0 <= i < |wanted| && AnyLabelMatches(labels, wanted[i])) <==>
      exists i, key ::
        && 0 <= i < |wanted| && key in wanted[i] && key in labels
        && (wanted[i][key] == "*" || wanted[i][key] == labels[key])
  {
    if i, key :|
      && 0 <= i < |wanted| && key in wanted[i] && key in labels
      && (wanted[i][key] == "*" || wanted[i][key] == labels[key])
    {
      assert LabelMatches(labels, wanted[i], key);
    }
  }

  /** What each result says, field by field, from its constraint, its template, the resource and the verdict. */
  lemma AuditSays(ps: Policies, eval: Evaluator, q: Request, ids: seq<string>,
                  order: seq<string>, results: seq<AuditResult>, x: AuditResult)
    requires Keyed(ps) && IsAudit(ps, eval, q, ids, order, results) && x in results
    ensures x.constraintId in ps.constraints && x.templateId in ps.templates
    ensures var c := ps.constraints[x.constraintId]; var t := ps.templates[x.templateId];
      var v := eval(t.code, q.r.spec, c.parameters); var place := " in " + q.r.entity.kind + " " + q.r.entity.name;
      && (x.status == Violating <==> v.Violates?)
      && (x.status == Compliant <==> v.Complies?)
      && (x.status == Unset <==> v.Fails?)
      && (x.msg.Some? <==> v.Violates?)
      && (v.Violates? && v.msg.Some? ==> x.msg.value == v.msg.value + place)
      && (v.Violates? && v.msg.None? ==> x.msg.value == c.name + place)
      && x.templateId == c.templateId && x.categoryId == c.categoryId && x.severity == c.severity
      && x.standards == c.standards && x.controls == c.controls
      && x.description == t.description && x.howToSolve == t.howToSolve
      && x.namespaceName == Some(q.r.entity.namespace) && x.entityKind == Some(q.r.entity.kind)
      && x.entityName == Some(q.r.entity.name) && x.entitySpec == q.r.spec && x.trigger == q.trigger
    ensures q.parent.NoParent? ==> x.parentName == "" && x.parentKind == ""
    ensures q.parent.Parent? ==> var root := Chain(q.parent)[|Chain(q.parent)| - 1];
      root.Parent? && x.parentName == root.name && x.parentKind == root.kind
  {
    var i :| 0 <= i < |results| && results[i] == x;
    assert ResultAt(ps, eval, q, order[i], results[i]);
    var c := ps.constraints[order[i]];
    var v, e := eval(ps.templates[c.templateId].code, q.r.spec, c.parameters), q.r.entity;
    if v.Violates? {
      var title := if v.msg.Some? then v.msg.value else c.name;
      assert title + " in " + e.kind + " " + e.name == title + (" in " + e.kind + " " + e.name);
    }
    if q.parent.Parent? {
      LastOfChain(q.parent);
    }
  }

  /** The constraints reported as failed are those of the results without a status, each once. */
  lemma {:induction false} UnevaluatedAre(results: seq<AuditResult>)
    requires forall i, j :: 0 <= i < j < |results| ==> results[i].constraintId != results[j].constraintId
    ensures forall id :: id in Unevaluated(results) <==>
      exists x :: x in results && x.constraintId == id && x.status == Unset
    ensures Distinct(Unevaluated(results))
  {
    if results != [] {
      var rest, last := results[..|results| - 1], results[|results| - 1];
      assert results == rest + [last];
      UnevaluatedAre(rest);
      forall x | x in rest ensures x.constraintId != last.constraintId {
        var i :| 0 <= i < |rest| && rest[i] == x;
        assert results[i] == x;
      }
      assert Unevaluated(results) == Unevaluated(rest) + if last.status.Unset? then [last.constraintId] else [];
      assert last.constraintId !in Unevaluated(rest);
    }
  }

  /** An audit reports as failed exactly the constraints it picked whose policy could not be evaluated. */
  lemma FailedEvaluations(ps: Policies, eval: Evaluator, q: Request, ids: seq<string>,
                          order: seq<string>, results: seq<AuditResult>)
    requires Keyed(ps) && IsAudit(ps, eval, q, ids, order, results)
    ensures Distinct(Unevaluated(results))
    ensures forall id :: id in Unevaluated(results) ==> exists x :: x in results && x.constraintId == id
    ensures forall x :: x in results && x.constraintId in ps.constraints && x.templateId in ps.templates ==>
      (x.constraintId in Unevaluated(results) <==>
         eval(ps.templates[x.templateId].code, q.r.spec, ps.constraints[x.constraintId].parameters) == Fails)
  {
    AuditIsExact(ps, eval, q, ids, order, results);
    UnevaluatedAre(results);
    forall x | x in results
      ensures x.constraintId in ps.constraints && x.templateId in ps.templates
      ensures ps.constraints[x.constraintId].templateId == x.templateId
      ensures x.status == Unset <==>
        eval(ps.templates[x.templateId].code, q.r.spec, ps.constraints[x.constraintId].parameters) == Fails
    {
      AuditSays(ps, eval, q, ids, order, results, x);
    }
  }
}
