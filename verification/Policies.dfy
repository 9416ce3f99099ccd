/**
 Constraints and templates of auditor/opa-auditor/opa-auditor.go: how one delivered constraint
 changes the two maps, and what the template usage counts mean.
 */
module Policies {
  /** JSON values, such as constraint parameters, are opaque here. */
  type Json = string

  datatype Match = Match(namespaces: seq<string>, kinds: seq<string>, labels: seq<map<string, string>>)

  /** A constraint as the gateway delivers it. `deleted` is a non-nil DeletedAt. */
  datatype Delivery = Delivery(
    id: string, templateId: string, name: string, templateName: string,
    parameters: Json, match_: Match, code: string, description: string, howToSolve: string,
    updatedAt: int, categoryId: string, severity: string,
    controls: seq<string>, standards: seq<string>, deleted: bool)

  datatype Constraint = Constraint(
    id: string, templateId: string, name: string, parameters: Json, match_: Match,
    updatedAt: int, categoryId: string, severity: string, controls: seq<string>, standards: seq<string>)

  /** The parsed policy of a template is determined by its code. */
  datatype Template = Template(
    id: string, name: string, code: string, description: string, howToSolve: string, usage: int)

  datatype Policies = Policies(templates: map<string, Template>, constraints: map<string, Constraint>)

  /** `Crash` is a nil dereference, which ends the process. */
  datatype Outcome = Unchanged | Updated | ParseError | Removed | Crash

  datatype Step = Step(policies: Policies, outcome: Outcome)

  /** Whether the policy library accepts a piece of code. */
  type Parser = string -> bool

  function Stored(d: Delivery): Constraint {
    Constraint(d.id, d.templateId, d.name, d.parameters, d.match_, d.updatedAt, d.categoryId, d.severity,
               d.controls, d.standards)
  }

  function TemplateOf(d: Delivery, usage: int): Template {
    Template(d.templateId, d.templateName, d.code, d.description, d.howToSolve, usage)
  }

  /** The constraint is stored before its code is parsed. */
  function Update(ps: Policies, d: Delivery, parses: Parser): Step {
    var stored := ps.constraints[d.id := Stored(d)];
    if d.id !in ps.constraints then
      if d.templateId in ps.templates then
        var t := ps.templates[d.templateId];
        Step(Policies(ps.templates[d.templateId := t.(usage := t.usage + 1)], stored), Updated)
      else if parses(d.code) then
        Step(Policies(ps.templates[d.templateId := TemplateOf(d, 1)], stored), Updated)
      else
        Step(Policies(ps.templates, stored), ParseError)
    else if d.updatedAt > ps.constraints[d.id].updatedAt then
      if !parses(d.code) then
        Step(Policies(ps.templates, stored), ParseError)
      else if d.templateId in ps.templates then
        Step(Policies(ps.templates[d.templateId := TemplateOf(d, ps.templates[d.templateId].usage)], stored), Updated)
      else
        Step(Policies(ps.templates, stored), Crash)
    else
      Step(ps, Unchanged)
  }

  function Remove(ps: Policies, id: string): Step {
    if id !in ps.constraints then Step(ps, Unchanged)
    else
      var tId := ps.constraints[id].templateId;
      if tId !in ps.templates then Step(ps, Crash)
      else
        var t := ps.templates[tId];
        var templates := if t.usage > 1 then ps.templates[tId := t.(usage := t.usage - 1)] else ps.templates - {tId};
        Step(Policies(templates, ps.constraints - {id}), Removed)
  }

  function Deliver(ps: Policies, d: Delivery, parses: Parser): Step {
    if d.deleted then Remove(ps, d.id) else Update(ps, d, parses)
  }

  // ---------------------------------------------------------------- what a delivery does

  /** The delivery is of a constraint not yet stored, or newer than the stored one. */
  predicate Fresh(ps: Policies, d: Delivery) {
    d.id !in ps.constraints || d.updatedAt > ps.constraints[d.id].updatedAt
  }

  /** An update that is taken in: new with a known template or code that parses, or newer with both. */
  predicate Accepted(ps: Policies, d: Delivery, parses: Parser) {
    && !d.deleted && Fresh(ps, d)
    && if d.id in ps.constraints then parses(d.code) && d.templateId in ps.templates
       else parses(d.code) || d.templateId in ps.templates
  }

  /** An update whose code had to be parsed and does not. */
  predicate Refused(ps: Policies, d: Delivery, parses: Parser) {
    !d.deleted && Fresh(ps, d) && !parses(d.code) && (d.id in ps.constraints || d.templateId !in ps.templates)
  }

  /** A deletion that finds its constraint and its template. */
  predicate Deletes(ps: Policies, d: Delivery) {
    d.deleted && d.id in ps.constraints && ps.constraints[d.id].templateId in ps.templates
  }

  /** A stored constraint whose template is missing is deleted, or replaced by a newer version that parses. */
  predicate Derails(ps: Policies, d: Delivery, parses: Parser) {
    && d.id in ps.constraints
    && if d.deleted then ps.constraints[d.id].templateId !in ps.templates
       else Fresh(ps, d) && parses(d.code) && d.templateId !in ps.templates
  }

  /** The outcome of a delivery, told from the policies it meets. */
  lemma OutcomeIs(ps: Policies, d: Delivery, parses: Parser)
    ensures var outcome := Deliver(ps, d, parses).outcome;
      && (outcome == Updated <==> Accepted(ps, d, parses))
      && (outcome == ParseError <==> Refused(ps, d, parses))
      && (outcome == Removed <==> Deletes(ps, d))
      && (outcome == Crash <==> Derails(ps, d, parses))
  {
  }

  /** A fresh update is stored field by field, parsed or not; no other constraint changes. */
  lemma UpdateStores(ps: Policies, d: Delivery, parses: Parser)
    requires !d.deleted
    ensures var cs := Deliver(ps, d, parses).policies.constraints;
      && (forall id :: id != d.id ==> (id in cs <==> id in ps.constraints))
      && (forall id :: id != d.id && id in cs ==> cs[id] == ps.constraints[id])
      && d.id in cs
      && (!Fresh(ps, d) ==> cs[d.id] == ps.constraints[d.id])
      && (Fresh(ps, d) ==> var c := cs[d.id];
            && c.id == d.id && c.templateId == d.templateId && c.name == d.name && c.parameters == d.parameters
            && c.match_ == d.match_ && c.updatedAt == d.updatedAt && c.categoryId == d.categoryId
            && c.severity == d.severity && c.controls == d.controls && c.standards == d.standards)
  {
  }

  /**
   An accepted update leaves its template in place, with one more user if the constraint is new. The
   text and code are those of the update, except that a new constraint takes a known template as it is.
   */
  lemma UpdateShapesTemplate(ps: Policies, d: Delivery, parses: Parser)
    requires !d.deleted
    ensures var ts := Deliver(ps, d, parses).policies.templates; var tId := d.templateId;
      && (forall id :: id != tId ==> (id in ts <==> id in ps.templates) && (id in ts ==> ts[id] == ps.templates[id]))
      && (!Accepted(ps, d, parses) ==> ts == ps.templates)
      && (Accepted(ps, d, parses) ==> tId in ts)
      && (Accepted(ps, d, parses) && d.id !in ps.constraints && tId in ps.templates ==>
            ts[tId] == ps.templates[tId].(usage := ps.templates[tId].usage + 1))
      && (Accepted(ps, d, parses) && (d.id in ps.constraints || tId !in ps.templates) ==>
            && ts[tId].id == tId && ts[tId].name == d.templateName && ts[tId].code == d.code && parses(d.code)
            && ts[tId].description == d.description && ts[tId].howToSolve == d.howToSolve
            && ts[tId].usage == if tId in ps.templates then ps.templates[tId].usage else 1)
  {
  }

  /** A deletion takes out its constraint and one use of its template, and changes nothing else. */
  lemma DeleteTakesOut(ps: Policies, d: Delivery, parses: Parser)
    requires d.deleted && !Derails(ps, d, parses)
    ensures var ps' := Deliver(ps, d, parses).policies;
      && d.id !in ps'.constraints
      && (forall id :: id != d.id ==> (id in ps'.constraints <==> id in ps.constraints))
      && (forall id :: id in ps'.constraints ==> ps'.constraints[id] == ps.constraints[id])
      && (forall id :: id in ps.templates ==>
            var used := d.id in ps.constraints && ps.constraints[d.id].templateId == id;
            && (id in ps'.templates <==> !used || ps.templates[id].usage > 1)
            && (id in ps'.templates ==>
                  ps'.templates[id] == if used then ps.templates[id].(usage := ps.templates[id].usage - 1)
                                       else ps.templates[id]))
      && ps'.templates.Keys <= ps.templates.Keys
  {
  }

  /** The policies after some deliveries, in order. */
  function DeliverAll(ps: Policies, ds: seq<Delivery>, parses: Parser): Policies {
    if ds == [] then ps else Deliver(DeliverAll(ps, ds[..|ds| - 1], parses), ds[|ds| - 1], parses).policies
  }

  /** Every template is filed under its id and has code that the policy library accepts. */
  ghost predicate Compiled(ps: Policies, parses: Parser) {
    forall tId :: tId in ps.templates ==> ps.templates[tId].id == tId && parses(ps.templates[tId].code)
  }

  lemma DeliverCompiles(ps: Policies, d: Delivery, parses: Parser)
    requires Compiled(ps, parses)
    ensures Compiled(Deliver(ps, d, parses).policies, parses)
  {
    if d.deleted {
      if !Derails(ps, d, parses) {
        DeleteTakesOut(ps, d, parses);
      }
    } else {
      UpdateShapesTemplate(ps, d, parses);
    }
  }

  /** Whatever is delivered, refused code never becomes a template. */
  lemma {:induction false} TemplatesAlwaysParse(ds: seq<Delivery>, parses: Parser)
    ensures Compiled(DeliverAll(Policies(map[], map[]), ds, parses), parses)
  {
    if ds != [] {
      TemplatesAlwaysParse(ds[..|ds| - 1], parses);
      DeliverCompiles(DeliverAll(Policies(map[], map[]), ds[..|ds| - 1], parses), ds[|ds| - 1], parses);
    }
  }

  // ---------------------------------------------------------------- usage counts

  /** The stored constraints that name a template. */
  function Users(constraints: map<string, Constraint>, tId: string): set<string> {
    set id | id in constraints && constraints[id].templateId == tId
  }

  ghost predicate CountFits(ps: Policies, tId: string) {
    var n := |Users(ps.constraints, tId)|;
    if tId in ps.templates then n > 0 && ps.templates[tId].usage == n else n == 0
  }

  /** A template exists exactly while constraints name it, and its usage count is their number. */
  ghost predicate Tallied(ps: Policies) {
    forall tId :: CountFits(ps, tId)
  }

  /**
   What a delivery must satisfy: a new constraint's template is known or its code parses, and a newer
   version of a constraint keeps its template. Deletions and stale deliveries always do.
   */
  predicate Admissible(ps: Policies, d: Delivery, parses: Parser) {
    if d.deleted then true
    else if d.id !in ps.constraints then d.templateId in ps.templates || parses(d.code)
    else d.updatedAt > ps.constraints[d.id].updatedAt ==> d.templateId == ps.constraints[d.id].templateId
  }

  lemma UsersStored(constraints: map<string, Constraint>, c: Constraint, tId: string)
    ensures var users, users' := Users(constraints, tId), Users(constraints[c.id := c], tId);
      if c.templateId == tId then users' == users + {c.id} else users' == users - {c.id}
  {
  }

  lemma UsersRemoved(constraints: map<string, Constraint>, id: string, tId: string)
    ensures Users(constraints - {id}, tId) == Users(constraints, tId) - {id}
  {
  }

  /** A constraint always finds its template. */
  lemma TalliedFinds(ps: Policies, id: string)
    requires Tallied(ps) && id in ps.constraints
    ensures ps.constraints[id].templateId in ps.templates
  {
    var tId := ps.constraints[id].templateId;
    assert CountFits(ps, tId);
    assert id in Users(ps.constraints, tId);
  }

  lemma RemoveCounts(ps: Policies, id: string)
    requires Tallied(ps)
    ensures Remove(ps, id).outcome != Crash && Tallied(Remove(ps, id).policies)
  {
    if id in ps.constraints {
      TalliedFinds(ps, id);
      var ps' := Remove(ps, id).policies;
      forall tId ensures CountFits(ps', tId) {
        assert CountFits(ps, tId);
        UsersRemoved(ps.constraints, id, tId);
        if tId == ps.constraints[id].templateId {
          assert id in Users(ps.constraints, tId);
        } else {
          assert Users(ps.constraints, tId) - {id} == Users(ps.constraints, tId);
        }
      }
    }
  }

  /** A new constraint adds one user to its template and none to the others. */
  lemma NewCounts(ps: Policies, d: Delivery, parses: Parser, tId: string)
    requires Tallied(ps) && d.id !in ps.constraints
    ensures var r := Update(ps, d, parses);
      r.outcome != Crash && (CountFits(r.policies, tId) <==> r.outcome != ParseError || tId != d.templateId)
  {
    assert CountFits(ps, tId);
    UsersStored(ps.constraints, Stored(d), tId);
    assert d.id !in Users(ps.constraints, tId);
    assert Users(ps.constraints, tId) - {d.id} == Users(ps.constraints, tId);
  }

  /** A newer version that keeps its template keeps every count. */
  lemma NewerKeepsCounts(ps: Policies, d: Delivery, parses: Parser, tId: string)
    requires Tallied(ps) && d.id in ps.constraints && d.updatedAt > ps.constraints[d.id].updatedAt
    requires d.templateId == ps.constraints[d.id].templateId
    ensures Update(ps, d, parses).outcome != Crash && CountFits(Update(ps, d, parses).policies, tId)
  {
    TalliedFinds(ps, d.id);
    assert CountFits(ps, tId);
    UsersStored(ps.constraints, Stored(d), tId);
    var users := Users(ps.constraints, tId);
    assert d.id in users <==> d.templateId == tId;
    assert users == if d.templateId == tId then users + {d.id} else users - {d.id};
  }

  /** One that changes its template leaves the old template with a user too few for its count. */
  lemma MovedBreaksCount(ps: Policies, d: Delivery, parses: Parser)
    requires Tallied(ps) && d.id in ps.constraints && d.updatedAt > ps.constraints[d.id].updatedAt
    requires d.templateId != ps.constraints[d.id].templateId
    ensures !CountFits(Update(ps, d, parses).policies, ps.constraints[d.id].templateId)
  {
    var was := ps.constraints[d.id].templateId;
    TalliedFinds(ps, d.id);
    assert CountFits(ps, was);
    UsersStored(ps.constraints, Stored(d), was);
    assert d.id in Users(ps.constraints, was);
  }

  /** Exactly the admissible deliveries keep the usage counts right without crashing. */
  lemma CountsKeptIffAdmissible(ps: Policies, d: Delivery, parses: Parser)
    requires Tallied(ps)
    ensures var r := Deliver(ps, d, parses);
      (r.outcome != Crash && Tallied(r.policies)) <==> Admissible(ps, d, parses)
  {
    var r := Deliver(ps, d, parses);
    if d.deleted {
      RemoveCounts(ps, d.id);
    } else if d.id !in ps.constraints {
      forall tId ensures CountFits(r.policies, tId) <==> r.outcome != ParseError || tId != d.templateId {
        NewCounts(ps, d, parses, tId);
      }
      assert r.outcome == ParseError ==> !CountFits(r.policies, d.templateId);
    } else if d.updatedAt > ps.constraints[d.id].updatedAt {
      var was := ps.constraints[d.id].templateId;
      if d.templateId == was {
        forall tId ensures CountFits(r.policies, tId) {
          NewerKeepsCounts(ps, d, parses, tId);
        }
        NewerKeepsCounts(ps, d, parses, was);
      } else {
        MovedBreaksCount(ps, d, parses);
      }
    }
  }
}
