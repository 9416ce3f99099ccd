/** The memoised owner-chain walk of kuber/utils.go. */
module Parents {
  import opened Basics
  import opened EntityKeys

  /** A chain of controllers, nearest first; a nil *ParentController is `NoParent`. */
  datatype Parent =
    | NoParent
    | Parent(kind: string, name: string, apiVersion: string, isWatched: bool, parent: Parent)

  datatype Owner = Owner(kind: string, name: string, apiVersion: string, controller: bool)

  datatype Object = Object(id: Entity, owners: seq<Owner>)

  /** A snapshot: which kinds are watched, all objects one may ask about, and which of them the listers hold. */
  datatype Cluster = Cluster(watched: set<string>, objects: map<Entity, Object>, listed: set<Entity>)

  datatype Result = Ok(parent: Parent) | MultipleOwners | OwnerNotFound | AncestorFailed(cause: Result)

  /** Objects are filed under their own identity, which has no colon in namespace or kind. */
  ghost predicate Filed(c: Cluster) {
    c.listed <= c.objects.Keys && forall e :: e in c.objects ==> c.objects[e].id == e && Plain(e)
  }

  /** The object of the snapshot under its identity; the listers need not hold it. */
  predicate InSnapshot(c: Cluster, o: Object) {
    o.id in c.objects && c.objects[o.id] == o
  }

  /** The owner object a walk follows from o, if o has a single owner that is a watched controller. */
  function OwnerId(o: Object): Entity
    requires |o.owners| == 1
  {
    Entity(o.id.namespace, o.owners[0].kind, o.owners[0].name)
  }

  predicate Follows(c: Cluster, o: Object) {
    |o.owners| == 1 && o.owners[0].controller && o.owners[0].kind in c.watched
  }

  /** Ownership is acyclic: every owner that a walk follows has a smaller rank. */
  ghost predicate Ranked(c: Cluster, rank: map<Entity, nat>) {
    && c.listed <= c.objects.Keys <= rank.Keys
    && forall e :: e in c.objects && Follows(c, c.objects[e]) && OwnerId(c.objects[e]) in c.listed
         ==> rank[OwnerId(c.objects[e])] < rank[e]
  }

  function Link(o: Object, isWatched: bool, above: Parent): Parent
    requires |o.owners| == 1
  {
    Parent(o.owners[0].kind, o.owners[0].name, o.owners[0].apiVersion, isWatched, above)
  }

  /** The plain walk, without any store. */
  ghost function Walk(c: Cluster, rank: map<Entity, nat>, o: Object): Result
    requires Filed(c) && Ranked(c, rank) && InSnapshot(c, o)
    decreases rank[o.id]
  {
    if |o.owners| > 1 then MultipleOwners
    else if |o.owners| == 0 || !o.owners[0].controller then Ok(NoParent)
    else if !Follows(c, o) then Ok(Link(o, false, NoParent))
    else if OwnerId(o) !in c.listed then OwnerNotFound
    else
      match Walk(c, rank, c.objects[OwnerId(o)])
      case Ok(above) => Ok(Link(o, true, above))
      case err => AncestorFailed(err)
  }

  // ---------------------------------------------------------------- RootParent

  function Chain(p: Parent): seq<Parent> {
    if p.NoParent? then [] else [p] + Chain(p.parent)
  }

  /** The controller at the end of the chain. */
  method RootParent(parent: Parent) returns (root: Parent)
    ensures parent.NoParent? ==> root.NoParent?
    ensures parent.Parent? ==> root.Parent? && root.parent.NoParent? && root == Chain(parent)[|Chain(parent)| - 1]
  {
    if parent.NoParent? {
      return NoParent;
    }
    var p := parent;
    while p.parent.Parent?
      invariant p.Parent?
      invariant Chain(p)[|Chain(p)| - 1] == Chain(parent)[|Chain(parent)| - 1]
      decreases p
    {
      p := p.parent;
    }
    return p;
  }

  function Last(p: Parent): (last: Parent)
    requires p.Parent?
    ensures last.Parent? && last.parent.NoParent?
  {
    if p.parent.NoParent? then p else Last(p.parent)
  }

  /** Nothing controls the object that link p names, as far as the listers show. */
  predicate Top(c: Cluster, namespace: string, p: Parent)
    requires p.Parent?
  {
    var e := Entity(namespace, p.kind, p.name);
    if !p.isWatched then p.kind !in c.watched
    else e in c.listed && e in c.objects && |c.objects[e].owners| <= 1
         && (c.objects[e].owners == [] || !c.objects[e].owners[0].controller)
  }

  /** The last link of a walk is a top-level controller: not watched, or itself without a controller. */
  lemma {:induction false} WalkEndsAtTop(c: Cluster, rank: map<Entity, nat>, o: Object)
    requires Filed(c) && Ranked(c, rank) && InSnapshot(c, o)
    requires Walk(c, rank, o).Ok? && Walk(c, rank, o).parent.Parent?
    ensures Top(c, o.id.namespace, Last(Walk(c, rank, o).parent))
    ensures Last(Walk(c, rank, o).parent) == Chain(Walk(c, rank, o).parent)[|Chain(Walk(c, rank, o).parent)| - 1]
    decreases rank[o.id]
  {
    var p := Walk(c, rank, o).parent;
    LastOfChain(p);
    if Follows(c, o) && p.parent.Parent? {
      WalkEndsAtTop(c, rank, c.objects[OwnerId(o)]);
    }
  }

  lemma {:induction false} LastOfChain(p: Parent)
    requires p.Parent?
    ensures Last(p) == Chain(p)[|Chain(p)| - 1]
  {
    if p.parent.Parent? {
      LastOfChain(p.parent);
    }
  }

  // ---------------------------------------------------------------- the chain, link by link

  predicate Controlled(o: Object) {
    |o.owners| == 1 && o.owners[0].controller
  }

  /** o has one owner, a controller of a watched kind, and the listers hold it as `above`. */
  predicate StepsUp(c: Cluster, o: Object, above: Object) {
    && Controlled(o) && o.owners[0].kind in c.watched
    && var e := Entity(o.id.namespace, o.owners[0].kind, o.owners[0].name);
       e in c.listed && e in c.objects && above == c.objects[e]
  }

  /** Objects, each controlled by the next. */
  ghost predicate Path(c: Cluster, os: seq<Object>) {
    |os| > 0 && forall i :: 0 <= i < |os| - 1 ==> StepsUp(c, os[i], os[i + 1])
  }

  lemma PathFrom(c: Cluster, o: Object, os: seq<Object>)
    requires Path(c, os) && StepsUp(c, o, os[0])
    ensures Path(c, [o] + os)
  {
  }

  /** Link p names the only owner of o, which is a controller. */
  predicate Names(c: Cluster, p: Parent, o: Object) {
    && Controlled(o) && p.Parent?
    && p.kind == o.owners[0].kind && p.name == o.owners[0].name && p.apiVersion == o.owners[0].apiVersion
    && p.isWatched == (p.kind in c.watched)
  }

  /** The links name, one by one, the controllers of the objects of a path. */
  ghost predicate Traces(c: Cluster, links: seq<Parent>, os: seq<Object>) {
    |links| <= |os| && forall i :: 0 <= i < |links| ==> Names(c, links[i], os[i])
  }

  lemma TracesFrom(c: Cluster, p: Parent, o: Object, links: seq<Parent>, os: seq<Object>)
    requires Traces(c, links, os) && Names(c, p, o)
    ensures Traces(c, [p] + links, [o] + os)
  {
  }

  /** The error at the bottom of a chain of errors, and how deep it lies. */
  function Cause(r: Result): Result {
    if r.AncestorFailed? then Cause(r.cause) else r
  }

  function Depth(r: Result): nat {
    if r.AncestorFailed? then 1 + Depth(r.cause) else 0
  }

  /**
   A walk from o climbs a path of controlled objects to one where it stops. It fails exactly if that
   one has several owners or a watched controller that the listers do not hold, and the error tells
   how far up that was. Otherwise its chain names the controllers of all objects on the path, in order,
   and the last object has no controller or one of an unwatched kind.
   */
  lemma {:induction false} WalkClimbs(c: Cluster, rank: map<Entity, nat>, o: Object) returns (os: seq<Object>)
    requires Filed(c) && Ranked(c, rank) && InSnapshot(c, o)
    ensures Path(c, os) && os[0] == o
    ensures var r := Walk(c, rank, o); var top := os[|os| - 1];
      && (Cause(r) == MultipleOwners <==> |top.owners| > 1)
      && (Cause(r) == OwnerNotFound <==>
            && Controlled(top) && top.owners[0].kind in c.watched
            && Entity(o.id.namespace, top.owners[0].kind, top.owners[0].name) !in c.listed)
      && (r.Ok? <==> |top.owners| <= 1 && (Controlled(top) ==> top.owners[0].kind !in c.watched))
      && (!r.Ok? ==> Depth(r) == |os| - 1)
      && (r.Ok? ==> Traces(c, Chain(r.parent), os))
      && (r.Ok? ==> |Chain(r.parent)| == if Controlled(top) then |os| else |os| - 1)
    decreases rank[o.id]
  {
    os := [o];
    if Follows(c, o) && OwnerId(o) in c.listed {
      var owner := c.objects[OwnerId(o)];
      var rest := WalkClimbs(c, rank, owner);
      PathFrom(c, o, rest);
      os := [o] + rest;
      var r, above := Walk(c, rank, o), Walk(c, rank, owner);
      if above.Ok? {
        TracesFrom(c, r.parent, o, Chain(above.parent), rest);
      }
    }
  }

  /** So a chain is empty exactly if nothing controls the object, and otherwise starts at its controller. */
  lemma ChainStartsAtController(c: Cluster, rank: map<Entity, nat>, o: Object)
    requires Filed(c) && Ranked(c, rank) && InSnapshot(c, o) && Walk(c, rank, o).Ok?
    ensures Walk(c, rank, o).parent.NoParent? <==> !Controlled(o)
    ensures Controlled(o) ==> Names(c, Walk(c, rank, o).parent, o)
  {
    var os := WalkClimbs(c, rank, o);
    var links := Chain(Walk(c, rank, o).parent);
    if links != [] {
      assert Names(c, links[0], os[0]);
    }
  }

  // ---------------------------------------------------------------- the store

  /** Every stored chain is what the plain walk yields for the object it is stored under. */
  ghost predicate Agrees(c: Cluster, rank: map<Entity, nat>, parents: map<string, Parent>)
    requires Filed(c) && Ranked(c, rank)
  {
    forall e :: e in c.objects && Key(e) in parents ==> Walk(c, rank, c.objects[e]) == Ok(parents[Key(e)])
  }

  /** Storing the result for one object says nothing about any other: their keys differ. */
  lemma StoringAgrees(c: Cluster, rank: map<Entity, nat>, parents: map<string, Parent>, o: Object, p: Parent)
    requires Filed(c) && Ranked(c, rank) && Agrees(c, rank, parents) && InSnapshot(c, o)
    requires Walk(c, rank, o) == Ok(p)
    ensures Agrees(c, rank, parents[Key(o.id) := p])
  {
    forall e | e in c.objects && Key(e) in parents[Key(o.id) := p]
      ensures Walk(c, rank, c.objects[e]) == Ok(parents[Key(o.id) := p][Key(e)])
    {
      if Key(e) == Key(o.id) {
        PlainKeysDiffer(e, o.id);
      }
    }
  }

  class ParentsStore {
    var parents: map<string, Parent>

    constructor ()
      ensures parents == map[]
    {
      parents := map[];
    }

    method SetParents(e: Entity, parent: Parent)
      modifies this
      ensures parents == old(parents)[Key(e) := parent]
    {
      parents := parents[Key(e) := parent];
    }

    method GetParents(e: Entity) returns (parent: Option<Parent>)
      ensures parent == if Key(e) in parents then Some(parents[Key(e)]) else None
    {
      return if Key(e) in parents then Some(parents[Key(e)]) else None;
    }
  }

  /**
   The memoised walk. Its result is the plain walk's, errors included; the store keeps agreeing with
   the plain walk and never loses an entry; success is remembered, failure leaves the store untouched.
   */
  method GetParents(o: Object, store: ParentsStore, c: Cluster, ghost rank: map<Entity, nat>) returns (r: Result)
    requires Filed(c) && Ranked(c, rank) && InSnapshot(c, o)
    requires Agrees(c, rank, store.parents)
    modifies store
    ensures r == Walk(c, rank, o)
    ensures Agrees(c, rank, store.parents)
    ensures forall k :: k in old(store.parents) ==> k in store.parents && store.parents[k] == old(store.parents)[k]
    ensures r.Ok? ==> Key(o.id) in store.parents
    ensures !r.Ok? ==> store.parents == old(store.parents) && Key(o.id) !in store.parents
    decreases rank[o.id]
  {
    var found := store.GetParents(o.id);
    if found.Some? {
      return Ok(found.value);
    }
    if |o.owners| > 1 {
      return MultipleOwners;
    }
    var parent := NoParent;
    if |o.owners| == 1 && o.owners[0].controller {
      parent := Link(o, false, NoParent);
      if o.owners[0].kind in c.watched {
        if OwnerId(o) !in c.listed {
          return OwnerNotFound;
        }
        var above := GetParents(c.objects[OwnerId(o)], store, c, rank);
        if !above.Ok? {
          return AncestorFailed(above);
        }
        parent := Link(o, true, above.parent);
      }
    }
    StoringAgrees(c, rank, store.parents, o, parent);
    store.SetParents(o.id, parent);
    return Ok(parent);
  }
}
