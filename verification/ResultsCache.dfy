/** The two-level cache of audit statuses: auditor/opa-auditor/audit-results-cache.go. */
module ResultsCache {
  import opened Basics

  /** `Unset` is Go's empty status, which a result keeps when its policy could not be evaluated. */
  datatype Status = Violating | Compliant | Ignored | Unset

  /** Per constraint id, the last status of each entity key. */
  type Cache = map<string, map<string, Status>>

  function Lookup(c: Cache, constraint: string, key: string): Option<Status> {
    if constraint in c && key in c[constraint] then Some(c[constraint][key]) else None
  }

  function WithStatus(c: Cache, constraint: string, key: string, status: Status): (c': Cache)
    ensures forall i, k :: Lookup(c', i, k) == if i == constraint && k == key then Some(status) else Lookup(c, i, k)
    ensures c'.Keys == c.Keys + {constraint}
  {
    c[constraint := (if constraint in c then c[constraint] else map[])[key := status]]
  }

  function WithoutConstraint(c: Cache, constraint: string): (c': Cache)
    ensures forall i, k :: Lookup(c', i, k) == if i == constraint then None else Lookup(c, i, k)
    ensures c'.Keys == c.Keys - {constraint}
  {
    c - {constraint}
  }

  function WithoutResource(c: Cache, key: string): (c': Cache)
    ensures forall i, k :: Lookup(c', i, k) == if k == key then None else Lookup(c, i, k)
    ensures c'.Keys == c.Keys
  {
    map i | i in c :: c[i] - {key}
  }

  class AuditResultsCache {
    var cache: Cache

    constructor ()
      ensures cache == map[]
    {
      cache := map[];
    }

    method Put(constraint: string, key: string, status: Status)
      modifies this
      ensures cache == WithStatus(old(cache), constraint, key, status)
    {
      var inner: map<string, Status> := map[];
      if constraint in cache {
        inner := cache[constraint];
      }
      cache := cache[constraint := inner[key := status]];
    }

    method Get(constraint: string, key: string) returns (status: Option<Status>)
      ensures status == Lookup(cache, constraint, key)
    {
      if constraint !in cache {
        return None;
      }
      return if key in cache[constraint] then Some(cache[constraint][key]) else None;
    }

    method RemoveConstraint(constraint: string)
      modifies this
      ensures cache == WithoutConstraint(old(cache), constraint)
    {
      cache := cache - {constraint};
    }

    /** Visits the constraints in any order. */
    method RemoveResource(key: string)
      modifies this
      ensures cache == WithoutResource(old(cache), key)
    {
      var todo := cache.Keys;
      while todo != {}
        invariant todo <= cache.Keys == old(cache).Keys
        invariant forall i :: i in cache ==> cache[i] == if i in todo then old(cache)[i] else old(cache)[i] - {key}
        decreases todo
      {
        var i :| i in todo;
        cache := cache[i := cache[i] - {key}];
        todo := todo - {i};
      }
    }
  }
}
