/** The string keys under which entities are cached: `GetEntityKey` of kuber/utils.go. */
module EntityKeys {

  datatype Entity = Entity(namespace: string, kind: string, name: string)

  function Key(e: Entity): string {
    e.namespace + ":" + e.kind + ":" + e.name
  }

  /** Neither namespace nor kind contains the separator; the name may. */
  predicate Plain(e: Entity) {
    ':' !in e.namespace && ':' !in e.kind
  }

  /** The part before the first colon. */
  function Head(s: string): (h: string)
    ensures ':' !in h
  {
    if s == "" || s[0] == ':' then "" else [s[0]] + Head(s[1..])
  }

  /** The part after the first colon. */
  function Tail(s: string): string {
    if s == "" then "" else if s[0] == ':' then s[1..] else Tail(s[1..])
  }

  lemma {:induction false} CutAtColon(a: string, b: string)
    requires ':' !in a
    ensures Head(a + ":" + b) == a && Tail(a + ":" + b) == b
  {
    if a != "" {
      assert (a + ":" + b)[1..] == a[1..] + ":" + b;
      CutAtColon(a[1..], b);
    }
  }

  lemma {:induction false} HeadAndTail(s: string)
    requires ':' in s
    ensures s == Head(s) + ":" + Tail(s)
  {
    if s[0] != ':' {
      HeadAndTail(s[1..]);
    }
  }

  lemma {:induction false} TailKeepsLaterColon(a: string, b: string)
    requires ':' in b
    ensures ':' in Tail(a + ":" + b)
  {
    var s := a + ":" + b;
    if a == "" {
      assert s[1..] == b;
    } else {
      assert s[1..] == a[1..] + ":" + b;
      TailKeepsLaterColon(a[1..], b);
    }
  }

  /** The one plain entity that shares e's key: the key cut at its first two colons. */
  function Canonical(e: Entity): Entity {
    Entity(Head(Key(e)), Head(Tail(Key(e))), Tail(Tail(Key(e))))
  }

  lemma KeyParts(e: Entity)
    ensures Key(e) == e.namespace + ":" + (e.kind + ":" + e.name)
  {
  }

  lemma PlainIsCanonical(e: Entity)
    requires Plain(e)
    ensures Canonical(e) == e
  {
    KeyParts(e);
    CutAtColon(e.namespace, e.kind + ":" + e.name);
    CutAtColon(e.kind, e.name);
  }

  lemma CanonicalSharesKey(e: Entity)
    ensures Plain(Canonical(e)) && Key(Canonical(e)) == Key(e)
  {
    var k := Key(e);
    KeyParts(e);
    HeadAndTail(k);
    TailKeepsLaterColon(e.namespace, e.kind + ":" + e.name);
    HeadAndTail(Tail(k));
    KeyParts(Canonical(e));
  }

  /** Plain entities are told apart by their keys. */
  lemma PlainKeysDiffer(e: Entity, f: Entity)
    requires Plain(e) && Plain(f) && Key(e) == Key(f)
    ensures e == f
  {
    PlainIsCanonical(e);
    PlainIsCanonical(f);
  }

  /** And only they are: an entity shares its key with a different plain entity iff it is not plain itself. */
  lemma CollidesIffNotPlain(e: Entity)
    ensures (exists f :: f != e && Plain(f) && Key(f) == Key(e)) <==> !Plain(e)
  {
    CanonicalSharesKey(e);
    if Plain(e) {
      forall f | Plain(f) && Key(f) == Key(e) ensures f == e {
        PlainKeysDiffer(e, f);
      }
    } else {
      assert Canonical(e) != e;
    }
  }
}
