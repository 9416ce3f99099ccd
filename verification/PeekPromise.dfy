/** The documented promise of Peek (client/pipe_store.go:41-44), on the concrete store. */
module PeekPromise {
  import opened Packages
  import opened StoreLaws
  import opened StoreOrder
  import opened PipeStore

  /**
   Two Peeks in a row return the same package, among ties too, if and only if it stays first: it had
   not expired at the first Peek, and was not demoted by it below another pending package.
   */
  method PeekTwice(s: DefaultPipeStore, now: int, later: int) returns (p: Package?, q: Package?)
    requires s.Valid() && Sound(s.Model())
    modifies s, s.pq, s.known
    ensures s.Valid() && Sound(s.Model()) && s.known == old(s.known)
    ensures p == null ==> q == null
    ensures p != null ==> p in old(s.Model()).pending && (q == p <==> StaysFirst(old(s.Model()), p, now))
  {
    p := s.Peek(now);
    ghost var s1 := s.Model();
    if p != null {
      PeekKeeps(old(s.Model()), p, now);
      PeekRepeatsIffStaysFirst(old(s.Model()), p, now);
    }
    q := s.Peek(later);
    if q != null {
      PeekKeeps(s1, q, later);
    }
  }
}
