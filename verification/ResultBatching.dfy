/** Audit results leave in batches: the worker of gateway/governance.go over one reused buffer. */
module ResultBatching {
  const AUDIT_RESULTS_BATCH_SIZE: nat := 1000

  ghost function Mapped<R, I>(f: R -> I, rs: seq<R>): (items: seq<I>)
    ensures |items| == |rs| && forall i :: 0 <= i < |rs| ==> items[i] == f(rs[i])
  {
    seq(|rs|, i requires 0 <= i < |rs| => f(rs[i]))
  }

  /** The items of all batches, in order of sending. */
  ghost function Flat<I>(batches: seq<array<I>>): seq<I>
    reads batches
  {
    if batches == [] then [] else Flat(batches[..|batches| - 1]) + batches[|batches| - 1][..]
  }

  /** `auditResultsBuffer` is the first `len` places of a backing array that is never replaced. */
  class AuditResultsWorker<R(0), I(0)> {
    const toPacket: R -> I
    const backing: array<R>
    var len: nat
    /** The packets handed to the pipe; each owns its items. */
    var sent: seq<array<I>>
    ghost var received: seq<R>

    ghost predicate Valid()
      reads this, backing, sent
    {
      && backing.Length == AUDIT_RESULTS_BATCH_SIZE
      && len < backing.Length
      && (forall b: array<I> :: b in sent ==> b as object != backing && 1 <= b.Length <= AUDIT_RESULTS_BATCH_SIZE)
      && Flat(sent) + Mapped(toPacket, backing[..len]) == Mapped(toPacket, received)
    }

    constructor (toPacket: R -> I)
      ensures Valid() && fresh(backing) && sent == [] && received == []
    {
      this.toPacket := toPacket;
      backing := new R[AUDIT_RESULTS_BATCH_SIZE];
      len, sent, received := 0, [], [];
    }

    /** `SendAuditResultsBatch`: converts the first n places one by one into a packet of its own. */
    method SendBatch(n: nat) returns (items: array<I>)
      requires 1 <= n <= backing.Length == AUDIT_RESULTS_BATCH_SIZE
      modifies `sent
      ensures fresh(items) && sent == old(sent) + [items]
      ensures items[..] == Mapped(toPacket, backing[..n])
    {
      items := new I[n];
      for i := 0 to n
        invariant sent == old(sent)
        invariant forall j :: 0 <= j < i ==> items[j] == toPacket(backing[j])
      {
        items[i] := toPacket(backing[i]);
      }
      sent := sent + [items];
    }

    /** One result arrives: it always fits, a full buffer is sent at once, and sent batches are untouched. */
    method OnResult(r: R)
      requires Valid()
      modifies this, backing
      ensures Valid() && received == old(received) + [r]
      ensures sent == old(sent) ||
              (|sent| == |old(sent)| + 1 && sent[..|old(sent)|] == old(sent) && fresh(sent[|old(sent)|]))
      ensures sent == old(sent) <==> old(len) + 1 < AUDIT_RESULTS_BATCH_SIZE
      ensures forall b: array<I> :: b in old(sent) ==> b[..] == old(b[..])
    {
      ghost var before := Flat(sent);
      backing[len] := r;
      len := len + 1;
      received := received + [r];
      assert Flat(sent) == before;
      assert Flat(sent) + Mapped(toPacket, backing[..len]) == Mapped(toPacket, received) by {
        assert backing[..len] == old(backing[..len]) + [r];
      }
      if len == backing.Length {
        Flush();
      }
    }

    /** The timer fires: whatever is buffered is sent, an empty buffer is not. */
    method OnTick()
      requires Valid()
      modifies this
      ensures Valid() && received == old(received)
      ensures len == 0 && (old(len) == 0 ==> sent == old(sent))
      ensures old(len) > 0 ==> |sent| == |old(sent)| + 1 && sent[..|old(sent)|] == old(sent)
      ensures old(len) > 0 ==> sent[|old(sent)|].Length == old(len)
      ensures forall b: array<I> :: b in old(sent) ==> b[..] == old(b[..])
    {
      if len > 0 {
        Flush();
      }
    }

    /** Sends the buffer and truncates it to length zero, keeping the backing array. */
    method Flush()
      requires backing.Length == AUDIT_RESULTS_BATCH_SIZE && 1 <= len <= backing.Length
      requires forall b: array<I> :: b in sent ==> b as object != backing && 1 <= b.Length <= AUDIT_RESULTS_BATCH_SIZE
      requires Flat(sent) + Mapped(toPacket, backing[..len]) == Mapped(toPacket, received)
      modifies `sent, `len
      ensures Valid() && len == 0
      ensures |sent| == |old(sent)| + 1 && sent[..|old(sent)|] == old(sent)
      ensures fresh(sent[|old(sent)|]) && sent[|old(sent)|].Length == old(len)
    {
      var items := SendBatch(len);
      len := 0;
      assert sent[..|sent| - 1] == old(sent);
      assert Mapped(toPacket, backing[..0]) == [];
    }
  }
}
