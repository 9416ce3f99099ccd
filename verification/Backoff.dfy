/** The retry loop of client/client.go: `WithBackoffLimit`. */
module Backoff {

  /** Units slept after m failures: 1 to 10 units, then again from 1. */
  function Units(m: nat): nat {
    if m == 0 then 0 else Units(m - 1) + (m - 1) % 10 + 1
  }

  function Triangle(r: nat): nat {
    if r == 0 then 0 else Triangle(r - 1) + r
  }

  lemma {:induction false} TriangleIs(r: nat)
    ensures 2 * Triangle(r) == r * (r + 1)
  {
    if r > 0 {
      TriangleIs(r - 1);
    }
  }

  lemma {:induction false} UnitsAt(q: nat, r: nat)
    requires r <= 10
    ensures Units(10 * q + r) == Units(10 * q) + Triangle(r)
  {
    if r > 0 {
      UnitsAt(q, r - 1);
      LastDigit(q, r - 1);
    }
  }

  lemma LastDigit(q: nat, d: nat)
    requires d < 10
    ensures (10 * q + d) % 10 == d
  {
  }

  lemma {:induction false} UnitsOfTens(q: nat)
    ensures Units(10 * q) == 55 * q
  {
    if q > 0 {
      UnitsOfTens(q - 1);
      UnitsAt(q - 1, 10);
      TriangleIs(10);
    }
  }

  /** Every ten failures in a row cost 55 units; the rest cost a triangular number. */
  lemma UnitsClosedForm(m: nat)
    ensures Units(m) == 55 * (m / 10) + (m % 10) * (m % 10 + 1) / 2
  {
    UnitsOfTens(m / 10);
    UnitsAt(m / 10, m % 10);
    TriangleIs(m % 10);
  }

  /** Total sleep after m failures. */
  function Slept(backoff: nat, m: nat): nat {
    if m == 0 then 0 else Slept(backoff, m - 1) + backoff * ((m - 1) % 10 + 1)
  }

  lemma Distribute(b: nat, x: nat, y: nat)
    ensures b * (x + y) == b * x + b * y
  {
  }

  lemma {:induction false} SleptInUnits(backoff: nat, m: nat)
    ensures Slept(backoff, m) == backoff * Units(m)
  {
    if m > 0 {
      SleptInUnits(backoff, m - 1);
      Distribute(backoff, Units(m - 1), (m - 1) % 10 + 1);
    }
  }

  lemma SleptClosedForm(backoff: nat, m: nat)
    ensures Slept(backoff, m) == backoff * (55 * (m / 10) + (m % 10) * (m % 10 + 1) / 2)
  {
    SleptInUnits(backoff, m);
    UnitsClosedForm(m);
  }

  /** The loop, with the total sleep added up pause by pause. */
  method Attempt(succeeds: nat -> bool, limit: int, backoff: nat)
    returns (failed: bool, calls: nat, slept: nat)
    ensures failed <==> limit > 0 && forall i :: 0 <= i < limit ==> !succeeds(i)
    ensures limit <= 0 ==> calls == 0 && slept == 0
    ensures limit > 0 ==> 1 <= calls <= limit && slept == Slept(backoff, calls - 1)
    ensures forall i :: 0 <= i < calls - 1 ==> !succeeds(i)
    ensures failed ==> calls == limit
    ensures limit > 0 && !failed ==> succeeds(calls - 1)
  {
    failed, calls, slept := false, 0, 0;
    var try: nat := 0;
    while try < limit
      invariant limit > 0 ==> try <= limit
      invariant limit <= 0 ==> try == 0
      invariant calls == try && (forall i :: 0 <= i < try ==> !succeeds(i))
      invariant failed <==> try > 0
      invariant slept == Slept(backoff, if try == limit && try > 0 then try - 1 else try)
    {
      calls := calls + 1;
      failed := !succeeds(try);
      if !failed {
        return;
      }
      var timeout := backoff * (try % 10 + 1);
      if try + 1 < limit {
        slept := slept + timeout;
      }
      try := try + 1;
    }
  }

  /** `succeeds(i)` says whether call number i of fn succeeds; sleeping is added up instead of done. */
  method WithBackoffLimit(succeeds: nat -> bool, limit: int, backoff: nat)
    returns (failed: bool, calls: nat, slept: nat)
    ensures failed <==> limit > 0 && forall i :: 0 <= i < limit ==> !succeeds(i)
    ensures limit <= 0 ==> calls == 0 && slept == 0
    ensures limit > 0 ==> 1 <= calls <= limit && var m := calls - 1;
      slept == backoff * (55 * (m / 10) + (m % 10) * (m % 10 + 1) / 2)
    ensures forall i :: 0 <= i < calls - 1 ==> !succeeds(i)
    ensures failed ==> calls == limit
    ensures limit > 0 && !failed ==> succeeds(calls - 1)
  {
    failed, calls, slept := Attempt(succeeds, limit, backoff);
    if limit > 0 {
      SleptClosedForm(backoff, calls - 1);
    }
  }
}
