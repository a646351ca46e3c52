/**
 * The dashboard's figures: the amounts received and pending, the number of patients,
 * and the five most recent patients.
 */
module Dashboard {
  import opened Types
  import opened Collections

  /** `reduce((acc, p) => acc + p.amount, 0)`. */
  function Total(ps: seq<Patient>): int
  {
    if ps == [] then 0 else ps[0].amount + Total(ps[1..])
  }

  /** With no negative amount the sum is not negative. */
  lemma {:induction false} TotalNonNegative(ps: seq<Patient>)
    requires forall i :: 0 <= i < |ps| ==> ps[i].amount >= 0
    ensures Total(ps) >= 0
  {
    if ps != [] {
      TotalNonNegative(ps[1..]);
    }
  }

  predicate IsPaid(p: Patient)
  {
    p.status == Pago
  }

  predicate IsPending(p: Patient)
  {
    p.status == Pendente
  }

  /** `totalReceived`: the amounts of the paid patients. */
  function TotalReceived(ps: seq<Patient>): int
  {
    Total(Filter(ps, IsPaid))
  }

  /** `totalPending`: the amounts of the patients still to pay. */
  function TotalPending(ps: seq<Patient>): int
  {
    Total(Filter(ps, IsPending))
  }

  lemma {:induction false} TotalConcat(a: seq<Patient>, b: seq<Patient>)
    ensures Total(a + b) == Total(a) + Total(b)
  {
    if a == [] {
      assert a + b == b;
    } else {
      assert (a + b)[0] == a[0] && (a + b)[1..] == a[1..] + b;
      TotalConcat(a[1..], b);
    }
  }

  /** Every patient is either paid or pending, so the two figures add up to the amount
      of all patients. */
  lemma {:induction false} ReceivedPlusPending(ps: seq<Patient>)
    ensures TotalReceived(ps) + TotalPending(ps) == Total(ps)
  {
    if ps != [] {
      ReceivedPlusPending(ps[1..]);
      assert ps == [ps[0]] + ps[1..];
      FilterCons(ps[0], ps[1..], IsPaid);
      FilterCons(ps[0], ps[1..], IsPending);
    }
  }

  /** With no negative amount, each figure lies between zero and the total. */
  lemma ReceivedBounded(ps: seq<Patient>)
    requires forall i :: 0 <= i < |ps| ==> ps[i].amount >= 0
    ensures 0 <= TotalReceived(ps) <= Total(ps)
    ensures 0 <= TotalPending(ps) <= Total(ps)
  {
    ReceivedPlusPending(ps);
    var paid, pending := Filter(ps, IsPaid), Filter(ps, IsPending);
    assert forall i :: 0 <= i < |paid| ==> paid[i].amount >= 0;
    assert forall i :: 0 <= i < |pending| ==> pending[i].amount >= 0;
    TotalNonNegative(paid);
    TotalNonNegative(pending);
  }

  /** Filtering a list that starts with `x`. */
  lemma FilterCons(x: Patient, s: seq<Patient>, keep: Patient -> bool)
    ensures Filter([x] + s, keep) == if keep(x) then [x] + Filter(s, keep) else Filter(s, keep)
  {
    assert ([x] + s)[0] == x && ([x] + s)[1..] == s;
  }

  /** Removing the patient at position `k` takes its amount off the total. */
  lemma TotalRemove(ps: seq<Patient>, k: nat)
    requires k < |ps|
    ensures Total(ps) == ps[k].amount + Total(ps[..k] + ps[k + 1..])
  {
    assert ps == ps[..k] + ([ps[k]] + ps[k + 1..]);
    TotalConcat(ps[..k], [ps[k]] + ps[k + 1..]);
    TotalConcat(ps[..k], ps[k + 1..]);
    assert ([ps[k]] + ps[k + 1..])[1..] == ps[k + 1..];
  }

  /** The total does not depend on the order of the patients. */
  lemma {:induction false} TotalPermutation(a: seq<Patient>, b: seq<Patient>)
    requires multiset(a) == multiset(b)
    ensures Total(a) == Total(b)
    decreases |a|
  {
    if a != [] {
      assert a[0] in multiset(b);
      var k :| 0 <= k < |b| && b[k] == a[0];
      var rest := b[..k] + b[k + 1..];
      assert b == b[..k] + [b[k]] + b[k + 1..];
      assert multiset(b) == multiset(b[..k]) + multiset{b[k]} + multiset(b[k + 1..]);
      assert multiset(rest) == multiset(b[..k]) + multiset(b[k + 1..]);
      assert a == [a[0]] + a[1..];
      assert multiset(a) == multiset{a[0]} + multiset(a[1..]);
      assert multiset(a[1..]) == multiset(a) - multiset{a[0]};
      assert multiset(rest) == multiset(b) - multiset{b[k]};
      TotalPermutation(a[1..], rest);
      TotalRemove(b, k);
    }
  }

  /** Reordering the patients changes neither the received nor the pending figure. */
  lemma FiguresPermutation(a: seq<Patient>, b: seq<Patient>)
    requires multiset(a) == multiset(b)
    ensures TotalReceived(a) == TotalReceived(b)
    ensures TotalPending(a) == TotalPending(b)
  {
    FilterPermutation(a, b, IsPaid);
    FilterPermutation(a, b, IsPending);
    TotalPermutation(Filter(a, IsPaid), Filter(b, IsPaid));
    TotalPermutation(Filter(a, IsPending), Filter(b, IsPending));
  }

  /** A patient who pays moves its amount from the pending figure to the received one;
      the sum of both stays the same. */
  lemma PayingMovesAmount(ps: seq<Patient>, p: Patient)
    requires p.status == Pendente
    ensures TotalReceived([p.(status := Pago)] + ps) == TotalReceived(ps) + p.amount
    ensures TotalPending([p.(status := Pago)] + ps) == TotalPending(ps)
    ensures TotalPending([p] + ps) == TotalPending(ps) + p.amount
    ensures TotalReceived([p] + ps) == TotalReceived(ps)
  {
    var q := p.(status := Pago);
    FilterCons(q, ps, IsPaid);
    FilterCons(q, ps, IsPending);
    FilterCons(p, ps, IsPaid);
    FilterCons(p, ps, IsPending);
    TotalConcat([q], Filter(ps, IsPaid));
    TotalConcat([p], Filter(ps, IsPending));
  }

  /** The five most recent patients: the first min(5, n), the store adding at the front. */
  function Recent(ps: seq<Patient>): (r: seq<Patient>)
    ensures |r| == if |ps| < 5 then |ps| else 5
    ensures forall i :: 0 <= i < |r| ==> r[i] == ps[i]
  {
    if |ps| <= 5 then ps else ps[..5]
  }

  /** A newly added patient heads the recent list, and the patient that was fifth drops out. */
  lemma RecentAfterAdd(ps: seq<Patient>, p: Patient)
    ensures Recent([p] + ps)[0] == p
    ensures Recent([p] + ps)[1..] == Recent(ps)[..|Recent([p] + ps)| - 1]
  {
    var r := Recent([p] + ps);
    var t := Recent(ps);
    assert |r| - 1 <= |t|;
    assert forall i :: 0 <= i < |r| - 1 ==> r[1..][i] == t[i];
  }

  /** The figures the cards show. */
  datatype Stats = Stats(received: int, pending: int, count: nat)

  function StatsOf(ps: seq<Patient>): (s: Stats)
    ensures s.count == |ps|
    ensures s.received == TotalReceived(ps) && s.pending == TotalPending(ps)
    ensures s.received + s.pending == Total(ps)
  {
    ReceivedPlusPending(ps);
    Stats(TotalReceived(ps), TotalPending(ps), |ps|)
  }

  /** With no patients every card shows zero. */
  lemma EmptyStats()
    ensures StatsOf([]) == Stats(0, 0, 0)
  {
  }
}
