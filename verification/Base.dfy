/** Shared vocabulary: identifiers, instants, failure-compatible results, and
    the two table facts every other module needs -- rows listed in identifier
    order, and sums over a table that do not depend on the listing. */
module Base {

  /** An opaque identifier (a uuid, a token, a digest). */
  type Id = nat

  /** An instant or a duration in microseconds. The instant 0 is the zero time. */
  type Time = nat

  /** The largest revision or attempt counter (int on a 64-bit platform). */
  const MAX_INT: nat := 0x7FFF_FFFF_FFFF_FFFF

  /** The largest fencing token (uint64). */
  const MAX_TOKEN: nat := 0xFFFF_FFFF_FFFF_FFFF

  /** Why a transaction was rolled back. */
  datatype Error =
    | InvalidInput | InvalidState | InvalidLease | InvalidSettlement | InvalidCleanup | InvalidReservation
    | LeaseHeld | LeaseExpired | LeaseConflict
    | RetryNotReady | RetryExhausted | NotSubmittable | SubmissionInProgress | OutcomeUnknown
    | ExternalConflict | NotCancellable | OutputRequired | SettlementConflict | ReservationClosed
    | CleanupInProgress | CleanupNotReady | CleanupExhausted | CleanupClaim
    | NotFound | Unavailable | SourceUnavailable | NotConfirmable | TimedOut
    | ObservationUnavailable | ResultUnavailable | Forbidden | RevisionConflict | IdempotencyConflict
    | AdmissionRefused | Authentication | AccountConflict | MediaConflict | PostConflict

  datatype Option<+T> = None | Some(value: T)

  datatype Result<+T, +E> = Ok(value: T) | Err(error: E) {
    predicate IsFailure() { Err? }

    function PropagateFailure<U>(): Result<U, E>
      requires Err?
    {
      Err(error)
    }

    function Extract(): T
      requires Ok?
    {
      value
    }
  }

  function Max(a: nat, b: nat): nat { if a < b then b else a }

  predicate IsLeast(x: nat, s: set<nat>) {
    x in s && forall y :: y in s ==> x <= y
  }

  lemma LeastExists(s: set<nat>) returns (w: nat)
    requires s != {}
    ensures IsLeast(w, s)
  {
    var x :| x in s;
    w := x;
    if s != {x} {
      var z := LeastExists(s - {x});
      w := if x < z then x else z;
      forall y | y in s ensures w <= y {
        if y != x { assert y in s - {x}; }
      }
    }
  }

  function Least(s: set<nat>): (x: nat)
    requires s != {}
    ensures IsLeast(x, s)
  {
    assert exists x :: IsLeast(x, s) by { var w := LeastExists(s); }
    var x :| IsLeast(x, s);
    x
  }

  /** The elements of a set in ascending order (`ORDER BY id ASC`). */
  function Ascending(s: set<nat>): (q: seq<nat>)
    ensures forall i, j :: 0 <= i < j < |q| ==> q[i] < q[j]
    ensures forall x :: x in q <==> x in s
    ensures |q| == |s|
  {
    if s == {} then []
    else
      var x := Least(s);
      var rest := Ascending(s - {x});
      assert forall y :: y in rest ==> x < y;
      [x] + rest
  }

  /** The sum of a numeric column. */
  function Sum(m: map<Id, nat>): nat
    decreases |m|
  {
    if m == map[] then 0
    else
      assert m.Keys != {};
      var k := Least(m.Keys);
      m[k] + Sum(m - {k})
  }

  /** Any row may be split off first. */
  lemma {:induction false} SumSplit(m: map<Id, nat>, k: Id)
    requires k in m
    ensures Sum(m) == m[k] + Sum(m - {k})
    decreases |m|
  {
    var f := Least(m.Keys);
    if f != k {
      SumSplit(m - {f}, k);
      assert (m - {f}) - {k} == (m - {k}) - {f};
      SumSplit(m - {k}, f);
    }
  }

  lemma SumInsert(m: map<Id, nat>, k: Id, v: nat)
    ensures Sum(m[k := v]) == v + Sum(m - {k})
  {
    SumSplit(m[k := v], k);
    assert m[k := v] - {k} == m - {k};
  }

  /** Removing rows never increases a sum. */
  lemma {:induction false} SumShrinks(m: map<Id, nat>, gone: set<Id>)
    ensures Sum(m - gone) <= Sum(m)
    decreases |gone|
  {
    if gone == {} {
      assert m - gone == m;
    } else {
      var k :| k in gone;
      SumShrinks(m, gone - {k});
      var rest := m - (gone - {k});
      assert m - gone == rest - {k};
      if k in rest {
        SumSplit(rest, k);
      } else {
        assert rest - {k} == rest;
      }
    }
  }

  /** A column that shrinks row by row shrinks in total. */
  lemma {:induction false} SumMonotone(a: map<Id, nat>, b: map<Id, nat>)
    requires a.Keys == b.Keys && forall k :: k in a ==> a[k] <= b[k]
    ensures Sum(a) <= Sum(b)
    decreases |a|
  {
    if a == map[] {
      assert b == map[];
    } else {
      assert a.Keys != {};
      var k :| k in a;
      SumSplit(a, k);
      SumSplit(b, k);
      SumMonotone(a - {k}, b - {k});
    }
  }

  /** Writing one row moves the total by the difference of that row alone. */
  lemma SumWritten(m: map<Id, nat>, k: Id, v: nat)
    ensures Sum(m[k := v]) == Sum(m) + v - (if k in m then m[k] else 0)
  {
    SumInsert(m, k, v);
    if k in m { SumSplit(m, k); } else { assert m - {k} == m; }
  }
}
