/** The budget large adds share for the bodies they hold in memory. */
module AddBudget {
  import opened Outcomes

  const MAX_PAYLOAD := 50 * 1024 * 1024
  const MAX_ADD_BODY := (MAX_PAYLOAD + 2) / 3 * 4 + 4 * 1024 * 1024
  const ADD_BODY_BUDGET := 2 * MAX_ADD_BODY
  const SMALL_ADD_BODY := 1024 * 1024

  /** What admitting an add hands out: the bytes it reserved, given back by the first release only. */
  class Reservation {
    const amount: int
    var released: bool

    constructor (amount: int)
      ensures this.amount == amount && !released
    {
      this.amount, released := amount, false;
    }
  }

  ghost function Total(open: set<Reservation>): int {
    if open == {} then 0 else var r :| r in open; r.amount + Total(open - {r})
  }

  /** The total does not depend on the order the reservations are counted in. */
  lemma {:induction false} TotalSplits(open: set<Reservation>, r: Reservation)
    requires r in open
    ensures Total(open) == r.amount + Total(open - {r})
    decreases |open|
  {
    var q :| q in open && Total(open) == q.amount + Total(open - {q});
    if q != r {
      TotalSplits(open - {q}, r);
      TotalSplits(open - {r}, q);
      assert open - {q} - {r} == open - {r} - {q};
    }
  }

  ghost predicate Bounded(open: set<Reservation>) {
    forall r :: r in open ==> SMALL_ADD_BODY < r.amount <= MAX_ADD_BODY
  }

  lemma {:induction false} TotalBounded(open: set<Reservation>)
    requires Bounded(open)
    ensures SMALL_ADD_BODY * |open| <= Total(open) <= MAX_ADD_BODY * |open|
    decreases |open|
  {
    if open != {} {
      var r :| r in open;
      TotalSplits(open, r);
      TotalBounded(open - {r});
      OneMore(SMALL_ADD_BODY, |open|);
      OneMore(MAX_ADD_BODY, |open|);
    }
  }

  lemma OneMore(size: int, n: int)
    ensures size * n == size * (n - 1) + size
  {
  }

  /** Two adds of the largest size fit the budget. */
  lemma TwoFit(open: set<Reservation>, n: int)
    requires Bounded(open) && |open| < 2 && n <= MAX_ADD_BODY
    ensures Total(open) + n <= ADD_BODY_BUDGET
  {
    TotalBounded(open);
  }

  /** The bytes a declared length counts for; an unknown length is negative. */
  function Counted(n: int): int {
    if n < 0 || n > MAX_ADD_BODY then MAX_ADD_BODY else n
  }

  predicate Small(n: int) {
    0 <= n <= SMALL_ADD_BODY
  }

  /** A body that does not fit next to those in flight. */
  predicate Refuses(inFlight: int, n: int) {
    !Small(n) && inFlight + Counted(n) > ADD_BODY_BUDGET
  }

  /** In bytes: what an add is sized for, when it counts, and when it is refused. */
  lemma BudgetInBytes(inFlight: int, n: int)
    ensures Small(n) <==> 0 <= n <= 1_048_576
    ensures Counted(n) == if 0 <= n <= 74_099_372 then n else 74_099_372
    ensures Refuses(inFlight, n) <==>
      !(0 <= n <= 1_048_576) && inFlight + (if 0 <= n <= 74_099_372 then n else 74_099_372) > 148_198_744
  {
    assert MAX_ADD_BODY == 74_099_372;
  }

  class Budget {
    var inFlight: int
    ghost var open: set<Reservation>   // the large adds in flight

    ghost predicate Valid()
      reads this, open
    {
      && inFlight == Total(open) && Bounded(open) && 0 <= inFlight <= ADD_BODY_BUDGET
      && (forall r :: r in open ==> !r.released)
    }

    constructor ()
      ensures Valid() && inFlight == 0 && open == {}
    {
      inFlight, open := 0, {};
    }

    /** Reserves room for a body of n declared bytes, -1 when unknown. A small body needs no reservation. */
    method Admit(n: int) returns (r: Option<Option<Reservation>>)
      requires Valid()
      modifies this
      ensures Valid()
      ensures Small(n) <==> r == Some(None)
      // refused: nothing changes, and two large adds at least are in flight
      ensures r.None? <==> Refuses(old(inFlight), n)
      ensures r.None? ==> |old(open)| >= 2
      ensures r.None? || r.value.None? ==> inFlight == old(inFlight) && open == old(open)
      ensures r.Some? && r.value.Some? ==>
                var h := r.value.value;
                && fresh(h) && open == old(open) + {h} && inFlight == old(inFlight) + h.amount
                && h.amount == Counted(n)
    {
      if 0 <= n <= SMALL_ADD_BODY {
        return Some(None);
      }
      var amount := n;
      if n < 0 || n > MAX_ADD_BODY {
        amount := MAX_ADD_BODY;
      }
      if inFlight + amount > ADD_BODY_BUDGET {
        if |open| < 2 { TwoFit(open, amount); }
        return None;
      }
      var h := new Reservation(amount);
      assert open + {h} - {h} == open;
      TotalSplits(open + {h}, h);
      inFlight := inFlight + amount;
      open := open + {h};
      return Some(Some(h));
    }

    /** Gives a reservation back; repeated calls do nothing. */
    method Release(h: Reservation)
      requires Valid() && (!h.released ==> h in open)
      modifies this, h
      ensures Valid()
      ensures h.released && open == old(open) - {h}
      ensures inFlight == if old(h.released) then old(inFlight) else old(inFlight) - h.amount
      ensures open == {} ==> inFlight == 0
    {
      if !h.released {
        TotalSplits(open, h);
        TotalBounded(open - {h});
        h.released := true;
        inFlight := inFlight - h.amount;
        open := open - {h};
      }
    }
  }
}
