/** Balances as the accounts bucket stores them, and their total. */
module Ledger {
  import opened Types

  type Balances = map<Address, u64>

  /** A missing account holds nothing. */
  function Bal(m: Balances, a: Address): u64 {
    if a in m then m[a] else 0
  }

  ghost function Total(m: Balances): (t: nat) {
    if m == map[] then 0
    else
      var a :| a in m;
      m[a] + Total(m - {a})
  }

  lemma {:induction false} TotalWithout(m: Balances, a: Address)
    requires a in m
    ensures Total(m) == m[a] + Total(m - {a})
    decreases |m|
  {
    var c :| c in m && Total(m) == m[c] + Total(m - {c});
    if a != c {
      TotalWithout(m - {c}, a);
      TotalWithout(m - {a}, c);
      assert m - {c} - {a} == m - {a} - {c};
    }
  }

  /** Writing one account moves the total by the change of that account. */
  lemma TotalPut(m: Balances, a: Address, v: u64)
    ensures Total(m[a := v]) == Total(m) - Bal(m, a) + v
  {
    TotalWithout(m[a := v], a);
    assert m[a := v] - {a} == m - {a};
    if a in m {
      TotalWithout(m, a);
    } else {
      assert m - {a} == m;
    }
  }

  lemma BalanceWithinTotal(m: Balances, a: Address)
    ensures Bal(m, a) <= Total(m)
  {
    if a in m {
      TotalWithout(m, a);
    }
  }
}
