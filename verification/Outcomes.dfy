/** Who gains and who loses when a request ends, and that what some lose is what others gain. */
module Outcomes {
  import opened Types
  import opened Addresses
  import opened Flows
  import opened Books
  import opened Machine
  import opened Payouts

  // Zero sum.

  ghost function SumOver(s: set<Address>, f: Address -> int): int {
    if s == {} then 0
    else
      var x :| x in s;
      f(x) + SumOver(s - {x}, f)
  }

  lemma {:induction false} SumOverWithout(s: set<Address>, f: Address -> int, x: Address)
    requires x in s
    ensures SumOver(s, f) == f(x) + SumOver(s - {x}, f)
    decreases |s|
  {
    var y :| y in s && SumOver(s, f) == f(y) + SumOver(s - {y}, f);
    if y != x {
      SumOverWithout(s - {y}, f, x);
      SumOverWithout(s - {x}, f, y);
      assert s - {y} - {x} == s - {x} - {y};
    }
  }

  lemma {:induction false} SumOverPlus(s: set<Address>, f: Address -> int, g: Address -> int, h: Address -> int)
    requires forall x :: x in s ==> h(x) == f(x) + g(x)
    ensures SumOver(s, h) == SumOver(s, f) + SumOver(s, g)
    decreases |s|
  {
    if s != {} {
      var x :| x in s;
      SumOverWithout(s, f, x);
      SumOverWithout(s, g, x);
      SumOverWithout(s, h, x);
      SumOverPlus(s - {x}, f, g, h);
    }
  }

  lemma {:induction false} SumOverZero(s: set<Address>, f: Address -> int)
    requires forall x :: x in s ==> f(x) == 0
    ensures SumOver(s, f) == 0
    decreases |s|
  {
    if s != {} {
      var x :| x in s;
      SumOverWithout(s, f, x);
      SumOverZero(s - {x}, f);
    }
  }

  lemma SumOverPost(s: set<Address>, a: Address, n: int)
    requires a in s
    ensures SumOver(s, x => Post(a, x, n)) == n
  {
    SumOverWithout(s, x => Post(a, x, n), a);
    SumOverZero(s - {a}, x => Post(a, x, n));
  }

  ghost function PayTotal(vs: seq<Voucher>, extra: int): int {
    if vs == [] then 0 else PayTotal(vs[..|vs| - 1], extra) + (vs[|vs| - 1].bond.amount + extra)
  }

  lemma {:induction false} PayTotalIs(vs: seq<Voucher>, extra: int)
    ensures PayTotal(vs, extra) == Bonds(vs) + extra * |vs|
  {
    if vs != [] {
      PayTotalIs(vs[..|vs| - 1], extra);
      assert extra * |vs| == extra * (|vs| - 1) + extra;
    }
  }

  lemma {:induction false} SumOverPayTotal(s: set<Address>, vs: seq<Voucher>, extra: int)
    requires forall v :: v in vs ==> v.voucher in s
    ensures SumOver(s, a => PayAt(vs, extra, a)) == PayTotal(vs, extra)
  {
    hide SumOver;
    if vs == [] {
      SumOverZero(s, a => PayAt(vs, extra, a));
    } else {
      var rest, v := vs[..|vs| - 1], vs[|vs| - 1];
      SumOverPayTotal(s, rest, extra);
      SumOverPost(s, v.voucher, v.bond.amount + extra);
      SumOverPlus(s, a => PayAt(rest, extra, a), a => Post(v.voucher, a, v.bond.amount + extra),
                  a => PayAt(vs, extra, a));
    }
  }

  lemma SumOverPay(s: set<Address>, vs: seq<Voucher>, extra: int)
    requires forall v :: v in vs ==> v.voucher in s
    ensures SumOver(s, a => PayAt(vs, extra, a)) == Bonds(vs) + extra * |vs|
  {
    PayTotalIs(vs, extra);
    SumOverPayTotal(s, vs, extra);
  }

  /** Every account with a role in the request, and the two module accounts. */
  ghost predicate Covers(s: set<Address>, r: Request, owner: Address) {
    && r.requester in s && owner in s && ESCROW in s && TREASURY in s
    && (r.challenges != [] ==> r.challenges[0].challenger in s)
    && (forall v :: v in r.vouchers ==> v.voucher in s)
  }

  lemma SumOverThree(s: set<Address>, x: Address, n: int, y: Address, m: int, f: Address -> int, h: Address -> int)
    requires x in s && y in s
    requires forall a :: a in s ==> h(a) == Post(x, a, n) + Post(y, a, m) + f(a)
    ensures SumOver(s, h) == n + m + SumOver(s, f)
  {
    SumOverPost(s, x, n);
    SumOverPost(s, y, m);
    var g := a => Post(y, a, m) + f(a);
    SumOverPlus(s, a => Post(y, a, m), f, g);
    SumOverPlus(s, a => Post(x, a, n), g, h);
  }

  /** Together the parties put in what the request locks. */
  lemma SumPaidIn(r: Request, owner: Address, s: set<Address>)
    requires Shape(r) && Covers(s, r, owner)
    ensures SumOver(s, a => PaidIn(r, owner, a)) == Locked(r)
  {
    hide SumOver;
    var challenger := if r.challenges != [] then r.challenges[0].challenger else owner;
    var f := a => Post(challenger, a, r.ChallengeAmount()) + PayAt(r.vouchers, 0, a);
    SumOverPay(s, r.vouchers, 0);
    SumOverPost(s, challenger, r.ChallengeAmount());
    SumOverPlus(s, a => Post(challenger, a, r.ChallengeAmount()), a => PayAt(r.vouchers, 0, a), f);
    SumOverThree(s, r.requester, r.escrow.amount, owner, r.BondAmount(), f, a => PaidIn(r, owner, a));
  }

  /** In every status, all the accounts together hold what was put in. */
  lemma SumPaidOut(r: Request, owner: Address, s: set<Address>)
    requires Shape(r) && Covers(s, r, owner)
    ensures SumOver(s, a => PaidOut(r, owner, a)) == Locked(r)
  {
    hide SumOver, PayAt, Supporters, Opponents, Bonds;
    var h := a => PaidOut(r, owner, a);
    match r.status {
      case Pending => SumOpen(r, owner, s);
      case Submitted => SumOpen(r, owner, s);
      case Challenged => SumOpen(r, owner, s);
      case Refunded =>
        SumPaidIn(r, owner, s);
        SumOverPlus(s, a => PaidIn(r, owner, a), a => 0, h);
        SumOverZero(s, a => 0);
      case Finalized =>
        if r.challenges == [] {
          SumUndisputed(r, owner, s);
        } else {
          SumDismissed(r, owner, s);
        }
      case Slashed => SumSlashed(r, owner, s);
    }
  }

  lemma SumOpen(r: Request, owner: Address, s: set<Address>)
    requires r.status.IsOpen() && Covers(s, r, owner)
    ensures SumOver(s, a => PaidOut(r, owner, a)) == Locked(r)
  {
    hide SumOver, Locked;
    SumOverZero(s, a => 0);
    SumOverThree(s, ESCROW, Locked(r), ESCROW, 0, a => 0, a => PaidOut(r, owner, a));
  }

  lemma SumUndisputed(r: Request, owner: Address, s: set<Address>)
    requires Shape(r) && Covers(s, r, owner) && r.status == Finalized && r.challenges == []
    ensures SumOver(s, a => PaidOut(r, owner, a)) == Locked(r)
  {
    hide SumOver;
    SumOverZero(s, a => 0);
    SumOverThree(s, owner, r.escrow.amount + r.BondAmount(), owner, 0, a => 0, a => PaidOut(r, owner, a));
  }

  lemma SumDismissed(r: Request, owner: Address, s: set<Address>)
    requires Shape(r) && Covers(s, r, owner) && r.status == Finalized && r.challenges != []
    ensures SumOver(s, a => PaidOut(r, owner, a)) == Locked(r)
  {
    hide SumOver, PayAt, Supporters, Opponents, Bonds, Share, RewardPool;
    SideMembers(r.vouchers);
    SidesPartition(r.vouchers, owner);
    var vs := Supporters(r.vouchers);
    var f := a => PayAt(vs, Share(r), a);
    SumOverPay(s, vs, Share(r));
    SumOverThree(s, owner, r.escrow.amount + r.BondAmount() + OwnerCut(r), owner, 0, f, a => PaidOut(r, owner, a));
    assert RewardPool(r) == r.ChallengeAmount() + Bonds(Opponents(r.vouchers)) by {
      PoolIs(r);
    }
  }

  lemma PoolIs(r: Request)
    ensures RewardPool(r) == r.ChallengeAmount() + Bonds(Opponents(r.vouchers))
  {
  }

  lemma SumSlashed(r: Request, owner: Address, s: set<Address>)
    requires Shape(r) && Covers(s, r, owner) && r.status == Slashed
    ensures SumOver(s, a => PaidOut(r, owner, a)) == Locked(r)
  {
    hide SumOver, PayAt, Supporters, Opponents, Bonds;
    SideMembers(r.vouchers);
    SidesPartition(r.vouchers, owner);
    var f := a => PayAt(Opponents(r.vouchers), 0, a);
    var g := a => Post(TREASURY, a, Bonds(Supporters(r.vouchers))) + f(a);
    SumOverPay(s, Opponents(r.vouchers), 0);
    SumOverPost(s, TREASURY, Bonds(Supporters(r.vouchers)));
    SumOverPlus(s, a => Post(TREASURY, a, Bonds(Supporters(r.vouchers))), f, g);
    SumOverThree(s, r.requester, r.escrow.amount, r.challenges[0].challenger, r.BondAmount() + r.ChallengeAmount(),
                 g, a => PaidOut(r, owner, a));
  }

  /** A request neither creates nor destroys money: over any accounts that include its parties and
      the module accounts its flow sums to zero, whatever its status, even when roles coincide. */
  lemma FlowSumsToZero(r: Request, owner: Address, s: set<Address>)
    requires Shape(r) && Covers(s, r, owner)
    ensures SumOver(s, a => Flow(r, owner, a)) == 0
  {
    hide SumOver, PaidIn, PaidOut;
    SumPaidIn(r, owner, s);
    SumPaidOut(r, owner, s);
    SumOverPlus(s, a => Flow(r, owner, a), a => PaidIn(r, owner, a), a => PaidOut(r, owner, a));
  }

  // Who wins.

  /** Slashing: the challenger nets the provider's bond, the treasury the provider-side vouchers'
      bonds, which those lose; the requester and the other vouchers come out even. */
  lemma SlashOutcome(r: Request, owner: Address, a: Address)
    requires Shape(r) && r.status == Slashed
    ensures Flow(r, owner, a)
         == Post(r.challenges[0].challenger, a, r.BondAmount()) - Post(owner, a, r.BondAmount())
            + Post(TREASURY, a, Bonds(Supporters(r.vouchers))) - PayAt(Supporters(r.vouchers), 0, a)
  {
    hide PayAt, Supporters, Opponents, Bonds;
    SidesPartition(r.vouchers, a);
  }

  /** Shares of a voucher reward received by `a`. */
  ghost function SharesAt(vs: seq<Voucher>, share: int, a: Address): int {
    if vs == [] then 0 else SharesAt(vs[..|vs| - 1], share, a) + Post(vs[|vs| - 1].voucher, a, share)
  }

  lemma {:induction false} PayIsBondsAndShares(vs: seq<Voucher>, share: int, a: Address)
    ensures PayAt(vs, share, a) == PayAt(vs, 0, a) + SharesAt(vs, share, a)
    ensures share >= 0 ==> SharesAt(vs, share, a) >= 0
  {
    if vs != [] {
      PayIsBondsAndShares(vs[..|vs| - 1], share, a);
    }
  }

  /** Dismissal: the requester pays the owner; the challenger and the challenger-side vouchers lose
      their bonds, which go in equal shares to the supporters and the owner. The shares and what the
      owner gets over one share are exactly the pool, less than one unit per recipient is left over
      for the owner, and no supporter loses by having vouched. */
  lemma DismissOutcome(r: Request, owner: Address, a: Address)
    requires Shape(r) && r.status == Finalized && r.challenges != []
    ensures Flow(r, owner, a)
         == Post(owner, a, r.escrow.amount) - Post(r.requester, a, r.escrow.amount)
            - Post(r.challenges[0].challenger, a, r.ChallengeAmount()) - PayAt(Opponents(r.vouchers), 0, a)
            + Post(owner, a, OwnerCut(r)) + SharesAt(Supporters(r.vouchers), Share(r), a)
    ensures OwnerCut(r) + Share(r) * |Supporters(r.vouchers)| == r.ChallengeAmount() + Bonds(Opponents(r.vouchers))
    ensures 0 <= OwnerCut(r) - Share(r) < |Supporters(r.vouchers)| + 1
    ensures SharesAt(Supporters(r.vouchers), Share(r), a) >= 0
  {
    SplitIsExact(RewardPool(r), |Supporters(r.vouchers)|);
    hide PayAt, Supporters, Opponents, Bonds, SharesAt;
    SidesPartition(r.vouchers, a);
    PayIsBondsAndShares(Supporters(r.vouchers), Share(r), a);
  }

  ghost function Unrefunded(requests: map<u64, Request>): map<u64, Request> {
    map k | k in requests && requests[k].status != Refunded :: requests[k]
  }

  lemma {:induction false} RefundedSumsToNothing(requests: map<u64, Request>, services: map<u64, Service>, n: int, a: Address)
    requires n < TWO64
    ensures SumRequests(Unrefunded(requests), services, n, a) == SumRequests(requests, services, n, a)
    decreases if n < 0 then 0 else n
  {
    hide PaidIn;
    if n > 0 {
      RefundedSumsToNothing(requests, services, n - 1, a);
    }
  }

  /** A refund, by deadline or with the domain and whatever the request had come to, is neutral: every
      balance is what it would be had the refunded requests never been made. */
  lemma RefundLeavesNoTrace(b: Book, a: Address)
    ensures Funds(b.(requests := Unrefunded(b.requests)), a) == Funds(b, a)
  {
    hide SumRequests;
    RefundedSumsToNothing(b.requests, b.services, b.nextReq - 1, a);
  }

  /** The stake of a vouch is the exact fraction of the provider bond, rounded down, if and only if
      the product fits 64 bits; otherwise it is too small. */
  lemma ScaledBondExactIff(p: Params, r: Request)
    requires p.voucherScaleBP > 0 && r.BondAmount() > 0
    ensures VoucherBond(p, r).amount == r.BondAmount() * p.voucherScaleBP / 10000
            <==> r.BondAmount() * p.voucherScaleBP < TWO64
    ensures VoucherBond(p, r).amount <= r.BondAmount() * p.voucherScaleBP / 10000
    ensures p.voucherScaleBP <= 10000 ==> VoucherBond(p, r).amount <= r.BondAmount()
    ensures VoucherBond(p, r).denom == r.providerBond.value.denom
  {
    hide Wrap;
    ProductPositive(r.BondAmount(), p.voucherScaleBP);
    ReducedQuotient(r.BondAmount() * p.voucherScaleBP);
    if p.voucherScaleBP <= 10000 {
      FractionWithin(r.BondAmount(), p.voucherScaleBP);
    }
  }

  lemma ProductPositive(x: int, y: int)
    requires x > 0 && y > 0
    ensures x * y > 0
  {
  }

  lemma FractionWithin(x: int, bp: int)
    requires x > 0 && 0 < bp <= 10000
    ensures x * bp / 10000 <= x
  {
    assert x * 10000 == x * bp + x * (10000 - bp);
    assert x * (10000 - bp) >= 0;
  }

  lemma ReducedQuotient(x: int)
    requires x >= 0
    ensures Wrap(x) / 10000 == x / 10000 <==> x < TWO64
    ensures Wrap(x) / 10000 <= x / 10000
  {
    if x >= TWO64 {
      assert x == x / TWO64 * TWO64 + x % TWO64;
      assert Wrap(x) <= x - TWO64;
    }
  }
}
