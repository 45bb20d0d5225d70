/** Running totals of the three settlements that loop over vouchers: what account `a` has gained
    (escrow: lost) when the loop stands at voucher `i`, and that the last total is the flow. */
module Payouts {
  import opened Types
  import opened Addresses
  import opened Flows
  import opened Books
  import opened Machine

  lemma {:induction false} BondsPrefix(vs: seq<Voucher>, i: nat)
    requires i < |vs|
    ensures Bonds(vs[..i + 1]) == Bonds(vs[..i]) + vs[i].bond.amount <= Bonds(vs)
    decreases |vs| - i
  {
    assert vs[..i + 1][..i] == vs[..i];
    if i + 1 < |vs| {
      BondsPrefix(vs, i + 1);
    } else {
      assert vs[..i + 1] == vs;
    }
  }

  lemma PayAtPrefix(vs: seq<Voucher>, i: nat, extra: int, a: Address)
    requires i < |vs|
    ensures PayAt(vs[..i + 1], extra, a)
         == PayAt(vs[..i], extra, a) + Post(vs[i].voucher, a, vs[i].bond.amount + extra)
  {
    assert vs[..i + 1][..i] == vs[..i];
  }

  /** Bonds returned to the first `i` of the vouchers. */
  ghost function Returned(vs: seq<Voucher>, i: nat, a: Address): int
    requires i <= |vs|
  {
    PayAt(vs[..i], 0, a) - Post(ESCROW, a, Bonds(vs[..i]))
  }

  lemma ReturnedStep(vs: seq<Voucher>, i: nat, a: Address)
    requires i < |vs|
    ensures Returned(vs, i + 1, a) - Returned(vs, i, a)
         == Post(vs[i].voucher, a, vs[i].bond.amount) - Post(ESCROW, a, vs[i].bond.amount)
  {
    PayAtPrefix(vs, i, 0, a);
    BondsPrefix(vs, i);
  }

  /** Before voucher `i` is paid, escrow still holds its bond out of `Bonds(vs)`. */
  lemma ReturnedAtEscrow(vs: seq<Voucher>, i: nat)
    requires i <= |vs| && forall v :: v in vs ==> IsUser(v.voucher)
    ensures Returned(vs, i, ESCROW) + Bonds(vs[..i]) == 0
    ensures i < |vs| ==> Returned(vs, i, ESCROW) + Bonds(vs) >= vs[i].bond.amount
    ensures i == |vs| ==> Returned(vs, i, ESCROW) + Bonds(vs) == 0
  {
    hide PayAt, Bonds;
    forall v | v in vs[..i] ensures v.voucher != ESCROW {
      assert v in vs;
    }
    PayAtStranger(vs[..i], 0, ESCROW);
    if i < |vs| {
      BondsPrefix(vs, i);
    } else {
      assert vs[..i] == vs;
    }
  }

  /** Bonds of the first `i` vouchers resolved against the provider: supporters forfeit theirs to
      the treasury, opponents get theirs back. */
  ghost function Resolved(vs: seq<Voucher>, i: nat, a: Address): int
    requires i <= |vs|
  {
    PayAt(Opponents(vs[..i]), 0, a) + Post(TREASURY, a, Bonds(Supporters(vs[..i])))
    - Post(ESCROW, a, Bonds(vs[..i]))
  }

  lemma ResolvedStep(vs: seq<Voucher>, i: nat, a: Address)
    requires i < |vs|
    ensures Resolved(vs, i + 1, a) - Resolved(vs, i, a)
         == Post(if vs[i].supportsProvider then TREASURY else vs[i].voucher, a, vs[i].bond.amount)
            - Post(ESCROW, a, vs[i].bond.amount)
  {
    var w, v := vs[..i], vs[i];
    assert vs[..i + 1] == w + [v];
    SidesAppend(w, v);
    if v.supportsProvider {
      SidesAppend(Supporters(w), v);
      assert Opponents(w + [v]) == Opponents(w);
    } else {
      PayAtAppend(Opponents(w), v, 0, a);
      assert Supporters(w + [v]) == Supporters(w);
    }
  }

  lemma ResolvedAtEscrow(vs: seq<Voucher>, i: nat)
    requires i <= |vs| && forall v :: v in vs ==> IsUser(v.voucher)
    ensures i < |vs| ==> Resolved(vs, i, ESCROW) + Bonds(vs) >= vs[i].bond.amount
  {
    ModuleAddressesAreNotValid();
    SideMembers(vs[..i]);
    PayAtStranger(Opponents(vs[..i]), 0, ESCROW);
    if i < |vs| {
      BondsPrefix(vs, i);
    }
  }

  lemma NoVouchers()
    ensures Supporters([]) == [] && Opponents([]) == [] && Bonds([]) == 0
  {
  }

  /** One more voucher joins one side. */
  lemma SplitStep(vs: seq<Voucher>, i: nat)
    requires i < |vs|
    ensures Supporters(vs[..i + 1]) == if vs[i].supportsProvider then Supporters(vs[..i]) + [vs[i]] else Supporters(vs[..i])
    ensures Bonds(Opponents(vs[..i + 1]))
         == Bonds(Opponents(vs[..i])) + (if vs[i].supportsProvider then 0 else vs[i].bond.amount)
  {
    assert vs[..i + 1] == vs[..i] + [vs[i]];
    SidesAppend(vs[..i], vs[i]);
    SidesAppend(Opponents(vs[..i]), vs[i]);
    assert Supporters(vs[..i]) + [] == Supporters(vs[..i]) && Opponents(vs[..i]) + [] == Opponents(vs[..i]);
  }

  /** `share` paid on top to the first `i` of the vouchers. */
  ghost function Rewarded(vs: seq<Voucher>, share: int, i: nat, a: Address): int
    requires i <= |vs|
  {
    PayAt(vs[..i], share, a) - PayAt(vs[..i], 0, a)
  }

  lemma RewardedStep(vs: seq<Voucher>, share: int, i: nat, a: Address)
    requires i < |vs|
    ensures Rewarded(vs, share, i + 1, a) - Rewarded(vs, share, i, a) == Post(vs[i].voucher, a, share)
  {
    PayAtPrefix(vs, i, share, a);
    PayAtPrefix(vs, i, 0, a);
  }

  /** A pool split among `n` supporters and the owner: shares and remainder are the whole pool, and
      the remainder is less than one unit per recipient. */
  lemma SplitIsExact(pool: nat, n: nat)
    ensures var share := pool / (n + 1);
      && 0 <= share <= pool
      && 0 <= share * n
      && 0 <= pool - share * (n + 1) < n + 1
      && share + (pool - share * (n + 1)) == pool - share * n
  {
    var share := pool / (n + 1);
    assert pool == share * (n + 1) + pool % (n + 1);
    assert share * (n + 1) == share * n + share;
    if share > 0 {
      assert share * n >= 0;
    }
  }

  lemma ShareStep(share: nat, i: nat, n: nat)
    requires i < n
    ensures 0 <= share * i + share == share * (i + 1) <= share * n
  {
    assert share * n == share * (i + 1) + share * (n - i - 1);
    assert share * (n - i - 1) >= 0;
  }

  // The complete payouts.

  /** Finalizing an undisputed request pays its owner the escrow and the bond, all it had locked. */
  lemma FinalizePayout(r: Request, h: int, owner: Address, a: Address)
    requires Shape(r) && r.status == Submitted
    ensures PaidOut(Settled(r, Finalize, h), owner, a) - Post(ESCROW, a, Locked(r))
         == Post(owner, a, r.escrow.amount + r.BondAmount()) - Post(ESCROW, a, r.escrow.amount + r.BondAmount())
  {
  }

  /** Refunding an open request returns every stake to the account that put it in. */
  lemma RefundPayout(r: Request, h: int, owner: Address, a: Address)
    requires Shape(r) && r.status.IsOpen()
    ensures PaidOut(Settled(r, Refund, h), owner, a) - Post(ESCROW, a, Locked(r))
         == Post(r.requester, a, r.escrow.amount) + Post(owner, a, r.BondAmount())
            + (if r.challenges != [] then Post(r.challenges[0].challenger, a, r.ChallengeAmount()) else 0)
            - Post(ESCROW, a, r.escrow.amount + r.BondAmount() + r.ChallengeAmount())
            + Returned(r.vouchers, |r.vouchers|, a)
  {
    assert r.vouchers[..|r.vouchers|] == r.vouchers;
  }

  /** Slashing refunds the requester and pays both main bonds to the challenger. */
  lemma SlashPayout(r: Request, h: int, owner: Address, a: Address)
    requires Shape(r) && r.status == Challenged
    ensures PaidOut(Settled(r, Slash, h), owner, a) - Post(ESCROW, a, Locked(r))
         == Post(r.requester, a, r.escrow.amount)
            + Post(r.challenges[0].challenger, a, r.BondAmount() + r.ChallengeAmount())
            - Post(ESCROW, a, r.escrow.amount + r.BondAmount() + r.ChallengeAmount())
            + Resolved(r.vouchers, |r.vouchers|, a)
  {
    assert r.vouchers[..|r.vouchers|] == r.vouchers;
  }

  /** Dismissing pays the owner, returns the supporters' bonds and splits the reward pool. */
  lemma DismissPayout(r: Request, h: int, owner: Address, a: Address)
    requires Shape(r) && r.status == Challenged
    ensures PaidOut(Settled(r, Dismiss, h), owner, a) - Post(ESCROW, a, Locked(r))
         == Post(owner, a, r.escrow.amount + r.BondAmount() + OwnerCut(r))
            - Post(ESCROW, a, r.escrow.amount + r.BondAmount() + RewardPool(r))
            + Returned(Supporters(r.vouchers), |Supporters(r.vouchers)|, a)
            + Rewarded(Supporters(r.vouchers), Share(r), |Supporters(r.vouchers)|, a)
  {
    var vs := Supporters(r.vouchers);
    assert vs[..|vs|] == vs;
    SidesPartition(r.vouchers, a);
  }
}
