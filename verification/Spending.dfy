/** Whose money moves without their signature: nobody's. Time, other people's transactions, mints and
    parameter changes only ever add to an account. */
module Spending {
  import opened Types
  import opened Addresses
  import opened Flows
  import opened Books
  import opened Machine
  import opened Payouts
  import opened Reachable
  import opened Lifecycle
  import opened Admission
  import opened Effects

  lemma {:induction false} PayNotNegative(vs: seq<Voucher>, extra: nat, a: Address)
    ensures PayAt(vs, extra, a) >= 0
  {
    if vs != [] {
      PayNotNegative(vs[..|vs| - 1], extra, a);
    }
  }

  /** Ending a request takes from escrow alone. */
  lemma EndingGains(r: Request, v: Verdict, h: int, owner: Address, a: Address)
    requires r.status.IsOpen() && a != ESCROW
    ensures Flow(Settled(r, v, h), owner, a) >= Flow(r, owner, a)
  {
    hide PayAt, Supporters, Opponents, Bonds;
    if v != Keep {
      SettledFlow(r, v, h, owner, a);
      SplitIsExact(RewardPool(r), |Supporters(r.vouchers)|);
      PayNotNegative(r.vouchers, 0, a);
      PayNotNegative(Supporters(r.vouchers), Share(r), a);
      PayNotNegative(Opponents(r.vouchers), 0, a);
    }
  }

  lemma DueGains(b: Book, r: Request, owner: Address, a: Address)
    requires a != ESCROW
    ensures Flow(Settled(r, Due(b, r), b.height), owner, a) >= Flow(r, owner, a)
  {
    hide ProviderWins, Flow;
    if r.status.IsOpen() {
      EndingGains(r, Due(b, r), b.height, owner, a);
    }
  }

  lemma SettledKeepsService(r: Request, v: Verdict, h: int)
    ensures Settled(r, v, h).serviceId == r.serviceId
  {
  }

  lemma {:induction false} TickGainsUpTo(b: Book, n: int, a: Address)
    requires n < TWO64 && a != ESCROW
    ensures SumRequests(Tick(b).requests, b.services, n, a) >= SumRequests(b.requests, b.services, n, a)
    decreases if n < 0 then 0 else n
  {
    hide Flow, Due, Settled;
    if n > 0 {
      TickGainsUpTo(b, n - 1, a);
      var k: u64 := n;
      var b1 := b.(height := b.height + 1);
      assert k in Tick(b).requests <==> k in b.requests;
      if k in b.requests {
        assert Tick(b).requests[k] == Settled(b.requests[k], Due(b1, b.requests[k]), b1.height);
        assert Tick(b).requests[k].serviceId == b.requests[k].serviceId by {
          SettledKeepsService(b.requests[k], Due(b1, b.requests[k]), b1.height);
        }
        DueGains(b1, b.requests[k], OwnerIn(b.services, b.requests[k].serviceId), a);
      }
    }
  }

  lemma TickGains(b: Book, a: Address)
    requires a != ESCROW
    ensures Funds(Tick(b), a) >= Funds(b, a)
  {
    hide SumRequests, SumServices;
    TickGainsUpTo(b, b.nextReq - 1, a);
  }

  lemma {:induction false} StakesNotNegative(b: Book, d: u64, n: int, a: Address)
    requires n < TWO64
    ensures PaidInto(b, d, n, a) >= 0 && BondsIn(b, d, n, a) >= 0
    decreases if n < 0 then 0 else n
  {
    if n > 0 {
      StakesNotNegative(b, d, n - 1, a);
      var k: u64 := n;
      if k in b.requests {
        PayNotNegative(b.requests[k].vouchers, 0, a);
      }
    }
  }

  lemma ResolutionGains(r: Request, owner: Address, a: Address)
    requires r.challenges != [] && a != ESCROW
    ensures DismissGain(r, owner, a) >= 0 && SlashGain(r, a) >= 0
  {
    hide PayAt, Supporters, Opponents, Bonds;
    SplitIsExact(RewardPool(r), |Supporters(r.vouchers)|);
    PayNotNegative(Supporters(r.vouchers), Share(r), a);
    PayNotNegative(Opponents(r.vouchers), 0, a);
  }

  /** The effect of a message costs no user account but its signer's anything. */
  lemma EffectCosts(b: Book, b': Book, signer: Address, m: Msg, a: Address)
    requires Effect(b, b', signer, m) && IsUser(a) && a != signer
    ensures Funds(b', a) >= Funds(b, a)
  {
    hide Funds, DismissGain, SlashGain;
    if m.DeactivateDomain? {
      StakesNotNegative(b, m.domainId, b.nextReq - 1, a);
      StakesNotNegative(b, m.domainId, b.nextSvc - 1, a);
    } else if m.ResolveChallenge? {
      var r := b.requests[m.requestId];
      ResolutionGains(r, b.Owner(r.serviceId), a);
    }
  }

  /** The operation is an envelope of account `a` with a valid form and signature. */
  predicate SignedBy(op: Op, a: Address) {
    op.SubmitTx? && op.tx.wellFormed && op.tx.authentic && AddressOf(op.tx.signer) == a
  }

  /** An account loses money only by a transaction it signed. */
  lemma OnlySignersPay(b: Book, op: Op, a: Address)
    requires Core(b) && Room(b) && IsUser(a) && Funds(Step(b, op), a) < Funds(b, a)
    ensures SignedBy(op, a)
  {
    hide Core, Room, Funds, AddressOf, Submit, Effect, Tick, IsValidAddress;
    match op {
      case SubmitTx(tx) =>
        if Submit(b, tx).Ok? {
          AcceptedIff(b, tx);
          AcceptedEffect(b, tx);
          if AddressOf(tx.signer) != a {
            EffectCosts(b, Step(b, op).(nonces := b.nonces), AddressOf(tx.signer), tx.payload.value, a);
          }
        }
      case CommitBlock => TickGains(b, a);
      case Mint(to, amount) => MintGains(b, to, amount, a);
      case SetParams(p) => SameBooks(b, Step(b, op));
      case SetAuthority(_) => SameBooks(b, Step(b, op));
    }
  }

  lemma MintGains(b: Book, to: Address, amount: u64, a: Address)
    ensures Funds(MintTo(b, to, amount), a) == Funds(b, a) + Post(to, a, amount)
  {
    hide SumRequests, SumServices;
  }

  /** Over any part of a run in which an account signs nothing, its balance never falls. */
  lemma {:induction false} SilentNeverPay(ops: seq<Op>, i: nat, j: nat, a: Address)
    requires Bounded(ops) && i <= j <= |ops| && IsUser(a)
    requires forall k :: i <= k < j ==> !SignedBy(ops[k], a)
    ensures Funds(StateAt(ops, i), a) <= Funds(StateAt(ops, j), a)
    decreases j
  {
    hide Core, Room, Step, Run, RecordsStep, Funds, SignedBy;
    if i < j {
      SilentNeverPay(ops, i, j - 1, a);
      StatesSound(ops, j - 1);
      if Funds(StateAt(ops, j), a) < Funds(StateAt(ops, j - 1), a) {
        OnlySignersPay(StateAt(ops, j - 1), ops[j - 1], a);
      }
    }
  }
}
