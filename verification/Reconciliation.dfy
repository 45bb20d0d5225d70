/** The balances agree with the records, and every write the chain makes keeps them so. */
module Reconciliation {
  import opened Types
  import opened Addresses
  import opened Flows
  import opened Books
  import opened Machine
  import opened Ledger
  import opened Payouts

  /** Account `a` holds what the records say it must. */
  ghost predicate Agrees(b: Book, m: Balances, a: Address) {
    Bal(m, a) == Funds(b, a)
  }

  /** Every balance is what the records say it must be. */
  ghost predicate Reconciled(b: Book, m: Balances) {
    forall a :: Agrees(b, m, a)
  }

  /** The balances hold enough in escrow to pay out the open request, to accounts outside it. */
  ghost predicate Payable(r: Request, owner: Address, m: Balances) {
    && r.status.IsOpen() && Shape(r)
    && Bal(m, ESCROW) >= Locked(r)
    && Total(m) < TWO64
    && IsUser(owner) && Parties(r)
  }

  lemma EscrowPays(b: Book, m: Balances, id: u64)
    requires Core(b) && Reconciled(b, m) && id in b.requests && b.requests[id].status.IsOpen()
    requires Total(m) < TWO64
    ensures Payable(b.requests[id], b.Owner(b.requests[id].serviceId), m)
    ensures b.requests[id].serviceId in b.services && b.requests[id].id == id
  {
    EscrowCoversRequest(b, id);
    assert Agrees(b, m, ESCROW);
    assert RequestOk(b.services, b.requests[id], id);
    assert ServiceOk(b.services[b.requests[id].serviceId], b.requests[id].serviceId);
  }

  /** `m'` is `m` after the payouts that end request `r` with verdict `v`. */
  ghost predicate PaysOut(r: Request, v: Verdict, h: int, owner: Address, m: Balances, m': Balances) {
    forall a :: Bal(m', a) - Bal(m, a) == PaidOut(Settled(r, v, h), owner, a) - Post(ESCROW, a, Locked(r))
  }

  /** Ending an open request and paying it out keeps the books sound. */
  lemma SettlementReconciles(b: Book, id: u64, v: Verdict, m: Balances, m': Balances)
    requires Core(b) && Reconciled(b, m) && id in b.requests && b.requests[id].status.IsOpen()
    requires v != Keep && Shape(Settled(b.requests[id], v, b.height))
    requires PaysOut(b.requests[id], v, b.height, b.Owner(b.requests[id].serviceId), m, m')
    ensures Core(b.(requests := b.requests[id := Settled(b.requests[id], v, b.height)]))
    ensures Reconciled(b.(requests := b.requests[id := Settled(b.requests[id], v, b.height)]), m')
  {
    hide Core, Reconciled, Flow, PaidOut, Locked;
    var r := b.requests[id];
    RequestAt(b, id);
    var r' := Settled(r, v, b.height);
    forall a ensures Bal(m', a) - Bal(m, a) == Flow(r', b.Owner(r.serviceId), a) - Flow(r, b.Owner(r.serviceId), a) {
      SettledFlow(r, v, b.height, b.Owner(r.serviceId), a);
    }
    PutReconciles(b, id, r', m, m');
  }

  /** The balances hold enough in escrow to release a registration bond. */
  lemma EscrowReleases(b: Book, m: Balances, id: u64)
    requires Core(b) && Reconciled(b, m) && id in b.services
    ensures Bal(m, ESCROW) >= b.services[id].bond.amount && b.services[id].id == id
  {
    assert ServiceOk(b.services[id], id);
    EscrowCoversService(b, id);
    assert Agrees(b, m, ESCROW);
  }

  lemma SignerHolds(b: Book, m: Balances, a: Address)
    requires Reconciled(b, m)
    ensures Funds(b, a) == Bal(m, a)
  {
    assert Agrees(b, m, a);
  }

  /** Writes that touch neither requests nor services nor outside money leave the balances right. */
  lemma SameMoney(b: Book, b': Book, m: Balances)
    requires Reconciled(b, m)
    requires b'.requests == b.requests && b'.services == b.services && b'.ext == b.ext
    requires b'.forfeits == b.forfeits && b'.nextReq == b.nextReq && b'.nextSvc == b.nextSvc
    ensures Reconciled(b', m)
  {
    forall a ensures Agrees(b', m, a) {
      assert Agrees(b, m, a);
    }
  }

  // Opening and locking.

  /** `amount` went from one account to the other, and nothing else changed. */
  ghost predicate Moved(m: Balances, m': Balances, from: Address, to: Address, amount: int) {
    forall a :: Bal(m', a) == Bal(m, a) - Post(from, a, amount) + Post(to, a, amount)
  }

  /** `m'` differs from `m` by the flow that replacing record `id` by `r` adds. */
  ghost predicate Paid(b: Book, id: u64, r: Request, m: Balances, m': Balances)
    requires id in b.requests
  {
    forall a :: Bal(m', a) - Bal(m, a)
                == Flow(r, b.Owner(r.serviceId), a) - Flow(b.requests[id], b.Owner(r.serviceId), a)
  }

  /** Rewriting one record and paying its flow keeps the books sound. */
  lemma PutReconciles(b: Book, id: u64, r: Request, m: Balances, m': Balances)
    requires Core(b) && Reconciled(b, m) && id in b.requests
    requires RequestOk(b.services, r, id) && r.serviceId == b.requests[id].serviceId
    requires Paid(b, id, r, m, m')
    ensures Core(b.(requests := b.requests[id := r]))
    ensures Reconciled(b.(requests := b.requests[id := r]), m')
  {
    hide Core, Funds, Flow;
    var b' := b.(requests := b.requests[id := r]);
    CorePutRequest(b, id, r);
    forall a ensures Agrees(b', m', a) {
      assert Agrees(b, m, a);
      FundsPutRequest(b, id, r, a);
    }
  }

  /** Locking the escrow opens a request. */
  lemma NewRequestReconciles(b: Book, r: Request, m: Balances, m': Balances)
    requires Core(b) && Reconciled(b, m) && b.nextReq < TWO64 - 1
    requires RequestOk(b.services, r, b.nextReq) && r.status == Pending && r.challenges == []
    requires Moved(m, m', r.requester, ESCROW, r.escrow.amount)
    ensures Core(b.(requests := b.requests[b.nextReq := r], nextReq := b.nextReq + 1))
    ensures Reconciled(b.(requests := b.requests[b.nextReq := r], nextReq := b.nextReq + 1), m')
  {
    var b' := b.(requests := b.requests[b.nextReq := r], nextReq := b.nextReq + 1);
    forall a ensures Agrees(b', m', a) {
      assert Agrees(b, m, a);
      FundsNewRequest(b, r, a);
    }
    CoreNewRequest(b, r);
  }

  /** Locking the registration bond opens a service under a new name. */
  lemma NewServiceReconciles(b: Book, svc: Service, m: Balances, m': Balances)
    requires Core(b) && Reconciled(b, m) && b.nextSvc < TWO64 - 1
    requires ServiceOk(svc, b.nextSvc) && svc.name !in b.svcByName
    requires Moved(m, m', svc.owner, ESCROW, svc.bond.amount)
    ensures var b' := b.(services := b.services[b.nextSvc := svc],
                         svcByName := b.svcByName[svc.name := b.nextSvc], nextSvc := b.nextSvc + 1);
      Core(b') && Reconciled(b', m')
  {
    var b' := b.(services := b.services[b.nextSvc := svc],
                 svcByName := b.svcByName[svc.name := b.nextSvc], nextSvc := b.nextSvc + 1);
    forall a ensures Agrees(b', m', a) {
      assert Agrees(b, m, a);
      FundsNewService(b, svc, a);
    }
    CoreNewService(b, svc);
  }

  /** Rewriting a service under its owner and name, and moving its bond accordingly. */
  lemma PutServiceReconciles(b: Book, id: u64, svc: Service, fs: map<u64, int>, m: Balances, m': Balances)
    requires Core(b) && Reconciled(b, m) && id in b.services
    requires svc.id == id && svc.owner == b.services[id].owner && svc.name == b.services[id].name
    requires forall k: u64 :: k != id ==> At(fs, k) == At(b.forfeits, k)
    requires forall k :: k in fs ==> k in b.services && fs[k] >= 0
    requires forall a ::
      Bal(m', a) - Bal(m, a) == ServiceFlow(svc, At(fs, id), a) - ServiceFlow(b.services[id], At(b.forfeits, id), a)
    ensures Core(b.(services := b.services[id := svc], forfeits := fs))
    ensures Reconciled(b.(services := b.services[id := svc], forfeits := fs), m')
    ensures Indexed(b.svcByName, svc)
  {
    var b' := b.(services := b.services[id := svc], forfeits := fs);
    forall a ensures Agrees(b', m', a) {
      assert Agrees(b, m, a);
      FundsPutService(b, id, svc, fs, a);
    }
    assert ServiceOk(b.services[id], id) && Indexed(b.svcByName, b.services[id]);
    forall k | k in b'.services ensures b'.services[k].id == k {
      assert ServiceOk(b.services[k], k);
    }
    CorePutServices(b, b'.services, fs);
  }

  /** A new price and description move no money. */
  lemma RepriceReconciles(b: Book, id: u64, svc: Service, m: Balances)
    requires Core(b) && Reconciled(b, m) && id in b.services
    requires svc == b.services[id].(description := svc.description, price := svc.price)
    ensures Core(b.(services := b.services[id := svc])) && Reconciled(b.(services := b.services[id := svc]), m)
  {
    assert ServiceOk(b.services[id], id);
    PutServiceReconciles(b, id, svc, b.forfeits, m, m);
  }

  /** Taking a service offline and moving its bond to the owner, or to the treasury. */
  lemma RetireReconciles(b: Book, id: u64, forfeit: bool, m: Balances, m': Balances)
    requires Core(b) && Reconciled(b, m) && id in b.services
    requires Moved(m, m', ESCROW, if forfeit then TREASURY else b.services[id].owner, b.services[id].bond.amount)
    ensures Core(Retire(b, id, forfeit)) && Reconciled(Retire(b, id, forfeit), m')
    ensures Indexed(b.svcByName, b.services[id])
  {
    assert ServiceOk(b.services[id], id);
    PutServiceReconciles(b, id, Retired(b.services[id]), Retire(b, id, forfeit).forfeits, m, m');
  }

  /** Submitting a result locks the provider bond. */
  lemma SubmitFlow(r: Request, r': Request, owner: Address, a: Address)
    requires Shape(r) && r.status == Pending
    requires r' == r.(status := Submitted, submittedAt := r'.submittedAt, result := r'.result,
                      providerBond := r'.providerBond)
    ensures Flow(r', owner, a) - Flow(r, owner, a)
         == Post(ESCROW, a, r'.BondAmount()) - Post(owner, a, r'.BondAmount())
  {
  }

  /** A challenge locks the challenger's bond. */
  lemma ChallengeFlow(r: Request, c: Challenge, owner: Address, a: Address)
    requires Shape(r) && r.status == Submitted
    ensures Flow(r.(challenges := r.challenges + [c], status := Challenged), owner, a) - Flow(r, owner, a)
         == Post(ESCROW, a, c.bond.amount) - Post(c.challenger, a, c.bond.amount)
  {
  }

  /** A vouch locks the voucher's bond. */
  lemma VouchFlow(r: Request, v: Voucher, owner: Address, a: Address)
    requires Shape(r) && r.status == Challenged
    ensures Flow(r.(vouchers := r.vouchers + [v]), owner, a) - Flow(r, owner, a)
         == Post(ESCROW, a, v.bond.amount) - Post(v.voucher, a, v.bond.amount)
  {
    SidesAppend(r.vouchers, v);
    PayAtAppend(r.vouchers, v, 0, a);
  }

  /** A pending request holds nothing but its escrow, and escrow can pay that. */
  lemma PendingAt(b: Book, m: Balances, id: u64)
    requires Core(b) && Reconciled(b, m) && id in b.requests && b.requests[id].status == Pending
    requires Total(m) < TWO64
    ensures var r := b.requests[id];
      r.id == id && r.providerBond.None? && r.challenges == [] && r.vouchers == [] && Bal(m, ESCROW) >= r.escrow.amount
    ensures IsUser(b.Owner(b.requests[id].serviceId))
  {
    EscrowPays(b, m, id);
  }

  /** A submission moves its bond into escrow; finalized on the spot, it moves bond and escrow out
      again to the owner. */
  lemma SubmitPaid(b: Book, id: u64, submitted: Request, r': Request, m: Balances, m': Balances)
    requires Core(b) && id in b.requests && b.requests[id].status == Pending
    requires submitted == b.requests[id].(status := Submitted, submittedAt := b.height,
                                          result := submitted.result, providerBond := submitted.providerBond)
    requires submitted.result.Some?
    requires r' == submitted || r' == Settled(submitted, Finalize, b.height)
    requires r' == submitted ==> Moved(m, m', b.Owner(r'.serviceId), ESCROW, r'.BondAmount())
    requires r' != submitted ==> Moved(m, m', ESCROW, b.Owner(r'.serviceId), r'.escrow.amount)
    ensures RequestOk(b.services, r', id) && Paid(b, id, r', m, m')
  {
    var r := b.requests[id];
    assert RequestOk(b.services, r, id);
    var owner := b.Owner(r.serviceId);
    forall a
      ensures Bal(m', a) - Bal(m, a) == Flow(r', owner, a) - Flow(r, owner, a)
    {
      SubmitFlow(r, submitted, owner, a);
      SettledFlow(submitted, Finalize, b.height, owner, a);
      FinalizePayout(submitted, b.height, owner, a);
    }
  }

  lemma ChallengePaid(b: Book, id: u64, c: Challenge, m: Balances, m': Balances)
    requires Core(b) && id in b.requests && b.requests[id].status == Submitted
    requires IsUser(c.challenger) && Moved(m, m', c.challenger, ESCROW, c.bond.amount)
    ensures var r' := b.requests[id].(challenges := b.requests[id].challenges + [c], status := Challenged);
      RequestOk(b.services, r', id) && Paid(b, id, r', m, m')
  {
    var r := b.requests[id];
    var r' := r.(challenges := r.challenges + [c], status := Challenged);
    assert RequestOk(b.services, r, id);
    forall a
      ensures Bal(m', a) - Bal(m, a) == Flow(r', b.Owner(r.serviceId), a) - Flow(r, b.Owner(r.serviceId), a)
    {
      ChallengeFlow(r, c, b.Owner(r.serviceId), a);
    }
  }

  lemma VouchPaid(b: Book, id: u64, v: Voucher, m: Balances, m': Balances)
    requires Core(b) && id in b.requests && b.requests[id].status == Challenged
    requires IsUser(v.voucher) && Moved(m, m', v.voucher, ESCROW, v.bond.amount)
    ensures var r' := b.requests[id].(vouchers := b.requests[id].vouchers + [v]);
      RequestOk(b.services, r', id) && Paid(b, id, r', m, m')
  {
    var r := b.requests[id];
    var r' := r.(vouchers := r.vouchers + [v]);
    assert RequestOk(b.services, r, id);
    forall a
      ensures Bal(m', a) - Bal(m, a) == Flow(r', b.Owner(r.serviceId), a) - Flow(r, b.Owner(r.serviceId), a)
    {
      VouchFlow(r, v, b.Owner(r.serviceId), a);
    }
  }

  // Money from outside.

  lemma MintReconciles(b: Book, to: Address, amount: u64, m: Balances, m': Balances)
    requires Core(b) && Reconciled(b, m)
    requires forall a :: Bal(m', a) == Bal(m, a) + Post(to, a, amount)
    ensures Core(MintTo(b, to, amount)) && Reconciled(MintTo(b, to, amount), m')
  {
    hide Core, SumRequests, SumServices;
    CoreSame(b, MintTo(b, to, amount));
    forall a ensures Agrees(MintTo(b, to, amount), m', a) {
      assert Agrees(b, m, a);
    }
  }

  lemma TransferReconciles(b: Book, from: Address, to: Address, amount: u64, m: Balances, m': Balances)
    requires Core(b) && Reconciled(b, m) && IsUser(from)
    requires Moved(m, m', from, to, amount)
    ensures var out := b.ext[from := At(b.ext, from) - amount];
      var b' := b.(ext := out[to := At(out, to) + amount]);
      Core(b') && Reconciled(b', m')
  {
    hide Core, SumRequests, SumServices;
    var out := b.ext[from := At(b.ext, from) - amount];
    var b' := b.(ext := out[to := At(out, to) + amount]);
    CoreSame(b, b');
    forall a ensures Agrees(b', m', a) {
      assert Agrees(b, m, a);
    }
  }
}
