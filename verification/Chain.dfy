/** The state machine as the code runs it: buckets that each operation rewrites step by step. */
module Chains {
  import opened Types
  import opened Addresses
  import opened Flows
  import opened Books
  import opened Machine
  import opened Ledger
  import opened Payouts
  import opened Reconciliation
  import opened Reachable

  /** What the caller of a transaction is told. */
  datatype Receipt =
    | Done
    | Created(id: u64)
    | ResultStored(finalized: bool)
    | DomainClosed(deactivated: seq<u64>, voided: seq<u64>)

  class Chain {
    var height: int
    var params: Params
    var authority: Address
    var balances: Balances
    var nonces: map<Address, u64>
    var services: map<u64, Service>
    var svcByName: map<string, u64>
    var requests: map<u64, Request>
    var domains: map<u64, Domain>
    var nextSvc: u64
    var nextReq: u64
    var nextDom: u64
    ghost var ext: map<Address, int>
    ghost var forfeits: map<u64, int>
    ghost var minted: int

    /** The chain's records, without the balances. */
    ghost function View(): Book
      reads this`height, this`params, this`authority, this`nonces, this`services, this`svcByName
      reads this`requests, this`domains, this`nextSvc, this`nextReq, this`nextDom
      reads this`ext, this`forfeits, this`minted
    {
      Book(height, params, authority, nonces, services, svcByName, requests, domains,
           nextSvc, nextReq, nextDom, ext, forfeits, minted)
    }

    /** The records are sound and agree with the balances `m`, which the current ones only
        redistribute: money has been moved that no record shows yet. */
    ghost predicate InFlight(m: Balances)
      reads this
    {
      Core(View()) && Reconciled(View(), m) && Total(balances) == minted < TWO64
    }

    ghost predicate Sound()
      reads this
    {
      InFlight(balances)
    }

    ghost predicate Valid()
      reads this
    {
      Sound() && Room(View())
    }

    // The ledger.

    method Debit(addr: Address, amount: u64) returns (ok: bool)
      modifies this`balances
      ensures ok <==> amount <= Bal(old(balances), addr)
      ensures !ok ==> balances == old(balances)
      ensures ok ==> forall a :: Bal(balances, a) == Bal(old(balances), a) - Post(addr, a, amount)
      ensures ok ==> Total(balances) == Total(old(balances)) - amount
    {
      if amount == 0 {
        return true;
      }
      var balance := Bal(balances, addr);
      if balance < amount {
        return false;
      }
      TotalPut(balances, addr, balance - amount);
      balances := balances[addr := balance - amount];
      ok := true;
    }

    /** Adds in 64 bits. Money is created exactly as told if and only if the new balance fits, which it
        does whenever the whole supply does. */
    method Credit(addr: Address, amount: u64)
      modifies this`balances
      ensures forall a :: a != addr ==> Bal(balances, a) == Bal(old(balances), a)
      ensures Bal(balances, addr) == Wrap(Bal(old(balances), addr) + amount)
      ensures Total(balances) == Total(old(balances)) + amount <==> Bal(old(balances), addr) + amount < TWO64
      ensures Total(old(balances)) + amount < TWO64 ==>
        && Total(balances) == Total(old(balances)) + amount
        && forall a :: Bal(balances, a) == Bal(old(balances), a) + Post(addr, a, amount)
    {
      if amount == 0 {
        return;
      }
      var balance := Wrap(Bal(balances, addr) + amount);
      TotalPut(balances, addr, balance);
      BalanceWithinTotal(balances, addr);
      balances := balances[addr := balance];
    }

    /** A debit followed by the credit of the same amount. */
    method Move(from: Address, to: Address, amount: u64) returns (ok: bool)
      requires Total(balances) < TWO64
      modifies this`balances
      ensures ok <==> amount <= Bal(old(balances), from)
      ensures !ok ==> balances == old(balances)
      ensures ok ==> forall a ::
        Bal(balances, a) == Bal(old(balances), a) - Post(from, a, amount) + Post(to, a, amount)
      ensures Total(balances) == Total(old(balances))
    {
      ok := Debit(from, amount);
      if ok {
        Credit(to, amount);
      }
    }

    /** Pays a bond out of escrow, unless it is zero. */
    method Release(to: Address, bond: u64) returns (ok: bool)
      requires Total(balances) < TWO64
      modifies this`balances
      ensures ok <==> bond <= Bal(old(balances), ESCROW)
      ensures !ok ==> balances == old(balances)
      ensures ok ==> forall a ::
        Bal(balances, a) == Bal(old(balances), a) - Post(ESCROW, a, bond) + Post(to, a, bond)
      ensures Total(balances) == Total(old(balances))
    {
      ok := true;
      if bond > 0 {
        ok := Move(ESCROW, to, bond);
      }
    }

    // The record stores. Nothing here moves money; `View` says what each write changes.

    method PutRequest(req: Request)
      modifies this`requests
      ensures View() == old(View()).(requests := old(View()).requests[req.id := req])
    {
      requests := requests[req.id := req];
    }

    method PutService(svc: Service)
      modifies this`services, this`svcByName
      ensures View() == old(View()).(services := old(View()).services[svc.id := svc],
                                     svcByName := old(View()).svcByName[svc.name := svc.id])
    {
      services := services[svc.id := svc];
      svcByName := svcByName[svc.name := svc.id];
    }

    method PutDomain(d: Domain)
      modifies this`domains
      ensures View() == old(View()).(domains := old(View()).domains[d.id := d])
    {
      domains := domains[d.id := d];
    }

    method TakeRequestId() returns (id: u64)
      modifies this`nextReq
      ensures id == old(nextReq) && View() == old(View()).(nextReq := Wrap(id + 1))
    {
      id := nextReq;
      nextReq := Wrap(id + 1);
    }

    method TakeServiceId() returns (id: u64)
      modifies this`nextSvc
      ensures id == old(nextSvc) && View() == old(View()).(nextSvc := Wrap(id + 1))
    {
      id := nextSvc;
      nextSvc := Wrap(id + 1);
    }

    /** Stores a changed open record whose new stake has been locked. */
    method PutLocked(req: Request, ghost m: Balances)
      requires InFlight(m) && req.id in requests && RequestOk(services, req, req.id)
      requires req.serviceId == requests[req.id].serviceId && Paid(View(), req.id, req, m, balances)
      modifies this`requests
      ensures Sound() && View() == old(View()).(requests := old(View()).requests[req.id := req])
    {
      hide Core, Reconciled, Paid, RequestOk;
      PutReconciles(View(), req.id, req, m, balances);
      PutRequest(req);
    }

    /** Stores a new request whose escrow has been locked. */
    method AddRequest(req: Request, ghost m: Balances)
      requires InFlight(m) && nextReq < TWO64 - 1 && RequestOk(services, req, nextReq)
      requires req.status == Pending && req.challenges == []
      requires Moved(m, balances, req.requester, ESCROW, req.escrow.amount)
      modifies this`requests, this`nextReq
      ensures Sound() && View() == old(View()).(
        requests := old(View()).requests[old(nextReq) := req], nextReq := old(nextReq) + 1)
    {
      hide Core, Reconciled, Moved, Shape, Parties;
      NewRequestReconciles(View(), req, m, balances);
      var id := TakeRequestId();
      PutRequest(req);
    }

    /** Stores a new service whose registration bond has been locked. */
    method AddService(svc: Service, ghost m: Balances)
      requires InFlight(m) && nextSvc < TWO64 - 1 && ServiceOk(svc, nextSvc) && svc.name !in svcByName
      requires Moved(m, balances, svc.owner, ESCROW, svc.bond.amount)
      modifies this`services, this`svcByName, this`nextSvc
      ensures Sound() && View() == old(View()).(
        services := old(View()).services[old(nextSvc) := svc],
        svcByName := old(View()).svcByName[svc.name := old(nextSvc)], nextSvc := old(nextSvc) + 1)
    {
      hide Core, Reconciled, Moved;
      NewServiceReconciles(View(), svc, m, balances);
      var id := TakeServiceId();
      PutService(svc);
    }

    /** Stores a service taken offline, whose bond has been released or forfeited. */
    method PutRetired(svc: Service, forfeit: bool, ghost m: Balances)
      requires InFlight(m) && svc.id in services && svc == Retired(services[svc.id])
      requires Moved(m, balances, ESCROW, if forfeit then TREASURY else svc.owner, services[svc.id].bond.amount)
      modifies this`services, this`svcByName, this`forfeits
      ensures Sound() && View() == Retire(old(View()), svc.id, forfeit)
      ensures svcByName == old(svcByName) && (!forfeit ==> forfeits == old(forfeits))
    {
      hide Core, Reconciled, Moved;
      ghost var b := View();
      RetireReconciles(b, svc.id, forfeit, m, balances);
      if forfeit {
        forfeits := forfeits[svc.id := At(forfeits, svc.id) + services[svc.id].bond.amount];
      }
      PutService(svc);
      assert svcByName == b.svcByName;
    }

    /** What an account may spend. */
    lemma Spendable(a: Address)
      requires Sound()
      ensures InFlight(balances) && Funds(View(), a) == Bal(balances, a)
    {
      hide Core, Funds;
      SignerHolds(View(), balances, a);
    }

    // Settlement.

    /** Concludes a settlement: the payouts are made, the ended record is stored. */
    method PutEnded(r: Request, ended: Request, ghost v: Verdict, ghost m: Balances)
      requires InFlight(m) && r.id in requests && requests[r.id] == r && r.status.IsOpen() && v != Keep
      requires ended == Settled(r, v, height) && Shape(ended)
      requires PaysOut(r, v, height, OwnerIn(services, r.serviceId), m, balances)
      modifies this`requests
      ensures Sound()
      ensures View() == old(View()).(requests := old(View()).requests[r.id := Settled(r, v, height)])
    {
      hide Core, Reconciled, PaysOut, Shape;
      SettlementReconciles(View(), r.id, v, m, balances);
      PutRequest(ended);
    }

    method RefundExpired(r: Request) returns (ok: bool)
      requires Sound() && r.id in requests && requests[r.id] == r && r.status == Pending
      modifies this`balances, this`requests
      ensures ok && Sound()
      ensures View() == old(View()).(requests := old(View()).requests[r.id := Settled(r, Refund, height)])
    {
      hide Core, Reconciled, PaidOut;
      ghost var m, owner := balances, OwnerIn(services, r.serviceId);
      EscrowPays(View(), m, r.id);
      ok := Move(ESCROW, r.requester, r.escrow.amount);
      if !ok {
        return;
      }
      forall a
        ensures Bal(balances, a) - Bal(m, a)
             == PaidOut(Settled(r, Refund, height), owner, a) - Post(ESCROW, a, Locked(r))
      {
        RefundPayout(r, height, owner, a);
      }
      PutEnded(r, r.(status := Refunded, finalizedAt := height), Refund, m);
    }

    method FinalizeUndisputed(r: Request) returns (ok: bool)
      requires Sound() && r.id in requests && requests[r.id] == r && r.status == Submitted
      modifies this`balances, this`requests
      ensures ok && Sound()
      ensures View() == old(View()).(requests := old(View()).requests[r.id := Settled(r, Finalize, height)])
    {
      hide Core, Reconciled, PaidOut;
      ghost var m := balances;
      EscrowPays(View(), m, r.id);
      if r.serviceId !in services {
        return false;
      }
      var svc := services[r.serviceId];
      ok := Move(ESCROW, svc.owner, r.escrow.amount);
      if !ok {
        return;
      }
      ok := Release(svc.owner, r.BondAmount());
      if !ok {
        return;
      }
      forall a
        ensures Bal(balances, a) - Bal(m, a)
             == PaidOut(Settled(r, Finalize, height), svc.owner, a) - Post(ESCROW, a, Locked(r))
      {
        FinalizePayout(r, height, svc.owner, a);
      }
      PutEnded(r, r.(status := Finalized, finalizedAt := height, paid := Some(r.escrow)), Finalize, m);
    }

    /** Forfeits the supporters' bonds to the treasury and returns the opponents'. */
    method ResolveVoucherBonds(vs: seq<Voucher>) returns (ok: bool)
      requires Total(balances) < TWO64 && Bal(balances, ESCROW) >= Bonds(vs)
      requires forall v :: v in vs ==> IsUser(v.voucher)
      modifies this`balances
      ensures ok && Total(balances) == Total(old(balances))
      ensures forall a :: Bal(balances, a) == Bal(old(balances), a) + Resolved(vs, |vs|, a)
    {
      ok := true;
      for i := 0 to |vs|
        invariant ok && Total(balances) == Total(old(balances))
        invariant forall a :: Bal(balances, a) == Bal(old(balances), a) + Resolved(vs, i, a)
      {
        ResolvedAtEscrow(vs, i);
        ghost var m := balances;
        ok := Release(if vs[i].supportsProvider then TREASURY else vs[i].voucher, vs[i].bond.amount);
        if !ok {
          return;
        }
        forall a
          ensures Bal(balances, a) == Bal(old(balances), a) + Resolved(vs, i + 1, a)
        {
          assert Bal(m, a) == Bal(old(balances), a) + Resolved(vs, i, a);
          ResolvedStep(vs, i, a);
        }
      }
    }

    /** Returns every voucher's bond. */
    method ReturnVoucherBonds(vs: seq<Voucher>) returns (ok: bool)
      requires Total(balances) < TWO64 && Bal(balances, ESCROW) >= Bonds(vs)
      requires forall v :: v in vs ==> IsUser(v.voucher)
      modifies this`balances
      ensures ok && Total(balances) == Total(old(balances))
      ensures forall a :: Bal(balances, a) == Bal(old(balances), a) + Returned(vs, |vs|, a)
    {
      ok := true;
      for i := 0 to |vs|
        invariant ok && Total(balances) == Total(old(balances))
        invariant forall a :: Bal(balances, a) == Bal(old(balances), a) + Returned(vs, i, a)
      {
        ReturnedAtEscrow(vs, i);
        ghost var m := balances;
        ok := Release(vs[i].voucher, vs[i].bond.amount);
        if !ok {
          return;
        }
        forall a
          ensures Bal(balances, a) == Bal(old(balances), a) + Returned(vs, i + 1, a)
        {
          assert Bal(m, a) == Bal(old(balances), a) + Returned(vs, i, a);
          ReturnedStep(vs, i, a);
        }
      }
    }

    /** Splits the pool: the owner takes one share and the remainder, each supporter one share. */
    method SplitPool(owner: Address, vs: seq<Voucher>, pool: u64) returns (ok: bool)
      requires Total(balances) < TWO64 && Bal(balances, ESCROW) >= pool
      modifies this`balances
      ensures ok && Total(balances) == Total(old(balances))
      ensures forall a ::
        Bal(balances, a)
        == Bal(old(balances), a) - Post(ESCROW, a, pool) + Post(owner, a, pool - pool / (|vs| + 1) * |vs|)
           + Rewarded(vs, pool / (|vs| + 1), |vs|, a)
    {
      ok := true;
      SplitIsExact(pool, |vs|);
      var recipients := |vs| + 1;
      var share := pool / recipients;
      if pool > 0 {
        var remainder := pool - share * recipients;
        ok := Debit(ESCROW, pool);
        if !ok {
          return;
        }
        Credit(owner, share + remainder);
        PayShares(vs, share);
      }
    }

    method PayShares(vs: seq<Voucher>, share: u64)
      requires Total(balances) + share * |vs| < TWO64
      modifies this`balances
      ensures Total(balances) == Total(old(balances)) + share * |vs|
      ensures forall a :: Bal(balances, a) == Bal(old(balances), a) + Rewarded(vs, share, |vs|, a)
    {
      for i := 0 to |vs|
        invariant Total(balances) == Total(old(balances)) + share * i
        invariant forall a :: Bal(balances, a) == Bal(old(balances), a) + Rewarded(vs, share, i, a)
      {
        ghost var m := balances;
        ShareStep(share, i, |vs|);
        Credit(vs[i].voucher, share);
        forall a
          ensures Bal(balances, a) == Bal(old(balances), a) + Rewarded(vs, share, i + 1, a)
        {
          assert Bal(m, a) == Bal(old(balances), a) + Rewarded(vs, share, i, a);
          RewardedStep(vs, share, i, a);
        }
      }
    }

    /** Refunds the requester, pays both main bonds to the challenger and resolves the vouchers'. */
    method PaySlash(r: Request, ghost owner: Address, ghost h: int) returns (ok: bool)
      requires Payable(r, owner, balances) && r.status == Challenged
      modifies this`balances
      ensures ok && Total(balances) == Total(old(balances))
      ensures PaysOut(r, Slash, h, owner, old(balances), balances)
    {
      hide PaidOut, Resolved, Bonds;
      var challenge := r.challenges[0];
      ok := Move(ESCROW, r.requester, r.escrow.amount);
      if !ok {
        return;
      }
      ok := Release(challenge.challenger, r.BondAmount());
      if !ok {
        return;
      }
      ok := Release(challenge.challenger, challenge.bond.amount);
      if !ok {
        return;
      }
      ok := ResolveVoucherBonds(r.vouchers);
      if !ok {
        return;
      }
      forall a
        ensures Bal(balances, a) - Bal(old(balances), a)
             == PaidOut(Settled(r, Slash, h), owner, a) - Post(ESCROW, a, Locked(r))
      {
        SlashPayout(r, h, owner, a);
      }
    }

    method ExecuteSlash(r: Request) returns (ok: bool)
      requires Sound() && r.id in requests && requests[r.id] == r && r.status == Challenged
      modifies this`balances, this`requests
      ensures ok && Sound()
      ensures View() == old(View()).(requests := old(View()).requests[r.id := Settled(r, Slash, height)])
    {
      hide Core, Reconciled, Payable, PaysOut;
      ghost var m := balances;
      EscrowPays(View(), m, r.id);
      ShapeOf(View(), r.id);
      if r.serviceId !in services {
        return false;
      }
      ok := PaySlash(r, services[r.serviceId].owner, height);
      if !ok {
        return;
      }
      PutEnded(r, r.(status := Slashed, finalizedAt := height), Slash, m);
    }

    /** Returns the supporters' bonds and splits what the losing side staked. */
    method PayWinners(r: Request, owner: Address) returns (ok: bool)
      requires Total(balances) < TWO64 && Shape(r) && r.status == Challenged
      requires Bal(balances, ESCROW) >= r.ChallengeAmount() + Bonds(r.vouchers)
      requires forall v :: v in r.vouchers ==> IsUser(v.voucher)
      modifies this`balances
      ensures ok && Total(balances) == Total(old(balances))
      ensures forall a ::
        Bal(balances, a)
        == Bal(old(balances), a) - Post(ESCROW, a, RewardPool(r)) + Post(owner, a, OwnerCut(r))
           + Returned(Supporters(r.vouchers), |Supporters(r.vouchers)|, a)
           + Rewarded(Supporters(r.vouchers), Share(r), |Supporters(r.vouchers)|, a)
    {
      hide PayAt, Bonds, Supporters, Opponents, Returned, Rewarded, RequestOk;
      SidesPartition(r.vouchers, ESCROW);
      SideMembers(r.vouchers);
      BalanceWithinTotal(balances, ESCROW);
      var supporters, lost := SplitVouchers(r.vouchers);
      var pool: u64 := Wrap(r.challenges[0].bond.amount + lost);
      ok := ReturnVoucherBonds(supporters);
      if !ok {
        return;
      }
      ReturnedAtEscrow(supporters, |supporters|);
      ok := SplitPool(owner, supporters, pool);
    }

    /** Pays the owner the escrow and the bond, and the winners what the others lost. */
    method PayDismiss(r: Request, owner: Address, ghost h: int) returns (ok: bool)
      requires Payable(r, owner, balances) && r.status == Challenged
      modifies this`balances
      ensures ok && Total(balances) == Total(old(balances))
      ensures PaysOut(r, Dismiss, h, owner, old(balances), balances)
    {
      hide PaidOut, Returned, Rewarded, Bonds, RewardPool, Share, OwnerCut, Supporters;
      ok := Move(ESCROW, owner, r.escrow.amount);
      if !ok {
        return;
      }
      ok := Release(owner, r.BondAmount());
      if !ok {
        return;
      }
      ok := PayWinners(r, owner);
      if !ok {
        return;
      }
      forall a
        ensures Bal(balances, a) - Bal(old(balances), a)
             == PaidOut(Settled(r, Dismiss, h), owner, a) - Post(ESCROW, a, Locked(r))
      {
        DismissPayout(r, h, owner, a);
      }
    }

    method ExecuteDismiss(r: Request) returns (ok: bool)
      requires Sound() && r.id in requests && requests[r.id] == r && r.status == Challenged
      modifies this`balances, this`requests
      ensures ok && Sound()
      ensures View() == old(View()).(requests := old(View()).requests[r.id := Settled(r, Dismiss, height)])
    {
      hide Core, Reconciled, Payable, PaysOut;
      ghost var m := balances;
      EscrowPays(View(), m, r.id);
      ShapeOf(View(), r.id);
      if r.serviceId !in services {
        return false;
      }
      ok := PayDismiss(r, services[r.serviceId].owner, height);
      if !ok {
        return;
      }
      PutEnded(r, r.(status := Finalized, finalizedAt := height, paid := Some(r.escrow)), Dismiss, m);
    }

    /** Collects the provider-side vouchers and adds up the other side's bonds, in 64 bits. */
    method SplitVouchers(vs: seq<Voucher>) returns (supporters: seq<Voucher>, lost: u64)
      requires Bonds(vs) < TWO64
      ensures supporters == Supporters(vs) && lost == Bonds(Opponents(vs))
    {
      hide Supporters, Opponents, Bonds;
      supporters, lost := [], 0;
      NoVouchers();
      assert vs[..0] == [];
      for i := 0 to |vs|
        invariant supporters == Supporters(vs[..i]) && lost == Bonds(Opponents(vs[..i])) <= Bonds(vs[..i])
      {
        SplitStep(vs, i);
        BondsPrefix(vs, i);
        if vs[i].supportsProvider {
          supporters := supporters + [vs[i]];
        } else {
          lost := Wrap(lost + vs[i].bond.amount);
        }
      }
      assert vs[..|vs|] == vs;
    }

    /** Returns every stake of an open request to the account that put it in. */
    method PayBack(r: Request, owner: Address, ghost h: int) returns (ok: bool)
      requires Payable(r, owner, balances)
      modifies this`balances
      ensures ok && Total(balances) == Total(old(balances))
      ensures PaysOut(r, Refund, h, owner, old(balances), balances)
    {
      hide PaidOut, Returned, Bonds;
      ok := Move(ESCROW, r.requester, r.escrow.amount);
      if !ok {
        return;
      }
      if r.status == Submitted || r.status == Challenged {
        ok := Release(owner, r.BondAmount());
        if !ok {
          return;
        }
      }
      if r.status == Challenged && |r.challenges| > 0 {
        ok := Release(r.challenges[0].challenger, r.challenges[0].bond.amount);
        if !ok {
          return;
        }
      }
      ok := ReturnVoucherBonds(r.vouchers);
      if !ok {
        return;
      }
      forall a
        ensures Bal(balances, a) - Bal(old(balances), a)
             == PaidOut(Settled(r, Refund, h), owner, a) - Post(ESCROW, a, Locked(r))
      {
        RefundPayout(r, h, owner, a);
      }
    }

    /** Unwinds an open request of a dying domain: every stake goes back where it came from. */
    method ExecuteVoid(r: Request) returns (ok: bool)
      requires Sound() && r.id in requests && requests[r.id] == r && r.status.IsOpen()
      modifies this`balances, this`requests
      ensures ok && Sound()
      ensures View() == old(View()).(requests := old(View()).requests[r.id := Settled(r, Refund, height)])
    {
      hide Core, Reconciled, Payable, PaysOut;
      ghost var m := balances;
      EscrowPays(View(), m, r.id);
      ShapeOf(View(), r.id);
      if r.serviceId !in services {
        return false;
      }
      ok := PayBack(r, services[r.serviceId].owner, height);
      if !ok {
        return;
      }
      PutEnded(r, r.(status := Refunded, finalizedAt := height), Refund, m);
    }

    // Transactions. Each applier reports exactly what the transition system says; after an error
    // the state is the caller's to restore.

    ghost predicate Meets(want: Result<Book>, res: Result<Receipt>)
      reads this
    {
      match want
      case Ok(b) => res.Ok? && View() == b && Sound()
      case Err(e) => res == Err(e)
    }

    method ApplyRegisterService(signer: Address, m: Msg) returns (res: Result<Receipt>)
      requires Valid() && IsUser(signer) && m.RegisterService?
      modifies this`balances, this`services, this`svcByName, this`nextSvc
      ensures Meets(Machine.ApplyRegisterService(old(View()), signer, m), res)
      ensures res.Ok? ==> res.value == Created(old(nextSvc))
    {
      hide Core, Reconciled, Funds, Bal, Total;
      ghost var before := balances;
      Spendable(signer);
      :- Need(m.owner == signer, PartyNotSigner);
      :- Need(m.name != "", EmptyName);
      :- Need(m.price.IsPositive(), ZeroPrice);
      :- Need(m.name !in svcByName, DuplicateName);
      if m.domainId != 0 {
        :- Need(m.domainId in domains, DomainNotFound);
        :- Need(domains[m.domainId].active, DomainInactive);
      }
      var bond := params.registrationBond;
      if bond.IsPositive() {
        var ok := Move(signer, ESCROW, bond.amount);
        :- Need(ok, InsufficientFunds);
      }
      var id := nextSvc;
      AddService(Service(id, m.owner, m.name, m.description, m.price, m.domainId, true, height, bond), before);
      return Ok(Created(id));
    }

    method ApplyRequestInference(signer: Address, m: Msg) returns (res: Result<Receipt>)
      requires Valid() && IsUser(signer) && m.RequestInference?
      modifies this`balances, this`requests, this`nextReq
      ensures Meets(Machine.ApplyRequestInference(old(View()), signer, m), res)
      ensures res.Ok? ==> res.value == Created(old(nextReq))
    {
      hide Core, Reconciled, Funds, Post, Bal, Total;
      ghost var before := balances;
      Spendable(signer);
      :- Need(m.requester == signer, PartyNotSigner);
      :- Need(m.serviceId in services, ServiceNotFound);
      var svc := services[m.serviceId];
      :- Need(svc.active, ServiceInactive);
      :- Need(m.maxPrice.denom == svc.price.denom && m.maxPrice.amount >= svc.price.amount, InsufficientPrice);
      var deadline := m.deadline;
      if deadline == 0 {
        deadline := height + params.maxDeadline;
      }
      :- Need(deadline > height, InvalidDeadline);
      var ok := Move(signer, ESCROW, svc.price.amount);
      :- Need(ok, InsufficientFunds);
      var id := nextReq;
      AddRequest(Request(id, m.serviceId, signer, m.inputHash, m.inputUri, m.inputText, svc.price,
                         deadline, Pending, height, 0, None, None, 0, [], None, []), before);
      return Ok(Created(id));
    }

    /** Loads the service's domain and compares the attested tuple with it. */
    method CheckAttestation(svc: Service, att: Attestation) returns (o: Outcome)
      ensures o == CheckTuple(View(), svc, att)
    {
      if svc.domainId != 0 {
        if svc.domainId !in domains {
          return Fail(DomainNotFound);
        }
        var dom := domains[svc.domainId];
        if att.domainId != dom.id || att.model != dom.model || att.runtime != dom.runtime
           || att.hardware != dom.hardware || att.precision != dom.precision {
          return Fail(AttestationDomainMismatch);
        }
        if dom.tokenizer != "" && att.tokenizer != dom.tokenizer {
          return Fail(AttestationDomainMismatch);
        }
      }
      return Pass;
    }

    method ApplyTransfer(signer: Address, m: Msg) returns (res: Result<Receipt>)
      requires Valid() && IsUser(signer) && m.Transfer?
      modifies this`balances, this`ext
      ensures Meets(Machine.ApplyTransfer(old(View()), signer, m), res)
      ensures res.Ok? ==> res.value == Done
    {
      hide Core, Reconciled, Funds, Post, Bal, Total;
      ghost var b, before := View(), balances;
      SignerHolds(b, before, signer);
      :- Need(m.from == signer, PartyNotSigner);
      :- Need(m.amount != 0, ZeroPrice);
      var ok := Move(m.from, m.to, m.amount);
      :- Need(ok, InsufficientFunds);
      ext := ext[m.from := At(ext, m.from) - m.amount];
      ext := ext[m.to := At(ext, m.to) + m.amount];
      TransferReconciles(b, m.from, m.to, m.amount, before, balances);
      assert View() == b.(ext := ext);
      return Ok(Done);
    }

    method ApplyRegisterDomain(signer: Address, m: Msg) returns (res: Result<Receipt>)
      requires Valid() && m.RegisterDomain?
      modifies this`authority, this`domains, this`nextDom
      ensures Meets(Machine.ApplyRegisterDomain(old(View()), signer, m), res)
      ensures res.Ok? ==> res.value == Created(old(nextDom))
    {
      hide Core, Reconciled;
      ghost var b := View();
      var auth := authority;
      if auth == "" {
        authority := signer;
        auth := signer;
      }
      :- Need(signer == auth, Unauthorized);
      :- Need(m.authority == signer, PartyNotSigner);
      :- Need(m.model != "" && m.runtime != "" && m.hardware != "" && m.precision != "", EmptyDomainField);
      :- Need(m.margin >= 0, NegativeMargin);
      var id := nextDom;
      nextDom := Wrap(id + 1);
      domains := domains[id := Domain(id, m.model, m.runtime, m.hardware, m.precision, m.tokenizer,
                                      m.description, height, true, m.margin)];
      CoreNewDomain(b, domains[id], auth);
      assert View() == b.(authority := authority, domains := domains, nextDom := nextDom);
      SameMoney(b, View(), balances);
      return Ok(Created(id));
    }

    method ApplyUpdateService(signer: Address, m: Msg) returns (res: Result<Receipt>)
      requires Valid() && m.UpdateService?
      modifies this`services, this`svcByName
      ensures Meets(Machine.ApplyUpdateService(old(View()), signer, m), res)
      ensures res.Ok? ==> res.value == Done
    {
      hide Core, Reconciled;
      ghost var b := View();
      :- Need(m.owner == signer, PartyNotSigner);
      :- Need(m.serviceId in services, ServiceNotFound);
      var svc := services[m.serviceId];
      ServiceAt(b, m.serviceId);
      :- Need(svc.owner == signer, NotOwner);
      :- Need(svc.active, ServiceInactive);
      :- Need(m.price.IsValid() && m.price.IsPositive(), ZeroPrice);
      :- Need(!m.price.IsLT(params.minServicePrice), BelowMinPrice);
      svc := svc.(description := m.description, price := m.price);
      services := services[svc.id := svc];
      svcByName := svcByName[svc.name := svc.id];
      RepriceReconciles(b, svc.id, svc, balances);
      assert View() == b.(services := services);
      return Ok(Done);
    }

    method ApplyDeactivateService(signer: Address, m: Msg) returns (res: Result<Receipt>)
      requires Valid() && m.DeactivateService?
      modifies this`balances, this`services, this`svcByName, this`forfeits
      ensures Meets(Machine.ApplyDeactivateService(old(View()), signer, m), res)
      ensures res.Ok? ==> res.value == Done
    {
      hide Core, Reconciled, Post, Bal, Total;
      ghost var b, before := View(), balances;
      :- Need(m.owner == signer, PartyNotSigner);
      :- Need(m.serviceId in services, ServiceNotFound);
      var svc := services[m.serviceId];
      :- Need(svc.owner == signer, NotOwner);
      :- Need(svc.active, ServiceAlreadyInactive);
      EscrowReleases(b, before, m.serviceId);
      var eligibleForRefund := height - svc.createdAt >= params.minLifetime;
      var ok := Release(if eligibleForRefund then svc.owner else TREASURY, svc.bond.amount);
      if !ok {
        return Err(InsufficientFunds);
      }
      PutRetired(svc.(active := false, bond := ZERO_COIN), !eligibleForRefund, before);
      return Ok(Done);
    }

    method ApplyResolveChallenge(signer: Address, m: Msg) returns (res: Result<Receipt>)
      requires Valid() && m.ResolveChallenge?
      modifies this`balances, this`requests
      ensures Meets(Machine.ApplyResolveChallenge(old(View()), signer, m), res)
      ensures res.Ok? ==> res.value == Done
    {
      hide Reconciled, Parties, Shape;
      :- Need(authority != "" && signer == authority, Unauthorized);
      :- Need(m.authority == signer, PartyNotSigner);
      :- Need(m.requestId in requests, RequestNotFound);
      var r := requests[m.requestId];
      :- Need(r.status == Challenged, ChallengeNotApplicable);
      assert RequestOk(services, r, m.requestId);
      var ok;
      match m.decision {
        case ForProvider => ok := ExecuteDismiss(r);
        case ForChallenger => ok := ExecuteSlash(r);
        case Unknown => return Err(InvalidDecision);
      }
      if !ok {
        return Err(InsufficientFunds);
      }
      return Ok(Done);
    }

    method ApplySubmitResult(signer: Address, m: Msg) returns (res: Result<Receipt>)
      requires Valid() && IsUser(signer) && m.SubmitResult?
      modifies this`balances, this`requests
      ensures Meets(Machine.ApplySubmitResult(old(View()), signer, m), res)
      ensures res.Ok? ==> res.value == ResultStored(old(params).challengeWindow == 0)
    {
      hide Core, Reconciled, Funds, Paid, Parties, Shape, Bal, Total;
      ghost var before := balances;
      Spendable(signer);
      :- Need(m.provider == signer, PartyNotSigner);
      :- Need(m.requestId in requests, RequestNotFound);
      var req := requests[m.requestId];
      :- Need(req.status == Pending, RequestNotPending);
      :- Need(req.serviceId in services, ServiceNotFound);
      var svc := services[req.serviceId];
      :- Need(signer == svc.owner, WrongProvider);
      :- Need(m.result.attestation.inputHash == req.inputHash, InputHashMismatch);
      :- Need(height <= req.deadline, InvalidDeadline);
      var o := CheckAttestation(svc, m.result.attestation);
      :- o;
      PendingAt(View(), before, m.requestId);
      if params.providerBond.IsPositive() {
        var ok := Move(signer, ESCROW, params.providerBond.amount);
        :- Need(ok, InsufficientFunds);
        req := req.(providerBond := Some(params.providerBond));
      }
      req := req.(result := Some(m.result), status := Submitted, submittedAt := height);
      ghost var submitted := req;
      var finalized := false;
      if params.challengeWindow == 0 {
        var ok := Move(ESCROW, signer, req.escrow.amount);
        if !ok {
          return Err(InsufficientFunds);
        }
        ok := Release(signer, req.BondAmount());
        if !ok {
          return Err(InsufficientFunds);
        }
        req := req.(status := Finalized, finalizedAt := height, paid := Some(req.escrow));
        finalized := true;
      }
      SubmitPaid(View(), m.requestId, submitted, req, before, balances);
      PutLocked(req, before);
      return Ok(ResultStored(finalized));
    }

    method ApplyChallenge(signer: Address, m: Msg) returns (res: Result<Receipt>)
      requires Valid() && IsUser(signer) && m.FileChallenge?
      modifies this`balances, this`requests
      ensures Meets(Machine.ApplyChallenge(old(View()), signer, m), res)
      ensures res.Ok? ==> res.value == Done
    {
      hide Core, Reconciled, Funds, Paid, Parties, Shape, Post, Bal, Total;
      ghost var before := balances;
      Spendable(signer);
      :- Need(m.challenger == signer, PartyNotSigner);
      :- Need(m.requestId in requests, RequestNotFound);
      var req := requests[m.requestId];
      :- Need(req.status == Submitted, ChallengeNotApplicable);
      :- Need(height <= req.submittedAt + params.challengeWindow, ChallengeWindowClosed);
      :- Need(m.attestation.inputHash == req.inputHash, InputHashMismatch);
      :- Need(req.result.Some?, MissingResult);
      :- Need(m.attestation.outputHash != req.result.value.outputHash, ChallengeOutputMatches);
      :- Need(req.serviceId in services, ServiceNotFound);
      var o := CheckAttestation(services[req.serviceId], m.attestation);
      :- o;
      var ok := Move(signer, ESCROW, params.challengerBond.amount);
      :- Need(ok, InsufficientFunds);
      var c := Challenge(signer, height, m.attestation, params.challengerBond);
      req := req.(challenges := req.challenges + [c], status := Challenged);
      ChallengePaid(View(), m.requestId, c, before, balances);
      PutLocked(req, before);
      return Ok(Done);
    }

    /** Scans the services in id order for an active one of this owner and domain. */
    method VoucherEligible(owner: Address, domainId: u64) returns (eligible: bool)
      requires IdsOk(View())
      ensures eligible <==> Eligible(View(), owner, domainId)
    {
      if domainId == 0 {
        return true;
      }
      for k := 1 to nextSvc
        invariant forall j: u64 :: 1 <= j < k ==>
          !(services[j].owner == owner && services[j].domainId == domainId && services[j].active)
      {
        if services[k].owner == owner && services[k].domainId == domainId && services[k].active {
          return true;
        }
      }
      return false;
    }

    method ApplyVouch(signer: Address, m: Msg) returns (res: Result<Receipt>)
      requires Valid() && IsUser(signer) && m.Vouch?
      modifies this`balances, this`requests
      ensures Meets(Machine.ApplyVouch(old(View()), signer, m), res)
      ensures res.Ok? ==> res.value == Done
    {
      hide IdsOk, IndexOk, ServicesOk, RequestsOk, Reconciled, Funds, Paid, Parties, Shape, Eligible, Post, Bal, Total;
      ghost var before := balances;
      Spendable(signer);
      :- Need(m.voucher == signer, PartyNotSigner);
      :- Need(m.requestId in requests, RequestNotFound);
      var req := requests[m.requestId];
      :- Need(req.status == Challenged, VouchNotApplicable);
      :- Need(|req.challenges| != 0 && req.result.Some?, MissingResult);
      :- Need(m.attestation.inputHash == req.inputHash, InputHashMismatch);
      :- Need(req.serviceId in services, ServiceNotFound);
      var svc := services[req.serviceId];
      var o := CheckAttestation(svc, m.attestation);
      :- o;
      var eligible := VoucherEligible(signer, svc.domainId);
      :- Need(eligible, VouchNotEligible);
      var hash := m.attestation.outputHash;
      var forProvider := hash == req.result.value.outputHash;
      :- Need(forProvider || hash == req.challenges[0].attestation.outputHash, VouchHashMismatch);
      var duplicate := false;
      for i := 0 to |req.vouchers|
        invariant duplicate <==> exists j :: 0 <= j < i && req.vouchers[j].voucher == signer
      {
        if req.vouchers[i].voucher == signer {
          duplicate := true;
        }
      }
      :- Need(!duplicate, VouchDuplicate);
      :- Need(height <= req.challenges[0].postedAt + RESOLUTION_WINDOW, VouchWindowClosed);
      var bond := VoucherBond(params, req);
      var ok := Move(signer, ESCROW, bond.amount);
      :- Need(ok, InsufficientFunds);
      var v := Voucher(signer, height, m.attestation, bond, forProvider);
      req := req.(vouchers := req.vouchers + [v]);
      VouchPaid(View(), m.requestId, v, before, balances);
      PutLocked(req, before);
      return Ok(Done);
    }

    // The domain cascade.

    /** Pass 1: the ids of the domain's services, active or not. */
    method ServicesOf(d: u64) returns (ids: seq<u64>)
      requires Core(View())
      ensures Ascending(ids)
      ensures forall k :: k in ids <==> k in services && services[k].domainId == d
    {
      hide IndexOk, RequestsOk;
      ids := [];
      for k := 1 to nextSvc
        invariant Ascending(ids) && forall j :: j in ids <==> 1 <= j < k && services[j].domainId == d
      {
        assert ServiceOk(services[k], k);
        AscendingAppend(ids, k);
        if services[k].domainId == d {
          ids := ids + [services[k].id];
        }
      }
    }

    /** Takes one service offline, if it is active, and refunds its bond in full. */
    method RetireOne(sid: u64) returns (ok: bool, wasActive: bool)
      requires Sound() && sid in services
      modifies this`balances, this`services, this`svcByName, this`forfeits
      ensures ok && Sound() && wasActive == old(services)[sid].active
      ensures View() == if wasActive then Retire(old(View()), sid, false) else old(View())
    {
      hide Core, Reconciled;
      ghost var b, m := View(), balances;
      var svc := services[sid];
      if !svc.active {
        return true, false;
      }
      EscrowReleases(b, m, sid);
      ok := Release(svc.owner, svc.bond.amount);
      wasActive := true;
      if !ok {
        return;
      }
      PutRetired(svc.(active := false, bond := ZERO_COIN), false, m);
    }

    /** Pass 2: takes every active one of the services offline. */
    method RetireAll(ids: seq<u64>) returns (ok: bool, retired: seq<u64>)
      requires Sound() && Ascending(ids) && forall k :: k in ids ==> k in services
      modifies this`balances, this`services, this`svcByName, this`forfeits
      ensures ok && Sound()
      ensures View() == old(View()).(services := RetiredIn(old(View()).services, ids))
      ensures Ascending(retired)
      ensures forall k :: k in retired <==> k in ids && old(services)[k].active
    {
      hide Sound, RetiredIn;
      RetiredInNone(services, ids);
      ok, retired := true, [];
      for i := 0 to |ids|
        invariant ok && Sound()
        invariant View() == old(View()).(services := RetiredIn(old(View()).services, ids[..i]))
        invariant Ascending(retired) && forall k :: k in retired <==> k in ids[..i] && old(services)[k].active
      {
        AscendingPrefix(ids, i);
        AscendingAppend(retired, ids[i]);
        RetiredInStep(old(services), ids, i);
        var wasActive;
        ok, wasActive := RetireOne(ids[i]);
        if !ok {
          return;
        }
        if wasActive {
          retired := retired + [ids[i]];
        }
      }
      assert ids[..|ids|] == ids;
    }

    /** Pass 3: the open requests of the affected services. */
    method OpenRequestsOf(affected: seq<u64>) returns (rs: seq<Request>)
      requires Core(View())
      ensures Listed(rs, requests)
      ensures forall k :: k in requests ==>
        (requests[k] in rs <==> requests[k].serviceId in affected && requests[k].status.IsOpen())
    {
      hide IndexOk, ServicesOk;
      rs := [];
      for k := 1 to nextReq
        invariant Listed(rs, requests) && forall r :: r in rs ==> r.id < k
        invariant forall j: u64 :: 1 <= j < k ==>
          (requests[j] in rs <==> requests[j].serviceId in affected && requests[j].status.IsOpen())
      {
        assert RequestOk(services, requests[k], k);
        var r := requests[k];
        if r.serviceId in affected && r.status.IsOpen() {
          rs := rs + [r];
        }
      }
    }

    method VoidAll(rs: seq<Request>) returns (ok: bool)
      requires Sound() && Listed(rs, requests) && forall r :: r in rs ==> r.status.IsOpen()
      modifies this`balances, this`requests
      ensures ok && Sound()
      ensures View() == old(View()).(requests := SettleListed(old(View()).requests, rs, Refund, height))
    {
      hide Core, Reconciled, SettleListed, Settled;
      ok := true;
      StoredUnderOwnId(View());
      SettleListedEnds(requests, rs, Refund, height);
      for i := 0 to |rs|
        invariant ok && Sound()
        invariant View() == old(View()).(requests := SettleListed(old(View()).requests, rs[..i], Refund, height))
      {
        SettleListedStep(old(requests), rs, i, Refund, height);
        ok := ExecuteVoid(rs[i]);
        if !ok {
          return;
        }
      }
    }

    method ApplyDeactivateDomain(signer: Address, m: Msg) returns (res: Result<Receipt>)
      requires Valid() && m.DeactivateDomain?
      modifies this`balances, this`domains, this`services, this`svcByName, this`requests, this`forfeits
      ensures Meets(Machine.ApplyDeactivateDomain(old(View()), signer, m), res)
      ensures res.Ok? ==> ClosedExactly(old(View()), m.domainId, res.value)
    {
      hide Core, Reconciled, Listed;
      ghost var b := View();
      :- Need(authority != "" && signer == authority, Unauthorized);
      :- Need(m.authority == signer, PartyNotSigner);
      :- Need(m.domainId in domains, DomainNotFound);
      var d := domains[m.domainId];
      :- Need(d.active, DomainInactive);
      DomainAt(b, m.domainId);
      PutDomain(d.(active := false));
      CoreCloses(b, m.domainId);
      SameMoney(b, View(), balances);
      var affected := ServicesOf(d.id);
      var ok, retired := RetireAll(affected);
      if !ok {
        return Err(InsufficientFunds);
      }
      var toVoid := OpenRequestsOf(affected);
      var voided := IdsOf(toVoid);
      OpenOnes(toVoid, requests, affected);
      ok := VoidAll(toVoid);
      if !ok {
        return Err(InsufficientFunds);
      }
      CascadeIsExact(b, m.domainId, affected, retired, toVoid, voided);
      return Ok(DomainClosed(retired, voided));
    }

    // Blocks.

    /** Counts the two sides of a dispute. */
    method CountVotes(vs: seq<Voucher>) returns (forProvider: int, forChallenger: int)
      ensures forProvider == |Supporters(vs)| && forChallenger == |Opponents(vs)|
    {
      forProvider, forChallenger := 0, 0;
      for i := 0 to |vs|
        invariant forProvider == |Supporters(vs[..i])| && forChallenger == |Opponents(vs[..i])|
      {
        assert vs[..i + 1] == vs[..i] + [vs[i]];
        SidesAppend(vs[..i], vs[i]);
        if vs[i].supportsProvider {
          forProvider := forProvider + 1;
        } else {
          forChallenger := forChallenger + 1;
        }
      }
      assert vs[..|vs|] == vs;
    }

    /** What the block at the current height does to one request. */
    method Judge(r: Request) returns (v: Verdict)
      ensures v == Due(View(), r)
    {
      v := Keep;
      match r.status {
        case Pending =>
          if height > r.deadline {
            v := Refund;
          }
        case Submitted =>
          if height > r.submittedAt + params.challengeWindow {
            v := Finalize;
          }
        case Challenged =>
          if |r.challenges| == 0 || height <= r.challenges[0].postedAt + RESOLUTION_WINDOW {
            return;
          }
          var forProvider, forChallenger := CountVotes(r.vouchers);
          var margin := params.voucherMargin;
          if r.serviceId in services && services[r.serviceId].domainId != 0 {
            var d := services[r.serviceId].domainId;
            if d in domains && domains[d].margin > 0 {
              margin := domains[d].margin;
            }
          }
          v := if forProvider > 0 && forProvider - forChallenger >= margin then Dismiss else Slash;
        case _ =>
      }
    }

    /** The cursor loop: one pass over the requests in id order fills the four lists. */
    method Scan() returns (toRefund: seq<Request>, toFinalize: seq<Request>, toSlash: seq<Request>, toDismiss: seq<Request>)
      requires Core(View())
      ensures DueList(View(), toRefund, Refund) && DueList(View(), toFinalize, Finalize)
      ensures DueList(View(), toSlash, Slash) && DueList(View(), toDismiss, Dismiss)
    {
      hide IndexOk, ServicesOk, RequestsOk, Due;
      toRefund, toFinalize, toSlash, toDismiss := [], [], [], [];
      StoredUnderOwnId(View());
      for k := 1 to nextReq
        invariant DueBefore(View(), toRefund, Refund, k) && DueBefore(View(), toFinalize, Finalize, k)
        invariant DueBefore(View(), toSlash, Slash, k) && DueBefore(View(), toDismiss, Dismiss, k)
      {
        var r := requests[k];
        var v := Judge(r);
        DueBeforeStep(View(), toRefund, Refund, k);
        DueBeforeStep(View(), toFinalize, Finalize, k);
        DueBeforeStep(View(), toSlash, Slash, k);
        DueBeforeStep(View(), toDismiss, Dismiss, k);
        match v {
          case Refund => toRefund := toRefund + [r];
          case Finalize => toFinalize := toFinalize + [r];
          case Slash => toSlash := toSlash + [r];
          case Dismiss => toDismiss := toDismiss + [r];
          case Keep =>
        }
      }
    }

    /** One of the four settlement loops: ends every listed request with the list's verdict. */
    method SettleEach(rs: seq<Request>, v: Verdict) returns (ok: bool)
      requires Sound() && Listed(rs, requests) && v != Keep
      requires forall r :: r in rs ==> r.status == StatusFor(v)
      modifies this`balances, this`requests
      ensures ok && Sound()
      ensures View() == old(View()).(requests := SettleListed(old(View()).requests, rs, v, height))
    {
      hide Core, Reconciled, SettleListed, Settled;
      ok := true;
      StoredUnderOwnId(View());
      SettleListedEnds(requests, rs, v, height);
      for i := 0 to |rs|
        invariant ok && Sound()
        invariant View() == old(View()).(requests := SettleListed(old(View()).requests, rs[..i], v, height))
      {
        SettleListedStep(old(requests), rs, i, v, height);
        match v {
          case Refund => ok := RefundExpired(rs[i]);
          case Finalize => ok := FinalizeUndisputed(rs[i]);
          case Slash => ok := ExecuteSlash(rs[i]);
          case Dismiss => ok := ExecuteDismiss(rs[i]);
        }
        if !ok {
          return;
        }
      }
    }

    method AdvanceHeight()
      requires Sound()
      modifies this`height
      ensures Sound() && View() == old(View()).(height := old(height) + 1)
    {
      hide Core, Reconciled;
      ghost var b := View();
      height := height + 1;
      CoreSame(b, View());
      SameMoney(b, View(), balances);
    }

    /** One block. It cannot fail: escrow always covers what is due. */
    method CommitBlock() returns (ok: bool)
      requires Valid()
      modifies this`height, this`balances, this`requests
      ensures ok && Valid() && View() == Tick(old(View()))
    {
      hide Core, Reconciled, Listed, Settled, Due, SettleListed;
      AdvanceHeight();
      ghost var b := View();
      var toRefund, toFinalize, toSlash, toDismiss := Scan();
      FourLists(b, toRefund, toFinalize, toSlash, toDismiss);
      DueStatus(b, toRefund, Refund);
      DueStatus(b, toFinalize, Finalize);
      DueStatus(b, toSlash, Slash);
      DueStatus(b, toDismiss, Dismiss);
      ok := SettleEach(toRefund, Refund);
      if !ok {
        return;
      }
      ok := SettleEach(toFinalize, Finalize);
      if !ok {
        return;
      }
      ok := SettleEach(toSlash, Slash);
      if !ok {
        return;
      }
      ok := SettleEach(toDismiss, Dismiss);
    }

    // Envelopes and administration.

    /** Routes a message to its applier; the receipt reports what the message did. */
    method Dispatch(signer: Address, m: Msg) returns (res: Result<Receipt>)
      requires Valid() && IsUser(signer)
      modifies this`authority, this`balances, this`services, this`svcByName, this`requests, this`domains
      modifies this`nextSvc, this`nextReq, this`nextDom, this`ext, this`forfeits
      ensures Meets(Apply(old(View()), signer, m), res)
      ensures res.Ok? ==> Reports(old(View()), m, res.value)
    {
      hide Meets, ClosedExactly;
      match m {
        case RegisterService(_, _, _, _, _) => res := ApplyRegisterService(signer, m);
        case RequestInference(_, _, _, _, _, _, _) => res := ApplyRequestInference(signer, m);
        case SubmitResult(_, _, _) => res := ApplySubmitResult(signer, m);
        case Transfer(_, _, _) => res := ApplyTransfer(signer, m);
        case RegisterDomain(_, _, _, _, _, _, _, _) => res := ApplyRegisterDomain(signer, m);
        case FileChallenge(_, _, _) => res := ApplyChallenge(signer, m);
        case Vouch(_, _, _) => res := ApplyVouch(signer, m);
        case UpdateService(_, _, _, _) => res := ApplyUpdateService(signer, m);
        case DeactivateService(_, _) => res := ApplyDeactivateService(signer, m);
        case DeactivateDomain(_, _) => res := ApplyDeactivateDomain(signer, m);
        case ResolveChallenge(_, _, _) => res := ApplyResolveChallenge(signer, m);
      }
    }

    function Save(): Buckets
      reads this
    {
      Buckets(authority, balances, services, svcByName, requests, domains, nextSvc, nextReq, nextDom)
    }

    /** Puts every bucket a transaction may have written back to what it was. */
    method Rollback(saved: Buckets, ghost e: map<Address, int>, ghost f: map<u64, int>)
      modifies this`authority, this`balances, this`services, this`svcByName, this`requests, this`domains
      modifies this`nextSvc, this`nextReq, this`nextDom, this`ext, this`forfeits
      ensures Save() == saved && ext == e && forfeits == f
    {
      authority, balances := saved.authority, saved.balances;
      services, svcByName := saved.services, saved.svcByName;
      requests, domains := saved.requests, saved.domains;
      nextSvc, nextReq, nextDom := saved.nextSvc, saved.nextReq, saved.nextDom;
      ext, forfeits := e, f;
    }

    /** Validates, applies and numbers a signed transaction; any failure restores every bucket. */
    method SubmitTx(tx: SignedTx) returns (res: Result<Receipt>)
      requires Valid()
      modifies this
      ensures Meets(Submit(old(View()), tx), res)
      ensures res.Ok? ==> tx.payload.Some? && Reports(old(View()), tx.payload.value, res.value)
      ensures res.Err? ==> View() == old(View()) && balances == old(balances) && Valid()
    {
      hide Core, Reconciled, Funds, Apply, AddressOf, Reports;
      :- Need(tx.wellFormed, BadEnvelope);
      :- Need(tx.authentic, InvalidSignature);
      var signer := AddressOf(tx.signer);
      DerivedAddress(tx.signer);
      :- Need(tx.nonce == NonceOf(nonces, signer), InvalidNonce);
      :- Need(tx.payload.Some?, BadPayload);
      var saved := Save();
      ghost var e, f := ext, forfeits;
      res := Dispatch(signer, tx.payload.value);
      if res.Err? {
        Rollback(saved, e, f);
        assert View() == old(View());
        return;
      }
      IncNonce(signer);
    }

    /** Advances an account's nonce, in 64 bits. */
    method IncNonce(signer: Address)
      requires Sound()
      modifies this`nonces
      ensures Sound() && View() == old(View()).(nonces := old(nonces)[signer := Wrap(NonceOf(old(nonces), signer) + 1)])
    {
      hide Core, Reconciled, Funds;
      ghost var b := View();
      nonces := nonces[signer := Wrap(NonceOf(nonces, signer) + 1)];
      CoreSame(b, View());
      SameMoney(b, View(), balances);
    }

    ghost method NoteMint(to: Address, amount: u64)
      modifies this`ext, this`minted
      ensures View() == MintTo(old(View()), to, amount)
    {
      ext := ext[to := At(ext, to) + amount];
      minted := minted + amount;
    }

    /** Credits new supply; exact as long as the recipient's balance fits 64 bits, and sound as long as
        the supply does. */
    method Mint(to: Address, amount: u64)
      requires Valid()
      modifies this`balances, this`ext, this`minted
      ensures View() == MintTo(old(View()), to, amount)
      ensures Total(balances) == minted <==> Bal(old(balances), to) + amount < TWO64
      ensures old(minted) + amount < TWO64 ==> Valid()
    {
      hide Core, Reconciled, Funds;
      ghost var b, m := View(), balances;
      Credit(to, amount);
      NoteMint(to, amount);
      if minted < TWO64 {
        MintReconciles(b, to, amount, m, balances);
      }
    }

    method SetParams(p: Params)
      requires Valid()
      modifies this`params
      ensures Valid() && View() == old(View()).(params := p)
    {
      hide Core, Reconciled, Funds;
      ghost var b := View();
      params := p;
      CoreSame(b, View());
      SameMoney(b, View(), balances);
    }

    method SetAuthority(addr: Address) returns (res: Result<()>)
      requires Valid()
      modifies this`authority
      ensures Valid()
      ensures res.Ok? <==> IsValidAddress(addr)
      ensures View() == if res.Ok? then old(View()).(authority := addr) else old(View())
    {
      hide Core, Reconciled, Funds, IsValidAddress;
      ghost var b := View();
      :- Need(IsValidAddress(addr), InvalidAddress);
      authority := addr;
      CoreSame(b, View());
      SameMoney(b, View(), balances);
      return Ok(());
    }

    /** Any one operation does what the transition system says. */
    method Perform(op: Op)
      requires Valid() && Room(Step(View(), op))
      modifies this
      ensures Valid() && View() == Step(old(View()), op)
    {
      hide Core, Reconciled, Submit, Tick, Funds;
      match op {
        case SubmitTx(tx) => var r := SubmitTx(tx);
        case CommitBlock => var ok := CommitBlock();
        case Mint(to, amount) => Mint(to, amount);
        case SetParams(p) => SetParams(p);
        case SetAuthority(a) => var r := SetAuthority(a);
      }
    }

    constructor ()
      ensures Valid() && View() == GENESIS
    {
      height, params, authority := 0, DEFAULT_PARAMS, "";
      balances, nonces, services, svcByName, requests, domains := map[], map[], map[], map[], map[], map[];
      nextSvc, nextReq, nextDom := 1, 1, 1;
      ext, forfeits, minted := map[], map[], 0;
      new;
      assert View() == GENESIS;
      forall a ensures Agrees(GENESIS, balances, a) {
      }
    }
  }

  /** A whole run from genesis. After it, every balance is what the records say it must be, all
      balances together are what the run minted, and no block ever failed. */
  method Replay(ops: seq<Op>) returns (c: Chain)
    requires Bounded(ops)
    ensures fresh(c) && c.Valid() && c.View() == Run(GENESIS, ops)
    ensures forall a :: Bal(c.balances, a) == Funds(Run(GENESIS, ops), a)
    ensures Total(c.balances) == Supply(ops)
  {
    hide Core, Room, Funds, Step;
    c := new Chain();
    assert ops[..0] == [];
    for i := 0 to |ops|
      invariant fresh(c) && c.Valid() && c.View() == Run(GENESIS, ops[..i])
    {
      SupplyGrows(ops, i + 1);
      RunSound(ops[..i + 1]);
      assert ops[..i + 1][..i] == ops[..i];
      c.Perform(ops[i]);
    }
    assert ops[..|ops|] == ops;
    RunSound(ops);
    forall a ensures Bal(c.balances, a) == Funds(c.View(), a) {
      SignerHolds(c.View(), c.balances, a);
    }
  }

  /** The contents of the store, as saved before a transaction. */
  datatype Buckets = Buckets(
    authority: Address, balances: Balances, services: map<u64, Service>,
    svcByName: map<string, u64>, requests: map<u64, Request>, domains: map<u64, Domain>,
    nextSvc: u64, nextReq: u64, nextDom: u64)

  /** `DueList` while the scan stands at id `k`. */
  ghost predicate DueBefore(b: Book, rs: seq<Request>, v: Verdict, k: int) {
    && Listed(rs, b.requests)
    && (forall r :: r in rs ==> r.id < k)
    && forall j: u64 :: j in b.requests && j < k ==> (b.requests[j] in rs <==> Due(b, b.requests[j]) == v)
  }

  lemma ListedAppend(rs: seq<Request>, requests: map<u64, Request>, r: Request)
    requires Listed(rs, requests) && r.id in requests && requests[r.id] == r
    requires forall x :: x in rs ==> x.id < r.id
    ensures Listed(rs + [r], requests)
  {
    var rs' := rs + [r];
    forall i, j | 0 <= i < j < |rs'| ensures rs'[i].id < rs'[j].id {
      assert rs'[i] in rs;
    }
  }

  lemma DueBeforeStep(b: Book, rs: seq<Request>, v: Verdict, k: u64)
    requires DueBefore(b, rs, v, k) && k in b.requests && forall j :: j in b.requests ==> b.requests[j].id == j
    ensures DueBefore(b, if Due(b, b.requests[k]) == v then rs + [b.requests[k]] else rs, v, k + 1)
  {
    hide Due;
    var r := b.requests[k];
    var rs' := if Due(b, r) == v then rs + [r] else rs;
    if Due(b, r) == v {
      ListedAppend(rs, b.requests, r);
    }
    assert Listed(rs', b.requests);
    hide Listed;
    assert forall x :: x in rs' ==> x in rs || x == r;
    forall j: u64 | j in b.requests && j < k + 1
      ensures b.requests[j] in rs' <==> Due(b, b.requests[j]) == v
    {
      assert j == k ==> b.requests[j] == r && r !in rs;
      assert j < k ==> b.requests[j] != r;
    }
  }

  /** The status a verdict applies to. */
  function StatusFor(v: Verdict): Status
    requires v != Keep
  {
    match v
    case Refund => Pending
    case Finalize => Submitted
    case Slash => Challenged
    case Dismiss => Challenged
  }

  lemma DueStatus(b: Book, rs: seq<Request>, v: Verdict)
    requires DueList(b, rs, v) && v != Keep
    ensures forall r :: r in rs ==> r.status == StatusFor(v)
  {
    forall r | r in rs ensures r.status == StatusFor(v) {
      assert b.requests[r.id] == r;
    }
  }

  /** Strictly increasing, hence without repetition. */
  predicate Ascending(ids: seq<u64>) {
    forall i, j :: 0 <= i < j < |ids| ==> ids[i] < ids[j]
  }

  lemma AscendingAppend(ids: seq<u64>, x: u64)
    requires Ascending(ids) && forall j :: j in ids ==> j < x
    ensures Ascending(ids + [x]) && forall j :: j in ids + [x] <==> j in ids || j == x
  {
    forall i | 0 <= i < |ids| ensures ids[i] < x {
      assert ids[i] in ids;
    }
  }

  lemma AscendingPrefix(ids: seq<u64>, i: nat)
    requires Ascending(ids) && i < |ids|
    ensures forall j :: j in ids[..i] ==> j < ids[i]
    ensures forall j :: j in ids[..i + 1] <==> j in ids[..i] || j == ids[i]
  {
    assert ids[..i + 1] == ids[..i] + [ids[i]];
  }

  function IdsOf(rs: seq<Request>): (ids: seq<u64>)
    ensures |ids| == |rs| && forall i :: 0 <= i < |rs| ==> ids[i] == rs[i].id
  {
    seq(|rs|, i requires 0 <= i < |rs| => rs[i].id)
  }

  ghost function RetiredIn(services: map<u64, Service>, ids: seq<u64>): map<u64, Service> {
    map k | k in services :: if k in ids && services[k].active then Retired(services[k]) else services[k]
  }

  lemma RetiredInNone(services: map<u64, Service>, ids: seq<u64>)
    ensures RetiredIn(services, ids[..0]) == services
    ensures ids[..|ids|] == ids
  {
  }

  lemma RetiredInStep(services: map<u64, Service>, ids: seq<u64>, i: nat)
    requires Ascending(ids) && i < |ids| && ids[i] in services
    ensures ids[i] in RetiredIn(services, ids[..i]) && RetiredIn(services, ids[..i])[ids[i]] == services[ids[i]]
    ensures RetiredIn(services, ids[..i + 1])
         == if services[ids[i]].active
            then RetiredIn(services, ids[..i])[ids[i] := Retired(services[ids[i]])]
            else RetiredIn(services, ids[..i])
  {
    assert ids[..i + 1] == ids[..i] + [ids[i]];
    assert ids[i] !in ids[..i];
  }

  /** The receipt of a domain's end names, in ascending order, exactly the services it took offline
      and exactly the open requests it voided. */
  ghost predicate ClosedExactly(b: Book, d: u64, receipt: Receipt) {
    && receipt.DomainClosed?
    && Ascending(receipt.deactivated) && Ascending(receipt.voided)
    && (forall k :: k in receipt.deactivated <==>
          k in b.services && b.services[k].domainId == d && b.services[k].active)
    && (forall k :: k in receipt.voided <==>
          k in b.requests && InDomain(b.services, b.requests[k].serviceId, d) && b.requests[k].status.IsOpen())
  }

  /** The receipt gives the id of a new record, says whether a result was final at once, and lists what
      a domain took with it. */
  ghost predicate Reports(b: Book, m: Msg, receipt: Receipt) {
    match m
    case RegisterService(_, _, _, _, _) => receipt == Created(b.nextSvc)
    case RequestInference(_, _, _, _, _, _, _) => receipt == Created(b.nextReq)
    case RegisterDomain(_, _, _, _, _, _, _, _) => receipt == Created(b.nextDom)
    case SubmitResult(_, _, _) => receipt == ResultStored(b.params.challengeWindow == 0)
    case DeactivateDomain(_, d) => ClosedExactly(b, d, receipt)
    case _ => receipt == Done
  }

  lemma SettleListedEnds(requests: map<u64, Request>, rs: seq<Request>, v: Verdict, h: int)
    ensures SettleListed(requests, rs[..0], v, h) == requests
    ensures rs[..|rs|] == rs
  {
  }

  lemma DomainAt(b: Book, d: u64)
    requires Core(b) && d in b.domains
    ensures b.domains[d].id == d
  {
  }

  lemma OpenOnes(rs: seq<Request>, requests: map<u64, Request>, affected: seq<u64>)
    requires Listed(rs, requests)
    requires forall k :: k in requests ==>
      (requests[k] in rs <==> requests[k].serviceId in affected && requests[k].status.IsOpen())
    ensures forall r :: r in rs ==> r.status.IsOpen()
  {
    forall r | r in rs ensures r.status.IsOpen() {
      assert requests[r.id] in rs;
    }
  }

  /** The three passes close the domain exactly. */
  lemma CascadeIsExact(b: Book, d: u64, affected: seq<u64>, retired: seq<u64>, toVoid: seq<Request>, voided: seq<u64>)
    requires Core(b) && d in b.domains
    requires forall k :: k in affected <==> k in b.services && b.services[k].domainId == d
    requires Ascending(retired) && forall k :: k in retired <==> k in affected && b.services[k].active
    requires Listed(toVoid, b.requests) && voided == IdsOf(toVoid)
    requires forall k :: k in b.requests ==>
      (b.requests[k] in toVoid <==> b.requests[k].serviceId in affected && b.requests[k].status.IsOpen())
    ensures RetiredIn(b.services, affected) == CloseDomain(b, d).services
    ensures SettleListed(b.requests, toVoid, Refund, b.height) == CloseDomain(b, d).requests
    ensures ClosedExactly(b, d, DomainClosed(retired, voided))
  {
    hide Core;
    StoredUnderOwnId(b);
    forall k | k in b.requests && b.requests[k] in toVoid ensures k in voided {
      var i :| 0 <= i < |toVoid| && toVoid[i] == b.requests[k];
      assert voided[i] == k;
    }
    forall k | k in voided ensures k in b.requests && b.requests[k] in toVoid {
      var i :| 0 <= i < |voided| && voided[i] == k;
      assert toVoid[i] in toVoid;
    }
  }
}
