/** The chain's own two accounts: nobody can spend from them. */
module ModuleAccounts {
  import opened Types
  import opened Addresses
  import opened Flows
  import opened Books
  import opened Machine
  import opened Reachable
  import opened Lifecycle

  /** Voucher bonds forfeited by the slashed ones of requests 1..n. */
  ghost function SumSlashed(requests: map<u64, Request>, n: int): nat
    decreases if n < 0 then 0 else n
  {
    if n <= 0 then 0
    else SumSlashed(requests, n - 1)
         + (if n in requests && requests[n].status.Slashed? then Bonds(Supporters(requests[n].vouchers)) else 0)
  }

  /** Registration bonds forfeited by services 1..n. */
  ghost function SumForfeits(services: map<u64, Service>, forfeits: map<u64, int>, n: int): int
    decreases if n < 0 then 0 else n
  {
    if n <= 0 then 0
    else SumForfeits(services, forfeits, n - 1) + (if n in services then At(forfeits, n) else 0)
  }

  lemma {:induction false} SumRequestsAtTreasury(b: Book, n: int)
    requires Core(b) && n < b.nextReq
    ensures SumRequests(b.requests, b.services, n, TREASURY) == SumSlashed(b.requests, n)
    decreases if n < 0 then 0 else n
  {
    hide IndexOk;
    if n > 0 {
      SumRequestsAtTreasury(b, n - 1);
      var k: u64 := n;
      assert RequestOk(b.services, b.requests[k], k);
      var s := b.requests[k].serviceId;
      assert ServiceOk(b.services[s], s);
      FlowAtModules(b.requests[k], b.Owner(s));
    }
  }

  lemma {:induction false} SumServicesAtTreasury(b: Book, n: int)
    requires Core(b) && n < b.nextSvc
    ensures SumServices(b.services, b.forfeits, n, TREASURY) == SumForfeits(b.services, b.forfeits, n)
    decreases if n < 0 then 0 else n
  {
    hide IndexOk, RequestsOk;
    if n > 0 {
      SumServicesAtTreasury(b, n - 1);
      var k: u64 := n;
      assert ServiceOk(b.services[k], k);
      ModuleAddressesAreNotValid();
    }
  }

  /** The treasury holds gifts, forfeited voucher bonds and forfeited registration bonds. */
  lemma TreasuryReconciles(b: Book)
    requires Core(b)
    ensures Funds(b, TREASURY)
         == At(b.ext, TREASURY) + SumSlashed(b.requests, b.nextReq - 1)
            + SumForfeits(b.services, b.forfeits, b.nextSvc - 1)
  {
    SumRequestsAtTreasury(b, b.nextReq - 1);
    SumServicesAtTreasury(b, b.nextSvc - 1);
  }

  lemma {:induction false} SumSlashedGrows(rs: map<u64, Request>, rs': map<u64, Request>, n: int, n': int)
    requires n <= n' < TWO64
    requires forall k :: k in rs ==> k in rs' && (rs[k].status.Slashed? ==> rs'[k] == rs[k])
    ensures SumSlashed(rs, n) <= SumSlashed(rs', n')
    decreases if n' < 0 then 0 else n'
  {
    if n' > 0 {
      SumSlashedGrows(rs, rs', if n < n' then n else n - 1, n' - 1);
    }
  }

  lemma {:induction false} SumForfeitsGrows(
      ss: map<u64, Service>, fs: map<u64, int>, ss': map<u64, Service>, fs': map<u64, int>, n: int, n': int)
    requires n <= n' < TWO64 && ss.Keys <= ss'.Keys
    requires forall k: u64 :: At(fs', k) >= At(fs, k) >= 0
    ensures SumForfeits(ss, fs, n) <= SumForfeits(ss', fs', n')
    decreases if n' < 0 then 0 else n'
  {
    if n' > 0 {
      SumForfeitsGrows(ss, fs, ss', fs', if n < n' then n else n - 1, n' - 1);
      var k: u64 := n';
      assert At(fs', k) >= At(fs, k) >= 0;
    }
  }

  /** Outside money at an account that never signs only grows, and forfeits are never given back. */
  lemma ApplyOutside(b: Book, signer: Address, m: Msg)
    requires Room(b) && IsUser(signer) && Apply(b, signer, m).Ok?
    ensures var b' := Apply(b, signer, m).value;
      && At(b'.ext, ESCROW) >= At(b.ext, ESCROW) && At(b'.ext, TREASURY) >= At(b.ext, TREASURY)
      && forall k: u64 :: At(b'.forfeits, k) >= At(b.forfeits, k)
  {
    hide Apply;
    if AboutRequests(m) {
      RequestMessagesWrite(b, signer, m);
    } else if AboutServices(m) {
      ServiceMessagesWrite(b, signer, m);
    } else {
      OtherMessagesWrite(b, signer, m);
    }
  }

  /** Outside money and forfeits only grow, ended records stay, so the treasury only grows. */
  lemma TreasuryGrows(b: Book, b': Book)
    requires Core(b) && Core(b') && RecordsEvolve(b, b') && b.nextReq <= b'.nextReq && b.nextSvc <= b'.nextSvc
    requires At(b'.ext, TREASURY) >= At(b.ext, TREASURY)
    requires forall k: u64 :: At(b'.forfeits, k) >= At(b.forfeits, k) >= 0
    ensures Funds(b', TREASURY) >= Funds(b, TREASURY)
  {
    hide Core, Evolves, Funds;
    TreasuryReconciles(b);
    TreasuryReconciles(b');
    forall k | k in b.requests && b.requests[k].status.Slashed? ensures b'.requests[k] == b.requests[k] {
      SlashedStays(b.requests[k], b'.requests[k]);
    }
    SumSlashedGrows(b.requests, b'.requests, b.nextReq - 1, b'.nextReq - 1);
    SumForfeitsGrows(b.services, b.forfeits, b'.services, b'.forfeits, b.nextSvc - 1, b'.nextSvc - 1);
  }

  lemma StepOutside(b: Book, op: Op)
    requires Room(b)
    ensures var b' := Step(b, op);
      && At(b'.ext, ESCROW) >= At(b.ext, ESCROW) && At(b'.ext, TREASURY) >= At(b.ext, TREASURY)
      && forall k: u64 :: At(b'.forfeits, k) >= At(b.forfeits, k)
  {
    hide Apply, AddressOf, IsValidAddress;
    if op.SubmitTx? && Submit(b, op.tx).Ok? {
      DerivedAddress(op.tx.signer);
      ApplyOutside(b, AddressOf(op.tx.signer), op.tx.payload.value);
    }
  }

  lemma NoNegativeForfeits(b: Book)
    requires Core(b)
    ensures forall k: u64 :: At(b.forfeits, k) >= 0
  {
    hide IdsOk, IndexOk, RequestsOk;
  }

  /** What escrow was given stays there, and the treasury never loses anything, in any operation. */
  lemma StepAtModules(b: Book, op: Op)
    requires Core(b) && Room(b)
    ensures At(Step(b, op).ext, ESCROW) >= At(b.ext, ESCROW)
    ensures Funds(Step(b, op), TREASURY) >= Funds(b, TREASURY)
  {
    hide Core, Room, Step, RecordsStep, RecordsEvolve, Funds;
    NoNegativeForfeits(b);
    StepOutside(b, op);
    CoreStep(b, op);
    StepCounters(b, op);
    StepRecords(b, op);
    StepEvolves(b, Step(b, op));
    TreasuryGrows(b, Step(b, op));
  }

  lemma SlashedStays(r: Request, r': Request)
    requires Evolves(r, r') && r.status.Slashed?
    ensures r' == r
  {
  }

  lemma {:induction false} TreasuryNeverFalls(ops: seq<Op>, i: nat, j: nat)
    requires Bounded(ops) && i <= j <= |ops|
    ensures Funds(StateAt(ops, i), TREASURY) <= Funds(StateAt(ops, j), TREASURY)
    decreases j
  {
    hide Core, Room, Step, Run, RecordsStep, Funds;
    if i < j {
      TreasuryNeverFalls(ops, i, j - 1);
      StatesSound(ops, j - 1);
      StepAtModules(StateAt(ops, j - 1), ops[j - 1]);
    }
  }
}
