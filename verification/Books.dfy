/** The chain's records without any balance, and the balance each account must have because of
    them. `ext` is what entered and left accounts from outside the marketplace (mints and transfers)
    and `forfeits` the registration bonds that were swept to the treasury. */
module Books {
  import opened Types
  import opened Addresses
  import opened Flows

  datatype Book = Book(
    height: int, params: Params, authority: Address, nonces: map<Address, u64>,
    services: map<u64, Service>, svcByName: map<string, u64>, requests: map<u64, Request>,
    domains: map<u64, Domain>, nextSvc: u64, nextReq: u64, nextDom: u64,
    ext: map<Address, int>, forfeits: map<u64, int>, minted: int)
  {
    ghost function Owner(serviceId: u64): Address {
      OwnerIn(services, serviceId)
    }
  }

  ghost function OwnerIn(services: map<u64, Service>, id: u64): Address {
    if id in services then services[id].owner else ""
  }

  ghost function At<K>(m: map<K, int>, k: K): int {
    if k in m then m[k] else 0
  }

  ghost function SumRequests(requests: map<u64, Request>, services: map<u64, Service>, n: int, a: Address): int
    decreases if n < 0 then 0 else n
  {
    if n <= 0 then 0
    else SumRequests(requests, services, n - 1, a)
         + (if n in requests then Flow(requests[n], OwnerIn(services, requests[n].serviceId), a) else 0)
  }

  ghost function SumServices(services: map<u64, Service>, forfeits: map<u64, int>, n: int, a: Address): int
    decreases if n < 0 then 0 else n
  {
    if n <= 0 then 0
    else SumServices(services, forfeits, n - 1, a)
         + (if n in services then ServiceFlow(services[n], At(forfeits, n), a) else 0)
  }

  /** The balance account `a` must have: mints and transfers, plus the flows of every request and
      every service. */
  ghost function Funds(b: Book, a: Address): int {
    At(b.ext, a)
    + SumRequests(b.requests, b.services, b.nextReq - 1, a)
    + SumServices(b.services, b.forfeits, b.nextSvc - 1, a)
  }

  /** The record's fields agree with its status. */
  predicate Shape(r: Request) {
    && |r.challenges| <= 1
    && (r.challenges == [] ==> r.vouchers == [])
    && (r.challenges != [] ==> r.result.Some?)
    && (r.result.None? ==> r.providerBond.None?)
    && match r.status
       case Pending => r.result.None?
       case Submitted => r.result.Some? && r.challenges == []
       case Challenged => r.challenges != []
       case Finalized => r.result.Some?
       case Slashed => r.challenges != []
       case Refunded => true
  }

  /** No party to the request is a module account. */
  predicate Parties(r: Request) {
    && IsUser(r.requester)
    && (forall c :: c in r.challenges ==> IsUser(c.challenger))
    && (forall v :: v in r.vouchers ==> IsUser(v.voucher))
  }

  predicate RequestOk(services: map<u64, Service>, r: Request, id: u64) {
    r.id == id && r.serviceId in services && Shape(r) && Parties(r)
  }

  predicate ServiceOk(svc: Service, id: u64) {
    svc.id == id && IsUser(svc.owner)
  }

  predicate Indexed(svcByName: map<string, u64>, svc: Service) {
    svc.name in svcByName && svcByName[svc.name] == svc.id
  }

  predicate Names(services: map<u64, Service>, id: u64, name: string) {
    id in services && services[id].name == name
  }

  /** Ids run from 1 without gaps, and every record is stored under its own. */
  ghost predicate IdsOk(b: Book) {
    && b.nextSvc >= 1 && b.nextReq >= 1 && b.nextDom >= 1
    && (forall k: u64 :: k in b.services <==> 1 <= k < b.nextSvc)
    && (forall k: u64 :: k in b.requests <==> 1 <= k < b.nextReq)
    && (forall k: u64 :: k in b.domains <==> 1 <= k < b.nextDom)
    && (forall k :: k in b.domains ==> b.domains[k].id == k)
  }

  /** The name index and the services by name are inverse to each other. */
  ghost predicate IndexOk(b: Book) {
    && (forall k :: k in b.services ==> Indexed(b.svcByName, b.services[k]))
    && (forall n :: n in b.svcByName ==> Names(b.services, b.svcByName[n], n))
  }

  ghost predicate ServicesOk(b: Book) {
    && (forall k :: k in b.services ==> ServiceOk(b.services[k], k))
    && (forall k :: k in b.forfeits ==> k in b.services && b.forfeits[k] >= 0)
  }

  ghost predicate RequestsOk(b: Book) {
    forall k :: k in b.requests ==> RequestOk(b.services, b.requests[k], k)
  }

  /** What the ledger needs of the records: ids run from 1 without gaps, references resolve, the name
      index is a bijection with the services, records have the shape of their status, and the module
      accounts take part in nothing. */
  ghost predicate Core(b: Book) {
    && IdsOk(b) && IndexOk(b) && ServicesOk(b) && RequestsOk(b)
    && At(b.ext, ESCROW) >= 0 && At(b.ext, TREASURY) >= 0
  }

  /** The counters have not reached the end of their 64 bits, nor has the supply. */
  predicate Room(b: Book) {
    && b.nextSvc < TWO64 - 1 && b.nextReq < TWO64 - 1 && b.nextDom < TWO64 - 1
    && b.minted < TWO64
  }

  // The records stay sound under the chain's writes.

  lemma StoredUnderOwnId(b: Book)
    requires Core(b)
    ensures forall k :: k in b.requests ==> b.requests[k].id == k
  {
    forall k | k in b.requests ensures b.requests[k].id == k {
      assert RequestOk(b.services, b.requests[k], k);
    }
  }

  lemma RequestAt(b: Book, id: u64)
    requires Core(b) && id in b.requests
    ensures RequestOk(b.services, b.requests[id], id)
  {
  }

  lemma ShapeOf(b: Book, id: u64)
    requires Core(b) && id in b.requests
    ensures Shape(b.requests[id]) && b.requests[id].id == id
  {
    assert RequestOk(b.services, b.requests[id], id);
  }

  lemma ServiceAt(b: Book, id: u64)
    requires Core(b) && id in b.services
    ensures ServiceOk(b.services[id], id) && Indexed(b.svcByName, b.services[id])
  {
  }

  /** Writes that leave the records alone and do not take outside money from a module account. */
  lemma CoreSame(b: Book, b': Book)
    requires Core(b)
    requires b'.services == b.services && b'.svcByName == b.svcByName && b'.requests == b.requests
    requires b'.domains == b.domains && b'.forfeits == b.forfeits
    requires b'.nextSvc == b.nextSvc && b'.nextReq == b.nextReq && b'.nextDom == b.nextDom
    requires At(b'.ext, ESCROW) >= At(b.ext, ESCROW) && At(b'.ext, TREASURY) >= At(b.ext, TREASURY)
    ensures Core(b')
  {
  }

  lemma CoreNewDomain(b: Book, d: Domain, auth: Address)
    requires Core(b) && b.nextDom < TWO64 - 1 && d.id == b.nextDom
    ensures Core(b.(authority := auth, domains := b.domains[b.nextDom := d], nextDom := b.nextDom + 1))
  {
    hide IndexOk, ServicesOk, RequestsOk;
    var b' := b.(authority := auth, domains := b.domains[b.nextDom := d], nextDom := b.nextDom + 1);
    assert IdsOk(b');
    OtherRecordsOk(b, b');
  }

  lemma CoreCloses(b: Book, d: u64)
    requires Core(b) && d in b.domains
    ensures Core(b.(domains := b.domains[d := b.domains[d].(active := false)]))
  {
    hide IndexOk, ServicesOk, RequestsOk;
    var b' := b.(domains := b.domains[d := b.domains[d].(active := false)]);
    assert IdsOk(b');
    OtherRecordsOk(b, b');
  }

  lemma OtherRecordsOk(b: Book, b': Book)
    requires IndexOk(b) && ServicesOk(b) && RequestsOk(b)
    requires b'.services == b.services && b'.svcByName == b.svcByName
    requires b'.requests == b.requests && b'.forfeits == b.forfeits
    ensures IndexOk(b') && ServicesOk(b') && RequestsOk(b')
  {
  }

  lemma CoreNewRequest(b: Book, r: Request)
    requires Core(b) && b.nextReq < TWO64 - 1 && RequestOk(b.services, r, b.nextReq)
    ensures Core(b.(requests := b.requests[b.nextReq := r], nextReq := b.nextReq + 1))
  {
    var b' := b.(requests := b.requests[b.nextReq := r], nextReq := b.nextReq + 1);
    forall k | k in b'.requests ensures RequestOk(b'.services, b'.requests[k], k) {
      assert k != b.nextReq ==> RequestOk(b.services, b.requests[k], k);
    }
  }

  lemma CoreNewService(b: Book, svc: Service)
    requires Core(b) && b.nextSvc < TWO64 - 1
    requires ServiceOk(svc, b.nextSvc) && svc.name !in b.svcByName
    ensures Core(b.(services := b.services[b.nextSvc := svc],
                    svcByName := b.svcByName[svc.name := b.nextSvc], nextSvc := b.nextSvc + 1))
  {
    var b' := b.(services := b.services[b.nextSvc := svc],
                 svcByName := b.svcByName[svc.name := b.nextSvc], nextSvc := b.nextSvc + 1);
    IndexNewService(b, svc);
    IdsNewService(b, svc);
    hide IdsOk, IndexOk;
    RequestsAmongMore(b.services, b'.services, b.requests);
    assert RequestsOk(b');
    hide RequestsOk;
    assert ServicesOk(b');
  }

  lemma IdsNewService(b: Book, svc: Service)
    requires IdsOk(b) && b.nextSvc < TWO64 - 1
    ensures IdsOk(b.(services := b.services[b.nextSvc := svc],
                     svcByName := b.svcByName[svc.name := b.nextSvc], nextSvc := b.nextSvc + 1))
  {
  }

  lemma RequestsAmongMore(ss: map<u64, Service>, ss': map<u64, Service>, requests: map<u64, Request>)
    requires ss.Keys <= ss'.Keys && forall k :: k in requests ==> RequestOk(ss, requests[k], k)
    ensures forall k :: k in requests ==> RequestOk(ss', requests[k], k)
  {
    hide Shape, Parties;
    forall k | k in requests ensures RequestOk(ss', requests[k], k) {
      assert RequestOk(ss, requests[k], k);
    }
  }

  lemma IndexNewService(b: Book, svc: Service)
    requires IdsOk(b) && IndexOk(b) && b.nextSvc < TWO64 - 1
    requires svc.id == b.nextSvc && svc.name !in b.svcByName
    ensures IndexOk(b.(services := b.services[b.nextSvc := svc],
                       svcByName := b.svcByName[svc.name := b.nextSvc], nextSvc := b.nextSvc + 1))
  {
    var b' := b.(services := b.services[b.nextSvc := svc],
                 svcByName := b.svcByName[svc.name := b.nextSvc], nextSvc := b.nextSvc + 1);
    forall k | k in b'.services ensures Indexed(b'.svcByName, b'.services[k]) {
      assert k != b.nextSvc ==> Indexed(b.svcByName, b.services[k]);
    }
    forall n | n in b'.svcByName ensures Names(b'.services, b'.svcByName[n], n) {
      assert n != svc.name ==> Names(b.services, b.svcByName[n], n);
    }
  }

  /** Services rewritten under their owners and names. */
  lemma CorePutServices(b: Book, services: map<u64, Service>, fs: map<u64, int>)
    requires Core(b) && services.Keys == b.services.Keys
    requires forall k :: k in services ==>
      services[k].id == k && services[k].owner == b.services[k].owner && services[k].name == b.services[k].name
    requires forall k :: k in fs ==> k in services && fs[k] >= 0
    ensures Core(b.(services := services, forfeits := fs))
  {
    var b' := b.(services := services, forfeits := fs);
    forall k | k in b'.requests ensures RequestOk(b'.services, b'.requests[k], k) {
      assert RequestOk(b.services, b.requests[k], k);
    }
    forall k | k in b'.services ensures ServiceOk(b'.services[k], k) && Indexed(b'.svcByName, b'.services[k]) {
      assert ServiceOk(b.services[k], k) && Indexed(b.svcByName, b.services[k]);
    }
    forall n | n in b'.svcByName ensures Names(b'.services, b'.svcByName[n], n) {
      assert Names(b.services, b.svcByName[n], n);
    }
  }

  /** Requests rewritten one for one. */
  lemma CorePutRequests(b: Book, requests: map<u64, Request>)
    requires Core(b) && requests.Keys == b.requests.Keys
    requires forall k :: k in requests ==> RequestOk(b.services, requests[k], k)
    ensures Core(b.(requests := requests))
  {
    hide IndexOk, ServicesOk;
    assert IdsOk(b.(requests := requests));
    UntouchedServicesOk(b, b.(requests := requests));
  }

  lemma CorePutRequest(b: Book, id: u64, r: Request)
    requires Core(b) && id in b.requests && RequestOk(b.services, r, id)
    ensures Core(b.(requests := b.requests[id := r]))
  {
    hide IdsOk, IndexOk, ServicesOk, RequestOk;
    assert b.requests[id := r].Keys == b.requests.Keys;
    CorePutRequests(b, b.requests[id := r]);
  }

  lemma UntouchedServicesOk(b: Book, b': Book)
    requires IndexOk(b) && ServicesOk(b)
    requires b'.services == b.services && b'.svcByName == b.svcByName && b'.forfeits == b.forfeits
    ensures IndexOk(b') && ServicesOk(b')
  {
  }

  // Sums under change of one record.

  lemma {:induction false} SumRequestsSame(
      rs: map<u64, Request>, ss: map<u64, Service>, rs': map<u64, Request>, ss': map<u64, Service>,
      n: int, a: Address)
    requires forall k: u64 :: 1 <= k <= n ==>
      (k in rs <==> k in rs') && (k in rs ==> rs[k] == rs'[k] && OwnerIn(ss, rs[k].serviceId) == OwnerIn(ss', rs[k].serviceId))
    requires n < TWO64
    ensures SumRequests(rs, ss, n, a) == SumRequests(rs', ss', n, a)
    decreases if n < 0 then 0 else n
  {
    if n > 0 {
      SumRequestsSame(rs, ss, rs', ss', n - 1, a);
      var k: u64 := n;
      assert k in rs <==> k in rs';
    }
  }

  lemma {:induction false} SumServicesSame(
      ss: map<u64, Service>, fs: map<u64, int>, ss': map<u64, Service>, fs': map<u64, int>,
      n: int, a: Address)
    requires forall k: u64 :: 1 <= k <= n ==>
      (k in ss <==> k in ss')
      && (k in ss ==> ServiceFlow(ss[k], At(fs, k), a) == ServiceFlow(ss'[k], At(fs', k), a))
    requires n < TWO64
    ensures SumServices(ss, fs, n, a) == SumServices(ss', fs', n, a)
    decreases if n < 0 then 0 else n
  {
    if n > 0 {
      SumServicesSame(ss, fs, ss', fs', n - 1, a);
      var k: u64 := n;
      assert k in ss <==> k in ss';
    }
  }

  lemma {:induction false} SumRequestsPut(
      rs: map<u64, Request>, ss: map<u64, Service>, id: u64, r: Request, n: int, a: Address)
    requires id in rs && 1 <= id <= n < TWO64
    requires r.serviceId == rs[id].serviceId
    ensures SumRequests(rs[id := r], ss, n, a)
         == SumRequests(rs, ss, n, a)
            + Flow(r, OwnerIn(ss, r.serviceId), a) - Flow(rs[id], OwnerIn(ss, r.serviceId), a)
    decreases n
  {
    if n == id {
      SumRequestsSame(rs, ss, rs[id := r], ss, n - 1, a);
    } else {
      SumRequestsPut(rs, ss, id, r, n - 1, a);
    }
  }

  lemma {:induction false} SumServicesPut(
      ss: map<u64, Service>, fs: map<u64, int>, id: u64, svc: Service, fs': map<u64, int>, n: int, a: Address)
    requires id in ss && 1 <= id <= n < TWO64
    requires forall k: u64 :: k != id ==> At(fs', k) == At(fs, k)
    ensures SumServices(ss[id := svc], fs', n, a)
         == SumServices(ss, fs, n, a) + ServiceFlow(svc, At(fs', id), a) - ServiceFlow(ss[id], At(fs, id), a)
    decreases n
  {
    if n == id {
      SumServicesSame(ss, fs, ss[id := svc], fs', n - 1, a);
    } else {
      var k: u64 := n;
      SumServicesPut(ss, fs, id, svc, fs', n - 1, a);
      assert At(fs', k) == At(fs, k);
    }
  }

  // Funds under the chain's record writes.

  lemma FundsPutRequest(b: Book, id: u64, r: Request, a: Address)
    requires Core(b) && id in b.requests && r.serviceId == b.requests[id].serviceId
    ensures Funds(b.(requests := b.requests[id := r]), a)
         == Funds(b, a) + Flow(r, b.Owner(r.serviceId), a) - Flow(b.requests[id], b.Owner(r.serviceId), a)
  {
    hide IndexOk, ServicesOk, RequestsOk;
    SumRequestsPut(b.requests, b.services, id, r, b.nextReq - 1, a);
  }

  lemma FundsNewRequest(b: Book, r: Request, a: Address)
    requires Core(b) && b.nextReq < TWO64 - 1
    ensures Funds(b.(requests := b.requests[b.nextReq := r], nextReq := b.nextReq + 1), a)
         == Funds(b, a) + Flow(r, b.Owner(r.serviceId), a)
  {
    hide IndexOk, ServicesOk, RequestsOk;
    SumRequestsSame(b.requests, b.services, b.requests[b.nextReq := r], b.services, b.nextReq - 1, a);
  }

  lemma FundsPutService(b: Book, id: u64, svc: Service, fs: map<u64, int>, a: Address)
    requires Core(b) && id in b.services && svc.owner == b.services[id].owner
    requires forall k: u64 :: k != id ==> At(fs, k) == At(b.forfeits, k)
    ensures Funds(b.(services := b.services[id := svc], forfeits := fs), a)
         == Funds(b, a) + ServiceFlow(svc, At(fs, id), a) - ServiceFlow(b.services[id], At(b.forfeits, id), a)
  {
    hide IndexOk, ServicesOk, RequestsOk, ServiceFlow, Flow, At, SumServices;
    SumServicesPut(b.services, b.forfeits, id, svc, fs, b.nextSvc - 1, a);
    SumRequestsSame(b.requests, b.services, b.requests, b.services[id := svc], b.nextReq - 1, a);
  }

  lemma OwnersKept(b: Book, svc: Service)
    requires Core(b)
    ensures forall k :: k in b.requests ==>
      OwnerIn(b.services, b.requests[k].serviceId) == OwnerIn(b.services[b.nextSvc := svc], b.requests[k].serviceId)
  {
    hide IndexOk, ServicesOk, Shape, Parties;
    forall k | k in b.requests
      ensures OwnerIn(b.services, b.requests[k].serviceId)
           == OwnerIn(b.services[b.nextSvc := svc], b.requests[k].serviceId)
    {
      assert RequestOk(b.services, b.requests[k], k);
    }
  }

  lemma FundsNewService(b: Book, svc: Service, a: Address)
    requires Core(b) && b.nextSvc < TWO64 - 1
    ensures Funds(b.(services := b.services[b.nextSvc := svc], nextSvc := b.nextSvc + 1), a)
         == Funds(b, a) + ServiceFlow(svc, 0, a)
  {
    hide IndexOk, RequestsOk, OwnerIn;
    var ss := b.services[b.nextSvc := svc];
    assert b.nextSvc !in b.forfeits;
    SumServicesSame(b.services, b.forfeits, ss, b.forfeits, b.nextSvc - 1, a);
    OwnersKept(b, svc);
    SumRequestsSame(b.requests, b.services, b.requests, ss, b.nextReq - 1, a);
  }

  // The module accounts.

  /** A request's flow at escrow is what it has locked while open and nothing afterwards; at the
      treasury it is the forfeited voucher bonds of a slash. */
  lemma FlowAtModules(r: Request, owner: Address)
    requires Shape(r) && Parties(r) && IsUser(owner)
    ensures Flow(r, owner, ESCROW) == if r.status.IsOpen() then Locked(r) else 0
    ensures Flow(r, owner, TREASURY) == if r.status.Slashed? then Bonds(Supporters(r.vouchers)) else 0
  {
    ModuleAddressesAreNotValid();
    SideMembers(r.vouchers);
    forall a | a == ESCROW || a == TREASURY
      ensures PayAt(r.vouchers, 0, a) == 0
      ensures PayAt(Supporters(r.vouchers), Share(r), a) == 0
      ensures PayAt(Opponents(r.vouchers), 0, a) == 0
    {
      PayAtStranger(r.vouchers, 0, a);
      PayAtStranger(Supporters(r.vouchers), Share(r), a);
      PayAtStranger(Opponents(r.vouchers), 0, a);
    }
  }

  /** What open requests 1..n have locked. */
  ghost function SumLocked(requests: map<u64, Request>, n: int): (s: nat)
    decreases if n < 0 then 0 else n
  {
    if n <= 0 then 0
    else SumLocked(requests, n - 1)
         + (if n in requests && requests[n].status.IsOpen() then Locked(requests[n]) else 0)
  }

  /** Registration bonds held for services 1..n. */
  ghost function SumBonds(services: map<u64, Service>, n: int): (s: nat)
    decreases if n < 0 then 0 else n
  {
    if n <= 0 then 0
    else SumBonds(services, n - 1) + (if n in services then services[n].bond.amount else 0)
  }

  lemma {:induction false} SumRequestsAtEscrow(b: Book, n: int)
    requires Core(b) && n < b.nextReq
    ensures SumRequests(b.requests, b.services, n, ESCROW) == SumLocked(b.requests, n)
    decreases if n < 0 then 0 else n
  {
    if n > 0 {
      SumRequestsAtEscrow(b, n - 1);
      var k: u64 := n;
      assert RequestOk(b.services, b.requests[k], k);
      var s := b.requests[k].serviceId;
      assert ServiceOk(b.services[s], s);
      FlowAtModules(b.requests[k], b.Owner(s));
    }
  }

  lemma {:induction false} SumServicesAtEscrow(b: Book, n: int)
    requires Core(b) && n < b.nextSvc
    ensures SumServices(b.services, b.forfeits, n, ESCROW) == SumBonds(b.services, n)
    decreases if n < 0 then 0 else n
  {
    if n > 0 {
      SumServicesAtEscrow(b, n - 1);
      var k: u64 := n;
      assert ServiceOk(b.services[k], k);
      ModuleAddressesAreNotValid();
    }
  }

  /** Escrow holds exactly the gifts it received, what every open request has locked, and every
      registration bond not yet released. */
  lemma EscrowReconciles(b: Book)
    requires Core(b)
    ensures Funds(b, ESCROW)
         == At(b.ext, ESCROW) + SumLocked(b.requests, b.nextReq - 1) + SumBonds(b.services, b.nextSvc - 1)
    ensures At(b.ext, ESCROW) >= 0
  {
    SumRequestsAtEscrow(b, b.nextReq - 1);
    SumServicesAtEscrow(b, b.nextSvc - 1);
  }

  lemma {:induction false} SumLockedCovers(requests: map<u64, Request>, id: u64, n: int)
    requires id in requests && 1 <= id <= n && requests[id].status.IsOpen()
    ensures SumLocked(requests, n) >= Locked(requests[id])
    decreases n
  {
    if n != id {
      SumLockedCovers(requests, id, n - 1);
    }
  }

  lemma {:induction false} SumBondsCovers(services: map<u64, Service>, id: u64, n: int)
    requires id in services && 1 <= id <= n
    ensures SumBonds(services, n) >= services[id].bond.amount
    decreases n
  {
    if n != id {
      SumBondsCovers(services, id, n - 1);
    }
  }

  /** Escrow can always pay out any one open request. */
  lemma EscrowCoversRequest(b: Book, id: u64)
    requires Core(b) && id in b.requests && b.requests[id].status.IsOpen()
    ensures Funds(b, ESCROW) >= Locked(b.requests[id])
  {
    EscrowReconciles(b);
    SumLockedCovers(b.requests, id, b.nextReq - 1);
  }

  /** Escrow can always release any one registration bond. */
  lemma EscrowCoversService(b: Book, id: u64)
    requires Core(b) && id in b.services
    ensures Funds(b, ESCROW) >= b.services[id].bond.amount
  {
    EscrowReconciles(b);
    SumBondsCovers(b.services, id, b.nextSvc - 1);
  }
}
