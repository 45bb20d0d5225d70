/** What each accepted message does: the record it leaves, whose balances move and by how much, and
    that nothing else changes. Stated without the appliers. */
module Effects {
  import opened Types
  import opened Addresses
  import opened Flows
  import opened Books
  import opened Machine
  import opened Reachable
  import opened Payouts
  import opened Reconciliation
  import opened Admission

  /** Between the two states `n` moved from one account to another, and no other balance changed. */
  ghost predicate Pays(b: Book, b': Book, from: Address, to: Address, n: int) {
    forall a :: Funds(b', a) == Funds(b, a) - Post(from, a, n) + Post(to, a, n)
  }

  /** Only request `id` changed. */
  ghost predicate OnlyRequest(b: Book, b': Book, id: u64) {
    && id in b.requests && id in b'.requests
    && b' == b.(requests := b.requests[id := b'.requests[id]])
  }

  ghost predicate OnlyService(b: Book, b': Book, id: u64) {
    && id in b.services && id in b'.services
    && b' == b.(services := b.services[id := b'.services[id]], forfeits := b'.forfeits)
  }

  /** A new service, online, under the name, owner, price and domain of the message; its owner has
      locked the registration bond in force. */
  ghost predicate Registers(b: Book, b': Book, a: Address, m: Msg)
    requires m.RegisterService?
  {
    && b.nextSvc in b'.services
    && var s := b'.services[b.nextSvc];
    && b'.nextSvc == b.nextSvc + 1
    && b' == b.(services := b.services[b.nextSvc := s], svcByName := b.svcByName[m.name := b.nextSvc],
                nextSvc := b'.nextSvc)
    && s.id == b.nextSvc && s.owner == a && s.name == m.name && s.description == m.description
    && s.price == m.price && s.domainId == m.domainId
    && s.active && s.createdAt == b.height && s.bond == b.params.registrationBond
    && Pays(b, b', a, ESCROW, b.params.registrationBond.amount)
  }

  /** A new pending request; its requester has locked the service's price, whatever was offered. */
  ghost predicate Requests(b: Book, b': Book, a: Address, m: Msg)
    requires m.RequestInference?
  {
    && b.nextReq in b'.requests && m.serviceId in b.services
    && var r, price := b'.requests[b.nextReq], b.services[m.serviceId].price;
    && b'.nextReq == b.nextReq + 1 && b' == b.(requests := b.requests[b.nextReq := r], nextReq := b'.nextReq)
    && r.id == b.nextReq && r.serviceId == m.serviceId && r.requester == a
    && r.inputHash == m.inputHash && r.inputUri == m.inputUri && r.inputText == m.inputText
    && r.escrow == price
    && r.deadline == (if m.deadline == 0 then b.height + b.params.maxDeadline else m.deadline)
    && r.status == Pending && r.createdAt == b.height && r.finalizedAt == 0 && r.submittedAt == 0
    && r.result.None? && r.paid.None? && r.providerBond.None? && r.challenges == [] && r.vouchers == []
    && Pays(b, b', a, ESCROW, price.amount)
  }

  /** The result and the provider bond in force are on the record. With a challenge window the bond is
      locked; without one the provider has been paid at once and keeps the bond. */
  ghost predicate Submits(b: Book, b': Book, a: Address, m: Msg)
    requires m.SubmitResult?
  {
    && OnlyRequest(b, b', m.requestId)
    && var r, r', bond := b.requests[m.requestId], b'.requests[m.requestId], b.params.providerBond;
    && r.serviceId in b.services && b.services[r.serviceId].owner == a
    && r'.result == Some(m.result) && r'.submittedAt == b.height
    && r'.providerBond == (if bond.amount > 0 then Some(bond) else None)
    && r' == r.(result := r'.result, submittedAt := r'.submittedAt, providerBond := r'.providerBond,
                status := r'.status, finalizedAt := r'.finalizedAt, paid := r'.paid)
    && if b.params.challengeWindow == 0
       then && r'.status == Finalized && r'.finalizedAt == b.height && r'.paid == Some(r.escrow)
            && Pays(b, b', ESCROW, a, r.escrow.amount)
       else && r'.status == Submitted && r'.finalizedAt == r.finalizedAt && r'.paid == r.paid
            && Pays(b, b', a, ESCROW, bond.amount)
  }

  /** The one challenge is on the record and the challenger has locked the bond in force. */
  ghost predicate Challenges(b: Book, b': Book, a: Address, m: Msg)
    requires m.FileChallenge?
  {
    && OnlyRequest(b, b', m.requestId)
    && var r, r', bond := b.requests[m.requestId], b'.requests[m.requestId], b.params.challengerBond;
    && r' == r.(status := Challenged, challenges := r'.challenges)
    && |r'.challenges| == 1
    && r'.challenges[0].challenger == a && r'.challenges[0].postedAt == b.height
    && r'.challenges[0].attestation == m.attestation && r'.challenges[0].bond == bond
    && Pays(b, b', a, ESCROW, bond.amount)
  }

  /** One more voucher is on the record, on the side its output hash says. It has locked the scaled
      stake, in 64 bits, where the request has a provider bond and scaling is on, else the fixed one. */
  ghost predicate Vouches(b: Book, b': Book, a: Address, m: Msg)
    requires m.Vouch?
  {
    && OnlyRequest(b, b', m.requestId)
    && var r, r', bp := b.requests[m.requestId], b'.requests[m.requestId], b.params.voucherScaleBP;
    && |r'.vouchers| == |r.vouchers| + 1 && r.vouchers <= r'.vouchers
    && r' == r.(vouchers := r'.vouchers)
    && var v := r'.vouchers[|r.vouchers|];
    && v.voucher == a && v.postedAt == b.height && v.attestation == m.attestation
    && r.result.Some? && (v.supportsProvider <==> m.attestation.outputHash == r.result.value.outputHash)
    && (if bp > 0 && r.BondAmount() > 0
        then v.bond.amount == Wrap(r.BondAmount() * bp) / 10000 && v.bond.denom == r.providerBond.value.denom
        else v.bond == b.params.voucherBond)
    && Pays(b, b', a, ESCROW, v.bond.amount)
  }

  /** The service has the new price and description; no balance moves. */
  ghost predicate Updates(b: Book, b': Book, m: Msg)
    requires m.UpdateService?
  {
    && OnlyService(b, b', m.serviceId)
    && var s, s' := b.services[m.serviceId], b'.services[m.serviceId];
    && s'.price == m.price && s'.description == m.description
    && s' == s.(price := s'.price, description := s'.description)
    && Pays(b, b', s.owner, s.owner, 0)
  }

  /** The service is offline without a bond. The owner has the bond back once the service has lived
      the minimum time; before, the treasury has it. */
  ghost predicate Deactivates(b: Book, b': Book, m: Msg)
    requires m.DeactivateService?
  {
    && OnlyService(b, b', m.serviceId)
    && var s, s' := b.services[m.serviceId], b'.services[m.serviceId];
    && !s'.active && s'.bond.amount == 0
    && s' == s.(active := s'.active, bond := s'.bond)
    && Pays(b, b', ESCROW, if b.height - s.createdAt >= b.params.minLifetime then s.owner else TREASURY,
            s.bond.amount)
  }

  /** A new active domain with the tuple, tokenizer and margin of the message; no balance moves. */
  ghost predicate RegistersDomain(b: Book, b': Book, a: Address, m: Msg)
    requires m.RegisterDomain?
  {
    && b.nextDom in b'.domains
    && var d := b'.domains[b.nextDom];
    && b'.nextDom == b.nextDom + 1
    && b' == b.(authority := a, domains := b.domains[b.nextDom := d], nextDom := b'.nextDom)
    && d.id == b.nextDom && d.model == m.model && d.runtime == m.runtime && d.hardware == m.hardware
    && d.precision == m.precision && d.tokenizer == m.tokenizer && d.description == m.description
    && d.margin == m.margin && d.active && d.registeredAt == b.height
    && Pays(b, b', a, a, 0)
  }

  /** The named account has the amount. */
  ghost predicate Transfers(b: Book, b': Book, a: Address, m: Msg)
    requires m.Transfer?
  {
    b' == b.(ext := b'.ext) && Pays(b, b', a, m.to, m.amount)
  }

  /** Dismissed for the provider, slashed for the challenger; the balances of every account. */
  ghost predicate Resolves(b: Book, b': Book, m: Msg)
    requires m.ResolveChallenge?
  {
    && OnlyRequest(b, b', m.requestId)
    && var r, r' := b.requests[m.requestId], b'.requests[m.requestId];
    && r.challenges != [] && r'.finalizedAt == b.height
    && r' == r.(status := r'.status, finalizedAt := r'.finalizedAt, paid := r'.paid)
    && if m.decision == ForProvider
       then && r'.status == Finalized && r'.paid == Some(r.escrow)
            && forall a :: Funds(b', a) == Funds(b, a) + DismissGain(r, b.Owner(r.serviceId), a)
       else && r'.status == Slashed && r'.paid == r.paid
            && forall a :: Funds(b', a) == Funds(b, a) + SlashGain(r, a)
  }

  /** What a dismissal pays `a`: the owner escrow, bond and the rest of the pool, the supporters their
      bonds and a share each; escrow loses all that was locked. */
  function DismissGain(r: Request, owner: Address, a: Address): int {
    Post(owner, a, r.escrow.amount + r.BondAmount() + OwnerCut(r))
    + PayAt(Supporters(r.vouchers), Share(r), a)
    - Post(ESCROW, a, Locked(r))
  }

  /** What a slash pays `a`: the requester the escrow, the challenger both main bonds, the opponents
      their bonds, the treasury the supporters'; escrow loses all that was locked. */
  function SlashGain(r: Request, a: Address): int
    requires r.challenges != []
  {
    Post(r.requester, a, r.escrow.amount)
    + Post(r.challenges[0].challenger, a, r.BondAmount() + r.ChallengeAmount())
    + PayAt(Opponents(r.vouchers), 0, a) + Post(TREASURY, a, Bonds(Supporters(r.vouchers)))
    - Post(ESCROW, a, Locked(r))
  }

  /** The domain and its services are dead, its open requests refunded, nothing else changed. */
  ghost predicate Closes(b: Book, b': Book, m: Msg)
    requires m.DeactivateDomain?
  {
    && m.domainId in b.domains && m.domainId in b'.domains
    && !b'.domains[m.domainId].active
    && b' == b.(domains := b.domains[m.domainId := b.domains[m.domainId].(active := false)],
                services := b'.services, requests := b'.requests)
    && b'.services.Keys == b.services.Keys && b'.requests.Keys == b.requests.Keys
    && (forall k :: k in b.services ==> Outlives(b.services[k], b'.services[k], m.domainId))
    && (forall k :: k in b.requests ==> Voids(b, b.requests[k], b'.requests[k], m.domainId))
    && (forall a :: a != ESCROW ==> Funds(b', a) == Funds(b, a) + StakesIn(b, m.domainId, a))
    && Funds(b', TREASURY) == Funds(b, TREASURY)
  }

  predicate Outlives(s: Service, s': Service, d: u64) {
    if s.active && s.domainId == d
    then !s'.active && s'.bond.amount == 0 && s' == s.(active := false, bond := s'.bond)
    else s' == s
  }

  ghost predicate Voids(b: Book, r: Request, r': Request, d: u64) {
    if r.status in {Pending, Submitted, Challenged} && r.serviceId in b.services && b.services[r.serviceId].domainId == d
    then r' == r.(status := Refunded, finalizedAt := b.height)
    else r' == r
  }

  /** All that `a` has in the domain: registration bonds of active services and what it put into open
      requests, in whichever roles. */
  ghost function StakesIn(b: Book, d: u64, a: Address): int {
    BondsIn(b, d, b.nextSvc - 1, a) + PaidInto(b, d, b.nextReq - 1, a)
  }

  ghost function BondsIn(b: Book, d: u64, n: int, a: Address): int
    decreases if n < 0 then 0 else n
  {
    if n <= 0 then 0
    else BondsIn(b, d, n - 1, a)
         + (if n in b.services && b.services[n].domainId == d && b.services[n].active
            then Post(b.services[n].owner, a, b.services[n].bond.amount) else 0)
  }

  ghost function PaidInto(b: Book, d: u64, n: int, a: Address): int
    decreases if n < 0 then 0 else n
  {
    if n <= 0 then 0
    else PaidInto(b, d, n - 1, a)
         + (if n in b.requests && InDomain(b.services, b.requests[n].serviceId, d) && b.requests[n].status.IsOpen()
            then PaidIn(b.requests[n], b.Owner(b.requests[n].serviceId), a) else 0)
  }

  /** The message has had its effect, and no other. */
  ghost predicate Effect(b: Book, b': Book, a: Address, m: Msg) {
    match m
    case RegisterService(_, _, _, _, _) => Registers(b, b', a, m)
    case RequestInference(_, _, _, _, _, _, _) => Requests(b, b', a, m)
    case SubmitResult(_, _, _) => Submits(b, b', a, m)
    case Transfer(_, _, _) => Transfers(b, b', a, m)
    case RegisterDomain(_, _, _, _, _, _, _, _) => RegistersDomain(b, b', a, m)
    case FileChallenge(_, _, _) => Challenges(b, b', a, m)
    case Vouch(_, _, _) => Vouches(b, b', a, m)
    case UpdateService(_, _, _, _) => Updates(b, b', m)
    case DeactivateService(_, _) => Deactivates(b, b', m)
    case DeactivateDomain(_, _) => Closes(b, b', m)
    case ResolveChallenge(_, _, _) => Resolves(b, b', m)
  }

  // The lemmas, message by message.

  /** The balances depend on outside money, requests, services and forfeits alone. */
  lemma SameBooks(b: Book, b': Book)
    requires b'.ext == b.ext && b'.requests == b.requests && b'.services == b.services
    requires b'.forfeits == b.forfeits && b'.nextReq == b.nextReq && b'.nextSvc == b.nextSvc
    ensures forall a :: Funds(b', a) == Funds(b, a)
  {
  }

  lemma RegisterServiceEffect(b: Book, signer: Address, m: Msg)
    requires Core(b) && Room(b) && m.RegisterService? && ApplyRegisterService(b, signer, m).Ok?
    ensures Registers(b, ApplyRegisterService(b, signer, m).value, signer, m)
  {
    hide Core;
    var b' := ApplyRegisterService(b, signer, m).value;
    var s := b'.services[b.nextSvc];
    var b1 := b.(services := b.services[b.nextSvc := s], nextSvc := b.nextSvc + 1);
    SameBooks(b1, b');
    hide Funds, ApplyRegisterService;
    forall a ensures Funds(b', a) == Funds(b, a) - Post(signer, a, s.bond.amount) + Post(ESCROW, a, s.bond.amount) {
      FundsNewService(b, s, a);
    }
  }

  lemma RequestInferenceEffect(b: Book, signer: Address, m: Msg)
    requires Core(b) && Room(b) && m.RequestInference? && ApplyRequestInference(b, signer, m).Ok?
    ensures Requests(b, ApplyRequestInference(b, signer, m).value, signer, m)
  {
    hide Core, Funds;
    var b' := ApplyRequestInference(b, signer, m).value;
    var r := b'.requests[b.nextReq];
    forall a ensures Funds(b', a) == Funds(b, a) - Post(signer, a, r.escrow.amount) + Post(ESCROW, a, r.escrow.amount) {
      FundsNewRequest(b, r, a);
    }
  }

  lemma SubmitResultEffect(b: Book, signer: Address, m: Msg)
    requires Core(b) && m.SubmitResult? && ApplySubmitResult(b, signer, m).Ok?
    ensures Submits(b, ApplySubmitResult(b, signer, m).value, signer, m)
  {
    hide Core, Funds, CheckTuple;
    var b' := ApplySubmitResult(b, signer, m).value;
    var r, r' := b.requests[m.requestId], b'.requests[m.requestId];
    ShapeOf(b, m.requestId);
    var submitted := r.(status := Submitted, submittedAt := b.height, result := r'.result,
                        providerBond := r'.providerBond);
    forall a
      ensures Funds(b', a) == Funds(b, a) + Flow(r', signer, a) - Flow(r, signer, a)
      ensures Flow(submitted, signer, a) - Flow(r, signer, a)
           == Post(ESCROW, a, submitted.BondAmount()) - Post(signer, a, submitted.BondAmount())
      ensures Flow(Settled(submitted, Finalize, b.height), signer, a) - Flow(submitted, signer, a)
           == Post(signer, a, r.escrow.amount + submitted.BondAmount()) - Post(ESCROW, a, r.escrow.amount + submitted.BondAmount())
    {
      FundsPutRequest(b, m.requestId, r', a);
      SubmitFlow(r, submitted, signer, a);
      SettledFlow(submitted, Finalize, b.height, signer, a);
      FinalizePayout(submitted, b.height, signer, a);
    }
    hide Flow;
  }

  lemma ChallengeEffect(b: Book, signer: Address, m: Msg)
    requires Core(b) && m.FileChallenge? && ApplyChallenge(b, signer, m).Ok?
    ensures Challenges(b, ApplyChallenge(b, signer, m).value, signer, m)
  {
    hide Core, Funds, CheckTuple, Flow;
    var b' := ApplyChallenge(b, signer, m).value;
    var r, r' := b.requests[m.requestId], b'.requests[m.requestId];
    ShapeOf(b, m.requestId);
    var c := r'.challenges[0];
    forall a ensures Funds(b', a) == Funds(b, a) - Post(signer, a, c.bond.amount) + Post(ESCROW, a, c.bond.amount) {
      FundsPutRequest(b, m.requestId, r', a);
      ChallengeFlow(r, c, b.Owner(r.serviceId), a);
    }
  }

  lemma VouchEffect(b: Book, signer: Address, m: Msg)
    requires Core(b) && m.Vouch? && ApplyVouch(b, signer, m).Ok?
    ensures Vouches(b, ApplyVouch(b, signer, m).value, signer, m)
  {
    hide Core, Funds, CheckTuple, Flow, Eligible;
    var b' := ApplyVouch(b, signer, m).value;
    var r, r' := b.requests[m.requestId], b'.requests[m.requestId];
    ShapeOf(b, m.requestId);
    var v := r'.vouchers[|r.vouchers|];
    forall a ensures Funds(b', a) == Funds(b, a) - Post(signer, a, v.bond.amount) + Post(ESCROW, a, v.bond.amount) {
      FundsPutRequest(b, m.requestId, r', a);
      VouchFlow(r, v, b.Owner(r.serviceId), a);
    }
  }

  lemma UpdateServiceEffect(b: Book, signer: Address, m: Msg)
    requires Core(b) && m.UpdateService? && ApplyUpdateService(b, signer, m).Ok?
    ensures Updates(b, ApplyUpdateService(b, signer, m).value, m)
  {
    hide Core, Funds;
    var b' := ApplyUpdateService(b, signer, m).value;
    forall a ensures Funds(b', a) == Funds(b, a) {
      FundsPutService(b, m.serviceId, b'.services[m.serviceId], b.forfeits, a);
    }
  }

  lemma DeactivateServiceEffect(b: Book, signer: Address, m: Msg)
    requires Core(b) && m.DeactivateService? && ApplyDeactivateService(b, signer, m).Ok?
    ensures Deactivates(b, ApplyDeactivateService(b, signer, m).value, m)
  {
    hide Core, Funds;
    var b' := ApplyDeactivateService(b, signer, m).value;
    var s := b.services[m.serviceId];
    var to := if b.height - s.createdAt >= b.params.minLifetime then s.owner else TREASURY;
    forall a ensures Funds(b', a) == Funds(b, a) - Post(ESCROW, a, s.bond.amount) + Post(to, a, s.bond.amount) {
      FundsPutService(b, m.serviceId, b'.services[m.serviceId], b'.forfeits, a);
    }
  }

  lemma RegisterDomainEffect(b: Book, signer: Address, m: Msg)
    requires Room(b) && m.RegisterDomain? && ApplyRegisterDomain(b, signer, m).Ok?
    ensures RegistersDomain(b, ApplyRegisterDomain(b, signer, m).value, signer, m)
  {
    SameBooks(b, ApplyRegisterDomain(b, signer, m).value);
    hide Funds;
  }

  lemma TransferEffect(b: Book, signer: Address, m: Msg)
    requires m.Transfer? && ApplyTransfer(b, signer, m).Ok?
    ensures Transfers(b, ApplyTransfer(b, signer, m).value, signer, m)
  {
    hide SumRequests, SumServices;
  }

  lemma ResolutionGain(r: Request, v: Verdict, h: int, owner: Address, a: Address)
    requires Shape(r) && r.status == Challenged && v in {Dismiss, Slash}
    ensures Flow(Settled(r, v, h), owner, a) - Flow(r, owner, a)
         == if v == Dismiss then DismissGain(r, owner, a) else SlashGain(r, a)
  {
    hide Supporters, Opponents, PayAt, Bonds;
    SettledFlow(r, v, h, owner, a);
  }

  lemma ResolveChallengeEffect(b: Book, signer: Address, m: Msg)
    requires Core(b) && m.ResolveChallenge? && ApplyResolveChallenge(b, signer, m).Ok?
    ensures Resolves(b, ApplyResolveChallenge(b, signer, m).value, m)
  {
    hide Core, Funds, Flow, DismissGain, SlashGain;
    var b' := ApplyResolveChallenge(b, signer, m).value;
    var r, r' := b.requests[m.requestId], b'.requests[m.requestId];
    var v, owner := if m.decision == ForProvider then Dismiss else Slash, b.Owner(r.serviceId);
    ShapeOf(b, m.requestId);
    forall a
      ensures Funds(b', a) == Funds(b, a) + if v == Dismiss then DismissGain(r, owner, a) else SlashGain(r, a)
    {
      FundsPutRequest(b, m.requestId, r', a);
      ResolutionGain(r, v, b.height, owner, a);
    }
  }

  /** What a void returns and what a retirement releases, service by service and request by request. */
  lemma {:induction false} ClosedRequests(b: Book, d: u64, n: int, a: Address)
    requires Core(b) && d in b.domains && n < TWO64 && a != ESCROW
    ensures SumRequests(CloseDomain(b, d).requests, CloseDomain(b, d).services, n, a)
         == SumRequests(b.requests, b.services, n, a) + PaidInto(b, d, n, a)
    decreases if n < 0 then 0 else n
  {
    hide Core, PaidIn;
    if n > 0 {
      ClosedRequests(b, d, n - 1, a);
    }
  }

  lemma {:induction false} ClosedServices(b: Book, d: u64, n: int, a: Address)
    requires d in b.domains && n < TWO64 && a != ESCROW
    ensures SumServices(CloseDomain(b, d).services, b.forfeits, n, a)
         == SumServices(b.services, b.forfeits, n, a) + BondsIn(b, d, n, a)
    decreases if n < 0 then 0 else n
  {
    if n > 0 {
      ClosedServices(b, d, n - 1, a);
    }
  }

  /** The treasury has no stake anywhere. */
  lemma {:induction false} NoTreasuryStakes(b: Book, d: u64, n: int)
    requires Core(b) && n < TWO64
    ensures PaidInto(b, d, n, TREASURY) == 0 && BondsIn(b, d, n, TREASURY) == 0
    decreases if n < 0 then 0 else n
  {
    hide IdsOk, IndexOk;
    if n > 0 {
      NoTreasuryStakes(b, d, n - 1);
      var k: u64 := n;
      if k in b.services {
        assert ServiceOk(b.services[k], k);
      }
      if k in b.requests {
        assert RequestOk(b.services, b.requests[k], k);
        assert ServiceOk(b.services[b.requests[k].serviceId], b.requests[k].serviceId);
        PayAtStranger(b.requests[k].vouchers, 0, TREASURY);
      }
    }
  }

  lemma StakesReturned(b: Book, d: u64, a: Address)
    requires Core(b) && d in b.domains && a != ESCROW
    ensures Funds(CloseDomain(b, d), a) == Funds(b, a) + StakesIn(b, d, a)
    ensures a == TREASURY ==> StakesIn(b, d, a) == 0
  {
    hide Core, SumRequests, SumServices, PaidInto, BondsIn;
    ClosedRequests(b, d, b.nextReq - 1, a);
    ClosedServices(b, d, b.nextSvc - 1, a);
    NoTreasuryStakes(b, d, b.nextReq - 1);
    NoTreasuryStakes(b, d, b.nextSvc - 1);
  }

  lemma DeactivateDomainEffect(b: Book, signer: Address, m: Msg)
    requires Core(b) && m.DeactivateDomain? && ApplyDeactivateDomain(b, signer, m).Ok?
    ensures Closes(b, ApplyDeactivateDomain(b, signer, m).value, m)
  {
    hide Core, Funds, StakesIn;
    ModuleAddressesAreNotValid();
    forall a | a != ESCROW ensures Funds(CloseDomain(b, m.domainId), a) == Funds(b, a) + StakesIn(b, m.domainId, a) {
      StakesReturned(b, m.domainId, a);
    }
    StakesReturned(b, m.domainId, TREASURY);
  }

  lemma ApplyEffect(b: Book, signer: Address, m: Msg)
    requires Core(b) && Room(b) && Apply(b, signer, m).Ok?
    ensures Effect(b, Apply(b, signer, m).value, signer, m)
  {
    hide Core, Room;
    match m {
      case RegisterService(_, _, _, _, _) => RegisterServiceEffect(b, signer, m);
      case RequestInference(_, _, _, _, _, _, _) => RequestInferenceEffect(b, signer, m);
      case SubmitResult(_, _, _) => SubmitResultEffect(b, signer, m);
      case Transfer(_, _, _) => TransferEffect(b, signer, m);
      case RegisterDomain(_, _, _, _, _, _, _, _) => RegisterDomainEffect(b, signer, m);
      case FileChallenge(_, _, _) => ChallengeEffect(b, signer, m);
      case Vouch(_, _, _) => VouchEffect(b, signer, m);
      case UpdateService(_, _, _, _) => UpdateServiceEffect(b, signer, m);
      case DeactivateService(_, _) => DeactivateServiceEffect(b, signer, m);
      case DeactivateDomain(_, _) => DeactivateDomainEffect(b, signer, m);
      case ResolveChallenge(_, _, _) => ResolveChallengeEffect(b, signer, m);
    }
  }

  /** An accepted envelope advances its signer's nonce and has the effect of its message, no other. */
  lemma AcceptedEffect(b: Book, tx: SignedTx)
    requires Core(b) && Room(b) && Submit(b, tx).Ok?
    ensures tx.payload.Some?
    ensures var a, b' := AddressOf(tx.signer), Step(b, SubmitTx(tx));
      && b'.nonces == b.nonces[a := Wrap(tx.nonce + 1)]
      && Effect(b, b'.(nonces := b.nonces), a, tx.payload.value)
      && forall x :: Funds(b', x) == Funds(b'.(nonces := b.nonces), x)
  {
    hide Core, Room, Apply, AddressOf, Effect, Funds;
    var a, m, b' := AddressOf(tx.signer), tx.payload.value, Step(b, SubmitTx(tx));
    ApplyEffect(b, a, m);
    ApplyCounters(b, a, m);
    assert b'.(nonces := b.nonces) == Apply(b, a, m).value;
    SameBooks(b'.(nonces := b.nonces), b');
  }

  /** A service taken offline by its owner: the registration bond is the owner's if and only if the
      service has lived the minimum time, else the treasury's; no other user's balance moves. */
  lemma RegistrationBondGoesTo(b: Book, tx: SignedTx)
    requires Core(b) && Room(b) && Submit(b, tx).Ok? && tx.payload.value.DeactivateService?
    ensures tx.payload.value.serviceId in b.services
    ensures var s, b' := b.services[tx.payload.value.serviceId], Step(b, SubmitTx(tx));
      var lived := b.height - s.createdAt >= b.params.minLifetime;
      && s.owner == AddressOf(tx.signer)
      && Funds(b', s.owner) == Funds(b, s.owner) + (if lived then s.bond.amount else 0)
      && Funds(b', TREASURY) == Funds(b, TREASURY) + (if lived then 0 else s.bond.amount)
      && forall a :: IsUser(a) && a != s.owner ==> Funds(b', a) == Funds(b, a)
  {
    AcceptedEffect(b, tx);
    AcceptedIff(b, tx);
    ModuleAddressesAreNotValid();
    DerivedAddress(tx.signer);
    hide Core, Room, Funds, Submit, Step, AddressOf, IsSigned;
  }

  /** A submitted result: the service's owner has locked exactly the provider bond in force, which the
      record shows; without a challenge window the owner has gained exactly the escrow instead. */
  lemma ProviderStake(b: Book, tx: SignedTx)
    requires Core(b) && Room(b) && Submit(b, tx).Ok? && tx.payload.value.SubmitResult?
    ensures tx.payload.value.requestId in b.requests && tx.payload.value.requestId in Step(b, SubmitTx(tx)).requests
    ensures var id, owner, b' := tx.payload.value.requestId, AddressOf(tx.signer), Step(b, SubmitTx(tx));
      var r, r', bond := b.requests[id], b'.requests[id], b.params.providerBond;
      && b.Owner(r.serviceId) == owner
      && r'.result == Some(tx.payload.value.result)
      && r'.providerBond == (if bond.amount > 0 then Some(bond) else None)
      && Funds(b', owner) == Funds(b, owner) + (if b.params.challengeWindow == 0 then r.escrow.amount else 0 - bond.amount)
      && forall a :: IsUser(a) && a != owner ==> Funds(b', a) == Funds(b, a)
  {
    AcceptedEffect(b, tx);
    DerivedAddress(tx.signer);
    hide Core, Room, Funds, Submit, Step, AddressOf;
  }
}
