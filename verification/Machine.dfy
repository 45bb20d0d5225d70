/** The chain as a transition system over books. A payout is not an action here: records change and
    `Books.Funds` says what every balance has become. */
module Machine {
  import opened Types
  import opened Addresses
  import opened Flows
  import opened Books

  // How requests end.

  datatype Verdict = Keep | Refund | Finalize | Slash | Dismiss

  /** The record a verdict leaves at height `h`. */
  function Settled(r: Request, v: Verdict, h: int): Request {
    match v
    case Keep => r
    case Refund => r.(status := Refunded, finalizedAt := h)
    case Slash => r.(status := Slashed, finalizedAt := h)
    case Finalize => r.(status := Finalized, finalizedAt := h, paid := Some(r.escrow))
    case Dismiss => r.(status := Finalized, finalizedAt := h, paid := Some(r.escrow))
  }

  /** Ending an open request changes its flow by what it pays out, less what it had locked. */
  lemma SettledFlow(r: Request, v: Verdict, h: int, owner: Address, a: Address)
    requires r.status.IsOpen() && v != Keep
    ensures Flow(Settled(r, v, h), owner, a) - Flow(r, owner, a)
         == PaidOut(Settled(r, v, h), owner, a) - Post(ESCROW, a, Locked(r))
  {
  }

  /** The margin in force for a request: its domain's when that sets one, else the global one. */
  function Margin(b: Book, r: Request): int {
    if r.serviceId in b.services && b.services[r.serviceId].domainId != 0
       && b.services[r.serviceId].domainId in b.domains
       && b.domains[b.services[r.serviceId].domainId].margin > 0
    then b.domains[b.services[r.serviceId].domainId].margin
    else b.params.voucherMargin
  }

  predicate ProviderWins(b: Book, r: Request) {
    && |Supporters(r.vouchers)| > 0
    && |Supporters(r.vouchers)| - |Opponents(r.vouchers)| >= Margin(b, r)
  }

  /** What time does to a request at the book's height. */
  function Due(b: Book, r: Request): Verdict {
    match r.status
    case Pending => if b.height > r.deadline then Refund else Keep
    case Submitted => if b.height > r.submittedAt + b.params.challengeWindow then Finalize else Keep
    case Challenged =>
      if |r.challenges| == 0 || b.height <= r.challenges[0].postedAt + RESOLUTION_WINDOW then Keep
      else if ProviderWins(b, r) then Dismiss
      else Slash
    case _ => Keep
  }

  /** Every request in `ids` settled according to its own record. */
  ghost function SettleSet(b: Book, ids: set<u64>): Book {
    b.(requests := map k | k in b.requests ::
         if k in ids then Settled(b.requests[k], Due(b, b.requests[k]), b.height) else b.requests[k])
  }

  /** One block: the height advances and every request is settled independently of the others. */
  ghost function Tick(b: Book): Book {
    var b' := b.(height := b.height + 1);
    SettleSet(b', b'.requests.Keys)
  }

  // Lists of requests to settle, as a scan collects them.

  /** The list holds stored records, in ascending id order and so without repetition. */
  ghost predicate Listed(rs: seq<Request>, requests: map<u64, Request>) {
    && (forall r :: r in rs ==> r.id in requests && requests[r.id] == r)
    && (forall i, j :: 0 <= i < j < |rs| ==> rs[i].id < rs[j].id)
  }

  /** The list holds exactly the requests whose verdict is `v`. */
  ghost predicate DueList(b: Book, rs: seq<Request>, v: Verdict) {
    && Listed(rs, b.requests)
    && forall k :: k in b.requests ==> (b.requests[k] in rs <==> Due(b, b.requests[k]) == v)
  }

  ghost function SettleListed(requests: map<u64, Request>, rs: seq<Request>, v: Verdict, h: int): map<u64, Request> {
    map k | k in requests :: if requests[k] in rs then Settled(requests[k], v, h) else requests[k]
  }

  /** The next listed record has not changed since it was collected, and settling it extends the
      settled prefix by one. */
  lemma SettleListedStep(requests: map<u64, Request>, rs: seq<Request>, i: nat, v: Verdict, h: int)
    requires Listed(rs, requests) && i < |rs| && forall k :: k in requests ==> requests[k].id == k
    ensures rs[i].id in SettleListed(requests, rs[..i], v, h)
    ensures SettleListed(requests, rs[..i], v, h)[rs[i].id] == rs[i]
    ensures SettleListed(requests, rs[..i + 1], v, h)
         == SettleListed(requests, rs[..i], v, h)[rs[i].id := Settled(rs[i], v, h)]
  {
    var r := rs[i];
    assert r in rs;
    assert r !in rs[..i];
    var m := SettleListed(requests, rs[..i], v, h)[r.id := Settled(r, v, h)];
    assert m.Keys == requests.Keys;
    forall k | k in requests
      ensures m[k] == SettleListed(requests, rs[..i + 1], v, h)[k]
    {
      assert rs[..i + 1] == rs[..i] + [r];
    }
  }

  /** A settled record is listed nowhere: every listed record is due, a settled one never is. */
  lemma SettledNotListed(b: Book, rs: seq<Request>, v: Verdict, r: Request, w: Verdict)
    requires DueList(b, rs, v) && v != Keep
    ensures w != Keep ==> Settled(r, w, b.height) !in rs
  {
    var x := Settled(r, w, b.height);
    assert x in rs ==> Due(b, x) == v;
  }

  /** The requests after those with a verdict in `done` have been settled. */
  ghost function SettledBy(b: Book, done: set<Verdict>): map<u64, Request> {
    map k | k in b.requests ::
      if Due(b, b.requests[k]) in done then Settled(b.requests[k], Due(b, b.requests[k]), b.height) else b.requests[k]
  }

  /** A list collected before other verdicts were carried out is still current, and carrying it out
      settles exactly its verdict's requests. */
  lemma NextList(b: Book, done: set<Verdict>, rs: seq<Request>, v: Verdict)
    requires DueList(b, rs, v) && v != Keep && v !in done && Keep !in done
    ensures Listed(rs, SettledBy(b, done))
    ensures SettleListed(SettledBy(b, done), rs, v, b.height) == SettledBy(b, done + {v})
  {
    hide Settled, Due;
    var q := SettledBy(b, done);
    forall k | k in b.requests
      ensures SettleListed(q, rs, v, b.height)[k] == SettledBy(b, done + {v})[k]
    {
      SettledNotListed(b, rs, v, b.requests[k], Due(b, b.requests[k]));
    }
    assert SettleListed(q, rs, v, b.height).Keys == b.requests.Keys;
  }

  /** Settling the four lists one after the other settles every request by its own record: the lists
      are disjoint and none goes stale. */
  lemma FourLists(b: Book, toRefund: seq<Request>, toFinalize: seq<Request>, toSlash: seq<Request>, toDismiss: seq<Request>)
    requires DueList(b, toRefund, Refund) && DueList(b, toFinalize, Finalize)
    requires DueList(b, toSlash, Slash) && DueList(b, toDismiss, Dismiss)
    ensures var q1 := SettleListed(b.requests, toRefund, Refund, b.height);
      var q2 := SettleListed(q1, toFinalize, Finalize, b.height);
      var q3 := SettleListed(q2, toSlash, Slash, b.height);
      && Listed(toFinalize, q1) && Listed(toSlash, q2) && Listed(toDismiss, q3)
      && SettleListed(q3, toDismiss, Dismiss, b.height) == SettleSet(b, b.requests.Keys).requests
  {
    hide Listed, SettleListed, DueList;
    assert SettledBy(b, {}) == b.requests;
    NextList(b, {}, toRefund, Refund);
    NextList(b, {Refund}, toFinalize, Finalize);
    NextList(b, {Refund, Finalize}, toSlash, Slash);
    NextList(b, {Refund, Finalize, Slash}, toDismiss, Dismiss);
    assert {} + {Refund} == {Refund};
    assert {Refund} + {Finalize} == {Refund, Finalize};
    assert {Refund, Finalize} + {Slash} == {Refund, Finalize, Slash};
    AllVerdicts(b);
  }

  lemma AllVerdicts(b: Book)
    ensures SettledBy(b, {Refund, Finalize, Slash} + {Dismiss}) == SettleSet(b, b.requests.Keys).requests
  {
    hide Due;
  }

  // Transactions.

  ghost function ApplyRegisterService(b: Book, signer: Address, m: Msg): Result<Book>
    requires m.RegisterService?
  {
    var bond := b.params.registrationBond;
    :- Need(m.owner == signer, PartyNotSigner);
    :- Need(m.name != "", EmptyName);
    :- Need(m.price.IsPositive(), ZeroPrice);
    :- Need(m.name !in b.svcByName, DuplicateName);
    :- Need(m.domainId == 0 || m.domainId in b.domains, DomainNotFound);
    :- Need(m.domainId == 0 || b.domains[m.domainId].active, DomainInactive);
    :- Need(bond.amount <= Funds(b, signer), InsufficientFunds);
    var svc := Service(b.nextSvc, signer, m.name, m.description, m.price, m.domainId, true,
                       b.height, bond);
    Ok(b.(services := b.services[b.nextSvc := svc],
          svcByName := b.svcByName[m.name := b.nextSvc],
          nextSvc := Wrap(b.nextSvc + 1)))
  }

  ghost function ApplyRequestInference(b: Book, signer: Address, m: Msg): Result<Book>
    requires m.RequestInference?
  {
    var id := b.nextReq;
    :- Need(m.requester == signer, PartyNotSigner);
    :- Need(m.serviceId in b.services, ServiceNotFound);
    var svc := b.services[m.serviceId];
    :- Need(svc.active, ServiceInactive);
    :- Need(m.maxPrice.denom == svc.price.denom && m.maxPrice.amount >= svc.price.amount, InsufficientPrice);
    var deadline := if m.deadline == 0 then b.height + b.params.maxDeadline else m.deadline;
    :- Need(deadline > b.height, InvalidDeadline);
    :- Need(svc.price.amount <= Funds(b, signer), InsufficientFunds);
    var r := Request(id, m.serviceId, signer, m.inputHash, m.inputUri, m.inputText, svc.price,
                     deadline, Pending, b.height, 0, None, None, 0, [], None, []);
    Ok(b.(requests := b.requests[id := r], nextReq := Wrap(id + 1)))
  }

  /** An attestation must carry the tuple of the service's domain, when the service has one. */
  ghost function CheckTuple(b: Book, svc: Service, att: Attestation): Outcome {
    if svc.domainId == 0 then Pass
    else if svc.domainId !in b.domains then Fail(DomainNotFound)
    else Need(b.domains[svc.domainId].Attests(att), AttestationDomainMismatch)
  }

  ghost function ApplySubmitResult(b: Book, signer: Address, m: Msg): Result<Book>
    requires m.SubmitResult?
  {
    var bond := b.params.providerBond;
    :- Need(m.provider == signer, PartyNotSigner);
    :- Need(m.requestId in b.requests, RequestNotFound);
    var r := b.requests[m.requestId];
    :- Need(r.status == Pending, RequestNotPending);
    :- Need(r.serviceId in b.services, ServiceNotFound);
    var svc := b.services[r.serviceId];
    :- Need(signer == svc.owner, WrongProvider);
    :- Need(m.result.attestation.inputHash == r.inputHash, InputHashMismatch);
    :- Need(b.height <= r.deadline, InvalidDeadline);
    :- CheckTuple(b, svc, m.result.attestation);
    :- Need(bond.amount <= Funds(b, signer), InsufficientFunds);
    var submitted := r.(
      status := Submitted, submittedAt := b.height, result := Some(m.result),
      providerBond := if bond.IsPositive() then Some(bond) else r.providerBond);
    var r' := if b.params.challengeWindow == 0 then Settled(submitted, Finalize, b.height) else submitted;
    Ok(b.(requests := b.requests[m.requestId := r']))
  }

  ghost function ApplyChallenge(b: Book, signer: Address, m: Msg): Result<Book>
    requires m.FileChallenge?
  {
    var bond := b.params.challengerBond;
    :- Need(m.challenger == signer, PartyNotSigner);
    :- Need(m.requestId in b.requests, RequestNotFound);
    var r := b.requests[m.requestId];
    :- Need(r.status == Submitted, ChallengeNotApplicable);
    :- Need(b.height <= r.submittedAt + b.params.challengeWindow, ChallengeWindowClosed);
    :- Need(m.attestation.inputHash == r.inputHash, InputHashMismatch);
    :- Need(r.result.Some?, MissingResult);
    :- Need(m.attestation.outputHash != r.result.value.outputHash, ChallengeOutputMatches);
    :- Need(r.serviceId in b.services, ServiceNotFound);
    :- CheckTuple(b, b.services[r.serviceId], m.attestation);
    :- Need(bond.amount <= Funds(b, signer), InsufficientFunds);
    var c := Challenge(signer, b.height, m.attestation, bond);
    Ok(b.(requests := b.requests[m.requestId := r.(challenges := r.challenges + [c], status := Challenged)]))
  }

  /** The account operates an active service of the domain; domain 0 asks for nothing. */
  ghost predicate Eligible(b: Book, owner: Address, domainId: u64) {
    domainId == 0
    || exists k :: k in b.services && b.services[k].owner == owner
                   && b.services[k].domainId == domainId && b.services[k].active
  }

  /** The stake a vouch must lock: a fraction of the provider bond, computed in 64 bits. */
  function VoucherBond(p: Params, r: Request): Coin {
    if p.voucherScaleBP > 0 && r.providerBond.Some? && r.providerBond.value.IsPositive() then
      Coin(r.providerBond.value.denom, Wrap(r.providerBond.value.amount * p.voucherScaleBP) / 10000)
    else p.voucherBond
  }

  ghost function ApplyVouch(b: Book, signer: Address, m: Msg): Result<Book>
    requires m.Vouch?
  {
    var hash := m.attestation.outputHash;
    :- Need(m.voucher == signer, PartyNotSigner);
    :- Need(m.requestId in b.requests, RequestNotFound);
    var r := b.requests[m.requestId];
    :- Need(r.status == Challenged, VouchNotApplicable);
    :- Need(r.challenges != [] && r.result.Some?, MissingResult);
    :- Need(m.attestation.inputHash == r.inputHash, InputHashMismatch);
    :- Need(r.serviceId in b.services, ServiceNotFound);
    var svc := b.services[r.serviceId];
    :- CheckTuple(b, svc, m.attestation);
    :- Need(Eligible(b, signer, svc.domainId), VouchNotEligible);
    var forProvider := hash == r.result.value.outputHash;
    :- Need(forProvider || hash == r.challenges[0].attestation.outputHash, VouchHashMismatch);
    :- Need(forall v :: v in r.vouchers ==> v.voucher != signer, VouchDuplicate);
    :- Need(b.height <= r.challenges[0].postedAt + RESOLUTION_WINDOW, VouchWindowClosed);
    var bond := VoucherBond(b.params, r);
    :- Need(bond.amount <= Funds(b, signer), InsufficientFunds);
    var v := Voucher(signer, b.height, m.attestation, bond, forProvider);
    Ok(b.(requests := b.requests[m.requestId := r.(vouchers := r.vouchers + [v])]))
  }

  ghost function ApplyUpdateService(b: Book, signer: Address, m: Msg): Result<Book>
    requires m.UpdateService?
  {
    var least := b.params.minServicePrice;
    :- Need(m.owner == signer, PartyNotSigner);
    :- Need(m.serviceId in b.services, ServiceNotFound);
    var svc := b.services[m.serviceId];
    :- Need(svc.owner == signer, NotOwner);
    :- Need(svc.active, ServiceInactive);
    :- Need(m.price.IsValid() && m.price.IsPositive(), ZeroPrice);
    :- Need(!m.price.IsLT(least), BelowMinPrice);
    Ok(b.(services := b.services[m.serviceId := svc.(description := m.description, price := m.price)]))
  }

  function Retired(svc: Service): Service {
    svc.(active := false, bond := ZERO_COIN)
  }

  /** Service `id` taken offline; its bond leaves the record, to the treasury when forfeited. */
  ghost function Retire(b: Book, id: u64, forfeit: bool): Book
    requires id in b.services
  {
    b.(services := b.services[id := Retired(b.services[id])],
       forfeits := if forfeit then b.forfeits[id := At(b.forfeits, id) + b.services[id].bond.amount]
                   else b.forfeits)
  }

  ghost function ApplyDeactivateService(b: Book, signer: Address, m: Msg): Result<Book>
    requires m.DeactivateService?
  {
    var id := m.serviceId;
    :- Need(m.owner == signer, PartyNotSigner);
    :- Need(id in b.services, ServiceNotFound);
    var svc := b.services[id];
    :- Need(svc.owner == signer, NotOwner);
    :- Need(svc.active, ServiceAlreadyInactive);
    var early := b.height - svc.createdAt < b.params.minLifetime;
    Ok(Retire(b, id, early))
  }

  predicate InDomain(services: map<u64, Service>, serviceId: u64, d: u64) {
    serviceId in services && services[serviceId].domainId == d
  }

  /** A dying domain takes its active services and their open requests with it, and nothing else. */
  ghost function CloseDomain(b: Book, d: u64): Book
    requires d in b.domains
  {
    b.(domains := b.domains[d := b.domains[d].(active := false)],
       services := map k | k in b.services ::
         if b.services[k].domainId == d && b.services[k].active then Retired(b.services[k]) else b.services[k],
       requests := map k | k in b.requests ::
         if InDomain(b.services, b.requests[k].serviceId, d) && b.requests[k].status.IsOpen()
         then Settled(b.requests[k], Refund, b.height) else b.requests[k])
  }

  ghost function ApplyDeactivateDomain(b: Book, signer: Address, m: Msg): Result<Book>
    requires m.DeactivateDomain?
  {
    var d := m.domainId;
    :- Need(b.authority != "" && signer == b.authority, Unauthorized);
    :- Need(m.authority == signer, PartyNotSigner);
    :- Need(d in b.domains, DomainNotFound);
    :- Need(b.domains[d].active, DomainInactive);
    Ok(CloseDomain(b, d))
  }

  ghost function ApplyResolveChallenge(b: Book, signer: Address, m: Msg): Result<Book>
    requires m.ResolveChallenge?
  {
    var id := m.requestId;
    :- Need(b.authority != "" && signer == b.authority, Unauthorized);
    :- Need(m.authority == signer, PartyNotSigner);
    :- Need(id in b.requests, RequestNotFound);
    var r := b.requests[id];
    :- Need(r.status == Challenged, ChallengeNotApplicable);
    :- Need(m.decision != Unknown, InvalidDecision);
    var v := if m.decision == ForProvider then Dismiss else Slash;
    Ok(b.(requests := b.requests[id := Settled(r, v, b.height)]))
  }

  ghost function ApplyRegisterDomain(b: Book, signer: Address, m: Msg): Result<Book>
    requires m.RegisterDomain?
  {
    var auth := if b.authority == "" then signer else b.authority;
    :- Need(signer == auth, Unauthorized);
    :- Need(m.authority == signer, PartyNotSigner);
    :- Need(m.model != "" && m.runtime != "" && m.hardware != "" && m.precision != "", EmptyDomainField);
    :- Need(m.margin >= 0, NegativeMargin);
    var d := Domain(b.nextDom, m.model, m.runtime, m.hardware, m.precision, m.tokenizer,
                    m.description, b.height, true, m.margin);
    Ok(b.(authority := auth, domains := b.domains[b.nextDom := d], nextDom := Wrap(b.nextDom + 1)))
  }

  ghost function ApplyTransfer(b: Book, signer: Address, m: Msg): Result<Book>
    requires m.Transfer?
  {
    var amount := m.amount;
    :- Need(m.from == signer, PartyNotSigner);
    :- Need(amount != 0, ZeroPrice);
    :- Need(amount <= Funds(b, signer), InsufficientFunds);
    var out := b.ext[m.from := At(b.ext, m.from) - amount];
    Ok(b.(ext := out[m.to := At(out, m.to) + amount]))
  }

  ghost function Apply(b: Book, signer: Address, m: Msg): Result<Book> {
    match m
    case RegisterService(_, _, _, _, _) => ApplyRegisterService(b, signer, m)
    case RequestInference(_, _, _, _, _, _, _) => ApplyRequestInference(b, signer, m)
    case SubmitResult(_, _, _) => ApplySubmitResult(b, signer, m)
    case Transfer(_, _, _) => ApplyTransfer(b, signer, m)
    case RegisterDomain(_, _, _, _, _, _, _, _) => ApplyRegisterDomain(b, signer, m)
    case FileChallenge(_, _, _) => ApplyChallenge(b, signer, m)
    case Vouch(_, _, _) => ApplyVouch(b, signer, m)
    case UpdateService(_, _, _, _) => ApplyUpdateService(b, signer, m)
    case DeactivateService(_, _) => ApplyDeactivateService(b, signer, m)
    case DeactivateDomain(_, _) => ApplyDeactivateDomain(b, signer, m)
    case ResolveChallenge(_, _, _) => ApplyResolveChallenge(b, signer, m)
  }

  function NonceOf(nonces: map<Address, u64>, a: Address): u64 {
    if a in nonces then nonces[a] else 0
  }

  /** The outcome of an envelope: a new book with the signer's nonce advanced, or an error. */
  ghost function Submit(b: Book, tx: SignedTx): Result<Book> {
    var signer := AddressOf(tx.signer);
    :- Need(tx.wellFormed, BadEnvelope);
    :- Need(tx.authentic, InvalidSignature);
    :- Need(tx.nonce == NonceOf(b.nonces, signer), InvalidNonce);
    :- Need(tx.payload.Some?, BadPayload);
    var b' :- Apply(b, signer, tx.payload.value);
    Ok(b'.(nonces := b'.nonces[signer := Wrap(NonceOf(b'.nonces, signer) + 1)]))
  }

  // Runs.

  datatype Op =
    | SubmitTx(tx: SignedTx)
    | CommitBlock
    | Mint(to: Address, amount: u64)
    | SetParams(params: Params)
    | SetAuthority(addr: Address)

  ghost function MintTo(b: Book, to: Address, amount: u64): Book {
    b.(ext := b.ext[to := At(b.ext, to) + amount], minted := b.minted + amount)
  }

  /** One operation; a rejected one leaves the book as it was. */
  ghost function Step(b: Book, op: Op): Book {
    match op
    case SubmitTx(tx) => if Submit(b, tx).Ok? then Submit(b, tx).value else b
    case CommitBlock => Tick(b)
    case Mint(to, amount) => MintTo(b, to, amount)
    case SetParams(p) => b.(params := p)
    case SetAuthority(a) => if IsValidAddress(a) then b.(authority := a) else b
  }

  ghost function Run(b: Book, ops: seq<Op>): Book {
    if ops == [] then b else Step(Run(b, ops[..|ops| - 1]), ops[|ops| - 1])
  }

  ghost const GENESIS := Book(
    0, DEFAULT_PARAMS, "", map[], map[], map[], map[], map[], 1, 1, 1, map[], map[], 0)
}
