/** Which envelopes the chain accepts, said without the appliers: who may send each message and in
    which states. Everything else is refused and changes nothing. */
module Admission {
  import opened Types
  import opened Addresses
  import opened Books
  import opened Machine

  /** The attestation names the domain and repeats its tuple; a pinned tokenizer must match too. */
  predicate Carries(att: Attestation, dom: Domain) {
    && (att.domainId, att.model, att.runtime, att.hardware, att.precision)
       == (dom.id, dom.model, dom.runtime, dom.hardware, dom.precision)
    && dom.tokenizer in {"", att.tokenizer}
  }

  /** Evidence about a request is about its input and comes from its service's domain, if any. */
  ghost predicate IsEvidence(b: Book, r: Request, att: Attestation) {
    && att.inputHash == r.inputHash
    && r.serviceId in b.services
    && var d := b.services[r.serviceId].domainId;
       d == 0 || (d in b.domains && Carries(att, b.domains[d]))
  }

  /** The account has an active service in the domain of the request's service, if that has one. */
  ghost predicate Resident(b: Book, a: Address, r: Request)
    requires r.serviceId in b.services
  {
    var d := b.services[r.serviceId].domainId;
    d != 0 ==> exists k :: k in b.services && b.services[k].active
                           && b.services[k].owner == a && b.services[k].domainId == d
  }

  /** The account is the authority, and there is one. */
  predicate IsAuthority(b: Book, a: Address) {
    b.authority == a && a != ""
  }

  ghost predicate CanSubmit(b: Book, a: Address, m: Msg)
    requires m.SubmitResult?
  {
    && m.requestId in b.requests
    && var r := b.requests[m.requestId];
    && r.status == Pending && b.height <= r.deadline
    && IsEvidence(b, r, m.result.attestation)
    && b.services[r.serviceId].owner == a
    && b.params.providerBond.amount <= Funds(b, a)
  }

  ghost predicate CanChallenge(b: Book, a: Address, m: Msg)
    requires m.FileChallenge?
  {
    && m.requestId in b.requests
    && var r := b.requests[m.requestId];
    && r.status == Submitted && b.height <= r.submittedAt + b.params.challengeWindow
    && IsEvidence(b, r, m.attestation)
    && r.result.Some? && r.result.value.outputHash != m.attestation.outputHash
    && b.params.challengerBond.amount <= Funds(b, a)
  }

  ghost predicate CanVouch(b: Book, a: Address, m: Msg)
    requires m.Vouch?
  {
    && m.requestId in b.requests
    && var r := b.requests[m.requestId];
    && r.status == Challenged && r.challenges != [] && r.result.Some?
    && b.height <= r.challenges[0].postedAt + RESOLUTION_WINDOW
    && IsEvidence(b, r, m.attestation)
    && m.attestation.outputHash in {r.result.value.outputHash, r.challenges[0].attestation.outputHash}
    && Resident(b, a, r)
    && (forall v :: v in r.vouchers ==> v.voucher != a)
    && VoucherBond(b.params, r).amount <= Funds(b, a)
  }

  /** What the chain asks of a message from account `a`. */
  ghost predicate Admissible(b: Book, a: Address, m: Msg) {
    match m
    case RegisterService(owner, name, _, price, d) =>
      && owner == a && name != "" && price.amount > 0 && name !in b.svcByName
      && (d != 0 ==> d in b.domains && b.domains[d].active)
      && b.params.registrationBond.amount <= Funds(b, a)
    case RequestInference(requester, s, _, _, _, maxPrice, deadline) =>
      && requester == a && s in b.services && b.services[s].active
      && b.services[s].price.denom == maxPrice.denom
      && b.services[s].price.amount <= maxPrice.amount
      && b.services[s].price.amount <= Funds(b, a)
      && (if deadline == 0 then b.params.maxDeadline > 0 else deadline > b.height)
    case SubmitResult(provider, _, _) => provider == a && CanSubmit(b, a, m)
    case Transfer(from, _, amount) => from == a && 0 < amount <= Funds(b, a)
    case RegisterDomain(authority, model, runtime, hardware, precision, _, _, margin) =>
      && authority == a && (b.authority == "" || IsAuthority(b, a))
      && "" !in {model, runtime, hardware, precision} && margin >= 0
    case FileChallenge(challenger, _, _) => challenger == a && CanChallenge(b, a, m)
    case Vouch(voucher, _, _) => voucher == a && CanVouch(b, a, m)
    case UpdateService(owner, s, _, price) =>
      && owner == a && s in b.services && b.services[s].owner == a && b.services[s].active
      && price.denom != "" && price.amount > 0
      && (price.denom == b.params.minServicePrice.denom ==> price.amount >= b.params.minServicePrice.amount)
    case DeactivateService(owner, s) =>
      owner == a && s in b.services && b.services[s].owner == a && b.services[s].active
    case DeactivateDomain(authority, d) =>
      authority == a && IsAuthority(b, a) && d in b.domains && b.domains[d].active
    case ResolveChallenge(authority, id, decision) =>
      && authority == a && IsAuthority(b, a) && id in b.requests && b.requests[id].status == Challenged
      && decision in {ForProvider, ForChallenger}
  }

  lemma CanSubmitIff(b: Book, a: Address, m: Msg)
    requires m.SubmitResult?
    ensures ApplySubmitResult(b, a, m).Ok? <==> Admissible(b, a, m)
  {
    hide Funds, Settled;
  }

  lemma CanChallengeIff(b: Book, a: Address, m: Msg)
    requires m.FileChallenge?
    ensures ApplyChallenge(b, a, m).Ok? <==> Admissible(b, a, m)
  {
    hide Funds;
  }

  lemma CanVouchIff(b: Book, a: Address, m: Msg)
    requires m.Vouch?
    ensures ApplyVouch(b, a, m).Ok? <==> Admissible(b, a, m)
  {
    hide Funds, VoucherBond;
  }

  lemma AdmissibleIff(b: Book, a: Address, m: Msg)
    requires a != ""
    ensures Apply(b, a, m).Ok? <==> Admissible(b, a, m)
  {
    hide Funds, CloseDomain, Retire, Settled;
    if m.SubmitResult? {
      hide ApplySubmitResult, CanSubmit;
      CanSubmitIff(b, a, m);
    } else if m.FileChallenge? {
      hide ApplyChallenge, CanChallenge;
      CanChallengeIff(b, a, m);
    } else if m.Vouch? {
      hide ApplyVouch, CanVouch;
      CanVouchIff(b, a, m);
    }
  }

  /** A well-formed envelope with a valid signature, the signer's next nonce and a payload. */
  ghost predicate IsSigned(b: Book, tx: SignedTx) {
    && tx.wellFormed && tx.authentic && tx.payload.Some?
    && tx.nonce == NonceOf(b.nonces, AddressOf(tx.signer))
  }

  /** The chain accepts exactly the signed envelopes with an admissible message. */
  lemma AcceptedIff(b: Book, tx: SignedTx)
    ensures Submit(b, tx).Ok? <==> IsSigned(b, tx) && Admissible(b, AddressOf(tx.signer), tx.payload.value)
  {
    hide Apply, Admissible;
    assert AddressOf(tx.signer)[0] == 'a';
    hide AddressOf;
    if tx.payload.Some? {
      AdmissibleIff(b, AddressOf(tx.signer), tx.payload.value);
    }
  }

  /** An envelope that lacks a valid form, signature, nonce or payload, or whose message is not
      admissible, changes nothing. */
  lemma RefusedChangesNothing(b: Book, tx: SignedTx)
    requires !IsSigned(b, tx) || !Admissible(b, AddressOf(tx.signer), tx.payload.value)
    ensures Step(b, SubmitTx(tx)) == b
  {
    hide Submit, Admissible;
    AcceptedIff(b, tx);
  }

  /** Whoever vouches on a request of a domain has a registration bond at stake there: one of its
      active services in the domain, whose bond escrow holds. */
  lemma VoucherHasStake(b: Book, tx: SignedTx, d: u64) returns (k: u64)
    requires Core(b) && Submit(b, tx).Ok? && tx.payload.value.Vouch? && d != 0
    requires tx.payload.value.requestId in b.requests
    requires InDomain(b.services, b.requests[tx.payload.value.requestId].serviceId, d)
    ensures k in b.services && b.services[k].owner == AddressOf(tx.signer)
    ensures b.services[k].domainId == d && b.services[k].active && b.services[k].bond.amount <= Funds(b, ESCROW)
  {
    hide Core, Funds, Submit, AddressOf;
    AcceptedIff(b, tx);
    k :| k in b.services && b.services[k].active
         && b.services[k].owner == AddressOf(tx.signer) && b.services[k].domainId == d;
    EscrowCoversService(b, k);
  }
}
