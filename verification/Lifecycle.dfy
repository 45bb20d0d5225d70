/** Which changes an operation can make to a stored request, service or domain, and what follows
    over whole runs: identity and evidence are immutable, terminal records are frozen, and every
    request settles at most once. */
module Lifecycle {
  import opened Types
  import opened Addresses
  import opened Flows
  import opened Books
  import opened Machine
  import opened Reachable

  /** The attestation carries the tuple of the service's domain, when it has one. */
  ghost predicate Attested(b: Book, serviceId: u64, att: Attestation) {
    serviceId in b.services && CheckTuple(b, b.services[serviceId], att).Pass?
  }

  predicate SameIdentity(r: Request, r': Request) {
    && r'.id == r.id && r'.serviceId == r.serviceId && r'.requester == r.requester
    && r'.inputHash == r.inputHash && r'.inputUri == r.inputUri && r'.inputText == r.inputText
    && r'.escrow == r.escrow && r'.deadline == r.deadline && r'.createdAt == r.createdAt
  }

  /** The record only changed its status, to a terminal one, and the fields that record the end. */
  predicate Ends(r: Request, r': Request) {
    && !r'.status.IsOpen()
    && r' == r.(status := r'.status, finalizedAt := r'.finalizedAt, paid := r'.paid)
  }

  /** PENDING: a result within the deadline, or the end by refund. */
  ghost predicate PendingChange(b: Book, r: Request, r': Request) {
    || (Ends(r, r') && r'.status == Refunded)
    || (&& r'.status == (if b.params.challengeWindow == 0 then Finalized else Submitted)
        && b.height <= r.deadline && r'.submittedAt == b.height
        && r'.result.Some? && r'.result.value.attestation.inputHash == r.inputHash
        && Attested(b, r.serviceId, r'.result.value.attestation)
        && r'.challenges == r.challenges && r'.vouchers == r.vouchers)
  }

  /** SUBMITTED: a challenge inside the window, with another output, or the end. */
  ghost predicate SubmittedChange(b: Book, r: Request, r': Request) {
    || (Ends(r, r') && r'.status in {Finalized, Refunded})
    || (&& |r'.challenges| == 1
        && r' == r.(status := Challenged, challenges := r'.challenges)
        && r'.challenges[0].postedAt == b.height <= r.submittedAt + b.params.challengeWindow
        && r'.challenges[0].attestation.inputHash == r.inputHash
        && r.result.Some? && r'.challenges[0].attestation.outputHash != r.result.value.outputHash
        && Attested(b, r.serviceId, r'.challenges[0].attestation))
  }

  /** The voucher's account had not vouched, its hash is one of the two disputed ones and says which
      side it is on, and the account was eligible. */
  ghost predicate GoodVouch(b: Book, r: Request, v: Voucher) {
    && r.challenges != [] && r.result.Some? && r.serviceId in b.services
    && (forall w :: w in r.vouchers ==> w.voucher != v.voucher)
    && v.postedAt == b.height <= r.challenges[0].postedAt + RESOLUTION_WINDOW
    && v.attestation.inputHash == r.inputHash
    && Attested(b, r.serviceId, v.attestation)
    && (v.supportsProvider <==> v.attestation.outputHash == r.result.value.outputHash)
    && (!v.supportsProvider ==> v.attestation.outputHash == r.challenges[0].attestation.outputHash)
    && Eligible(b, v.voucher, b.services[r.serviceId].domainId)
  }

  /** CHALLENGED: one more vouch, or the end. */
  ghost predicate ChallengedChange(b: Book, r: Request, r': Request) {
    || Ends(r, r')
    || (&& |r'.vouchers| == |r.vouchers| + 1
        && r' == r.(vouchers := r.vouchers + [r'.vouchers[|r.vouchers|]])
        && GoodVouch(b, r, r'.vouchers[|r.vouchers|]))
  }

  /** All that one operation can do to a stored request; a terminal one does not change. */
  ghost predicate Change(b: Book, r: Request, r': Request) {
    || r' == r
    || (SameIdentity(r, r') &&
        match r.status
        case Pending => PendingChange(b, r, r')
        case Submitted => SubmittedChange(b, r, r')
        case Challenged => ChallengedChange(b, r, r')
        case _ => false)
  }

  /** A request enters as PENDING with nothing but its escrow, on an active service. */
  ghost predicate Opened(b: Book, r: Request, id: u64) {
    && r.id == id == b.nextReq && r.status == Pending && r.deadline > b.height
    && r.serviceId in b.services && b.services[r.serviceId].active
    && r.escrow == b.services[r.serviceId].price
    && r.result.None? && r.providerBond.None? && r.challenges == [] && r.vouchers == []
  }

  /** Every request after an operation is an old one, possibly changed, or a newly opened one. */
  ghost predicate RequestsStep(b: Book, b': Book) {
    && b.requests.Keys <= b'.requests.Keys
    && forall k :: k in b'.requests ==>
         if k in b.requests then Change(b, b.requests[k], b'.requests[k]) else Opened(b, b'.requests[k], k)
  }

  /** A service keeps its identity; offline it keeps everything; it goes offline without a bond. */
  predicate ServiceChange(s: Service, s': Service) {
    && s'.id == s.id && s'.owner == s.owner && s'.name == s.name && s'.domainId == s.domainId
    && s'.createdAt == s.createdAt
    && (!s.active ==> s' == s)
    && (s'.active ==> s'.bond == s.bond)
    && (s.active && !s'.active ==> s'.bond == ZERO_COIN)
  }

  ghost predicate ServicesStep(b: Book, b': Book) {
    && b.services.Keys <= b'.services.Keys
    && forall k :: k in b'.services ==>
         if k in b.services then ServiceChange(b.services[k], b'.services[k])
         else && b'.services[k].active
              && (var d := b'.services[k].domainId; d == 0 || (d in b.domains && b.domains[d].active))
              && b'.domains == b.domains
  }

  /** A domain keeps its tuple, its tokenizer and its margin, and never becomes active again. */
  predicate DomainChange(d: Domain, d': Domain) {
    d' == d || d' == d.(active := false)
  }

  ghost predicate DomainsStep(b: Book, b': Book) {
    && b.domains.Keys <= b'.domains.Keys
    && forall k :: k in b'.domains ==>
         if k in b.domains then DomainChange(b.domains[k], b'.domains[k]) else b'.domains[k].active
  }

  ghost predicate RecordsStep(b: Book, b': Book) {
    RequestsStep(b, b') && ServicesStep(b, b') && DomainsStep(b, b')
  }

  lemma OneRequestStep(b: Book, id: u64, r: Request)
    requires id in b.requests && Change(b, b.requests[id], r)
    ensures RecordsStep(b, b.(requests := b.requests[id := r]))
  {
    hide PendingChange, SubmittedChange, ChallengedChange;
  }

  lemma SubmitResultStep(b: Book, signer: Address, m: Msg)
    requires Core(b) && m.SubmitResult? && ApplySubmitResult(b, signer, m).Ok?
    ensures RecordsStep(b, ApplySubmitResult(b, signer, m).value)
  {
    hide IdsOk, IndexOk, ServicesOk, Funds, CheckTuple;
    var b' := ApplySubmitResult(b, signer, m).value;
    assert RequestOk(b.services, b.requests[m.requestId], m.requestId);
    OneRequestStep(b, m.requestId, b'.requests[m.requestId]);
  }

  lemma ChallengeStep(b: Book, signer: Address, m: Msg)
    requires Core(b) && m.FileChallenge? && ApplyChallenge(b, signer, m).Ok?
    ensures RecordsStep(b, ApplyChallenge(b, signer, m).value)
  {
    hide IdsOk, IndexOk, ServicesOk, Funds, CheckTuple;
    var b' := ApplyChallenge(b, signer, m).value;
    assert RequestOk(b.services, b.requests[m.requestId], m.requestId);
    OneRequestStep(b, m.requestId, b'.requests[m.requestId]);
  }

  lemma VouchStep(b: Book, signer: Address, m: Msg)
    requires Core(b) && m.Vouch? && ApplyVouch(b, signer, m).Ok?
    ensures RecordsStep(b, ApplyVouch(b, signer, m).value)
  {
    hide IdsOk, IndexOk, ServicesOk, Funds, CheckTuple, Eligible, VoucherBond;
    var b' := ApplyVouch(b, signer, m).value;
    assert RequestOk(b.services, b.requests[m.requestId], m.requestId);
    OneRequestStep(b, m.requestId, b'.requests[m.requestId]);
  }

  lemma ResolveStep(b: Book, signer: Address, m: Msg)
    requires Core(b) && m.ResolveChallenge? && ApplyResolveChallenge(b, signer, m).Ok?
    ensures RecordsStep(b, ApplyResolveChallenge(b, signer, m).value)
  {
    hide IdsOk, IndexOk, ServicesOk;
    var b' := ApplyResolveChallenge(b, signer, m).value;
    assert RequestOk(b.services, b.requests[m.requestId], m.requestId);
    OneRequestStep(b, m.requestId, b'.requests[m.requestId]);
  }

  lemma RegisterServiceStep(b: Book, signer: Address, m: Msg)
    requires Core(b) && Room(b) && m.RegisterService? && ApplyRegisterService(b, signer, m).Ok?
    ensures RecordsStep(b, ApplyRegisterService(b, signer, m).value)
  {
    hide IndexOk, ServicesOk, RequestsOk, Funds, PendingChange, SubmittedChange, ChallengedChange;
  }

  lemma ServiceMessageStep(b: Book, signer: Address, m: Msg)
    requires Core(b) && Apply(b, signer, m).Ok? && (m.UpdateService? || m.DeactivateService?)
    ensures RecordsStep(b, Apply(b, signer, m).value)
  {
    hide IdsOk, IndexOk, ServicesOk, RequestsOk, Funds, PendingChange, SubmittedChange, ChallengedChange;
  }

  lemma OtherMessageStep(b: Book, signer: Address, m: Msg)
    requires Core(b) && Room(b) && Apply(b, signer, m).Ok?
    requires m.Transfer? || m.RegisterDomain? || m.RequestInference?
    ensures RecordsStep(b, Apply(b, signer, m).value)
  {
    hide IndexOk, ServicesOk, RequestsOk, Funds, PendingChange, SubmittedChange, ChallengedChange;
  }

  lemma CloseDomainStep(b: Book, d: u64)
    requires d in b.domains
    ensures RecordsStep(b, CloseDomain(b, d))
  {
    hide Change;
    var b' := CloseDomain(b, d);
    forall k | k in b.requests ensures Change(b, b.requests[k], b'.requests[k]) {
      RefundChange(b, b.requests[k]);
    }
  }

  lemma RefundChange(b: Book, r: Request)
    ensures Change(b, r, r)
    ensures r.status.IsOpen() ==> Change(b, r, Settled(r, Refund, b.height))
  {
  }

  lemma TickStep(b: Book)
    ensures RecordsStep(b, Tick(b))
  {
    hide Change, Due, Settled;
    var b1 := b.(height := b.height + 1);
    forall k | k in b.requests ensures Change(b, b.requests[k], Tick(b).requests[k]) {
      DueChangeBefore(b, b.requests[k]);
    }
  }

  lemma DueChangeBefore(b: Book, r: Request)
    ensures Change(b, r, Settled(r, Due(b.(height := b.height + 1), r), b.height + 1))
  {
    hide ProviderWins;
  }

  /** Whatever the operation, requests, services and domains change only in the listed ways. */
  lemma StepRecords(b: Book, op: Op)
    requires Core(b) && Room(b)
    ensures RecordsStep(b, Step(b, op))
  {
    hide Core, Apply, RequestsStep, ServicesStep, DomainsStep, CloseDomain;
    match op {
      case SubmitTx(tx) =>
        if Submit(b, tx).Ok? {
          var signer, m := AddressOf(tx.signer), tx.payload.value;
          ApplyRecords(b, signer, m);
          SameRecords(b, Apply(b, signer, m).value, Step(b, op));
        } else {
          NoStep(b);
        }
      case CommitBlock => TickStep(b);
      case Mint(to, amount) => NoStep(b); SameRecords(b, b, Step(b, op));
      case SetParams(p) => NoStep(b); SameRecords(b, b, Step(b, op));
      case SetAuthority(a) => NoStep(b); SameRecords(b, b, Step(b, op));
    }
  }

  lemma ApplyRecords(b: Book, signer: Address, m: Msg)
    requires Core(b) && Room(b) && Apply(b, signer, m).Ok?
    ensures RecordsStep(b, Apply(b, signer, m).value)
  {
    hide Core, RecordsStep, CloseDomain;
    if m.DeactivateDomain? {
      CloseDomainStep(b, m.domainId);
    } else if m.SubmitResult? {
      SubmitResultStep(b, signer, m);
    } else if m.FileChallenge? {
      ChallengeStep(b, signer, m);
    } else if m.Vouch? {
      VouchStep(b, signer, m);
    } else if m.ResolveChallenge? {
      ResolveStep(b, signer, m);
    } else if m.RegisterService? {
      RegisterServiceStep(b, signer, m);
    } else if m.UpdateService? || m.DeactivateService? {
      ServiceMessageStep(b, signer, m);
    } else {
      OtherMessageStep(b, signer, m);
    }
  }

  lemma NoStep(b: Book)
    ensures RecordsStep(b, b)
  {
  }

  lemma SameRecords(b: Book, b': Book, b'': Book)
    requires RecordsStep(b, b')
    requires b''.requests == b'.requests && b''.services == b'.services && b''.domains == b'.domains
    ensures RecordsStep(b, b'')
  {
  }

  // Whole runs.

  /** The state after the first `k` operations. */
  ghost function StateAt(ops: seq<Op>, k: nat): Book
    requires k <= |ops|
  {
    Run(GENESIS, ops[..k])
  }

  /** Every state of a bounded run is sound, and each follows from the one before by an operation. */
  lemma StatesSound(ops: seq<Op>, k: nat)
    requires Bounded(ops) && k <= |ops|
    ensures Core(StateAt(ops, k)) && Room(StateAt(ops, k))
    ensures k < |ops| ==> StateAt(ops, k + 1) == Step(StateAt(ops, k), ops[k])
    ensures k < |ops| ==> RecordsStep(StateAt(ops, k), StateAt(ops, k + 1))
  {
    hide Step, Core, Room, RecordsStep;
    SupplyGrows(ops, k);
    RunSound(ops[..k]);
    if k < |ops| {
      assert ops[..k + 1][..k] == ops[..k];
      StepRecords(StateAt(ops, k), ops[k]);
    }
  }

  /** What time and any number of operations leave of a request: identity for ever, evidence and bond
      once there, every vouch, and all of it once terminal. */
  predicate Evolves(r: Request, r': Request) {
    && SameIdentity(r, r')
    && (!r.status.IsOpen() ==> r' == r)
    && (r'.status == Pending ==> r == r')
    && (r.result.Some? ==> r'.result == r.result && r'.submittedAt == r.submittedAt && r'.providerBond == r.providerBond)
    && (r.challenges != [] ==> r'.challenges == r.challenges)
    && r.vouchers <= r'.vouchers
  }

  lemma ChangeEvolves(b: Book, r: Request, r': Request, id: u64)
    requires RequestOk(b.services, r, id) && Change(b, r, r')
    ensures Evolves(r, r')
  {
  }

  predicate ServiceEvolves(s: Service, s': Service) {
    && s'.id == s.id && s'.owner == s.owner && s'.name == s.name && s'.domainId == s.domainId
    && (!s.active ==> s' == s)
  }

  ghost predicate RecordsEvolve(b: Book, b': Book) {
    && b.requests.Keys <= b'.requests.Keys && b.services.Keys <= b'.services.Keys && b.domains.Keys <= b'.domains.Keys
    && (forall k :: k in b.requests ==> Evolves(b.requests[k], b'.requests[k]))
    && (forall k :: k in b.services ==> ServiceEvolves(b.services[k], b'.services[k]))
    && (forall k :: k in b.domains ==> DomainChange(b.domains[k], b'.domains[k]))
  }

  lemma StepEvolves(b: Book, b': Book)
    requires Core(b) && RecordsStep(b, b')
    ensures RecordsEvolve(b, b')
  {
    hide IdsOk, IndexOk, ServicesOk, Evolves, Change, RequestOk;
    forall k | k in b.requests ensures Evolves(b.requests[k], b'.requests[k]) {
      assert RequestOk(b.services, b.requests[k], k);
      ChangeEvolves(b, b.requests[k], b'.requests[k], k);
    }
  }

  lemma EvolvesTransitive(b0: Book, b1: Book, b2: Book)
    requires RecordsEvolve(b0, b1) && RecordsEvolve(b1, b2)
    ensures RecordsEvolve(b0, b2)
  {
  }

  /** Between any two states of a run, records evolve: nothing is ever lost, rewritten or reopened. */
  lemma {:induction false} RunEvolves(ops: seq<Op>, i: nat, j: nat)
    requires Bounded(ops) && i <= j <= |ops|
    ensures RecordsEvolve(StateAt(ops, i), StateAt(ops, j))
    decreases j
  {
    hide Core, Room, Step, Run, RecordsStep;
    if i < j {
      RunEvolves(ops, i, j - 1);
      StatesSound(ops, j - 1);
      StepEvolves(StateAt(ops, j - 1), StateAt(ops, j));
      hide RecordsEvolve;
      EvolvesTransitive(StateAt(ops, i), StateAt(ops, j - 1), StateAt(ops, j));
    }
  }

  ghost predicate OpenIn(b: Book, id: u64) {
    id in b.requests && b.requests[id].status.IsOpen()
  }

  ghost predicate EndedIn(b: Book, id: u64) {
    id in b.requests && !b.requests[id].status.IsOpen()
  }

  /** How many operations of the run ended request `id`. */
  ghost function Endings(ops: seq<Op>, id: u64): nat {
    if ops == [] then 0
    else Endings(ops[..|ops| - 1], id)
         + (if OpenIn(Run(GENESIS, ops[..|ops| - 1]), id) && EndedIn(Run(GENESIS, ops), id) then 1 else 0)
  }

  /** A request is settled exactly once in a run that ends it, and never before. */
  lemma {:induction false} SettledExactlyOnce(ops: seq<Op>, id: u64)
    requires Bounded(ops)
    ensures Endings(ops, id) == if EndedIn(Run(GENESIS, ops), id) then 1 else 0
  {
    hide Core, Room, Step, RecordsStep, RecordsEvolve;
    if ops != [] {
      var n := |ops| - 1;
      SupplyGrows(ops, n);
      SettledExactlyOnce(ops[..n], id);
      StatesSound(ops, n);
      assert ops[..n + 1] == ops;
      EndedStep(StateAt(ops, n), Run(GENESIS, ops), id);
    }
  }

  lemma EndedStep(b: Book, b': Book, id: u64)
    requires Core(b) && RecordsStep(b, b')
    ensures EndedIn(b, id) ==> EndedIn(b', id) && b'.requests[id] == b.requests[id]
    ensures id !in b.requests ==> !EndedIn(b', id)
  {
    hide Core, Change;
    StepEvolves(b, b');
    if id in b.requests {
      assert Evolves(b.requests[id], b'.requests[id]);
    } else if id in b'.requests {
      assert Opened(b, b'.requests[id], id);
    }
  }
}
