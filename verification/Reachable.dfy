/** What holds in every state a run can reach: the records stay sound whatever is submitted, mixed
    with blocks, parameter changes and mints in any order. */
module Reachable {
  import opened Types
  import opened Addresses
  import opened Flows
  import opened Books
  import opened Machine

  lemma CoreSubmitResult(b: Book, signer: Address, m: Msg)
    requires Core(b) && m.SubmitResult? && ApplySubmitResult(b, signer, m).Ok?
    ensures Core(ApplySubmitResult(b, signer, m).value)
  {
    hide IdsOk, IndexOk, ServicesOk;
    var b' := ApplySubmitResult(b, signer, m).value;
    assert RequestOk(b.services, b.requests[m.requestId], m.requestId);
    CorePutRequest(b, m.requestId, b'.requests[m.requestId]);
  }

  lemma CoreChallenge(b: Book, signer: Address, m: Msg)
    requires Core(b) && IsUser(signer) && m.FileChallenge? && ApplyChallenge(b, signer, m).Ok?
    ensures Core(ApplyChallenge(b, signer, m).value)
  {
    hide IdsOk, IndexOk, ServicesOk;
    var b' := ApplyChallenge(b, signer, m).value;
    assert RequestOk(b.services, b.requests[m.requestId], m.requestId);
    CorePutRequest(b, m.requestId, b'.requests[m.requestId]);
  }

  lemma CoreVouch(b: Book, signer: Address, m: Msg)
    requires Core(b) && IsUser(signer) && m.Vouch? && ApplyVouch(b, signer, m).Ok?
    ensures Core(ApplyVouch(b, signer, m).value)
  {
    hide IdsOk, IndexOk, ServicesOk, Eligible;
    var b' := ApplyVouch(b, signer, m).value;
    assert RequestOk(b.services, b.requests[m.requestId], m.requestId);
    CorePutRequest(b, m.requestId, b'.requests[m.requestId]);
  }

  lemma CoreResolve(b: Book, signer: Address, m: Msg)
    requires Core(b) && m.ResolveChallenge? && ApplyResolveChallenge(b, signer, m).Ok?
    ensures Core(ApplyResolveChallenge(b, signer, m).value)
  {
    hide IdsOk, IndexOk, ServicesOk;
    var b' := ApplyResolveChallenge(b, signer, m).value;
    assert RequestOk(b.services, b.requests[m.requestId], m.requestId);
    CorePutRequest(b, m.requestId, b'.requests[m.requestId]);
  }

  lemma CoreRequestInference(b: Book, signer: Address, m: Msg)
    requires Core(b) && Room(b) && IsUser(signer) && m.RequestInference? && ApplyRequestInference(b, signer, m).Ok?
    ensures Core(ApplyRequestInference(b, signer, m).value)
  {
    hide IdsOk, IndexOk, ServicesOk, RequestsOk;
    var b' := ApplyRequestInference(b, signer, m).value;
    CoreNewRequest(b, b'.requests[b.nextReq]);
  }

  lemma CoreRegisterService(b: Book, signer: Address, m: Msg)
    requires Core(b) && Room(b) && IsUser(signer) && m.RegisterService? && ApplyRegisterService(b, signer, m).Ok?
    ensures Core(ApplyRegisterService(b, signer, m).value)
  {
    hide IdsOk, IndexOk, ServicesOk, RequestsOk;
    var b' := ApplyRegisterService(b, signer, m).value;
    CoreNewService(b, b'.services[b.nextSvc]);
  }

  lemma CoreUpdateService(b: Book, signer: Address, m: Msg)
    requires Core(b) && m.UpdateService? && ApplyUpdateService(b, signer, m).Ok?
    ensures Core(ApplyUpdateService(b, signer, m).value)
  {
    hide IdsOk, IndexOk, RequestsOk;
    assert forall k :: k in b.services ==> ServiceOk(b.services[k], k);
    CorePutServices(b, ApplyUpdateService(b, signer, m).value.services, b.forfeits);
  }

  lemma CoreDeactivateService(b: Book, signer: Address, m: Msg)
    requires Core(b) && m.DeactivateService? && ApplyDeactivateService(b, signer, m).Ok?
    ensures Core(ApplyDeactivateService(b, signer, m).value)
  {
    hide IdsOk, IndexOk, RequestsOk;
    var b' := ApplyDeactivateService(b, signer, m).value;
    assert forall k :: k in b.services ==> ServiceOk(b.services[k], k);
    CorePutServices(b, b'.services, b'.forfeits);
  }

  lemma VoidKeepsShape(b: Book, r: Request, id: u64)
    requires RequestOk(b.services, r, id)
    ensures RequestOk(b.services, Settled(r, Refund, b.height), id)
  {
  }

  lemma CoreDeactivateDomain(b: Book, d: u64)
    requires Core(b) && d in b.domains
    ensures Core(CloseDomain(b, d))
  {
    hide IdsOk, IndexOk;
    var b1 := b.(domains := b.domains[d := b.domains[d].(active := false)]);
    var b' := CloseDomain(b, d);
    CoreCloses(b, d);
    forall k | k in b'.requests ensures RequestOk(b.services, b'.requests[k], k) {
      assert RequestOk(b.services, b.requests[k], k);
      VoidKeepsShape(b, b.requests[k], k);
    }
    hide RequestOk, Settled;
    CorePutRequests(b1, b'.requests);
    var b2 := b1.(requests := b'.requests);
    assert forall k :: k in b.services ==> ServiceOk(b.services[k], k);
    CorePutServices(b2, b'.services, b.forfeits);
    assert b' == b2.(services := b'.services, forfeits := b.forfeits);
  }

  lemma CoreRegisterDomain(b: Book, signer: Address, m: Msg)
    requires Core(b) && Room(b) && m.RegisterDomain? && ApplyRegisterDomain(b, signer, m).Ok?
    ensures Core(ApplyRegisterDomain(b, signer, m).value)
  {
    hide IdsOk, IndexOk, ServicesOk, RequestsOk;
    var b' := ApplyRegisterDomain(b, signer, m).value;
    CoreNewDomain(b, b'.domains[b.nextDom], b'.authority);
  }

  lemma CoreTransfer(b: Book, signer: Address, m: Msg)
    requires Core(b) && IsUser(signer) && m.Transfer? && ApplyTransfer(b, signer, m).Ok?
    ensures Core(ApplyTransfer(b, signer, m).value)
  {
    hide Core;
    CoreSame(b, ApplyTransfer(b, signer, m).value);
  }

  lemma CoreApply(b: Book, signer: Address, m: Msg)
    requires Core(b) && Room(b) && IsUser(signer) && Apply(b, signer, m).Ok?
    ensures Core(Apply(b, signer, m).value)
  {
    hide Core;
    match m {
      case RegisterService(_, _, _, _, _) => CoreRegisterService(b, signer, m);
      case RequestInference(_, _, _, _, _, _, _) => CoreRequestInference(b, signer, m);
      case SubmitResult(_, _, _) => CoreSubmitResult(b, signer, m);
      case Transfer(_, _, _) => CoreTransfer(b, signer, m);
      case RegisterDomain(_, _, _, _, _, _, _, _) => CoreRegisterDomain(b, signer, m);
      case FileChallenge(_, _, _) => CoreChallenge(b, signer, m);
      case Vouch(_, _, _) => CoreVouch(b, signer, m);
      case UpdateService(_, _, _, _) => CoreUpdateService(b, signer, m);
      case DeactivateService(_, _) => CoreDeactivateService(b, signer, m);
      case DeactivateDomain(_, _) => CoreDeactivateDomain(b, m.domainId);
      case ResolveChallenge(_, _, _) => CoreResolve(b, signer, m);
    }
  }

  lemma DueKeepsShape(b: Book, r: Request, id: u64)
    requires RequestOk(b.services, r, id)
    ensures RequestOk(b.services, Settled(r, Due(b, r), b.height), id)
  {
    hide ProviderWins;
  }

  lemma CoreTick(b: Book)
    requires Core(b)
    ensures Core(Tick(b))
  {
    hide IdsOk, IndexOk, ServicesOk, RequestOk, Due, Settled;
    var b1 := b.(height := b.height + 1);
    CoreSame(b, b1);
    forall k | k in b.requests ensures RequestOk(b.services, Tick(b).requests[k], k) {
      assert RequestOk(b.services, b.requests[k], k);
      DueKeepsShape(b1, b.requests[k], k);
    }
    CorePutRequests(b1, Tick(b).requests);
  }

  lemma CoreSubmit(b: Book, tx: SignedTx)
    requires Core(b) && Room(b)
    ensures Submit(b, tx).Ok? ==> Core(Submit(b, tx).value)
  {
    hide Core, Apply, AddressOf;
    if Submit(b, tx).Ok? {
      DerivedAddress(tx.signer);
      CoreApply(b, AddressOf(tx.signer), tx.payload.value);
      CoreSame(Apply(b, AddressOf(tx.signer), tx.payload.value).value, Submit(b, tx).value);
    }
  }

  /** Every operation, accepted or not, keeps the records sound. */
  lemma CoreStep(b: Book, op: Op)
    requires Core(b) && Room(b)
    ensures Core(Step(b, op))
  {
    hide Core, Submit, Tick;
    match op {
      case SubmitTx(tx) => CoreSubmit(b, tx);
      case CommitBlock => CoreTick(b);
      case Mint(to, amount) => CoreSame(b, Step(b, op));
      case SetParams(p) => CoreSame(b, Step(b, op));
      case SetAuthority(a) => CoreSame(b, Step(b, op));
    }
  }

  /** Total of the run's mints. */
  ghost function Supply(ops: seq<Op>): nat {
    if ops == [] then 0
    else Supply(ops[..|ops| - 1]) + (if ops[|ops| - 1].Mint? then ops[|ops| - 1].amount else 0)
  }

  /** The run mints less than 2^64 and is shorter than 2^64 - 2 operations. */
  ghost predicate Bounded(ops: seq<Op>) {
    Supply(ops) < TWO64 && |ops| < TWO64 - 2
  }

  predicate AboutRequests(m: Msg) {
    m.RequestInference? || m.SubmitResult? || m.FileChallenge? || m.Vouch? || m.ResolveChallenge?
  }

  predicate AboutServices(m: Msg) {
    m.RegisterService? || m.UpdateService? || m.DeactivateService?
  }

  /** Messages about requests write nothing but requests. */
  lemma RequestMessagesWrite(b: Book, signer: Address, m: Msg)
    requires b.nextReq < TWO64 - 1 && AboutRequests(m) && Apply(b, signer, m).Ok?
    ensures var b' := Apply(b, signer, m).value;
      b' == b.(requests := b'.requests, nextReq := b'.nextReq) && b.nextReq <= b'.nextReq <= b.nextReq + 1
  {
    hide Funds, Eligible, CheckTuple, Settled, VoucherBond;
  }

  /** Messages about services write nothing but services, their index and their forfeits, which
      only grow. */
  lemma ServiceMessagesWrite(b: Book, signer: Address, m: Msg)
    requires b.nextSvc < TWO64 - 1 && AboutServices(m) && Apply(b, signer, m).Ok?
    ensures var b' := Apply(b, signer, m).value;
      && b' == b.(services := b'.services, svcByName := b'.svcByName, nextSvc := b'.nextSvc, forfeits := b'.forfeits)
      && b.nextSvc <= b'.nextSvc <= b.nextSvc + 1
      && forall k: u64 :: At(b'.forfeits, k) >= At(b.forfeits, k)
  {
    hide Funds, Retired;
  }

  /** The others: transfers write outside money alone, at the signer only downwards; domain messages
      leave it, the forfeits and the index as they are. */
  lemma OtherMessagesWrite(b: Book, signer: Address, m: Msg)
    requires b.nextDom < TWO64 - 1 && !AboutRequests(m) && !AboutServices(m) && Apply(b, signer, m).Ok?
    ensures var b' := Apply(b, signer, m).value;
      && b' == b.(authority := b'.authority, services := b'.services, requests := b'.requests,
                  domains := b'.domains, nextDom := b'.nextDom, ext := b'.ext)
      && b.nextDom <= b'.nextDom <= b.nextDom + 1
      && (!m.Transfer? ==> b'.ext == b.ext)
      && (m.Transfer? ==> b'.domains == b.domains && forall a :: a != signer ==> At(b'.ext, a) >= At(b.ext, a))
      && (m.RegisterDomain? ==> b'.domains == b.domains[b.nextDom := b'.domains[b.nextDom]])
  {
    hide Funds, CloseDomain;
    if m.DeactivateDomain? {
      ClosingWrites(b, m.domainId);
    }
  }

  lemma ClosingWrites(b: Book, d: u64)
    requires d in b.domains
    ensures var b' := CloseDomain(b, d);
      b' == b.(services := b'.services, requests := b'.requests, domains := b'.domains)
  {
  }

  /** A transaction takes at most one id, mints nothing and does not advance the height. */
  lemma ApplyCounters(b: Book, signer: Address, m: Msg)
    requires Room(b) && Apply(b, signer, m).Ok?
    ensures var b' := Apply(b, signer, m).value;
      && b.nextSvc <= b'.nextSvc <= b.nextSvc + 1
      && b.nextReq <= b'.nextReq <= b.nextReq + 1
      && b.nextDom <= b'.nextDom <= b.nextDom + 1
      && b'.minted == b.minted && b'.height == b.height && b'.params == b.params && b'.nonces == b.nonces
  {
    hide Apply;
    if AboutRequests(m) {
      RequestMessagesWrite(b, signer, m);
    } else if AboutServices(m) {
      ServiceMessagesWrite(b, signer, m);
    } else {
      OtherMessagesWrite(b, signer, m);
    }
  }

  /** One operation takes at most one id of each kind, and only a mint changes the supply. */
  lemma StepCounters(b: Book, op: Op)
    requires Room(b)
    ensures var b' := Step(b, op);
      && b.nextSvc <= b'.nextSvc <= b.nextSvc + 1
      && b.nextReq <= b'.nextReq <= b.nextReq + 1
      && b.nextDom <= b'.nextDom <= b.nextDom + 1
      && b'.minted == b.minted + (if op.Mint? then op.amount else 0)
  {
    hide Apply, AddressOf, IsValidAddress;
    if op.SubmitTx? && Submit(b, op.tx).Ok? {
      ApplyCounters(b, AddressOf(op.tx.signer), op.tx.payload.value);
    }
  }

  lemma {:induction false} SupplyGrows(ops: seq<Op>, k: nat)
    requires k <= |ops|
    ensures Supply(ops[..k]) <= Supply(ops)
  {
    if k < |ops| {
      assert ops[..|ops| - 1][..k] == ops[..k];
      SupplyGrows(ops[..|ops| - 1], k);
    } else {
      assert ops[..k] == ops;
    }
  }

  /** Every reachable state is sound and has room for another operation; its supply is what the run
      minted. */
  lemma {:induction false} RunSound(ops: seq<Op>)
    requires Bounded(ops)
    ensures var b := Run(GENESIS, ops);
      && Core(b) && Room(b) && b.minted == Supply(ops)
      && b.nextSvc <= |ops| + 1 && b.nextReq <= |ops| + 1 && b.nextDom <= |ops| + 1
  {
    hide Step;
    if ops != [] {
      var ops' := ops[..|ops| - 1];
      SupplyGrows(ops, |ops| - 1);
      RunSound(ops');
      CoreStep(Run(GENESIS, ops'), ops[|ops| - 1]);
      StepCounters(Run(GENESIS, ops'), ops[|ops| - 1]);
    }
  }

  /** Running a prefix and then the rest is running the whole. */
  lemma {:induction false} RunSplit(b: Book, ops: seq<Op>, k: nat)
    requires k <= |ops|
    ensures Run(Run(b, ops[..k]), ops[k..]) == Run(b, ops)
  {
    hide Step;
    if k == |ops| {
      assert ops[..k] == ops;
    } else {
      var ops', op := ops[..|ops| - 1], ops[|ops| - 1];
      RunSplit(b, ops', k);
      assert ops'[..k] == ops[..k];
      assert ops[k..][..|ops[k..]| - 1] == ops'[k..];
    }
  }

  /** The name index answers as a scan of all services would, and a name has one service. */
  lemma LookupEqualsScan(ops: seq<Op>, name: string)
    requires Bounded(ops)
    ensures var b := Run(GENESIS, ops);
      && (name in b.svcByName <==> exists k :: k in b.services && b.services[k].name == name)
      && forall k :: k in b.services && b.services[k].name == name ==> b.svcByName[name] == k
  {
    hide IdsOk, RequestsOk, Run;
    RunSound(ops);
    var b := Run(GENESIS, ops);
    assert name in b.svcByName ==> Names(b.services, b.svcByName[name], name);
    forall k | k in b.services && b.services[k].name == name
      ensures name in b.svcByName && b.svcByName[name] == k
    {
      assert Indexed(b.svcByName, b.services[k]) && ServiceOk(b.services[k], k);
    }
  }
}
