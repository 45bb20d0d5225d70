/** A retired verification domain is quiescent for ever, although submissions, requests and vouches
    never look at the domain's flag. */
module DeadDomains {
  import opened Types
  import opened Addresses
  import opened Flows
  import opened Books
  import opened Machine
  import opened Reachable
  import opened Lifecycle
  import opened Admission
  import opened Effects

  ghost predicate DeadIn(b: Book, d: u64) {
    d in b.domains && !b.domains[d].active
  }

  /** A service's domain exists, offline it holds no bond, and in a dead domain it is offline. */
  ghost predicate ServiceQuiet(b: Book, s: Service) {
    && (s.domainId == 0 || s.domainId in b.domains)
    && (!s.active ==> s.bond == ZERO_COIN)
    && (DeadIn(b, s.domainId) ==> !s.active)
  }

  /** A request on a service of a dead domain is terminal. */
  ghost predicate RequestQuiet(b: Book, r: Request) {
    r.serviceId in b.services && DeadIn(b, b.services[r.serviceId].domainId) ==> !r.status.IsOpen()
  }

  ghost predicate Quiet(b: Book) {
    && (forall k :: k in b.services ==> ServiceQuiet(b, b.services[k]))
    && (forall k :: k in b.requests ==> RequestQuiet(b, b.requests[k]))
  }

  /** The message retires a domain. */
  predicate Retires(op: Op) {
    op.SubmitTx? && op.tx.payload.Some? && op.tx.payload.value.DeactivateDomain?
  }

  lemma OthersKeepDomains(b: Book, op: Op)
    requires Core(b) && Room(b) && !Retires(op)
    ensures b.domains.Keys <= Step(b, op).domains.Keys
    ensures forall k :: k in b.domains ==> Step(b, op).domains[k] == b.domains[k]
  {
    hide Core, Apply, AddressOf, IsValidAddress;
    if op.SubmitTx? && Submit(b, op.tx).Ok? {
      MessageKeepsDomains(b, AddressOf(op.tx.signer), op.tx.payload.value);
    }
  }

  lemma MessageKeepsDomains(b: Book, signer: Address, m: Msg)
    requires Core(b) && Room(b) && Apply(b, signer, m).Ok? && !m.DeactivateDomain?
    ensures b.domains.Keys <= Apply(b, signer, m).value.domains.Keys
    ensures forall k :: k in b.domains ==> Apply(b, signer, m).value.domains[k] == b.domains[k]
  {
    hide Apply, IndexOk, ServicesOk, RequestsOk;
    if AboutRequests(m) {
      RequestMessagesWrite(b, signer, m);
    } else if AboutServices(m) {
      ServiceMessagesWrite(b, signer, m);
    } else {
      OtherMessagesWrite(b, signer, m);
    }
  }

  /** With the domains' flags unchanged, no step revives or enters anything in a dead domain. */
  lemma RecordsStayQuiet(b: Book, b': Book)
    requires Core(b) && Quiet(b) && RecordsStep(b, b')
    requires forall k :: k in b.domains ==> k in b'.domains && b'.domains[k] == b.domains[k]
    ensures Quiet(b')
  {
    hide IndexOk, ServicesOk, Change, Evolves, RequestOk;
    StepEvolves(b, b');
    assert 0 !in b.domains;
    assert forall d :: DeadIn(b', d) ==> DeadIn(b, d);
    forall k | k in b'.services ensures ServiceQuiet(b', b'.services[k]) {
      if k in b.services {
        assert ServiceQuiet(b, b.services[k]) && ServiceChange(b.services[k], b'.services[k]);
      }
    }
    forall k | k in b'.requests ensures RequestQuiet(b', b'.requests[k]) {
      if k in b.requests {
        assert RequestQuiet(b, b.requests[k]) && RequestOk(b.services, b.requests[k], k);
        EvolvedStaysEnded(b, b.requests[k], b'.requests[k], k);
      } else {
        assert Opened(b, b'.requests[k], k);
        assert ServiceQuiet(b, b.services[b'.requests[k].serviceId]);
      }
    }
  }

  lemma EvolvedStaysEnded(b: Book, r: Request, r': Request, id: u64)
    requires RequestOk(b.services, r, id) && Evolves(r, r')
    ensures r'.serviceId == r.serviceId && r.serviceId in b.services
    ensures !r.status.IsOpen() ==> !r'.status.IsOpen()
  {
  }

  /** Retiring a domain leaves it quiet at once. */
  lemma ClosedIsQuiet(b: Book, d: u64)
    requires Core(b) && Quiet(b) && d in b.domains
    ensures Quiet(CloseDomain(b, d))
  {
    hide IdsOk, IndexOk, ServicesOk, Shape, Parties;
    var b' := CloseDomain(b, d);
    forall k | k in b'.services ensures ServiceQuiet(b', b'.services[k]) {
      assert ServiceQuiet(b, b.services[k]);
    }
    forall k | k in b'.requests ensures RequestQuiet(b', b'.requests[k]) {
      assert RequestQuiet(b, b.requests[k]) && RequestOk(b.services, b.requests[k], k);
    }
  }

  lemma StepQuiet(b: Book, op: Op)
    requires Core(b) && Room(b) && Quiet(b)
    ensures Quiet(Step(b, op))
  {
    hide Core, Room, RecordsStep, Quiet, AddressOf, IsValidAddress, CloseDomain;
    if !Retires(op) {
      StepRecords(b, op);
      OthersKeepDomains(b, op);
      RecordsStayQuiet(b, Step(b, op));
    } else if Submit(b, op.tx).Ok? {
      ClosedIsQuiet(b, op.tx.payload.value.domainId);
      SameQuiet(CloseDomain(b, op.tx.payload.value.domainId), Step(b, op));
    }
  }

  lemma SameQuiet(b: Book, b': Book)
    requires Quiet(b) && b'.services == b.services && b'.requests == b.requests && b'.domains == b.domains
    ensures Quiet(b')
  {
    forall k | k in b'.services ensures ServiceQuiet(b', b'.services[k]) {
      assert ServiceQuiet(b, b.services[k]);
    }
    forall k | k in b'.requests ensures RequestQuiet(b', b'.requests[k]) {
      assert RequestQuiet(b, b.requests[k]);
    }
  }

  lemma {:induction false} RunQuiet(ops: seq<Op>)
    requires Bounded(ops)
    ensures Quiet(Run(GENESIS, ops))
  {
    hide Core, Room, Step, RecordsStep;
    if ops != [] {
      hide Quiet;
      var n := |ops| - 1;
      SupplyGrows(ops, n);
      RunQuiet(ops[..n]);
      StatesSound(ops, n);
      assert ops[..n + 1] == ops;
      StepQuiet(StateAt(ops, n), ops[n]);
    }
  }

  /** All that is left of domain `d` in state `b`: services offline without bonds, and the ended
      requests it already had in state `b0`, unchanged. */
  ghost predicate Remains(b0: Book, b: Book, d: u64) {
    && DeadIn(b, d)
    && (forall k :: k in b.services && b.services[k].domainId == d ==>
          !b.services[k].active && b.services[k].bond == ZERO_COIN)
    && (forall k :: k in b.requests && InDomain(b.services, b.requests[k].serviceId, d) ==>
          !b.requests[k].status.IsOpen() && k in b0.requests && b.requests[k] == b0.requests[k])
  }

  lemma QuietRemains(b: Book, d: u64)
    requires Quiet(b) && DeadIn(b, d)
    ensures Remains(b, b, d)
  {
    forall k | k in b.services && b.services[k].domainId == d
      ensures !b.services[k].active && b.services[k].bond == ZERO_COIN
    {
      assert ServiceQuiet(b, b.services[k]);
    }
    forall k | k in b.requests && InDomain(b.services, b.requests[k].serviceId, d)
      ensures !b.requests[k].status.IsOpen()
    {
      assert RequestQuiet(b, b.requests[k]);
    }
  }

  lemma StepRemains(b0: Book, b: Book, b': Book, d: u64)
    requires Core(b) && RecordsStep(b, b') && Quiet(b') && Remains(b0, b, d)
    ensures Remains(b0, b', d)
  {
    hide IdsOk, IndexOk, ServicesOk, Change, Shape, Parties, Quiet;
    StepEvolves(b, b');
    QuietRemains(b', d);
    forall k | k in b'.requests
      ensures InDomain(b'.services, b'.requests[k].serviceId, d) ==> k in b0.requests && b'.requests[k] == b0.requests[k]
    {
      if k in b.requests {
        assert Evolves(b.requests[k], b'.requests[k]) && RequestOk(b.services, b.requests[k], k);
      } else {
        assert Opened(b, b'.requests[k], k);
        assert ServiceEvolves(b.services[b'.requests[k].serviceId], b'.services[b'.requests[k].serviceId]);
      }
    }
  }

  /** Once a domain is dead it is dead in every later state, each of its services is offline with no
      bond, and the only requests on them are the ended ones of the day it died, unchanged. */
  lemma {:induction false} DeadForEver(ops: seq<Op>, i: nat, j: nat, d: u64)
    requires Bounded(ops) && i <= j <= |ops| && DeadIn(StateAt(ops, i), d)
    ensures Remains(StateAt(ops, i), StateAt(ops, j), d)
    decreases j
  {
    hide Core, Room, Step, Run, RecordsStep, Quiet, Remains;
    SupplyGrows(ops, j);
    RunQuiet(ops[..j]);
    if i < j {
      DeadForEver(ops, i, j - 1, d);
      StatesSound(ops, j - 1);
      StepRemains(StateAt(ops, i), StateAt(ops, j - 1), StateAt(ops, j), d);
    } else {
      QuietRemains(StateAt(ops, i), d);
    }
  }

  /** The message retires domain `d`, or registers a service in it. */
  predicate Uses(m: Msg, d: u64) {
    || (m.DeactivateDomain? && m.domainId == d)
    || (m.RegisterService? && m.domainId == d)
  }

  /** Retiring a domain kills it and no other. */
  lemma RetiringKills(b: Book, tx: SignedTx)
    requires Core(b) && Room(b) && Submit(b, tx).Ok? && tx.payload.value.DeactivateDomain?
    ensures var d, b' := tx.payload.value.domainId, Step(b, SubmitTx(tx));
      && d in b.domains && b.domains[d].active && DeadIn(b', d)
      && b'.domains.Keys == b.domains.Keys
      && forall k :: k in b.domains && k != d ==> b'.domains[k] == b.domains[k]
  {
    hide Core, Room, Submit, Step, AddressOf, Funds;
    AcceptedEffect(b, tx);
    AcceptedIff(b, tx);
  }

  /** A dead domain takes no service and cannot be retired again. */
  lemma DeadRefuses(b: Book, tx: SignedTx, d: u64)
    requires Core(b) && DeadIn(b, d) && tx.payload.Some? && Uses(tx.payload.value, d)
    ensures Submit(b, tx).Err? && Step(b, SubmitTx(tx)) == b
  {
    assert d != 0;
    hide Core, Submit, AddressOf, Funds;
    AcceptedIff(b, tx);
    RefusedChangesNothing(b, tx);
  }

  /** From the operation that retires a domain on, the domain is dead, and whatever would use it is
      refused. */
  lemma ClosedForGood(ops: seq<Op>, i: nat, j: nat, d: u64)
    requires Bounded(ops) && i < j <= |ops|
    requires ops[i].SubmitTx? && Submit(StateAt(ops, i), ops[i].tx).Ok?
    requires ops[i].tx.payload.value.DeactivateDomain? && ops[i].tx.payload.value.domainId == d
    ensures Remains(StateAt(ops, i + 1), StateAt(ops, j), d)
    ensures j < |ops| && ops[j].SubmitTx? && ops[j].tx.payload.Some? && Uses(ops[j].tx.payload.value, d) ==>
      Submit(StateAt(ops, j), ops[j].tx).Err? && StateAt(ops, j + 1) == StateAt(ops, j)
  {
    hide Core, Room, Submit, Step, Run, RecordsStep, Remains;
    StatesSound(ops, i);
    StatesSound(ops, j);
    RetiringKills(StateAt(ops, i), ops[i].tx);
    DeadForEver(ops, i + 1, j, d);
    RemainsDead(StateAt(ops, i + 1), StateAt(ops, j), d);
    if j < |ops| && ops[j].SubmitTx? && ops[j].tx.payload.Some? && Uses(ops[j].tx.payload.value, d) {
      DeadRefuses(StateAt(ops, j), ops[j].tx, d);
    }
  }

  lemma RemainsDead(b0: Book, b: Book, d: u64)
    requires Remains(b0, b, d)
    ensures DeadIn(b, d)
  {
  }
}
