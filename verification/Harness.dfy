/** The determinism harness: what it files after replaying a request, and why the chain's checks
    cannot refuse it although everything it read may be out of date. */
module Harnesses {
  import opened Types
  import opened Addresses
  import opened Flows
  import opened Books
  import opened Machine
  import opened Reachable
  import opened Lifecycle

  /** The part of a request that the harness reads over the chain's API. */
  datatype FullRequest = FullRequest(
    serviceId: u64, inputHash: string, inputUri: string, inputText: string, status: Status,
    output: Option<Output>, challengeHashes: seq<string>)

  datatype Output = Output(outputHash: string, domainId: u64)

  /** What the API shows of a stored request. */
  function Shown(r: Request): FullRequest {
    FullRequest(r.serviceId, r.inputHash, r.inputUri, r.inputText, r.status,
                match r.result
                case None => None
                case Some(x) => Some(Output(x.outputHash, x.attestation.domainId)),
                seq(|r.challenges|, i requires 0 <= i < |r.challenges| => r.challenges[i].attestation.outputHash))
  }

  datatype Finding = Same | Divergent | Failed | Skipped

  datatype Report = Report(
    requestId: u64, serviceId: u64, domainId: u64, chainHash: string, replayHash: string,
    finding: Finding, challengeFiled: bool, vouchFiled: bool)

  const MAX_STORED_RESULTS := 100
  const INLINE: string := "inline:"

  /** The attestation filed: our account and output, the domain's tuple, the request's input. */
  function Attest(addr: Address, dom: Domain, full: FullRequest, hash: string): Attestation {
    Attestation(addr, dom.id, dom.model, dom.runtime, dom.hardware, dom.precision, dom.tokenizer,
                full.inputHash, hash, 0, "")
  }

  /** The request can be replayed: it has a result and its input is inline and not empty. */
  predicate Replayable(full: FullRequest) {
    full.output.Some? && INLINE <= full.inputUri && full.inputText != ""
  }

  /** A replay calls for a vouch on a disputed request whose either side it reproduces, for a
      challenge on an undisputed one that it does not reproduce, and for nothing otherwise. */
  predicate CallsForVouch(full: FullRequest, hash: string)
    requires full.output.Some?
  {
    full.status == Challenged && (hash == full.output.value.outputHash || hash in full.challengeHashes)
  }

  predicate CallsForChallenge(full: FullRequest, hash: string)
    requires full.output.Some?
  {
    full.status != Challenged && hash != full.output.value.outputHash
  }

  function LastHundred(rs: seq<Report>): seq<Report> {
    if |rs| > MAX_STORED_RESULTS then rs[|rs| - MAX_STORED_RESULTS..] else rs
  }

  class Harness {
    var signer: Option<Address>
    var results: seq<Report>

    constructor (s: Option<Address>)
      ensures signer == s && results == []
    {
      signer, results := s, [];
    }

    /** Appends a report and keeps the last hundred. */
    method Store(r: Report)
      modifies this`results
      ensures results == LastHundred(old(results) + [r])
    {
      results := results + [r];
      if |results| > MAX_STORED_RESULTS {
        results := results[|results| - MAX_STORED_RESULTS..];
      }
    }

    /** One check. `fetched` is the chain's answer for the request, `replay` the hash of our own run,
        `dom` the answer for the domain the submitted attestation names and `accepted` whether the
        chain took what was filed; an absent answer is a failed call. */
    method CheckRequest(requestId: u64, fetched: Option<FullRequest>, replay: Option<string>,
                        dom: Option<Domain>, accepted: bool)
      returns (sent: Option<Msg>)
      modifies this`results
      ensures sent.Some? <==>
        && signer.Some? && fetched.Some? && Replayable(fetched.value) && replay.Some? && dom.Some?
        && (CallsForVouch(fetched.value, replay.value) || CallsForChallenge(fetched.value, replay.value))
      ensures sent.Some? ==>
        var att := Attest(signer.value, dom.value, fetched.value, replay.value);
        sent.value == if fetched.value.status == Challenged then Msg.Vouch(signer.value, requestId, att)
                      else FileChallenge(signer.value, requestId, att)
      ensures results != [] && results == LastHundred(old(results) + [results[|results| - 1]])
      ensures results[|results| - 1].requestId == requestId
      ensures var r := results[|results| - 1];
        && (r.vouchFiled <==> sent.Some? && sent.value.Vouch? && accepted)
        && (r.challengeFiled <==> sent.Some? && sent.value.FileChallenge? && accepted)
        && (r.finding == Divergent ==> r.replayHash != r.chainHash)
        && (r.finding == Same ==> r.replayHash == r.chainHash)
        && (r.finding == Same || r.finding == Divergent
            <==> fetched.Some? && Replayable(fetched.value) && replay.Some?)
    {
      sent := None;
      var r := Report(requestId, 0, 0, "", "", Failed, false, false);
      if fetched.None? {
        Store(r);
        return;
      }
      var full := fetched.value;
      r := r.(serviceId := full.serviceId);
      if full.output.None? {
        Store(r);
        return;
      }
      r := r.(domainId := full.output.value.domainId, chainHash := full.output.value.outputHash);
      if !(INLINE <= full.inputUri) {
        r := r.(finding := Skipped);
        Store(r);
        return;
      }
      if full.inputText == "" || replay.None? {
        Store(r);
        return;
      }
      r := r.(replayHash := replay.value);
      if r.replayHash == r.chainHash {
        r := r.(finding := Same);
        if full.status == Challenged && signer.Some? && dom.Some? {
          sent := Some(Msg.Vouch(signer.value, requestId, Attest(signer.value, dom.value, full, r.replayHash)));
          r := r.(vouchFiled := accepted);
        }
        Store(r);
        return;
      }
      r := r.(finding := Divergent);
      if signer.Some? {
        if full.status == Challenged {
          var i := 0;
          while i < |full.challengeHashes| && full.challengeHashes[i] != r.replayHash
            invariant 0 <= i <= |full.challengeHashes|
            invariant forall j :: 0 <= j < i ==> full.challengeHashes[j] != r.replayHash
          {
            i := i + 1;
          }
          if i < |full.challengeHashes| && dom.Some? {
            sent := Some(Msg.Vouch(signer.value, requestId, Attest(signer.value, dom.value, full, r.replayHash)));
            r := r.(vouchFiled := accepted);
          }
        } else if dom.Some? {
          sent := Some(FileChallenge(signer.value, requestId, Attest(signer.value, dom.value, full, r.replayHash)));
          r := r.(challengeFiled := accepted);
        }
      }
      Store(r);
    }
  }

  // What was attested on chain stays attested.

  /** Results and challenges on a record carry their service's domain tuple. */
  ghost predicate EvidenceAttested(b: Book, r: Request) {
    r.result.Some? ==> Attested(b, r.serviceId, r.result.value.attestation)
  }

  lemma AttestedPersists(b: Book, b': Book, s: u64, att: Attestation)
    requires RecordsEvolve(b, b') && Attested(b, s, att)
    ensures Attested(b', s, att)
  {
    var d := b.services[s].domainId;
    assert ServiceEvolves(b.services[s], b'.services[s]);
    if d != 0 {
      assert DomainChange(b.domains[d], b'.domains[d]);
    }
  }

  lemma StepKeepsAttested(b: Book, b': Book)
    requires Core(b) && RecordsStep(b, b')
    requires forall k :: k in b.requests ==> EvidenceAttested(b, b.requests[k])
    ensures forall k :: k in b'.requests ==> EvidenceAttested(b', b'.requests[k])
  {
    hide IdsOk, IndexOk, ServicesOk, Attested, Change, RequestOk;
    StepEvolves(b, b');
    hide RecordsEvolve;
    forall k | k in b'.requests ensures EvidenceAttested(b', b'.requests[k]) {
      if k in b.requests {
        assert RequestOk(b.services, b.requests[k], k) && EvidenceAttested(b, b.requests[k]);
        ChangeKeepsAttested(b, b', b.requests[k], b'.requests[k], k);
      } else {
        OpenedHasNoResult(b, b'.requests[k], k);
      }
    }
  }

  lemma OpenedHasNoResult(b: Book, r: Request, id: u64)
    requires Opened(b, r, id)
    ensures r.result.None?
  {
  }

  lemma ChangeKeepsAttested(b: Book, b': Book, r: Request, r': Request, id: u64)
    requires RequestOk(b.services, r, id) && Change(b, r, r') && EvidenceAttested(b, r) && RecordsEvolve(b, b')
    ensures EvidenceAttested(b', r')
  {
    hide Attested, RecordsEvolve;
    if r'.result.Some? {
      assert Attested(b, r'.serviceId, r'.result.value.attestation);
      AttestedPersists(b, b', r'.serviceId, r'.result.value.attestation);
    }
  }

  lemma {:induction false} RunAttested(ops: seq<Op>, n: nat)
    requires Bounded(ops) && n <= |ops|
    ensures forall k :: k in StateAt(ops, n).requests ==> EvidenceAttested(StateAt(ops, n), StateAt(ops, n).requests[k])
  {
    hide Core, Room, Step, RecordsStep, EvidenceAttested;
    if n > 0 {
      RunAttested(ops, n - 1);
      StatesSound(ops, n - 1);
      StepKeepsAttested(StateAt(ops, n - 1), StateAt(ops, n));
    }
  }

  /** The harness read request `id` in state `i` and the domain its submitted attestation names in the
      later state `n`; its message reaches the chain in state `j`, still later. */
  ghost predicate ReadsBefore(ops: seq<Op>, id: u64, full: FullRequest, dom: Domain, i: nat, n: nat, j: nat) {
    && Bounded(ops) && i <= n <= j <= |ops|
    && id in StateAt(ops, i).requests && full == Shown(StateAt(ops, i).requests[id])
    && full.output.Some?
    && full.output.value.domainId in StateAt(ops, n).domains
    && dom == StateAt(ops, n).domains[full.output.value.domainId]
  }

  /** What the harness builds from stale reads still fits the record when it arrives. */
  lemma StaleReadsStillFit(ops: seq<Op>, id: u64, full: FullRequest, dom: Domain, i: nat, n: nat, j: nat,
      addr: Address, hash: string)
    requires ReadsBefore(ops, id, full, dom, i, n, j)
    ensures Core(StateAt(ops, j)) && id in StateAt(ops, j).requests
    ensures var r0, r := StateAt(ops, i).requests[id], StateAt(ops, j).requests[id];
      && Attested(StateAt(ops, j), r.serviceId, Attest(addr, dom, full, hash))
      && full.inputHash == r.inputHash
      && r.result.Some? && r.result.value.outputHash == full.output.value.outputHash
      && Shape(r0) && (r0.challenges != [] ==> r.challenges == r0.challenges)
  {
    hide IdsOk, IndexOk, ServicesOk, Room, Step, Run, RecordsStep;
    StatesSound(ops, i);
    StatesSound(ops, j);
    RunAttested(ops, i);
    RunEvolves(ops, i, n);
    RunEvolves(ops, n, j);
    var b0, b1, b2 := StateAt(ops, i), StateAt(ops, n), StateAt(ops, j);
    var r0 := b0.requests[id];
    assert RequestOk(b0.services, r0, id) && EvidenceAttested(b0, r0);
    assert Evolves(r0, b1.requests[id]) && Evolves(b1.requests[id], b2.requests[id]);
    var s := r0.serviceId;
    assert ServiceEvolves(b0.services[s], b1.services[s]) && ServiceEvolves(b1.services[s], b2.services[s]);
    var d := b0.services[s].domainId;
    if d != 0 {
      assert DomainChange(b0.domains[d], b1.domains[d]) && DomainChange(b1.domains[d], b2.domains[d]);
      DomainIds(b0, d);
    }
  }

  lemma DomainIds(b: Book, d: u64)
    requires Core(b) && d in b.domains
    ensures b.domains[d].id == d
  {
  }

  /** A challenge from a divergent replay, arriving while the request is still SUBMITTED, can only be
      refused for lateness or lack of funds. */
  lemma ChallengeIsWellFounded(ops: seq<Op>, id: u64, full: FullRequest, dom: Domain, i: nat, n: nat, j: nat,
      addr: Address, hash: string)
    requires ReadsBefore(ops, id, full, dom, i, n, j)
    requires CallsForChallenge(full, hash)
    requires id in StateAt(ops, j).requests && StateAt(ops, j).requests[id].status == Submitted
    ensures var outcome := Apply(StateAt(ops, j), addr, FileChallenge(addr, id, Attest(addr, dom, full, hash)));
      outcome.Err? ==> outcome.error in {ChallengeWindowClosed, InsufficientFunds}
  {
    hide Core, Funds, Run, Evolves, RecordsEvolve, Shape, StateAt;
    StaleReadsStillFit(ops, id, full, dom, i, n, j, addr, hash);
  }

  /** A vouch for a side the replay reproduces, arriving while the request is still CHALLENGED, can
      only be refused for the account's own reasons or lateness, never for what it attests. */
  lemma VouchIsWellFounded(ops: seq<Op>, id: u64, full: FullRequest, dom: Domain, i: nat, n: nat, j: nat,
      addr: Address, hash: string)
    requires ReadsBefore(ops, id, full, dom, i, n, j)
    requires CallsForVouch(full, hash)
    requires id in StateAt(ops, j).requests && StateAt(ops, j).requests[id].status == Challenged
    ensures var outcome := Apply(StateAt(ops, j), addr, Msg.Vouch(addr, id, Attest(addr, dom, full, hash)));
      outcome.Err? ==> outcome.error in {VouchNotEligible, VouchDuplicate, VouchWindowClosed, InsufficientFunds}
  {
    hide Core, Funds, Run, Evolves, RecordsEvolve, StateAt, Eligible, VoucherBond;
    StaleReadsStillFit(ops, id, full, dom, i, n, j, addr, hash);
  }
}
