/** Why a dismissal is legitimate: the votes counted are those of pairwise distinct, eligible
    accounts, each on the side its hash says, and there are enough of them. */
module Votes {
  import opened Types
  import opened Addresses
  import opened Flows
  import opened Books
  import opened Machine
  import opened Reachable
  import opened Lifecycle

  predicate Distinct(vs: seq<Voucher>) {
    forall i, j :: 0 <= i < j < |vs| ==> vs[i].voucher != vs[j].voucher
  }

  /** A voucher's flag says exactly which of the two disputed outputs it attested. */
  predicate FlagOk(r: Request, v: Voucher)
    requires r.result.Some? && r.challenges != []
  {
    && v.attestation.inputHash == r.inputHash
    && (v.supportsProvider <==> v.attestation.outputHash == r.result.value.outputHash)
    && (!v.supportsProvider <==> v.attestation.outputHash == r.challenges[0].attestation.outputHash)
  }

  /** The evidence on a record is about its input, and the disputed outputs differ. */
  predicate EvidenceOk(r: Request) {
    && (r.result.Some? ==> r.result.value.attestation.inputHash == r.inputHash)
    && (r.challenges != [] ==>
          && r.result.Some?
          && r.challenges[0].attestation.inputHash == r.inputHash
          && r.challenges[0].attestation.outputHash != r.result.value.outputHash
          && forall v :: v in r.vouchers ==> FlagOk(r, v))
    && Distinct(r.vouchers)
  }

  ghost predicate Evident(b: Book) {
    forall k :: k in b.requests ==> EvidenceOk(b.requests[k])
  }

  lemma ChangeKeepsEvidence(b: Book, r: Request, r': Request, id: u64)
    requires RequestOk(b.services, r, id) && Change(b, r, r') && EvidenceOk(r)
    ensures EvidenceOk(r')
  {
    if r.status == Challenged && |r'.vouchers| == |r.vouchers| + 1 {
      var v := r'.vouchers[|r.vouchers|];
      assert r'.vouchers == r.vouchers + [v];
      forall i, j | 0 <= i < j < |r'.vouchers| ensures r'.vouchers[i].voucher != r'.vouchers[j].voucher {
        assert r'.vouchers[i] in r.vouchers;
      }
      forall w | w in r'.vouchers ensures FlagOk(r', w) {
        assert w in r.vouchers ==> FlagOk(r, w);
      }
    } else {
      assert forall v :: v in r'.vouchers ==> v in r.vouchers && FlagOk(r, v) && FlagOk(r', v);
    }
  }

  lemma StepKeepsEvidence(b: Book, b': Book)
    requires Core(b) && RecordsStep(b, b') && Evident(b)
    ensures Evident(b')
  {
    hide IdsOk, IndexOk, ServicesOk, EvidenceOk, Change, RequestOk, ServicesStep, DomainsStep;
    forall k | k in b'.requests ensures EvidenceOk(b'.requests[k]) {
      if k in b.requests {
        assert RequestOk(b.services, b.requests[k], k);
        ChangeKeepsEvidence(b, b.requests[k], b'.requests[k], k);
      } else {
        OpenedHasNoEvidence(b, b'.requests[k], k);
      }
    }
  }

  lemma OpenedHasNoEvidence(b: Book, r: Request, id: u64)
    requires Opened(b, r, id)
    ensures EvidenceOk(r)
  {
  }

  /** In every reachable state each record's vouchers are distinct accounts with truthful flags. */
  lemma {:induction false} RunEvident(ops: seq<Op>)
    requires Bounded(ops)
    ensures Evident(Run(GENESIS, ops))
  {
    hide Core, Room, Step, RecordsStep, Evident;
    if ops == [] {
      GenesisEvident();
    } else {
      var n := |ops| - 1;
      SupplyGrows(ops, n);
      RunEvident(ops[..n]);
      StatesSound(ops, n);
      assert ops[..n + 1] == ops;
      StepKeepsEvidence(StateAt(ops, n), Run(GENESIS, ops));
    }
  }

  lemma GenesisEvident()
    ensures Evident(GENESIS)
  {
  }

  function Accounts(vs: seq<Voucher>): set<Address> {
    set v | v in vs :: v.voucher
  }

  /** Distinct vouchers count as many accounts as votes, on either side. */
  lemma {:induction false} VotesAreAccounts(vs: seq<Voucher>)
    requires Distinct(vs)
    ensures |Accounts(vs)| == |vs|
  {
    if vs != [] {
      var rest, v := vs[..|vs| - 1], vs[|vs| - 1];
      VotesAreAccounts(rest);
      assert vs == rest + [v];
      assert Accounts(vs) == Accounts(rest) + {v.voucher};
      assert v.voucher !in Accounts(rest);
    }
  }

  lemma {:induction false} SidesDistinct(vs: seq<Voucher>)
    requires Distinct(vs)
    ensures Distinct(Supporters(vs)) && Distinct(Opponents(vs))
  {
    if vs != [] {
      var rest, v := vs[..|vs| - 1], vs[|vs| - 1];
      SidesDistinct(rest);
      SideMembers(rest);
      forall w | w in rest ensures w.voucher != v.voucher {
        var i :| 0 <= i < |rest| && rest[i] == w;
        assert vs[i] == w;
      }
      AppendDistinct(Supporters(rest), v);
      AppendDistinct(Opponents(rest), v);
    }
  }

  lemma AppendDistinct(vs: seq<Voucher>, v: Voucher)
    requires Distinct(vs) && forall w :: w in vs ==> w.voucher != v.voucher
    ensures Distinct(vs + [v])
    ensures vs + [] == vs
  {
    forall i, j | 0 <= i < j < |vs + [v]| ensures (vs + [v])[i].voucher != (vs + [v])[j].voucher {
      assert (vs + [v])[i] in vs;
    }
  }

  /** The provider's accounts: those that attested the provider's output; likewise the challenger's. */
  ghost function ProviderAccounts(r: Request): set<Address>
    requires r.result.Some?
  {
    set v | v in r.vouchers && v.attestation.outputHash == r.result.value.outputHash :: v.voucher
  }

  ghost function ChallengerAccounts(r: Request): set<Address>
    requires r.challenges != []
  {
    set v | v in r.vouchers && v.attestation.outputHash == r.challenges[0].attestation.outputHash :: v.voucher
  }

  lemma VotesByHash(r: Request)
    requires EvidenceOk(r) && r.challenges != []
    ensures |Supporters(r.vouchers)| == |ProviderAccounts(r)|
    ensures |Opponents(r.vouchers)| == |ChallengerAccounts(r)|
  {
    SidesDistinct(r.vouchers);
    SideMembers(r.vouchers);
    VotesAreAccounts(Supporters(r.vouchers));
    VotesAreAccounts(Opponents(r.vouchers));
    assert Accounts(Supporters(r.vouchers)) == ProviderAccounts(r);
    assert Accounts(Opponents(r.vouchers)) == ChallengerAccounts(r);
  }

  /** A block dismisses a challenge exactly when the window is over, at least one account attested the
      provider's output, and those accounts exceed the others by the margin in force. */
  lemma DismissedByVoteIffEarned(b: Book, id: u64)
    requires Core(b) && Evident(b) && id in b.requests && b.requests[id].status == Challenged
    ensures var r := b.requests[id];
      Tick(b).requests[id].status == Finalized <==>
        && b.height + 1 > r.challenges[0].postedAt + RESOLUTION_WINDOW
        && |ProviderAccounts(r)| >= 1
        && |ProviderAccounts(r)| - |ChallengerAccounts(r)| >= Margin(b, r)
  {
    hide IdsOk, IndexOk, ServicesOk, EvidenceOk, Due, ProviderWins, Margin, Settled;
    assert RequestOk(b.services, b.requests[id], id);
    assert EvidenceOk(b.requests[id]);
    DueDismisses(b.(height := b.height + 1), b.requests[id]);
  }

  lemma DueDismisses(b: Book, r: Request)
    requires Shape(r) && EvidenceOk(r) && r.status == Challenged
    ensures Settled(r, Due(b, r), b.height).status == Finalized <==>
      && b.height > r.challenges[0].postedAt + RESOLUTION_WINDOW
      && |ProviderAccounts(r)| >= 1
      && |ProviderAccounts(r)| - |ChallengerAccounts(r)| >= Margin(b, r)
    ensures forall h :: Margin(b.(height := h), r) == Margin(b, r)
  {
    hide EvidenceOk, Margin;
    VotesByHash(r);
    assert forall h :: Margin(b.(height := h), r) == Margin(b, r) by {
      MarginIgnoresHeight(b, r);
    }
  }

  lemma MarginIgnoresHeight(b: Book, r: Request)
    ensures forall h :: Margin(b.(height := h), r) == Margin(b, r)
  {
  }

  /** The only other way to a dismissal is the authority's own accepted decision. */
  ghost predicate DecidedByAuthority(b: Book, op: Op, id: u64) {
    && op.SubmitTx? && op.tx.payload.Some? && op.tx.payload.value.ResolveChallenge?
    && op.tx.payload.value.requestId == id && op.tx.payload.value.decision == ForProvider
    && b.authority != "" && AddressOf(op.tx.signer) == b.authority
  }

  lemma DismissedOnlyByVoteOrAuthority(b: Book, op: Op, id: u64)
    requires Core(b) && id in b.requests && b.requests[id].status == Challenged
    requires id in Step(b, op).requests && Step(b, op).requests[id].status == Finalized
    ensures op.CommitBlock? || DecidedByAuthority(b, op, id)
  {
    hide Core, Apply, AddressOf, Tick, IsValidAddress;
    if op.SubmitTx? && Submit(b, op.tx).Ok? {
      var signer, m := AddressOf(op.tx.signer), op.tx.payload.value;
      if m.SubmitResult? || m.FileChallenge? || m.Vouch? || m.DeactivateDomain? {
        RequestMessagesDoNotDismiss(b, signer, m, id);
      } else if !m.ResolveChallenge? {
        OthersKeepRequests(b, signer, m, id);
      } else {
        ResolveDismisses(b, signer, m, id);
      }
    }
  }

  lemma ResolveDismisses(b: Book, signer: Address, m: Msg, id: u64)
    requires m.ResolveChallenge? && Apply(b, signer, m).Ok? && id in b.requests && b.requests[id].status == Challenged
    requires id in Apply(b, signer, m).value.requests && Apply(b, signer, m).value.requests[id].status == Finalized
    ensures m.requestId == id && m.decision == ForProvider && b.authority != "" && signer == b.authority
  {
  }

  lemma RequestMessagesDoNotDismiss(b: Book, signer: Address, m: Msg, id: u64)
    requires m.SubmitResult? || m.FileChallenge? || m.Vouch? || m.DeactivateDomain?
    requires Apply(b, signer, m).Ok? && id in b.requests && b.requests[id].status == Challenged
    requires id in Apply(b, signer, m).value.requests
    ensures Apply(b, signer, m).value.requests[id].status != Finalized
    ensures !m.Vouch? ==> Apply(b, signer, m).value.requests[id].vouchers == b.requests[id].vouchers
  {
    hide Funds, CheckTuple, Eligible, VoucherBond;
  }

  lemma OthersKeepRequests(b: Book, signer: Address, m: Msg, id: u64)
    requires Core(b) && Apply(b, signer, m).Ok? && id in b.requests
    requires m.RegisterService? || m.UpdateService? || m.DeactivateService?
          || m.RequestInference? || m.Transfer? || m.RegisterDomain?
    ensures id in Apply(b, signer, m).value.requests && Apply(b, signer, m).value.requests[id] == b.requests[id]
  {
    hide Funds, IndexOk, ServicesOk, RequestsOk, IsUser;
  }

  /** Every voucher on a record, at any later time, was put there by an operation at which its account
      had not vouched yet, attested a disputed output, was inside the window and was eligible. */
  lemma {:induction false} VouchersWereEligible(ops: seq<Op>, id: u64, i: nat) returns (k: nat)
    requires Bounded(ops) && id in Run(GENESIS, ops).requests
    requires i < |Run(GENESIS, ops).requests[id].vouchers|
    ensures k < |ops| && id in StateAt(ops, k).requests
    ensures var r := StateAt(ops, k).requests[id];
      && |r.vouchers| == i
      && GoodVouch(StateAt(ops, k), r, Run(GENESIS, ops).requests[id].vouchers[i])
  {
    hide Core, Room, Step, RecordsStep, GoodVouch;
    var n := |ops| - 1;
    if ops == [] {
      assert false;
    }
    SupplyGrows(ops, n);
    StatesSound(ops, n);
    assert ops[..n + 1] == ops;
    var b, b' := StateAt(ops, n), Run(GENESIS, ops);
    NewVoucherIsGood(b, b', id);
    if id in b.requests && i < |b.requests[id].vouchers| {
      k := VouchersWereEligible(ops[..n], id, i);
      assert ops[..n][..k] == ops[..k];
    } else {
      k := n;
    }
  }

  /** An operation adds at most one voucher to a record, a good one, and removes none. */
  lemma NewVoucherIsGood(b: Book, b': Book, id: u64)
    requires Core(b) && RecordsStep(b, b') && id in b'.requests
    ensures id !in b.requests ==> b'.requests[id].vouchers == []
    ensures id in b.requests ==>
      var vs, vs' := b.requests[id].vouchers, b'.requests[id].vouchers;
      && vs <= vs' && |vs'| <= |vs| + 1
      && (|vs'| > |vs| ==> GoodVouch(b, b.requests[id], vs'[|vs|]))
  {
    hide IdsOk, IndexOk, ServicesOk, GoodVouch, ServicesStep, DomainsStep;
    if id in b.requests {
      assert RequestOk(b.services, b.requests[id], id);
      assert Change(b, b.requests[id], b'.requests[id]);
    } else {
      assert Opened(b, b'.requests[id], id);
    }
  }
}
