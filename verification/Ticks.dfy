/** What a block does to each request, neither too early nor too late, said over the record's own
    heights and votes. */
module Ticks {
  import opened Types
  import opened Addresses
  import opened Flows
  import opened Books
  import opened Machine
  import opened Reachable
  import opened Lifecycle
  import opened Votes
  import opened Payouts
  import opened Effects

  /** The request's service belongs to domain `d`, which sets a margin of its own. */
  ghost predicate SetsMargin(b: Book, r: Request, d: u64) {
    && r.serviceId in b.services && b.services[r.serviceId].domainId == d
    && d != 0 && d in b.domains && b.domains[d].margin > 0
  }

  /** Some account attested the provider's output, and such accounts are ahead by the margin. */
  ghost predicate Ahead(r: Request, margin: int)
    requires r.result.Some? && r.challenges != []
  {
    && ProviderAccounts(r) != {}
    && |ProviderAccounts(r)| >= |ChallengerAccounts(r)| + margin
  }

  /** What the vote says: the domain's margin decides where it sets one, the global one elsewhere. */
  ghost predicate Earned(b: Book, r: Request)
    requires r.result.Some? && r.challenges != []
  {
    || (exists d :: SetsMargin(b, r, d) && Ahead(r, b.domains[d].margin))
    || ((forall d :: !SetsMargin(b, r, d)) && Ahead(r, b.params.voucherMargin))
  }

  /** A request after the block that raises the height to `h`. */
  ghost predicate AfterBlock(b: Book, h: int, r: Request, r': Request) {
    match r.status
    case Pending =>
      if h > r.deadline then r' == r.(status := Refunded, finalizedAt := h) else r' == r
    case Submitted =>
      if h > r.submittedAt + b.params.challengeWindow
      then r' == r.(status := Finalized, finalizedAt := h, paid := Some(r.escrow)) else r' == r
    case Challenged =>
      && r.result.Some? && r.challenges != []
      && if h <= r.challenges[0].postedAt + RESOLUTION_WINDOW then r' == r
         else if Earned(b, r) then r' == r.(status := Finalized, finalizedAt := h, paid := Some(r.escrow))
         else r' == r.(status := Slashed, finalizedAt := h)
    case Finalized => r' == r
    case Slashed => r' == r
    case Refunded => r' == r
  }

  /** The vote in terms of the flags and the margin the block looks up. */
  lemma EarnedIsWinning(b: Book, r: Request)
    requires EvidenceOk(r) && r.challenges != []
    ensures Earned(b, r) <==> ProviderWins(b, r)
  {
    assert r.result.Some?;
    hide EvidenceOk;
    VotesByHash(r);
    assert ProviderAccounts(r) != {} <==> |ProviderAccounts(r)| > 0;
    if r.serviceId in b.services {
      var d := b.services[r.serviceId].domainId;
      assert forall e :: SetsMargin(b, r, e) ==> e == d;
      assert SetsMargin(b, r, d) ==> Margin(b, r) == b.domains[d].margin;
      assert !SetsMargin(b, r, d) ==> Margin(b, r) == b.params.voucherMargin;
    }
  }

  lemma DueIsAfterBlock(b: Book, r: Request, id: u64)
    requires RequestOk(b.services, r, id) && EvidenceOk(r)
    ensures AfterBlock(b, b.height, r, Settled(r, Due(b, r), b.height))
  {
    hide ProviderWins, Earned;
    if r.status == Challenged {
      EarnedIsWinning(b, r);
    }
  }

  lemma EarnedIgnoresHeight(b: Book, h: int, r: Request)
    requires r.result.Some? && r.challenges != []
    ensures Earned(b.(height := h), r) <==> Earned(b, r)
  {
    hide Ahead;
    var b1 := b.(height := h);
    assert forall d :: SetsMargin(b1, r, d) <==> SetsMargin(b, r, d);
  }

  /** A block raises the height by one, treats every request as its own record says, and does nothing
      else. */
  lemma BlockOutcome(b: Book)
    requires Core(b) && Evident(b)
    ensures var b' := Tick(b);
      && b' == b.(height := b.height + 1, requests := b'.requests)
      && b'.requests.Keys == b.requests.Keys
      && forall k :: k in b.requests ==> AfterBlock(b, b.height + 1, b.requests[k], b'.requests[k])
  {
    hide Core, EvidenceOk, AfterBlock, Due, Settled;
    var b1 := b.(height := b.height + 1);
    forall k | k in b.requests ensures AfterBlock(b, b.height + 1, b.requests[k], Tick(b).requests[k]) {
      RequestAt(b, k);
      assert EvidenceOk(b.requests[k]);
      DueIsAfterBlock(b1, b.requests[k], k);
      AfterBlockIgnoresHeight(b, b1.height, b.height + 1, b.requests[k], Tick(b).requests[k]);
    }
  }

  lemma AfterBlockIgnoresHeight(b: Book, h0: int, h: int, r: Request, r': Request)
    ensures AfterBlock(b.(height := h0), h, r, r') <==> AfterBlock(b, h, r, r')
  {
    hide Earned;
    if r.result.Some? && r.challenges != [] {
      EarnedIgnoresHeight(b, h0, r);
    }
  }

  /** The same in every reachable state. */
  lemma RunBlockOutcome(ops: seq<Op>, id: u64)
    requires Bounded(ops) && id in Run(GENESIS, ops).requests
    ensures var b := Run(GENESIS, ops);
      id in Tick(b).requests && AfterBlock(b, b.height + 1, b.requests[id], Tick(b).requests[id])
  {
    hide Core, Run, Evident, AfterBlock, Tick;
    RunSound(ops);
    RunEvident(ops);
    BlockOutcome(Run(GENESIS, ops));
  }

  /** What account `a` gains when a block turns `r` into `r'`: nothing if nothing happened; an expired
      request goes back to the requester, an undisputed one to the owner with the bond, and a disputed
      one is paid out by its verdict. */
  ghost function EndGain(r: Request, r': Request, owner: Address, a: Address): int {
    if r' == r then 0
    else
      match r.status
      case Pending => Post(r.requester, a, r.escrow.amount) - Post(ESCROW, a, r.escrow.amount)
      case Submitted =>
        Post(owner, a, r.escrow.amount + r.BondAmount()) - Post(ESCROW, a, r.escrow.amount + r.BondAmount())
      case Challenged =>
        if r'.status == Finalized then DismissGain(r, owner, a)
        else if r.challenges != [] then SlashGain(r, a)
        else 0
      case _ => 0
  }

  ghost function BlockGains(b: Book, n: int, a: Address): int
    decreases if n < 0 then 0 else n
  {
    if n <= 0 then 0
    else BlockGains(b, n - 1, a)
         + (if n in b.requests && n in Tick(b).requests
            then EndGain(b.requests[n], Tick(b).requests[n], b.Owner(b.requests[n].serviceId), a) else 0)
  }

  lemma DueGain(b: Book, r: Request, owner: Address, a: Address)
    requires Shape(r)
    ensures var r' := Settled(r, Due(b, r), b.height);
      Flow(r', owner, a) == Flow(r, owner, a) + EndGain(r, r', owner, a) && r'.serviceId == r.serviceId
  {
    hide ProviderWins, DismissGain, SlashGain;
    var v := Due(b, r);
    if v in {Dismiss, Slash} {
      ResolutionGain(r, v, b.height, owner, a);
      hide Flow;
    } else if v != Keep {
      SettledFlow(r, v, b.height, owner, a);
    }
  }

  lemma {:induction false} BlockGainsSum(b: Book, n: int, a: Address)
    requires Core(b) && n < TWO64
    ensures SumRequests(Tick(b).requests, b.services, n, a)
         == SumRequests(b.requests, b.services, n, a) + BlockGains(b, n, a)
    decreases if n < 0 then 0 else n
  {
    hide Core, Flow, Due, Settled, EndGain;
    if n > 0 {
      BlockGainsSum(b, n - 1, a);
      var k: u64 := n;
      var b1 := b.(height := b.height + 1);
      assert k in Tick(b).requests <==> k in b.requests;
      if k in b.requests {
        ShapeOf(b, k);
        assert Tick(b).requests[k] == Settled(b.requests[k], Due(b1, b.requests[k]), b1.height);
        DueGain(b1, b.requests[k], b.Owner(b.requests[k].serviceId), a);
      }
    }
  }

  /** The balances after a block are those before it plus what each ended request pays. */
  lemma BlockPays(b: Book, a: Address)
    requires Core(b)
    ensures Funds(Tick(b), a) == Funds(b, a) + BlockGains(b, b.nextReq - 1, a)
  {
    hide Core, SumRequests, SumServices, BlockGains;
    BlockGainsSum(b, b.nextReq - 1, a);
  }
}
