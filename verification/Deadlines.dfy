/** Time bounds. While the challenge window is a fixed `w >= 0`, no request outlives its deadlines,
    and the late submission, challenge and vouch errors cannot occur. */
module Deadlines {
  import opened Types
  import opened Addresses
  import opened Flows
  import opened Books
  import opened Machine
  import opened Reachable
  import opened Lifecycle

  predicate OnTime(height: int, w: int, r: Request) {
    && (r.status == Pending ==> height <= r.deadline)
    && (r.status == Submitted ==> height <= r.submittedAt + w)
    && (r.status == Challenged && r.challenges != [] ==> height <= r.challenges[0].postedAt + RESOLUTION_WINDOW)
    && (r.result.Some? ==> r.submittedAt <= r.deadline)
    && (r.challenges != [] ==> r.challenges[0].postedAt <= r.submittedAt + w)
  }

  ghost predicate Timely(b: Book, w: int) {
    && b.params.challengeWindow == w >= 0
    && forall k :: k in b.requests ==> OnTime(b.height, w, b.requests[k])
  }

  predicate KeepsWindow(op: Op, w: int) {
    op.SetParams? ==> op.params.challengeWindow == w
  }

  lemma ChangeOnTime(b: Book, w: int, r: Request, r': Request, id: u64)
    requires RequestOk(b.services, r, id) && b.params.challengeWindow == w >= 0
    requires OnTime(b.height, w, r) && Change(b, r, r')
    ensures OnTime(b.height, w, r')
  {
  }

  lemma DueOnTime(b: Book, w: int, r: Request, id: u64)
    requires RequestOk(b.services, r, id) && b.params.challengeWindow == w >= 0
    requires OnTime(b.height - 1, w, r)
    ensures OnTime(b.height, w, Settled(r, Due(b, r), b.height))
  {
    hide ProviderWins;
  }

  lemma StepTimely(b: Book, op: Op, w: int)
    requires Core(b) && Room(b) && Timely(b, w) && KeepsWindow(op, w)
    ensures Timely(Step(b, op), w)
  {
    hide IdsOk, IndexOk, ServicesOk, RequestOk, OnTime, Change, Due, Settled, Apply, AddressOf, Room, IsValidAddress;
    if op.CommitBlock? {
      var b1 := b.(height := b.height + 1);
      forall k | k in b.requests ensures OnTime(b1.height, w, Tick(b).requests[k]) {
        assert RequestOk(b.services, b.requests[k], k);
        DueOnTime(b1, w, b.requests[k], k);
      }
    } else {
      var b' := Step(b, op);
      StepRecords(b, op);
      StepHeight(b, op);
      forall k | k in b'.requests ensures OnTime(b.height, w, b'.requests[k]) {
        if k in b.requests {
          assert RequestOk(b.services, b.requests[k], k);
          ChangeOnTime(b, w, b.requests[k], b'.requests[k], k);
        } else {
          OpenedOnTime(b, w, b'.requests[k], k);
        }
      }
    }
  }

  lemma OpenedOnTime(b: Book, w: int, r: Request, id: u64)
    requires Opened(b, r, id)
    ensures OnTime(b.height, w, r)
  {
  }

  /** Only a block advances the height, by one, and only `SetParams` changes the parameters. */
  lemma StepHeight(b: Book, op: Op)
    requires Room(b)
    ensures Step(b, op).height == b.height + (if op.CommitBlock? then 1 else 0)
    ensures Step(b, op).params == if op.SetParams? then op.params else b.params
  {
    hide Apply, AddressOf, IsValidAddress;
    if op.SubmitTx? && Submit(b, op.tx).Ok? {
      ApplyCounters(b, AddressOf(op.tx.signer), op.tx.payload.value);
    }
  }

  /** From a timely state, while the window keeps its value, every later state is timely. Any state
      without requests is timely, genesis among them. */
  lemma {:induction false} RunTimely(ops: seq<Op>, i: nat, j: nat, w: int)
    requires Bounded(ops) && i <= j <= |ops|
    requires Timely(StateAt(ops, i), w) && forall k :: i <= k < j ==> KeepsWindow(ops[k], w)
    ensures Timely(StateAt(ops, j), w)
    decreases j
  {
    hide Core, Room, Step, Run, RecordsStep, Timely, KeepsWindow;
    if i < j {
      RunTimely(ops, i, j - 1, w);
      StatesSound(ops, j - 1);
      StepTimely(StateAt(ops, j - 1), ops[j - 1], w);
    }
  }

  lemma GenesisTimely(ops: seq<Op>)
    ensures Timely(StateAt(ops, 0), DEFAULT_PARAMS.challengeWindow)
  {
  }

  /** A request is terminal once the height has passed its deadline, the challenge window and the
      resolution window together. */
  lemma EndedInTime(b: Book, w: int, id: u64)
    requires Core(b) && Timely(b, w) && id in b.requests
    requires b.height > b.requests[id].deadline + w + RESOLUTION_WINDOW
    ensures EndedIn(b, id)
  {
    hide IdsOk, IndexOk, ServicesOk;
    assert RequestOk(b.services, b.requests[id], id);
    assert OnTime(b.height, w, b.requests[id]);
  }

  /** Blocks committed in operations i..j. */
  ghost function Blocks(ops: seq<Op>, i: nat, j: nat): nat
    requires i <= j <= |ops|
    decreases j
  {
    if i == j then 0 else Blocks(ops, i, j - 1) + (if ops[j - 1].CommitBlock? then 1 else 0)
  }

  lemma {:induction false} HeightCountsBlocks(ops: seq<Op>, i: nat, j: nat)
    requires Bounded(ops) && i <= j <= |ops|
    ensures StateAt(ops, j).height == StateAt(ops, i).height + Blocks(ops, i, j)
    decreases j
  {
    hide Core, Room, Step, Run, RecordsStep;
    if i < j {
      HeightCountsBlocks(ops, i, j - 1);
      StatesSound(ops, j - 1);
      StepHeight(StateAt(ops, j - 1), ops[j - 1]);
    }
  }

  /** Progress: whatever else happens in between, enough blocks end every request. */
  lemma EnoughBlocksEnd(ops: seq<Op>, i: nat, j: nat, w: int, id: u64)
    requires Bounded(ops) && i <= j <= |ops| && id in StateAt(ops, i).requests
    requires Timely(StateAt(ops, i), w) && forall k :: i <= k < j ==> KeepsWindow(ops[k], w)
    requires StateAt(ops, i).height + Blocks(ops, i, j)
      > StateAt(ops, i).requests[id].deadline + w + RESOLUTION_WINDOW
    ensures EndedIn(StateAt(ops, j), id)
  {
    hide Core, Room, Step, Run, RecordsStep, Timely, KeepsWindow, EndedIn;
    RunTimely(ops, i, j, w);
    HeightCountsBlocks(ops, i, j);
    RunEvolves(ops, i, j);
    StatesSound(ops, j);
    assert Evolves(StateAt(ops, i).requests[id], StateAt(ops, j).requests[id]);
    EndedInTime(StateAt(ops, j), w, id);
  }

  /** The three late errors are unreachable while the window is fixed. */
  lemma NothingIsLate(b: Book, w: int, signer: Address, m: Msg)
    requires Core(b) && Timely(b, w)
    ensures m.SubmitResult? ==> Apply(b, signer, m) != Err(InvalidDeadline)
    ensures m.FileChallenge? ==> Apply(b, signer, m) != Err(ChallengeWindowClosed)
    ensures m.Vouch? ==> Apply(b, signer, m) != Err(VouchWindowClosed)
  {
    hide IdsOk, IndexOk, ServicesOk, Funds, Eligible, Attested;
    if (m.SubmitResult? || m.FileChallenge? || m.Vouch?) && m.requestId in b.requests {
      assert RequestOk(b.services, b.requests[m.requestId], m.requestId);
      assert OnTime(b.height, w, b.requests[m.requestId]);
    }
  }
}
