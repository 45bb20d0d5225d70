/** A signer's accepted transactions carry the nonces 0, 1, 2, ... in order, so no envelope is
    accepted twice. */
module Nonces {
  import opened Types
  import opened Addresses
  import opened Books
  import opened Machine
  import opened Reachable
  import opened Lifecycle

  /** Operation `k` is a transaction of account `a` that the chain accepts. */
  ghost predicate AcceptedAt(ops: seq<Op>, k: nat, a: Address)
    requires k < |ops|
  {
    ops[k].SubmitTx? && AddressOf(ops[k].tx.signer) == a && Submit(StateAt(ops, k), ops[k].tx).Ok?
  }

  /** The nonces of `a`'s accepted transactions among the first `n` operations, in order. */
  ghost function AcceptedNonces(ops: seq<Op>, n: nat, a: Address): seq<u64>
    requires n <= |ops|
  {
    if n == 0 then []
    else AcceptedNonces(ops, n - 1, a) + (if AcceptedAt(ops, n - 1, a) then [ops[n - 1].tx.nonce] else [])
  }

  /** An accepted transaction carries its signer's nonce and advances it alone. */
  lemma StepNonce(b: Book, op: Op, a: Address)
    requires Room(b)
    ensures var accepted := op.SubmitTx? && AddressOf(op.tx.signer) == a && Submit(b, op.tx).Ok?;
      && (accepted ==> op.tx.nonce == NonceOf(b.nonces, a))
      && NonceOf(Step(b, op).nonces, a) == if accepted then Wrap(NonceOf(b.nonces, a) + 1) else NonceOf(b.nonces, a)
  {
    hide Apply, AddressOf, IsValidAddress, Tick;
    if op.SubmitTx? && Submit(b, op.tx).Ok? {
      ApplyCounters(b, AddressOf(op.tx.signer), op.tx.payload.value);
    } else if op.CommitBlock? {
      TickKeepsNonces(b);
    }
  }

  lemma TickKeepsNonces(b: Book)
    ensures Tick(b).nonces == b.nonces
  {
  }

  /** The i-th accepted transaction of an account carries nonce i, and the stored nonce counts them. */
  lemma {:induction false} NoncesInOrder(ops: seq<Op>, n: nat, a: Address)
    requires Bounded(ops) && n <= |ops|
    ensures var ns := AcceptedNonces(ops, n, a);
      && |ns| <= n && NonceOf(StateAt(ops, n).nonces, a) == |ns|
      && forall i :: 0 <= i < |ns| ==> ns[i] == i
  {
    hide Core, Room, Step, RecordsStep, Submit, AddressOf;
    if n > 0 {
      NoncesInOrder(ops, n - 1, a);
      StatesSound(ops, n - 1);
      StepNonce(StateAt(ops, n - 1), ops[n - 1], a);
    }
  }

  lemma {:induction false} NonceNeverFalls(ops: seq<Op>, i: nat, j: nat, a: Address)
    requires Bounded(ops) && i <= j <= |ops|
    ensures |AcceptedNonces(ops, i, a)| <= |AcceptedNonces(ops, j, a)|
    decreases j
  {
    hide Core, Room, Step, RecordsStep, Submit, AddressOf;
    if i < j {
      NonceNeverFalls(ops, i, j - 1, a);
    }
  }

  /** No envelope is accepted twice: two accepted transactions of one account never share a nonce. */
  lemma NoReplay(ops: seq<Op>, i: nat, j: nat, a: Address)
    requires Bounded(ops) && i < j < |ops| && AcceptedAt(ops, i, a) && AcceptedAt(ops, j, a)
    ensures ops[i].tx.nonce < ops[j].tx.nonce
    ensures ops[i] != ops[j]
  {
    hide Core, Room, Step, RecordsStep, Submit, AddressOf;
    NoncesInOrder(ops, i, a);
    NoncesInOrder(ops, i + 1, a);
    NoncesInOrder(ops, j, a);
    NoncesInOrder(ops, j + 1, a);
    NonceNeverFalls(ops, i + 1, j, a);
    var ni, nj := AcceptedNonces(ops, i + 1, a), AcceptedNonces(ops, j + 1, a);
    assert ni[|ni| - 1] == ops[i].tx.nonce && nj[|nj| - 1] == ops[j].tx.nonce;
  }
}
