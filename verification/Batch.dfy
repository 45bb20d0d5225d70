/** A block's batch settlement has the effect of settling its requests one at a time, in whatever
    order. */
module Batch {
  import opened Types
  import opened Flows
  import opened Books
  import opened Machine

  /** One request settled by its own record; a request that is not due stays. */
  ghost function SettleOne(b: Book, id: u64): Book
    requires id in b.requests
  {
    b.(requests := b.requests[id := Settled(b.requests[id], Due(b, b.requests[id]), b.height)])
  }

  ghost function SettleInOrder(b: Book, ids: seq<u64>): Book
    requires forall id :: id in ids ==> id in b.requests
  {
    if ids == [] then b
    else
      var b' := SettleInOrder(b, ids[..|ids| - 1]);
      if ids[|ids| - 1] in b'.requests then SettleOne(b', ids[|ids| - 1]) else b'
  }

  /** What is due for a record depends on nothing a settlement writes, and a settled record is not
      due again. */
  lemma DueIsStable(b: Book, ids: set<u64>, r: Request)
    ensures Due(SettleSet(b, ids), r) == Due(b, r)
    ensures Due(b, Settled(r, Due(b, r), b.height)) in {Keep, Due(b, r)}
    ensures Settled(Settled(r, Due(b, r), b.height), Due(b, Settled(r, Due(b, r), b.height)), b.height)
         == Settled(r, Due(b, r), b.height)
  {
  }

  lemma SettleOneMore(b: Book, before: set<u64>, id: u64)
    requires id in b.requests
    ensures id in SettleSet(b, before).requests
    ensures SettleOne(SettleSet(b, before), id) == SettleSet(b, before + {id})
  {
    hide Due, Settled;
    var r := b.requests[id];
    DueIsStable(b, before, r);
    DueIsStable(b, before, Settled(r, Due(b, r), b.height));
    assert SettleOne(SettleSet(b, before), id).requests == SettleSet(b, before + {id}).requests;
  }

  /** Settling the requests of `ids` one after another is settling the set of them at once. */
  lemma {:induction false} InOrderIsSet(b: Book, ids: seq<u64>)
    requires forall id :: id in ids ==> id in b.requests
    ensures SettleInOrder(b, ids) == SettleSet(b, Ids(ids))
  {
    hide SettleOne, SettleSet;
    if ids == [] {
      assert Ids(ids) == {};
      SettleNone(b);
    } else {
      var rest, id := ids[..|ids| - 1], ids[|ids| - 1];
      assert ids == rest + [id];
      InOrderIsSet(b, rest);
      SettleOneMore(b, Ids(rest), id);
      assert Ids(ids) == Ids(rest) + {id};
    }
  }

  function Ids(ids: seq<u64>): set<u64> {
    set id | id in ids
  }

  lemma SettleNone(b: Book)
    ensures SettleSet(b, {}) == b
  {
    assert SettleSet(b, {}).requests == b.requests;
  }

  /** A block equals settling, after advancing the height, every request once in any order
      (repetitions change nothing). */
  lemma TickInAnyOrder(b: Book, ids: seq<u64>)
    requires forall id :: id in ids <==> id in b.requests
    ensures Tick(b) == SettleInOrder(b.(height := b.height + 1), ids)
  {
    hide Due, Settled;
    var b1 := b.(height := b.height + 1);
    InOrderIsSet(b1, ids);
    assert Ids(ids) == b1.requests.Keys;
  }

  /** No request's outcome depends on another record: a block on any subset of the requests does to
      them what the block on all of them does. */
  lemma OutcomeIsIndependent(b: Book, ids: set<u64>, id: u64)
    requires id in ids && id in b.requests
    ensures var part := b.(requests := map k | k in b.requests && k in ids :: b.requests[k]);
      Tick(part).requests[id] == Tick(b).requests[id]
  {
    hide Settled;
  }
}
